/** The form controls of `src/components/FormFields.tsx` (Input, TextArea, Select,
    Checkbox): how each derives its element id, the ids of its error and help
    paragraphs, its ARIA attributes and which paragraphs it renders. */
module FormFields {
  import opened Wrappers
  import opened Text

  /** A react-hook-form field error; present errors are objects, hence truthy. */
  datatype FieldError = FieldError(message: Option<string>)

  /** The props the controls' logic reads; `undefined` is `None`. */
  datatype FieldProps = FieldProps(id: Option<string>, fieldLabel: Option<string>,
                                   error: Option<FieldError>, helpText: Option<string>)

  /** A string prop is truthy when present and non-empty. */
  predicate Truthy(s: Option<string>) {
    s.Some? && s.value != ""
  }

  /** `id || label?.toLowerCase().replace(/\s+/g, '-')`: a truthy `id` wins;
      otherwise the label's slug (an empty label gives the empty id); with
      neither, no id. */
  function InputId(id: Option<string>, fieldLabel: Option<string>): (r: Option<string>)
    ensures Truthy(id) ==> r == id
    ensures !Truthy(id) && fieldLabel.Some? ==> r == Some(Slug(fieldLabel.value, "-"))
    ensures r.None? <==> !Truthy(id) && fieldLabel.None?
  {
    if Truthy(id) then id
    else if fieldLabel.Some? then Some(Slug(fieldLabel.value, "-"))
    else None
  }

  /** A derived id never contains white space unless the caller's own id does. */
  lemma DerivedIdHasNoSpace(id: Option<string>, fieldLabel: Option<string>)
    requires !Truthy(id) && fieldLabel.Some?
    ensures NoSpace(InputId(id, fieldLabel).value) && AllLower(InputId(id, fieldLabel).value)
  {
    assert NoSpace("-") && AllLower("-");
  }

  /** A value as a template literal prints it: an absent id prints "undefined". */
  function Interpolate(s: Option<string>): (r: string)
    ensures s.Some? ==> r == s.value
    ensures s.None? ==> r == "undefined"
  {
    if s.Some? then s.value else "undefined"
  }

  /** `errorId`: `${inputId}-error` iff there is an error. */
  function ErrorId(p: FieldProps): (r: Option<string>)
    ensures r.Some? <==> p.error.Some?
    ensures r.Some? ==> r.value == Interpolate(InputId(p.id, p.fieldLabel)) + "-error"
  {
    if p.error.Some? then Some(Interpolate(InputId(p.id, p.fieldLabel)) + "-error") else None
  }

  /** `helpId`: `${inputId}-help` iff the help text is truthy. */
  function HelpId(p: FieldProps): (r: Option<string>)
    ensures r.Some? <==> Truthy(p.helpText)
    ensures r.Some? ==> r.value == Interpolate(InputId(p.id, p.fieldLabel)) + "-help"
  {
    if Truthy(p.helpText) then Some(Interpolate(InputId(p.id, p.fieldLabel)) + "-help") else None
  }

  /** The error and help paragraphs of one control never share an id. */
  lemma ErrorAndHelpIdsDiffer(p: FieldProps)
    requires p.error.Some? && Truthy(p.helpText)
    ensures ErrorId(p).value != HelpId(p).value
  {
    var base := Interpolate(InputId(p.id, p.fieldLabel));
    var e := base + "-error";
    var h := base + "-help";
    assert |e| == |base| + 6 && |h| == |base| + 5;
  }

  /** Without an id and a label, the error paragraph's id is "undefined-error". */
  lemma UnlabelledErrorId(p: FieldProps)
    requires !Truthy(p.id) && p.fieldLabel.None? && p.error.Some?
    ensures ErrorId(p) == Some("undefined-error")
  {
    assert "undefined" + "-error" == "undefined-error";
  }

  /** `aria-invalid`: 'true' iff there is an error. */
  function AriaInvalid(p: FieldProps): (r: string)
    ensures r == "true" <==> p.error.Some?
    ensures r == "false" <==> p.error.None?
  {
    if p.error.Some? then "true" else "false"
  }

  /** The error paragraph renders whenever there is an error. */
  predicate ShowsError(p: FieldProps) {
    p.error.Some?
  }

  /** The help paragraph renders only with truthy help text and no error. */
  predicate ShowsHelp(p: FieldProps) {
    Truthy(p.helpText) && p.error.None?
  }

  /** The error and the help text are never both on screen, and with truthy
      help text exactly one of them is. */
  lemma ErrorReplacesHelp(p: FieldProps)
    ensures !(ShowsError(p) && ShowsHelp(p))
    ensures Truthy(p.helpText) ==> (ShowsError(p) <==> !ShowsHelp(p))
  {
  }

  /** The ids of the paragraphs actually rendered. */
  function RenderedIds(p: FieldProps): (r: set<string>)
    ensures ShowsError(p) ==> ErrorId(p).value in r
    ensures ShowsHelp(p) ==> HelpId(p).value in r
    ensures forall x :: x in r ==> (ShowsError(p) && x == ErrorId(p).value) || (ShowsHelp(p) && x == HelpId(p).value)
  {
    (if ShowsError(p) then {ErrorId(p).value} else {}) +
    (if ShowsHelp(p) then {HelpId(p).value} else {})
  }

  /** `aria-describedby={cn(errorId, helpId)}` as written: the ids passed to `cn`
      that are present, error first. */
  function DescribedByAsWritten(p: FieldProps): (r: seq<string>)
    ensures ErrorId(p).Some? ==> |r| > 0 && r[0] == ErrorId(p).value
    ensures HelpId(p).Some? ==> |r| > 0 && r[|r| - 1] == HelpId(p).value
    ensures forall id :: id in r <==> ErrorId(p) == Some(id) || HelpId(p) == Some(id)
  {
    (if ErrorId(p).Some? then [ErrorId(p).value] else []) +
    (if HelpId(p).Some? then [HelpId(p).value] else [])
  }

  /** With an error and help text, the attribute as written names the help
      paragraph, which is not rendered: the reference dangles. */
  lemma DescribedByDangles()
    ensures var p := FieldProps(Some("email"), None, Some(FieldError(Some("Required"))), Some("We never share it"));
      "email-help" in DescribedByAsWritten(p) && "email-help" !in RenderedIds(p)
  {
    var p := FieldProps(Some("email"), None, Some(FieldError(Some("Required"))), Some("We never share it"));
    assert "email" + "-help" == "email-help";
    assert "email" + "-error" == "email-error";
    assert HelpId(p) == Some("email-help");
    assert RenderedIds(p) == {"email-error"};
  }

  /** `aria-describedby` naming only paragraphs that are rendered: the error
      paragraph, or else the help paragraph. */
  function DescribedBy(p: FieldProps): (r: seq<string>)
    ensures |r| <= 1
    ensures forall id :: id in r ==> id in RenderedIds(p)
    ensures ShowsError(p) ==> r == [ErrorId(p).value]
    ensures ShowsHelp(p) ==> r == [HelpId(p).value]
  {
    if ShowsError(p) then [ErrorId(p).value]
    else if ShowsHelp(p) then [HelpId(p).value]
    else []
  }

  /** Every rendered paragraph is named by the corrected attribute. */
  lemma DescribedByNamesEveryParagraph(p: FieldProps)
    ensures forall id :: id in RenderedIds(p) ==> id in DescribedBy(p)
  {
  }

  /** `<label>` renders for Input, TextArea and Select only with a truthy label. */
  predicate ShowsLabel(fieldLabel: Option<string>) {
    Truthy(fieldLabel)
  }

  /** A rendered label's `htmlFor` always names a non-empty id: the caller's
      truthy id, or else the slug of the (non-empty) label. */
  lemma LabelTargetsInput(id: Option<string>, fieldLabel: Option<string>)
    requires ShowsLabel(fieldLabel)
    ensures InputId(id, fieldLabel).Some? && InputId(id, fieldLabel).value != ""
  {
    if !Truthy(id) {
      ReplaceSpaceRunsNonEmpty(ToLower(fieldLabel.value), "-");
    }
  }

  /** A Select option. */
  datatype SelectOption = SelectOption(value: string, text: string)

  /** The options a Select renders: the empty-valued prompt, then the given
      options in order. */
  function SelectOptions(options: seq<SelectOption>): (r: seq<SelectOption>)
    ensures |r| == |options| + 1
    ensures r[0] == SelectOption("", "Select an option")
    ensures r[1..] == options
  {
    [SelectOption("", "Select an option")] + options
  }

  /** A TextArea's rows: 4 when the prop is undefined; any given value is kept. */
  function Rows(rows: Option<int>): (r: int)
    ensures rows.None? ==> r == 4
    ensures rows.Some? ==> r == rows.value
  {
    rows.GetOr(4)
  }

  /** A Checkbox's label is required, so it always has an id. */
  function CheckboxId(id: Option<string>, checkboxLabel: string): (r: string)
    ensures Truthy(id) ==> r == id.value
    ensures !Truthy(id) ==> r == Slug(checkboxLabel, "-")
  {
    InputId(id, Some(checkboxLabel)).value
  }
}
