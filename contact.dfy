/** The contact form (`src/routes/Contact.tsx`): the schema's per-field rules and
    messages, the interest options and the `type=demo` preset, and the submit
    sequence that records analytics, shows a toast, flips `isSubmitted` and
    resets the form. The mock network call becomes a `settled` flag, the email
    check an `isEmail` oracle. */
module Contact {
  import opened Wrappers
  import opened Toasts
  import Analytics
  import opened Lists
  import opened FormFields

  datatype ContactData = ContactData(name: string, email: string, company: string,
                                     interest: string, message: string)

  /** The schema's fields, in schema order. */
  datatype Field = Name | Email | Company | Interest | Message

  function SchemaFields(): seq<Field> {
    [Name, Email, Company, Interest, Message]
  }

  /** The message shown under a field that breaks its rule. */
  function MessageOf(f: Field): string {
    match f
    case Name => "Name must be at least 2 characters"
    case Email => "Please enter a valid email address"
    case Company => "Company name must be at least 2 characters"
    case Interest => "Please select your area of interest"
    case Message => "Message must be at least 10 characters"
  }

  /** Field `f` of `d` breaks its rule: a minimum length of 2 for the name and the
      company, 1 for the interest and 10 for the message, and a well-formed email. */
  predicate Fails(d: ContactData, isEmail: string -> bool, f: Field) {
    match f
    case Name => |d.name| < 2
    case Email => !isEmail(d.email)
    case Company => |d.company| < 2
    case Interest => |d.interest| < 1
    case Message => |d.message| < 10
  }

  function Failing(d: ContactData, isEmail: string -> bool): Field -> bool {
    (f: Field) => Fails(d, isEmail, f)
  }

  /** The schema's rules hold for `d`. */
  predicate Valid(d: ContactData, isEmail: string -> bool) {
    |d.name| >= 2 && isEmail(d.email) && |d.company| >= 2 && |d.interest| >= 1 && |d.message| >= 10
  }

  /** Every rule is a lower bound: lengthening fields (with the same email) never
      makes a passing field fail, so only a too-short field can fail. */
  lemma RulesAreMinimums(d: ContactData, e: ContactData, isEmail: string -> bool, f: Field)
    requires d.email == e.email
    requires |d.name| <= |e.name| && |d.company| <= |e.company|
    requires |d.interest| <= |e.interest| && |d.message| <= |e.message|
    ensures Fails(e, isEmail, f) ==> Fails(d, isEmail, f)
  {
  }

  /** Every field of the schema is listed. */
  lemma AllFieldsListed(f: Field)
    ensures f in SchemaFields()
  {
    match f
    case Name => assert SchemaFields()[0] == f;
    case Email => assert SchemaFields()[1] == f;
    case Company => assert SchemaFields()[2] == f;
    case Interest => assert SchemaFields()[3] == f;
    case Message => assert SchemaFields()[4] == f;
  }

  /** The data is valid iff no field fails its rule. */
  lemma ValidIffNoFieldFails(d: ContactData, isEmail: string -> bool)
    ensures Valid(d, isEmail) <==> forall f :: !Fails(d, isEmail, f)
  {
    if !Valid(d, isEmail) {
      var f :=
        if |d.name| < 2 then Name
        else if !isEmail(d.email) then Email
        else if |d.company| < 2 then Company
        else if |d.interest| < 1 then Interest
        else Message;
      assert Fails(d, isEmail, f);
    }
  }

  /** `contactSchema` applied to the form's values: the data when every rule
      holds, otherwise every failing field (each shown with `MessageOf`), in
      schema order. */
  function Validate(d: ContactData, isEmail: string -> bool): (r: Result<ContactData, seq<Field>>)
    ensures r.Success? <==> Valid(d, isEmail)
    ensures r.Success? ==> r.value == d
    ensures r.Failure? ==> |r.error| >= 1 && IsSubsequence(r.error, SchemaFields())
    ensures r.Failure? ==> forall f :: f in r.error <==> Fails(d, isEmail, f)
  {
    var issues := Filter(SchemaFields(), Failing(d, isEmail));
    ValidIffNoFieldFails(d, isEmail);
    assert forall f :: f in issues <==> Fails(d, isEmail, f) by {
      forall f ensures f in issues <==> Fails(d, isEmail, f) {
        AllFieldsListed(f);
      }
    }
    if issues == [] then Wrappers.Success(d) else Failure(issues)
  }

  /** The options of the interest Select. */
  function InterestOptions(): seq<SelectOption> {
    [ SelectOption("demo", "Request a Demo"),
      SelectOption("lms", "Learning Management System"),
      SelectOption("automation", "Workflow Automation"),
      SelectOption("ai", "AI & Analytics"),
      SelectOption("pricing", "Pricing Information"),
      SelectOption("partnership", "Partnership Opportunities"),
      SelectOption("support", "Technical Support"),
      SelectOption("other", "Other") ]
  }

  /** Eight interest options, each with a non-empty value and no value twice,
      and the 'demo' preset among them. */
  lemma InterestOptionsWellFormed()
    ensures |InterestOptions()| == 8
    ensures forall o :: o in InterestOptions() ==> o.value != ""
    ensures forall i, j :: 0 <= i < j < 8 ==> InterestOptions()[i].value != InterestOptions()[j].value
    ensures exists o :: o in InterestOptions() && Some(o.value) == PresetInterest(Some("demo"))
  {
    var opts := InterestOptions();
    assert Some(opts[0].value) == PresetInterest(Some("demo"));
    forall i, j | 0 <= i < j < 8 ensures opts[i].value != opts[j].value {
      if |opts[i].value| == |opts[j].value| {
        assert opts[i].value[0] != opts[j].value[0];
      }
    }
  }

  /** Choosing any listed interest satisfies the interest rule, while leaving the
      Select on its "Select an option" prompt violates it. */
  lemma InterestOptionsSatisfyRule(d: ContactData, isEmail: string -> bool)
    ensures (exists o :: o in InterestOptions() && o.value == d.interest) ==> !Fails(d, isEmail, Interest)
    ensures d.interest == SelectOptions(InterestOptions())[0].value ==> Fails(d, isEmail, Interest)
  {
  }

  /** The `type` query parameter presets the interest to 'demo' when it is
      'demo', and leaves the form alone otherwise. */
  function PresetInterest(queryType: Option<string>): (r: Option<string>)
    ensures r.Some? <==> queryType == Some("demo")
    ensures r.Some? ==> r.value == "demo"
  {
    if queryType == Some("demo") then Some("demo") else None
  }

  const SentTitle: string := "Message sent successfully!"
  const SentDescription: string := "We'll get back to you within 24 hours."
  const FailedTitle: string := "Failed to send message"
  const FailedDescription: string := "Please try again or contact us directly at hello@semtex.co.za"

  /** The toast shown after a successful submission: a success toast whose
      description is given twice, to the same text. */
  function SentToast(): (r: ToastInput)
    ensures r.kind == ToastType.Success && r.title == SentTitle && r.description == Some(SentDescription)
    ensures AutoRemoveDelay(r.duration) == 5000
  {
    var t := ToastOf(ToastType.Success, SentTitle, Some(SentDescription));
    t.(description := Some(SentDescription))
  }

  /** The toast shown when the submission fails. */
  function FailedToast(): (r: ToastInput)
    ensures r.kind == ToastType.Error && r.title == FailedTitle && r.description == Some(FailedDescription)
    ensures AutoRemoveDelay(r.duration) == 5000
  {
    ToastInput(ToastType.Error, FailedTitle, Some(FailedDescription), None)
  }

  /** The contact page's form state. */
  class ContactForm {
    /** The thank-you panel replaces the form while this is true. */
    var isSubmitted: bool
    /** The values the form holds, by field name; an unset field is absent. */
    var values: map<string, string>

    /** On mount: nothing submitted, and the interest preset from the query. */
    constructor (queryType: Option<string>)
      ensures !isSubmitted
      ensures PresetInterest(queryType).Some? ==> values == map["interest" := "demo"]
      ensures PresetInterest(queryType).None? ==> values == map[]
    {
      isSubmitted := false;
      if queryType == Some("demo") {
        values := map["interest" := "demo"];
      } else {
        values := map[];
      }
    }

    /** `handleSubmit(onSubmit)`: validate; on issues, show them and do nothing
        else; otherwise run `onSubmit`, whose network call settles (`settled`)
        or throws. On success: record `contact_submit` with the interest, add
        the success toast, set `isSubmitted`, reset the values. On failure: add
        the error toast only. */
    method HandleSubmit(d: ContactData, isEmail: string -> bool, settled: bool,
                        toastId: string, now: int,
                        toasts: ToastStore, analytics: Analytics.Analytics)
      returns (issues: seq<Field>)
      requires toasts.Valid()
      modifies this, toasts, analytics
      ensures toasts.Valid()
      ensures Validate(d, isEmail).Failure? ==>
        issues == Validate(d, isEmail).error &&
        toasts.toasts == old(toasts.toasts) && toasts.timers == old(toasts.timers) &&
        analytics.Current() == old(analytics.Current()) &&
        isSubmitted == old(isSubmitted) && values == old(values)
      ensures Validate(d, isEmail).Success? ==> issues == []
      ensures Validate(d, isEmail).Success? && settled ==>
        analytics.Current() ==
          Analytics.Step(old(analytics.Current()), Analytics.ContactSubmitCall(Some(d.interest)), now) &&
        toasts.toasts == old(toasts.toasts) + [WithId(SentToast(), toastId)] &&
        toasts.timers == old(toasts.timers) + [Timer(toastId, AutoRemoveDelay(SentToast().duration))] &&
        isSubmitted && values == map[]
      ensures Validate(d, isEmail).Success? && !settled ==>
        analytics.Current() == old(analytics.Current()) &&
        toasts.toasts == old(toasts.toasts) + [WithId(FailedToast(), toastId)] &&
        toasts.timers == old(toasts.timers) + [Timer(toastId, AutoRemoveDelay(FailedToast().duration))] &&
        isSubmitted == old(isSubmitted) && values == old(values)
    {
      var checked := Validate(d, isEmail);
      if checked.Failure? {
        issues := checked.error;
        return;
      }
      issues := [];
      if settled {
        analytics.ContactSubmit(Some(d.interest), now);
        toasts.Add(SentToast(), toastId);
        isSubmitted := true;
        values := map[];
      } else {
        toasts.Add(FailedToast(), toastId);
      }
    }

    /** "Send Another Message". */
    method SendAnother()
      modifies this`isSubmitted
      ensures !isSubmitted
    {
      isSubmitted := false;
    }
  }
}
