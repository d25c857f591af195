/** The mobile navigation panel (`src/components/MobileNav.tsx`): one state cell
    `expandedSection` shared by the Products group and its four product
    sections, and click handlers that log, navigate and close the panel. The
    handlers' effects are appended to a trace. */
module MobileNav {
  import opened Wrappers
  import opened Text
  import opened Effects
  import opened Disclosure

  /** A product section of the Products group: its id and its links' labels. */
  datatype Section = Section(id: string, labels: seq<string>)

  /** The four product sections; their ids are distinct and none of them is
      the Products group's own key. */
  function ProductSections(): (r: seq<Section>)
    ensures |r| == 4
    ensures forall i, j :: 0 <= i < j < |r| ==> r[i].id != r[j].id
    ensures forall s :: s in r ==> s.id != "products" && |s.labels| >= 1
  {
    [ Section("lms", ["Learning Management System"]),
      Section("automation", ["Workflow Automation", "Data Capture & OCR", "Integrations"]),
      Section("ai", ["Chatbots", "Document AI"]),
      Section("analytics", ["Business Intelligence"]) ]
  }

  /** The link labels the Products group renders while `expanded` is the
      expanded key: nothing unless the group itself is expanded; then each
      section's links while that section is expanded, and "View all products"
      (logged as 'All Products'). */
  function ProductLinks(expanded: Option<string>, sections: seq<Section>): (r: seq<string>)
    ensures expanded != Some("products") ==> r == []
    ensures expanded == Some("products") ==> |r| >= 1 && r[|r| - 1] == "All Products"
    ensures expanded == Some("products") ==> r == SectionLinks(expanded, sections) + ["All Products"]
  {
    if expanded != Some("products") then []
    else SectionLinks(expanded, sections) + ["All Products"]
  }

  /** The links of the sections in `sections` that are expanded under `expanded`. */
  function SectionLinks(expanded: Option<string>, sections: seq<Section>): (r: seq<string>)
    ensures (forall s :: s in sections ==> expanded != Some(s.id)) ==> r == []
    ensures forall s, l :: s in sections && expanded == Some(s.id) && l in s.labels ==> l in r
    ensures forall l :: l in r ==> exists s :: s in sections && expanded == Some(s.id) && l in s.labels
    decreases |sections|
  {
    if sections == [] then []
    else
      var head := if expanded == Some(sections[0].id) then sections[0].labels else [];
      var rest := SectionLinks(expanded, sections[1..]);
      assert forall s :: s in sections ==> s == sections[0] || s in sections[1..];
      head + rest
  }

  /** With distinct section ids, the key selects at most one section, and the
      list is exactly that section's links, in their order. */
  lemma {:induction false} SectionLinksOfOne(expanded: Option<string>, sections: seq<Section>, k: nat)
    requires k < |sections| && expanded == Some(sections[k].id)
    requires forall i, j :: 0 <= i < j < |sections| ==> sections[i].id != sections[j].id
    ensures SectionLinks(expanded, sections) == sections[k].labels
    decreases |sections|
  {
    var rest := sections[1..];
    if k == 0 {
      assert forall s :: s in rest ==> expanded != Some(s.id) by {
        forall s | s in rest ensures expanded != Some(s.id) {
          var j :| 0 <= j < |rest| && rest[j] == s;
          assert sections[j + 1] == s;
        }
      }
      assert SectionLinks(expanded, rest) == [];
      assert sections[0].labels + [] == sections[0].labels;
    } else {
      assert sections[0].id != sections[k].id;
      assert rest[k - 1] == sections[k];
      SectionLinksOfOne(expanded, rest, k - 1);
      assert [] + sections[k].labels == sections[k].labels;
    }
  }

  /** A section's own links are never on screen: they render only while the key
      is that section's id, and the whole group renders only while the key is
      'products'. So on the page only "View all products" is ever listed. */
  lemma SectionLinksNeverShown(expanded: Option<string>)
    ensures ProductLinks(expanded, ProductSections()) == [] ||
            ProductLinks(expanded, ProductSections()) == ["All Products"]
  {
    if expanded == Some("products") {
      assert forall s :: s in ProductSections() ==> s.id != "products";
    }
  }

  class Panel {
    /** `expandedSection`: the expanded key, null when all are collapsed. */
    var expandedSection: Option<string>
    /** What the handlers have done so far, in order. */
    var effects: seq<Effect>

    constructor ()
      ensures expandedSection == None && effects == []
    {
      expandedSection := None;
      effects := [];
    }

    /** `toggleSection(section)`. */
    method ToggleSection(section: string)
      modifies this`expandedSection
      ensures expandedSection == Toggle(old(expandedSection), section)
    {
      if expandedSection == Some(section) {
        expandedSection := None;
      } else {
        expandedSection := Some(section);
      }
    }

    /** `aria-expanded` of the toggle button for `key`. */
    function AriaExpanded(key: string): (r: bool)
      reads this
      ensures r <==> expandedSection == Some(key)
    {
      expandedSection == Some(key)
    }

    /** `handleLinkClick(href, label)`: log `mobile_nav_` plus the label's slug
        from 'mobile_nav', then close the panel (the link itself navigates). */
    method HandleLinkClick(href: string, linkLabel: string)
      modifies this`effects
      ensures effects == old(effects) + [ButtonClick(LinkEventName(linkLabel), Some("mobile_nav")), Close]
    {
      effects := effects + [ButtonClick("mobile_nav_" + Slug(linkLabel, "_"), Some("mobile_nav"))];
      effects := effects + [Close];
    }

    /** `handleDemoClick()`: log `get_demo`, open the demo form, close the panel. */
    method HandleDemoClick()
      modifies this`effects
      ensures effects == old(effects) +
        [ButtonClick("get_demo", Some("mobile_nav")), Navigate("/contact?type=demo"), Close]
    {
      effects := effects + [ButtonClick("get_demo", Some("mobile_nav"))];
      effects := effects + [Navigate("/contact?type=demo")];
      effects := effects + [Close];
    }
  }

  /** The event a link click logs: `mobile_nav_` then the label lower-cased with
      each run of white space replaced by `_`. */
  function LinkEventName(linkLabel: string): (r: string)
    ensures |r| >= 11 && r[..11] == "mobile_nav_" && r[11..] == Slug(linkLabel, "_")
    ensures NoSpace(r)
  {
    var s := Slug(linkLabel, "_");
    var r := "mobile_nav_" + s;
    assert r[11..] == s;
    assert NoSpace("mobile_nav_");
    assert forall i :: 11 <= i < |r| ==> r[i] == s[i - 11];
    r
  }

  /** Expanding a product section from the open Products group replaces the
      'products' key, so the group, and with it the section just expanded,
      disappears. */
  lemma ExpandingSectionCollapsesGroup(section: Section)
    requires section in ProductSections()
    ensures Toggle(Some("products"), section.id) == Some(section.id)
    ensures ProductLinks(Toggle(Some("products"), section.id), ProductSections()) == []
  {
  }
}
