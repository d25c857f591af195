/** The FAQ accordion (`src/components/FAQ.tsx`): one state cell `openIndex`
    overwritten by `toggleItem`. */
module Faq {
  import opened Wrappers
  import opened Disclosure

  class Accordion {
    /** `openIndex`: the open item, null when all are closed. */
    var openIndex: Option<int>

    /** On mount no item is open. */
    constructor ()
      ensures openIndex == None
    {
      openIndex := None;
    }

    /** `toggleItem(index)`. */
    method ToggleItem(index: int)
      modifies this
      ensures openIndex == Toggle(old(openIndex), index)
    {
      if openIndex == Some(index) {
        openIndex := None;
      } else {
        openIndex := Some(index);
      }
    }

    /** `aria-expanded` of item `index`'s button; the answer is rendered under
        the same condition. */
    function AriaExpanded(index: int): (r: bool)
      reads this
      ensures r <==> openIndex == Some(index)
    {
      openIndex == Some(index)
    }
  }

  /** At most one answer is expanded: two different items are never both
      expanded. */
  lemma AtMostOneExpanded(a: Accordion, i: int, j: int)
    requires i != j
    ensures !(a.AriaExpanded(i) && a.AriaExpanded(j))
  {
  }
}
