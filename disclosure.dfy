/** The single-open-key disclosure rule shared by the FAQ accordion and the
    mobile navigation: `setOpen(open === k ? null : k)`. One nullable key means
    at most one item is open at any time. */
module Disclosure {
  import opened Wrappers

  /** Clicking item `k`: closes it when it is the open one, otherwise opens it
      (and thereby closes whichever item was open). */
  function Toggle<K(==)>(open: Option<K>, k: K): (r: Option<K>)
    ensures r == None <==> open == Some(k)
    ensures open != Some(k) ==> r == Some(k)
  {
    if open == Some(k) then None else Some(k)
  }

  /** After a click on `k`, no item other than `k` is open. */
  lemma ToggleClosesOthers<K>(open: Option<K>, k: K, j: K)
    requires j != k
    ensures Toggle(open, k) != Some(j)
  {
  }

  /** Clicking the same item twice restores the previous state exactly when
      nothing, or that very item, was open; when another item was open, the
      two clicks leave everything closed. */
  lemma ToggleTwice<K>(open: Option<K>, k: K)
    ensures Toggle(Toggle(open, k), k) == open <==> open.None? || open == Some(k)
    ensures open.Some? && open != Some(k) ==> Toggle(Toggle(open, k), k).None?
  {
  }

  /** The state after a series of clicks, in order. */
  function ToggleAll<K(==)>(open: Option<K>, clicks: seq<K>): Option<K>
    decreases |clicks|
  {
    if clicks == [] then open else ToggleAll(Toggle(open, clicks[0]), clicks[1..])
  }

  /** After at least one click, the open item, if any, is the last one clicked. */
  lemma {:induction false} OpenIsLastClicked<K>(open: Option<K>, clicks: seq<K>)
    requires clicks != []
    ensures ToggleAll(open, clicks).None? || ToggleAll(open, clicks) == Some(clicks[|clicks| - 1])
    decreases |clicks|
  {
    if |clicks| > 1 {
      OpenIsLastClicked(Toggle(open, clicks[0]), clicks[1..]);
    }
  }
}
