/** The derived views of the careers page (`src/routes/Careers.tsx`): the
    department buttons, the department filter, the apply handler and the
    "first three, then +N more" truncation of each position's lists. */
module Careers {
  import opened Wrappers
  import opened Lists
  import opened Text
  import opened Effects

  /** The fields of an open position that the page's logic reads. */
  datatype Position = Position(id: int, title: string, department: string,
                               requirements: seq<string>, responsibilities: seq<string>)

  /** The five open positions, given each position's requirements and
      responsibilities by id. */
  function OpenPositions(requirements: int -> seq<string>, responsibilities: int -> seq<string>): (r: seq<Position>)
    ensures |r| == 5
    ensures forall i :: 0 <= i < 5 ==>
              r[i].id == i + 1 && r[i].requirements == requirements(i + 1) &&
              r[i].responsibilities == responsibilities(i + 1)
  {
    [ Position(1, "Senior Full-Stack Developer", "Engineering", requirements(1), responsibilities(1)),
      Position(2, "Product Designer", "Design", requirements(2), responsibilities(2)),
      Position(3, "Customer Success Manager", "Customer Success", requirements(3), responsibilities(3)),
      Position(4, "Marketing Manager", "Marketing", requirements(4), responsibilities(4)),
      Position(5, "DevOps Engineer", "Engineering", requirements(5), responsibilities(5)) ]
  }

  /** `openPositions.map(p => p.department)`. */
  function DepartmentOf(positions: seq<Position>): (r: seq<string>)
    ensures |r| == |positions| && forall i :: 0 <= i < |positions| ==> r[i] == positions[i].department
  {
    seq(|positions|, i requires 0 <= i < |positions| => positions[i].department)
  }

  /** `[...new Set(departments)]`: each department once, in order of first appearance. */
  function Departments(positions: seq<Position>): (r: seq<string>)
    ensures forall d :: d in r <==> exists p :: p in positions && p.department == d
    ensures NoDuplicates(r)
  {
    var ds := DepartmentOf(positions);
    assert forall d :: d in ds <==> exists p :: p in positions && p.department == d by {
      forall d ensures d in ds <==> exists p :: p in positions && p.department == d {
        if d in ds {
          var i :| 0 <= i < |ds| && ds[i] == d;
          assert positions[i] in positions;
        }
        if exists p :: p in positions && p.department == d {
          var p :| p in positions && p.department == d;
          var i :| 0 <= i < |positions| && positions[i] == p;
          assert ds[i] == d;
        }
      }
    }
    Dedup(ds)
  }

  /** The department buttons follow the first appearance of each department. */
  lemma DepartmentsInFirstAppearanceOrder(positions: seq<Position>)
    ensures var r := Departments(positions); var ds := DepartmentOf(positions);
      forall i, j :: 0 <= i < j < |r| ==> IndexOf(ds, r[i]) < IndexOf(ds, r[j])
  {
    DedupFirstOccurrenceOrder(DepartmentOf(positions));
  }

  /** The page's department buttons: Engineering (listed twice among the positions)
      appears once, in its first place. */
  lemma PageDepartments(requirements: int -> seq<string>, responsibilities: int -> seq<string>)
    ensures Departments(OpenPositions(requirements, responsibilities)) ==
      ["Engineering", "Design", "Customer Success", "Marketing"]
  {
    var ds := DepartmentOf(OpenPositions(requirements, responsibilities));
    var first := ["Engineering", "Design", "Customer Success", "Marketing"];
    assert ds == first + ["Engineering"];
    assert NoDuplicates(first);
    DedupOfDistinct(first);
    DedupSnoc(first, "Engineering");
  }

  function InDepartment(d: string): Position -> bool {
    (p: Position) => p.department == d
  }

  /** `filteredPositions`: with a (truthy) department selected, the positions of
      that department in their original order; otherwise every position. */
  function FilteredPositions(positions: seq<Position>, selected: Option<string>): (r: seq<Position>)
    ensures IsSubsequence(r, positions)
    ensures selected.Some? && selected.value != "" ==>
      forall p :: p in r <==> p in positions && p.department == selected.value
    ensures !(selected.Some? && selected.value != "") ==> r == positions
  {
    if selected.Some? && selected.value != "" then Filter(positions, InDepartment(selected.value))
    else
      assert IsSubsequence(positions, positions) by { SubsequenceRefl(positions); }
      positions
  }

  /** Each department button selects at least one position, so while the buttons
      come from the list itself the "No positions" message never appears. */
  lemma ListedDepartmentIsInhabited(positions: seq<Position>, d: string)
    requires d in Departments(positions)
    ensures d != "" ==> |FilteredPositions(positions, Some(d))| > 0
    ensures d != "" ==> !ShowNoPositions(FilteredPositions(positions, Some(d)))
  {
    var p :| p in positions && p.department == d;
    if d != "" {
      assert p in FilteredPositions(positions, Some(d));
    }
  }

  /** The "No positions in this department" message is shown iff the list is empty. */
  predicate ShowNoPositions(filtered: seq<Position>) {
    |filtered| == 0
  }

  /** The "No positions" message shows exactly when no position passes the
      filter: a truthy department that no position belongs to, or no positions
      at all. */
  lemma NoPositionsMessageIff(positions: seq<Position>, selected: Option<string>)
    ensures ShowNoPositions(FilteredPositions(positions, selected)) <==>
      forall p :: p in positions ==> selected.Some? && selected.value != "" && p.department != selected.value
  {
    var r := FilteredPositions(positions, selected);
    if |r| != 0 {
      assert r[0] in r;
    }
  }

  /** `apply_` followed by the title lower-cased with each run of white space
      replaced by `_`. */
  function ApplyEventName(title: string): (r: string)
    ensures |r| >= 6 && r[..6] == "apply_"
    ensures r[6..] == Slug(title, "_")
    ensures NoSpace(r) && AllLower(r[6..])
  {
    var s := Slug(title, "_");
    assert NoSpace("apply_");
    var r := "apply_" + s;
    assert r[6..] == s;
    assert forall i :: 6 <= i < |r| ==> r[i] == s[i - 6];
    r
  }

  /** The applicant's position as a route query value; `encode` stands for
      `encodeURIComponent`. */
  function ApplyTarget(title: string, encode: string -> string): (r: string)
    ensures r == "/contact?type=application&position=" + encode(title)
  {
    "/contact?type=application&position=" + encode(title)
  }

  /** `handleApply(title)`: log the apply click from 'careers', then navigate to
      the application form for that position. */
  function HandleApply(title: string, encode: string -> string): (r: seq<Effect>)
    ensures |r| == 2
    ensures r[0] == ButtonClick(ApplyEventName(title), Some("careers"))
    ensures r[1].Navigate? && r[1].to == ApplyTarget(title, encode)
  {
    [ButtonClick(ApplyEventName(title), Some("careers")), Navigate(ApplyTarget(title, encode))]
  }

  /** Two titles that differ only in letter case log the same apply event. */
  lemma ApplyEventIgnoresCase(title: string)
    ensures ApplyEventName(ToLower(title)) == ApplyEventName(title)
  {
    ToLowerIdempotent(title);
  }

  /** `items.slice(0, 3)`: the items shown. */
  function Shown(items: seq<string>): (r: seq<string>)
    ensures |r| <= 3 && r <= items
    ensures |items| <= 3 ==> r == items
    ensures |items| > 3 ==> |r| == 3
  {
    if |items| <= 3 then items else items[..3]
  }

  /** The "+N more" line: present iff there are more than three items, and then
      `N = items.length - 3`. */
  function MoreCount(items: seq<string>): (r: Option<nat>)
    ensures r.Some? <==> |items| > 3
    ensures r.Some? ==> r.value == |items| - 3
  {
    if |items| > 3 then Some(|items| - 3) else None
  }

  /** The shown items and the "+N more" count account for every item exactly once. */
  lemma ShownPlusMoreIsAll(items: seq<string>)
    ensures |Shown(items)| + MoreCount(items).GetOr(0) == |items|
    ensures Shown(items) + items[|Shown(items)|..] == items
  {
  }
}
