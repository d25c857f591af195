/** The document head as `seo.ts` and `schema.ts` see it: a sequence of
    elements, each found by a key (a `<meta name>`, a `<meta property>`, a
    `<link rel>`, or an element id). Lookups return the first match in document
    order, as `querySelector` and `getElementById` do. */
module Head {
  import opened Wrappers
  import opened Lists

  datatype Key = MetaName(name: string) | MetaProperty(property: string) | LinkRel(rel: string) | ElementId(id: string)

  /** An element: its key, its content (`content`, `href` or text) and, for a
      script, its `type`. */
  datatype Element = Element(key: Key, content: string, scriptType: Option<string>)

  /** The position of the first element with `key`. */
  function FindFirst(head: seq<Element>, key: Key): (r: Option<nat>)
    ensures r.Some? ==> r.value < |head| && head[r.value].key == key
    ensures r.Some? ==> forall j :: 0 <= j < r.value ==> head[j].key != key
    ensures r.None? <==> forall j :: 0 <= j < |head| ==> head[j].key != key
  {
    if head == [] then None
    else if head[0].key == key then Some(0)
    else
      match FindFirst(head[1..], key)
      case None => None
      case Some(i) => Some(i + 1)
  }

  /** The first element with `key` is at `i` when it has that key and no
      earlier element does. */
  lemma FindFirstAt(head: seq<Element>, key: Key, i: nat)
    requires i < |head| && head[i].key == key
    requires forall j :: 0 <= j < i ==> head[j].key != key
    ensures FindFirst(head, key) == Some(i)
  {
  }

  /** The content of the first element with `key`, if any. */
  function ContentOf(head: seq<Element>, key: Key): Option<string> {
    match FindFirst(head, key)
    case None => None
    case Some(i) => Some(head[i].content)
  }

  /** No two elements share a key. */
  predicate UniqueKeys(head: seq<Element>) {
    forall i, j :: 0 <= i < j < |head| ==> head[i].key != head[j].key
  }

  /** The keys present. */
  function Keys(head: seq<Element>): set<Key> {
    set e | e in head :: e.key
  }

  /** Find-or-create, then set the content: the first element with `key` gets
      `content` in place; without one, a new element is appended. */
  function Upserted(head: seq<Element>, key: Key, content: string): (r: seq<Element>)
    ensures FindFirst(head, key).Some? ==> |r| == |head|
    ensures FindFirst(head, key).None? ==> r == head + [Element(key, content, None)]
    ensures ContentOf(r, key) == Some(content)
    ensures forall i :: 0 <= i < |head| && head[i].key != key ==> r[i] == head[i]
    ensures forall i :: 0 <= i < |r| ==> r[i].key == if i < |head| then head[i].key else key
  {
    match FindFirst(head, key)
    case Some(i) =>
      var r := head[i := head[i].(content := content)];
      FindFirstAt(r, key, i);
      r
    case None =>
      var r := head + [Element(key, content, None)];
      FindFirstAt(r, key, |head|);
      r
  }

  /** An existing element is updated in place: it keeps its key and script
      type and only its content changes; every other element, including later
      ones with the same key, stays as it was. */
  lemma UpsertInPlace(head: seq<Element>, key: Key, content: string)
    requires FindFirst(head, key).Some?
    ensures var i := FindFirst(head, key).value; var r := Upserted(head, key, content);
      r[i] == head[i].(content := content) &&
      forall j :: 0 <= j < |head| && j != i ==> r[j] == head[j]
  {
  }

  /** Find-or-create adds `key` to the keys present and no other. */
  lemma UpsertKeys(head: seq<Element>, key: Key, content: string)
    ensures Keys(Upserted(head, key, content)) == Keys(head) + {key}
  {
    var r := Upserted(head, key, content);
    forall e | e in head ensures e.key in Keys(r) {
      var j :| 0 <= j < |head| && head[j] == e;
      assert r[j].key == e.key;
    }
    forall e | e in r ensures e.key in Keys(head) + {key} {
      var j :| 0 <= j < |r| && r[j] == e;
      if j < |head| { assert head[j].key == e.key; }
    }
    var i := FindFirst(r, key).value;
    assert r[i] in r;
  }

  /** Setting a key to the content it already has changes nothing. */
  lemma UpsertUnchanged(head: seq<Element>, key: Key, content: string)
    requires ContentOf(head, key) == Some(content)
    ensures Upserted(head, key, content) == head
  {
    var i := FindFirst(head, key).value;
    assert head[i := head[i].(content := content)] == head;
  }

  /** Setting a key twice to the same content is setting it once. */
  lemma UpsertIdempotent(head: seq<Element>, key: Key, content: string)
    ensures Upserted(Upserted(head, key, content), key, content) == Upserted(head, key, content)
  {
    UpsertUnchanged(Upserted(head, key, content), key, content);
  }

  /** Setting one key leaves what every other key reads unchanged. */
  lemma UpsertOtherContent(head: seq<Element>, key: Key, content: string, other: Key)
    requires other != key
    ensures ContentOf(Upserted(head, key, content), other) == ContentOf(head, other)
  {
    var r := Upserted(head, key, content);
    match FindFirst(head, other)
    case Some(i) =>
      assert r[i] == head[i];
      assert FindFirst(r, other) == Some(i);
    case None =>
      forall j | 0 <= j < |r| ensures r[j].key != other {
      }
  }

  /** Find-or-create never adds a second element for a key: a head without
      repeated keys keeps that property. */
  lemma UpsertKeepsUnique(head: seq<Element>, key: Key, content: string)
    requires UniqueKeys(head)
    ensures UniqueKeys(Upserted(head, key, content))
  {
    var r := Upserted(head, key, content);
    if FindFirst(head, key).Some? {
      var k := FindFirst(head, key).value;
      forall i, j | 0 <= i < j < |r| ensures r[i].key != r[j].key {
        assert r[i].key == head[i].key && r[j].key == head[j].key;
      }
    } else {
      forall i, j | 0 <= i < j < |r| ensures r[i].key != r[j].key {
        if j == |head| {
          assert r[i] == head[i];
        }
      }
    }
  }

  /** Remove the first element with `key`, if there is one. */
  function Removed(head: seq<Element>, key: Key): (r: seq<Element>)
    ensures FindFirst(head, key).None? ==> r == head
    ensures FindFirst(head, key).Some? ==>
      var i := FindFirst(head, key).value; r == head[..i] + head[i + 1..]
    ensures |r| <= |head|
  {
    match FindFirst(head, key)
    case None => head
    case Some(i) => head[..i] + head[i + 1..]
  }

  /** Removing from a head without repeated keys leaves no element with that key,
      and keeps the property. */
  lemma RemovedLeavesNone(head: seq<Element>, key: Key)
    requires UniqueKeys(head)
    ensures UniqueKeys(Removed(head, key))
    ensures FindFirst(Removed(head, key), key).None?
  {
    if FindFirst(head, key).Some? {
      var i := FindFirst(head, key).value;
      var r := Removed(head, key);
      forall j | 0 <= j < |r| ensures r[j].key != key {
        if j < i { assert r[j] == head[j]; } else { assert r[j] == head[j + 1]; }
      }
      forall a, b | 0 <= a < b < |r| ensures r[a].key != r[b].key {
        var a' := if a < i then a else a + 1;
        var b' := if b < i then b else b + 1;
        assert r[a] == head[a'] && r[b] == head[b'];
      }
    }
  }

  /** The predicate keeping every element whose key differs from `key`. */
  function OtherThan(key: Key): Element -> bool {
    (e: Element) => e.key != key
  }

  /** Removing an element with `key` keeps every other element, in order. */
  lemma RemovedKeepsOthers(head: seq<Element>, key: Key)
    ensures Filter(Removed(head, key), OtherThan(key)) == Filter(head, OtherThan(key))
  {
    if FindFirst(head, key).Some? {
      var i := FindFirst(head, key).value;
      var p := OtherThan(key);
      var a, b := head[..i], head[i + 1..];
      assert head == a + ([head[i]] + b);
      assert Filter([head[i]], p) == [] by {
        assert !p(head[i]);
      }
      FilterConcat([head[i]], b, p);
      FilterConcat(a, [head[i]] + b, p);
      FilterConcat(a, b, p);
    }
  }

  /** One find-or-create update. */
  datatype Update = Update(key: Key, content: string)

  /** The keys of a list of updates are pairwise distinct. */
  predicate DistinctKeys(ups: seq<Update>) {
    forall i, j :: 0 <= i < j < |ups| ==> ups[i].key != ups[j].key
  }

  /** The head after performing `ups` in order. */
  function ApplyAll(head: seq<Element>, ups: seq<Update>): seq<Element>
    decreases |ups|
  {
    if ups == [] then head
    else
      var last := ups[|ups| - 1];
      Upserted(ApplyAll(head, ups[..|ups| - 1]), last.key, last.content)
  }

  /** Performing the first `n + 1` updates is performing the first `n`, then update `n`. */
  lemma ApplyAllStep(head: seq<Element>, ups: seq<Update>, n: nat)
    requires n < |ups|
    ensures ApplyAll(head, ups[..n + 1]) == Upserted(ApplyAll(head, ups[..n]), ups[n].key, ups[n].content)
  {
    assert ups[..n + 1][..n] == ups[..n];
  }

  /** One more update with a fresh key keeps what the earlier ones set. */
  lemma UpsertKeepsEarlier(h: seq<Element>, init: seq<Update>, last: Update)
    requires forall u :: u in init ==> ContentOf(h, u.key) == Some(u.content)
    requires forall u :: u in init ==> u.key != last.key
    ensures forall u :: u in init + [last] ==>
              ContentOf(Upserted(h, last.key, last.content), u.key) == Some(u.content)
  {
    forall u | u in init
      ensures ContentOf(Upserted(h, last.key, last.content), u.key) == Some(u.content)
    {
      UpsertOtherContent(h, last.key, last.content, u.key);
    }
  }

  /** After updates with distinct keys, every key reads the content its update set. */
  lemma {:induction false} ApplyAllContent(head: seq<Element>, ups: seq<Update>)
    requires DistinctKeys(ups)
    ensures forall u :: u in ups ==> ContentOf(ApplyAll(head, ups), u.key) == Some(u.content)
    decreases |ups|
  {
    if ups != [] {
      var n := |ups| - 1;
      var init, last := ups[..n], ups[n];
      assert ups == init + [last];
      assert DistinctKeys(init);
      ApplyAllContent(head, init);
      assert forall u :: u in init ==> u.key != last.key by {
        forall u | u in init ensures u.key != last.key {
          var j :| 0 <= j < n && init[j] == u;
          assert ups[j] == u;
        }
      }
      UpsertKeepsEarlier(ApplyAll(head, init), init, last);
    }
  }

  /** Updates that set what the head already holds change nothing. */
  lemma {:induction false} ApplyAllUnchanged(head: seq<Element>, ups: seq<Update>)
    requires forall u :: u in ups ==> ContentOf(head, u.key) == Some(u.content)
    ensures ApplyAll(head, ups) == head
    decreases |ups|
  {
    if ups != [] {
      var n := |ups| - 1;
      assert forall u :: u in ups[..n] ==> u in ups;
      ApplyAllUnchanged(head, ups[..n]);
      UpsertUnchanged(head, ups[n].key, ups[n].content);
    }
  }

  /** Performing the same updates twice is performing them once. */
  lemma ApplyAllIdempotent(head: seq<Element>, ups: seq<Update>)
    requires DistinctKeys(ups)
    ensures ApplyAll(ApplyAll(head, ups), ups) == ApplyAll(head, ups)
  {
    ApplyAllContent(head, ups);
    ApplyAllUnchanged(ApplyAll(head, ups), ups);
  }

  /** Updates never give a key a second element. */
  lemma {:induction false} ApplyAllKeepsUnique(head: seq<Element>, ups: seq<Update>)
    requires UniqueKeys(head)
    ensures UniqueKeys(ApplyAll(head, ups))
    decreases |ups|
  {
    if ups != [] {
      var n := |ups| - 1;
      ApplyAllKeepsUnique(head, ups[..n]);
      UpsertKeepsUnique(ApplyAll(head, ups[..n]), ups[n].key, ups[n].content);
    }
  }

  /** The document: its head elements and `document.title`. */
  class Document {
    var head: seq<Element>
    var title: string

    constructor (head0: seq<Element>, title0: string)
      ensures head == head0 && title == title0
    {
      head := head0;
      title := title0;
    }

    /** The lookup: the position of the first element with `key`, or `|head|`
        when there is none. */
    method Find(key: Key) returns (i: nat)
      ensures i <= |head|
      ensures i < |head| <==> FindFirst(head, key).Some?
      ensures i < |head| ==> FindFirst(head, key) == Some(i)
    {
      i := 0;
      while i < |head| && head[i].key != key
        invariant i <= |head|
        invariant forall j :: 0 <= j < i ==> head[j].key != key
      {
        i := i + 1;
      }
    }

    /** `updateMetaTag`/`updateMetaProperty`/`updateMetaName`/`updateLinkTag`:
        find the element for `key` or create and append one, then set its
        content. */
    method Upsert(key: Key, content: string)
      modifies this`head
      ensures head == Upserted(old(head), key, content)
    {
      var i := Find(key);
      if i < |head| {
        head := head[i := head[i].(content := content)];
      } else {
        head := head + [Element(key, content, None)];
      }
    }

    /** `getElementById(id)?.remove()` and its selector equivalents: remove the
        first element with `key`, if any. */
    method Remove(key: Key)
      modifies this`head
      ensures head == Removed(old(head), key)
    {
      var i := Find(key);
      if i < |head| {
        head := head[..i] + head[i + 1..];
      }
    }

    /** `document.head.appendChild(e)`. */
    method Append(e: Element)
      modifies this`head
      ensures head == old(head) + [e]
    {
      head := head + [e];
    }
  }
}
