/** The notification (toast) store of `src/components/Toast.tsx`: an ordered list
    of toasts that `addToast` appends to and `removeToast` filters by id, with a
    provider timer scheduled per added toast. Timers are modelled as the list of
    scheduled removals; a timer firing is an explicit call. */
module Toasts {
  import opened Wrappers
  import opened Lists

  datatype ToastType = Success | Error | Info | Warning

  /** What a caller hands to `addToast`: a toast without its id. */
  datatype ToastInput = ToastInput(kind: ToastType, title: string,
                                   description: Option<string>, duration: Option<int>)

  datatype Toast = Toast(id: string, kind: ToastType, title: string,
                         description: Option<string>, duration: Option<int>)

  /** A provider timer: `removeToast(id)` is due after `delay` milliseconds. */
  datatype Timer = Timer(id: string, delay: int)

  /** The caller's fields of a stored toast. */
  function Fields(t: Toast): ToastInput {
    ToastInput(t.kind, t.title, t.description, t.duration)
  }

  /** `{ ...toast, id }`: the input's fields plus the generated id. */
  function WithId(input: ToastInput, id: string): (t: Toast)
    ensures t.id == id && Fields(t) == input
  {
    Toast(id, input.kind, input.title, input.description, input.duration)
  }

  /** `toast.duration || 5000`: a missing or zero duration means 5000 ms. */
  function AutoRemoveDelay(duration: Option<int>): (ms: int)
    ensures duration.None? || duration.value == 0 ==> ms == 5000
    ensures duration.Some? && duration.value != 0 ==> ms == duration.value
    ensures ms > 0 <==> duration.None? || duration.value >= 0
  {
    if duration.None? || duration.value == 0 then 5000 else duration.value
  }

  /** The filter predicate of `removeToast(id)`: keep toasts whose id differs. */
  function KeepUnless(id: string): Toast -> bool {
    (t: Toast) => t.id != id
  }

  /** `prev.filter(toast => toast.id !== id)`. */
  function Without(ts: seq<Toast>, id: string): (r: seq<Toast>)
    ensures forall t :: t in r <==> t in ts && t.id != id
    ensures IsSubsequence(r, ts)
  {
    Filter(ts, KeepUnless(id))
  }

  /** How many toasts carry `id`. */
  function CountId(ts: seq<Toast>, id: string): nat {
    if ts == [] then 0 else (if ts[0].id == id then 1 else 0) + CountId(ts[1..], id)
  }

  /** `removeToast(id)` deletes exactly the toasts carrying `id`: every one of them
      when ids collide, none when the id is unknown. */
  lemma {:induction false} WithoutRemovesEveryMatch(ts: seq<Toast>, id: string)
    ensures |Without(ts, id)| == |ts| - CountId(ts, id)
    ensures CountId(ts, id) == 0 ==> Without(ts, id) == ts
  {
    if ts != [] {
      WithoutRemovesEveryMatch(ts[1..], id);
    }
  }

  /** Removing an id twice (provider timer, then the item's own timer or its close
      button) leaves the same list as removing it once. */
  lemma RemoveIdempotent(ts: seq<Toast>, id: string)
    ensures Without(Without(ts, id), id) == Without(ts, id)
  {
    FilterIdempotent(ts, KeepUnless(id));
  }

  /** Removals of two ids may happen in either order. */
  lemma RemovalsCommute(ts: seq<Toast>, a: string, b: string)
    ensures Without(Without(ts, a), b) == Without(Without(ts, b), a)
  {
    FilterCommutes(ts, KeepUnless(a), KeepUnless(b));
  }

  /** Adding a toast under an unused id and then removing that id restores the list. */
  lemma AddThenRemove(ts: seq<Toast>, input: ToastInput, id: string)
    requires forall t :: t in ts ==> t.id != id
    ensures Without(ts + [WithId(input, id)], id) == ts
  {
    FilterAppend(ts, WithId(input, id), KeepUnless(id));
    FilterKeepsAll(ts, KeepUnless(id));
  }

  /** `toast.success/error/info/warning(title, description)`: an input of that type
      with no duration, so it lives for the default 5000 ms. */
  function ToastOf(kind: ToastType, title: string, description: Option<string>): (r: ToastInput)
    ensures r.kind == kind && r.title == title && r.description == description
    ensures AutoRemoveDelay(r.duration) == 5000
  {
    ToastInput(kind, title, description, None)
  }

  /** The provider: its toast list and the provider timers still to fire. */
  class ToastStore {
    var toasts: seq<Toast>
    var timers: seq<Timer>

    /** Every toast on screen has a provider timer still to fire for its id,
        so it will be removed even if nobody dismisses it. */
    ghost predicate Valid()
      reads this
    {
      forall t :: t in toasts ==> exists tm :: tm in timers && tm.id == t.id
    }

    constructor ()
      ensures Valid() && toasts == [] && timers == []
    {
      toasts := [];
      timers := [];
    }

    /** `addToast`: append the toast under `freshId` (the model's stand-in for the
        random id) and schedule its removal. */
    method Add(input: ToastInput, freshId: string)
      requires Valid()
      modifies this
      ensures Valid()
      ensures toasts == old(toasts) + [WithId(input, freshId)]
      ensures timers == old(timers) + [Timer(freshId, AutoRemoveDelay(input.duration))]
    {
      toasts := toasts + [WithId(input, freshId)];
      timers := timers + [Timer(freshId, AutoRemoveDelay(input.duration))];
      assert Timer(freshId, AutoRemoveDelay(input.duration)) in timers;
    }

    /** `removeToast(id)`, as called by the item's timer and its close button. */
    method Remove(id: string)
      requires Valid()
      modifies this`toasts
      ensures Valid()
      ensures toasts == Without(old(toasts), id)
    {
      toasts := Without(toasts, id);
    }

    /** The provider timer at position `k` fires: it calls `removeToast` once and
        is gone. */
    method FireTimer(k: nat)
      requires Valid() && k < |timers|
      modifies this
      ensures Valid()
      ensures toasts == Without(old(toasts), old(timers)[k].id)
      ensures timers == old(timers)[..k] + old(timers)[k + 1..]
    {
      var fired := timers[k];
      toasts := Without(toasts, fired.id);
      timers := timers[..k] + timers[k + 1..];
      forall t | t in toasts ensures exists tm :: tm in timers && tm.id == t.id {
        var tm :| tm in old(timers) && tm.id == t.id;
        var j :| 0 <= j < |old(timers)| && old(timers)[j] == tm;
        assert j != k;
        if j < k {
          assert timers[j] == tm;
        } else {
          assert timers[j - 1] == tm;
        }
      }
    }

    /** `useToast().toasts`, read by the container to render. */
    method List() returns (r: seq<Toast>)
      ensures r == toasts
    {
      r := toasts;
    }
  }

  /** `useToast()`: the provider's context, or the error thrown outside a provider. */
  function UseToast(provider: Option<ToastStore>): (r: Result<ToastStore, string>)
    ensures r.Failure? <==> provider.None?
    ensures r.Success? ==> r.value == provider.value
    ensures r.Failure? ==> r.error == "useToast must be used within a ToastProvider"
  {
    match provider
    case None => Failure("useToast must be used within a ToastProvider")
    case Some(store) => Wrappers.Success(store)
  }
}
