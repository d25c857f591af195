/** The in-memory analytics log of `src/lib/analytics.ts`: two append-only logs
    and an enable flag, plus wrappers that build fixed event names and property
    maps. The clock (`new Date()`) is a `now` parameter; console output and the
    unimplemented network senders are left out. */
module Analytics {
  import opened Wrappers

  /** A property value: a string, or a key present with the value `undefined`. */
  datatype Value = Undefined | Text(text: string)

  type Props = map<string, Value>

  datatype Event = Event(name: string, properties: Option<Props>, timestamp: int)

  datatype PageView = PageView(path: string, title: string, referrer: Option<string>, timestamp: int)

  /** The calls the analytics object accepts (the convenience wrappers reduce to `Track`). */
  datatype Call =
    | Init
    | Track(name: string, properties: Option<Props>)
    | Page(path: string, title: string, referrer: Option<string>)
    | Clear
    | Enable
    | Disable

  /** A call together with the time at which it is made. */
  datatype Stamped = Stamped(call: Call, at: int)

  datatype State = State(events: seq<Event>, pageViews: seq<PageView>, isEnabled: bool)

  /** An optional string as a property value (`undefined` when absent). */
  function ValueOf(s: Option<string>): Value {
    match s
    case Some(v) => Text(v)
    case None => Undefined
  }

  /** The effect of one call on the analytics state: `init` and `enable` switch
      recording on, `disable` off, and nothing else touches the flag; `clear`
      empties both logs; otherwise a log only grows, by at most one entry, and
      only while recording is on. */
  function Step(s: State, c: Call, now: int): (r: State)
    ensures r.isEnabled <==> c.Init? || c.Enable? || (s.isEnabled && !c.Disable?)
    ensures c.Clear? ==> r.events == [] && r.pageViews == []
    ensures !c.Clear? ==> s.events <= r.events && |r.events| <= |s.events| + 1
    ensures !c.Clear? ==> s.pageViews <= r.pageViews && |r.pageViews| <= |s.pageViews| + 1
    ensures !c.Track? && !c.Clear? ==> r.events == s.events
    ensures !c.Page? && !c.Clear? ==> r.pageViews == s.pageViews
    ensures !s.isEnabled && !c.Clear? ==> r.events == s.events && r.pageViews == s.pageViews
  {
    match c
    case Init => s.(isEnabled := true)
    case Track(name, properties) =>
      if s.isEnabled then s.(events := s.events + [Event(name, properties, now)]) else s
    case Page(path, title, referrer) =>
      if s.isEnabled then s.(pageViews := s.pageViews + [PageView(path, title, referrer, now)]) else s
    case Clear => s.(events := [], pageViews := [])
    case Enable => s.(isEnabled := true)
    case Disable => s.(isEnabled := false)
  }

  /** The effect of a sequence of calls, in order. */
  function Run(s: State, calls: seq<Stamped>): State
    decreases |calls|
  {
    if calls == [] then s else Run(Step(s, calls[0].call, calls[0].at), calls[1..])
  }

  /** The events that the `Track` calls among `calls` produce, in call order. */
  function TrackedEvents(calls: seq<Stamped>): seq<Event>
    decreases |calls|
  {
    if calls == [] then []
    else
      (if calls[0].call.Track? then [Event(calls[0].call.name, calls[0].call.properties, calls[0].at)] else []) +
      TrackedEvents(calls[1..])
  }

  /** `track` appends exactly one event with the given name and properties when
      enabled, and nothing when disabled; it touches nothing else. */
  lemma TrackAppendsOne(s: State, name: string, properties: Option<Props>, now: int)
    ensures var r := Step(s, Track(name, properties), now);
      r.pageViews == s.pageViews && r.isEnabled == s.isEnabled &&
      (s.isEnabled ==> r.events == s.events + [Event(name, properties, now)]) &&
      (!s.isEnabled ==> r.events == s.events)
  {
  }

  /** `page` appends exactly one page view when enabled, and nothing when disabled. */
  lemma PageAppendsOne(s: State, path: string, title: string, referrer: Option<string>, now: int)
    ensures var r := Step(s, Page(path, title, referrer), now);
      r.events == s.events && r.isEnabled == s.isEnabled &&
      (s.isEnabled ==> r.pageViews == s.pageViews + [PageView(path, title, referrer, now)]) &&
      (!s.isEnabled ==> r.pageViews == s.pageViews)
  {
  }

  /** While disabled, nothing but `enable`, `init` or `clear` changes the logs,
      and nothing but `enable` or `init` re-enables recording. */
  lemma {:induction false} DisabledFreezesLogs(s: State, calls: seq<Stamped>)
    requires !s.isEnabled
    requires forall k :: 0 <= k < |calls| ==> !calls[k].call.Init? && !calls[k].call.Enable? && !calls[k].call.Clear?
    ensures Run(s, calls) == s
    decreases |calls|
  {
    if calls != [] {
      DisabledFreezesLogs(Step(s, calls[0].call, calls[0].at), calls[1..]);
    }
  }

  /** Without `clear`, both logs only grow at their ends: what was recorded stays,
      in place and in order. */
  lemma {:induction false} LogsAppendOnly(s: State, calls: seq<Stamped>)
    requires forall k :: 0 <= k < |calls| ==> !calls[k].call.Clear?
    ensures s.events <= Run(s, calls).events
    ensures s.pageViews <= Run(s, calls).pageViews
    decreases |calls|
  {
    if calls != [] {
      var s' := Step(s, calls[0].call, calls[0].at);
      LogsAppendOnly(s', calls[1..]);
    }
  }

  /** While enabled and never disabled or cleared, the events log is the old log
      followed by one event per `track` call, in call order. */
  lemma {:induction false} EnabledRecordsEveryTrack(s: State, calls: seq<Stamped>)
    requires s.isEnabled
    requires forall k :: 0 <= k < |calls| ==> !calls[k].call.Disable? && !calls[k].call.Clear?
    ensures Run(s, calls).events == s.events + TrackedEvents(calls)
    decreases |calls|
  {
    if calls != [] {
      var c := calls[0];
      var first := if c.call.Track? then [Event(c.call.name, c.call.properties, c.at)] else [];
      var s' := Step(s, c.call, c.at);
      assert s'.isEnabled && s'.events == s.events + first;
      assert forall k :: 0 <= k < |calls[1..]| ==> calls[1..][k] == calls[k + 1];
      EnabledRecordsEveryTrack(s', calls[1..]);
      assert TrackedEvents(calls) == first + TrackedEvents(calls[1..]);
      assert s.events + first + TrackedEvents(calls[1..]) == s.events + (first + TrackedEvents(calls[1..]));
    }
  }

  /** `formSubmit(formName, formData)`: `form_submit` with `form_name` overlaid by
      the form data, so a `form_name` key in the data wins. */
  function FormSubmitCall(formName: string, formData: Option<Props>): (c: Call)
    ensures c.Track? && c.name == "form_submit" && c.properties.Some?
    ensures c.properties.value.Keys == {"form_name"} + formData.GetOr(map[]).Keys
    ensures forall k :: k in formData.GetOr(map[]) ==> c.properties.value[k] == formData.GetOr(map[])[k]
    ensures "form_name" !in formData.GetOr(map[]) ==> c.properties.value["form_name"] == Text(formName)
  {
    Track("form_submit", Some(map["form_name" := Text(formName)] + formData.GetOr(map[])))
  }

  /** `buttonClick(buttonName, location)`: `button_click` with both keys, the
      location `undefined` when not given. */
  function ButtonClickCall(buttonName: string, location: Option<string>): (c: Call)
    ensures c.Track? && c.name == "button_click" && c.properties.Some?
    ensures c.properties.value.Keys == {"button_name", "location"}
    ensures c.properties.value["button_name"] == Text(buttonName)
    ensures location.Some? ==> c.properties.value["location"] == Text(location.value)
    ensures location.None? ==> c.properties.value["location"] == Undefined
  {
    Track("button_click", Some(map["button_name" := Text(buttonName), "location" := ValueOf(location)]))
  }

  /** `navigate(from, to)`: `navigate` with keys `from` and `to`. */
  function NavigateCall(from: string, to: string): (c: Call)
    ensures c.Track? && c.name == "navigate" && c.properties.Some?
    ensures c.properties.value.Keys == {"from", "to"}
    ensures c.properties.value["from"] == Text(from) && c.properties.value["to"] == Text(to)
  {
    Track("navigate", Some(map["from" := Text(from), "to" := Text(to)]))
  }

  /** `demoRequest(source)`: `demo_request` with the single key `source`. */
  function DemoRequestCall(source: Option<string>): (c: Call)
    ensures c.Track? && c.name == "demo_request" && c.properties.Some?
    ensures c.properties.value.Keys == {"source"}
    ensures source.Some? ==> c.properties.value["source"] == Text(source.value)
    ensures source.None? ==> c.properties.value["source"] == Undefined
  {
    Track("demo_request", Some(map["source" := ValueOf(source)]))
  }

  /** `contactSubmit(interestType)`: `contact_submit` with the single key `interest_type`. */
  function ContactSubmitCall(interestType: Option<string>): (c: Call)
    ensures c.Track? && c.name == "contact_submit" && c.properties.Some?
    ensures c.properties.value.Keys == {"interest_type"}
    ensures interestType.Some? ==> c.properties.value["interest_type"] == Text(interestType.value)
    ensures interestType.None? ==> c.properties.value["interest_type"] == Undefined
  {
    Track("contact_submit", Some(map["interest_type" := ValueOf(interestType)]))
  }

  /** `productView(productName)`: `product_view` with the single key `product_name`. */
  function ProductViewCall(productName: string): (c: Call)
    ensures c.Track? && c.name == "product_view" && c.properties.Some?
    ensures c.properties.value.Keys == {"product_name"}
    ensures c.properties.value["product_name"] == Text(productName)
  {
    Track("product_view", Some(map["product_name" := Text(productName)]))
  }

  /** The analytics singleton. */
  class Analytics {
    var events: seq<Event>
    var pageViews: seq<PageView>
    var isEnabled: bool

    function Current(): State
      reads this
    {
      State(events, pageViews, isEnabled)
    }

    constructor ()
      ensures Current() == State([], [], true)
    {
      events := [];
      pageViews := [];
      isEnabled := true;
    }

    /** `init(config)`: turns recording on; the logs are untouched. */
    method Init()
      modifies this
      ensures Current() == Step(old(Current()), Call.Init, 0)
      ensures isEnabled && events == old(events) && pageViews == old(pageViews)
    {
      isEnabled := true;
    }

    method Track(name: string, properties: Option<Props>, now: int)
      modifies this
      ensures Current() == Step(old(Current()), Call.Track(name, properties), now)
    {
      if !isEnabled {
        return;
      }
      events := events + [Event(name, properties, now)];
    }

    method Page(path: string, title: string, referrer: Option<string>, now: int)
      modifies this
      ensures Current() == Step(old(Current()), Call.Page(path, title, referrer), now)
    {
      if !isEnabled {
        return;
      }
      pageViews := pageViews + [PageView(path, title, referrer, now)];
    }

    method FormSubmit(formName: string, formData: Option<Props>, now: int)
      modifies this
      ensures Current() == Step(old(Current()), FormSubmitCall(formName, formData), now)
    {
      Track("form_submit", Some(map["form_name" := Text(formName)] + formData.GetOr(map[])), now);
    }

    method ButtonClick(buttonName: string, location: Option<string>, now: int)
      modifies this
      ensures Current() == Step(old(Current()), ButtonClickCall(buttonName, location), now)
    {
      Track("button_click", Some(map["button_name" := Text(buttonName), "location" := ValueOf(location)]), now);
    }

    method Navigate(from: string, to: string, now: int)
      modifies this
      ensures Current() == Step(old(Current()), NavigateCall(from, to), now)
    {
      Track("navigate", Some(map["from" := Text(from), "to" := Text(to)]), now);
    }

    method DemoRequest(source: Option<string>, now: int)
      modifies this
      ensures Current() == Step(old(Current()), DemoRequestCall(source), now)
    {
      Track("demo_request", Some(map["source" := ValueOf(source)]), now);
    }

    method ContactSubmit(interestType: Option<string>, now: int)
      modifies this
      ensures Current() == Step(old(Current()), ContactSubmitCall(interestType), now)
    {
      Track("contact_submit", Some(map["interest_type" := ValueOf(interestType)]), now);
    }

    method ProductView(productName: string, now: int)
      modifies this
      ensures Current() == Step(old(Current()), ProductViewCall(productName), now)
    {
      Track("product_view", Some(map["product_name" := Text(productName)]), now);
    }

    /** `getEvents()`: the log as stored. */
    method GetEvents() returns (r: seq<Event>)
      ensures r == events
    {
      r := events;
    }

    /** `getPageViews()`: the log as stored. */
    method GetPageViews() returns (r: seq<PageView>)
      ensures r == pageViews
    {
      r := pageViews;
    }

    /** `clear()`: both logs emptied, the flag unchanged. */
    method Clear()
      modifies this
      ensures Current() == Step(old(Current()), Call.Clear, 0)
      ensures events == [] && pageViews == [] && isEnabled == old(isEnabled)
    {
      events := [];
      pageViews := [];
    }

    method Disable()
      modifies this
      ensures Current() == Step(old(Current()), Call.Disable, 0)
    {
      isEnabled := false;
    }

    method Enable()
      modifies this
      ensures Current() == Step(old(Current()), Call.Enable, 0)
    {
      isEnabled := true;
    }
  }
}
