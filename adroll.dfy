/**
 * The AdRoll integration (lib/index.js): the window globals it shares with
 * the vendor script, and the operations initialize, loaded, identify, page
 * and track.
 */
module Adapter {
  import opened Payload
  import opened Segments

  /**
   * The integration's options: advertiser id, pixel id, schema version and
   * the lookup from an event name to the segment ids the `events` mapping
   * holds for it.
   */
  datatype Options = Options(advId: string, pixId: string, version: int, events: string -> seq<string>)

  /** A track call as the facade presents it: the event name and its aliased properties. */
  datatype TrackCall = TrackCall(event: string, properties: seq<Property>)

  /** The segment ids one track call dispatches under `options`. */
  function SegmentsOf(options: Options, snake: string -> string, call: TrackCall): (segments: seq<string>) {
    Resolve(options.version, call.event, options.events(call.event), snake)
  }

  /**
   * The payloads `record_user` receives for one track call, as snapshots.
   * Their number and segment ids follow the mapping and the version; all
   * other fields are the base payload's.
   */
  function TrackCalls(options: Options, snake: string -> string, call: TrackCall, userId: Option<string>): (calls: seq<Payload>)
    ensures var mapped := options.events(call.event);
      options.version != 1 ==>
        |calls| == |mapped| && forall i :: 0 <= i < |calls| ==>
          SegmentsKey in calls[i] && calls[i][SegmentsKey] == Str(mapped[i])
    ensures var mapped := options.events(call.event);
      options.version == 1 && mapped == [] ==>
        |calls| == 1 && SegmentsKey in calls[0] && calls[0][SegmentsKey] == Str(snake(call.event))
    ensures var mapped := options.events(call.event);
      options.version == 1 && mapped != [] ==>
        |calls| == |mapped| && forall i :: 0 <= i < |calls| ==>
          SegmentsKey in calls[i] && calls[i][SegmentsKey] == Str(snake(mapped[i]))
    ensures forall i :: 0 <= i < |calls| ==>
      calls[i] - {SegmentsKey} == BasePayload(snake, call.properties, userId) - {SegmentsKey}
  {
    Dispatch(BasePayload(snake, call.properties, userId), SegmentsOf(options, snake, call))
  }

  /**
   * The browser globals the adapter and the vendor script share, and the
   * log of every `__adroll.record_user` call.
   */
  class Window {
    /** `window.adroll_adv_id` */
    var adrollAdvId: Option<string>
    /** `window.adroll_pix_id` */
    var adrollPixId: Option<string>
    /** `window.__adroll_loaded`; false stands for unset */
    var adrollLoaded: bool
    /** `window.adroll_email` */
    var adrollEmail: Option<string>
    /** whether the vendor object `window.__adroll` exists */
    var vendorPresent: bool
    /** a snapshot of the payload passed to each `record_user` call, in call order */
    var recordUserLog: seq<Payload>

    /** A page before the adapter or the vendor script has run. */
    constructor ()
      ensures adrollAdvId == None && adrollPixId == None && !adrollLoaded
      ensures adrollEmail == None && !vendorPresent && recordUserLog == []
    {
      adrollAdvId, adrollPixId, adrollLoaded := None, None, false;
      adrollEmail, vendorPresent, recordUserLog := None, false, [];
    }

    /**
     * The vendor script finishing its asynchronous load and creating
     * `window.__adroll`; the adapter itself never does this.
     */
    method VendorScriptLoaded()
      modifies this`vendorPresent
      ensures vendorPresent
    {
      vendorPresent := true;
    }
  }

  /** The integration instance: its options and the snake-casing it uses. */
  class AdRoll {
    const options: Options
    const snake: string -> string

    constructor (options: Options, snake: string -> string)
      ensures this.options == options && this.snake == snake
    {
      this.options := options;
      this.snake := snake;
    }

    /** Publishes the configuration globals; nothing else in the window changes. */
    method Initialize(w: Window)
      modifies w`adrollAdvId, w`adrollPixId, w`adrollLoaded
      ensures w.adrollAdvId == Some(options.advId)
      ensures w.adrollPixId == Some(options.pixId)
      ensures w.adrollLoaded
    {
      w.adrollAdvId := Some(options.advId);
      w.adrollPixId := Some(options.pixId);
      w.adrollLoaded := true;
    }

    /** Whether the vendor script has created `window.__adroll`. */
    function Loaded(w: Window): (r: bool)
      reads w
      ensures r <==> w.vendorPresent
    {
      w.vendorPresent
    }

    /** Announces a truthy email to the vendor script; any other email leaves the global alone. */
    method Identify(w: Window, email: Option<string>)
      modifies w`adrollEmail
      ensures Truthy(email) ==> w.adrollEmail == email
      ensures !Truthy(email) ==> w.adrollEmail == old(w.adrollEmail)
    {
      if Truthy(email) {
        w.adrollEmail := email;
      }
    }

    /** The fold of lib/index.js:98-106, left to right over the properties. */
    method BuildPayload(properties: seq<Property>) returns (data: Payload)
      ensures data == Folded(snake, properties)
    {
      data := map[];
      var i := 0;
      while i < |properties|
        invariant 0 <= i <= |properties|
        invariant data == Folded(snake, properties[..i])
      {
        data := data[snake(properties[i].key) := properties[i].value];
        i := i + 1;
        assert properties[..i][..i - 1] == properties[..i - 1];
      }
      assert properties[..i] == properties;
    }

    /**
     * Sends one `record_user` call per resolved segment. When the vendor
     * object is missing and there is a segment to send, the first call
     * fails (`ok` is false) and nothing is recorded. Only the log changes.
     */
    method Track(w: Window, call: TrackCall, userId: Option<string>) returns (ok: bool)
      modifies w`recordUserLog
      ensures ok <==> Loaded(w) || SegmentsOf(options, snake, call) == []
      ensures w.recordUserLog
        == old(w.recordUserLog) + (if ok then TrackCalls(options, snake, call, userId) else [])
    {
      var event := call.event;
      var events := options.events(event);
      var data := BuildPayload(call.properties);
      if Truthy(userId) {
        data := data[UserIdKey := Str(userId.value)];
      }
      if options.version == 1 {
        if |events| == 0 {
          events := [event];
        }
        events := seq(|events|, i requires 0 <= i < |events| => snake(events[i]));
      }
      assert events == SegmentsOf(options, snake, call);
      ok := RecordEach(w, data, events);
    }

    /**
     * The `each` loop of lib/index.js:121-124: for every segment id, sets
     * `adroll_segments` on the one shared payload and hands it to
     * `record_user`. A missing vendor object makes the first call fail.
     */
    method RecordEach(w: Window, data: Payload, events: seq<string>) returns (ok: bool)
      modifies w`recordUserLog
      ensures ok <==> w.vendorPresent || events == []
      ensures w.recordUserLog == old(w.recordUserLog) + (if ok then Dispatch(data, events) else [])
    {
      var payload := data;
      var i := 0;
      while i < |events|
        invariant 0 <= i <= |events|
        invariant i > 0 ==> w.vendorPresent
        invariant payload == if i == 0 then data else data[SegmentsKey := Str(events[i - 1])]
        invariant w.recordUserLog == old(w.recordUserLog) + Dispatch(data, events[..i])
      {
        payload := payload[SegmentsKey := Str(events[i])];
        assert payload == data[SegmentsKey := Str(events[i])];
        if !w.vendorPresent {
          return false;
        }
        assert events[..i + 1][..i] == events[..i];
        w.recordUserLog := w.recordUserLog + [payload];
        i := i + 1;
      }
      assert events[..i] == events;
      ok := true;
    }

    /**
     * Tracks a page view as the track call the facade derives from the
     * page's full name; the effect is exactly that of `Track`.
     */
    method Page(w: Window, pageTrack: TrackCall, userId: Option<string>) returns (ok: bool)
      modifies w`recordUserLog
      ensures ok <==> Loaded(w) || SegmentsOf(options, snake, pageTrack) == []
      ensures w.recordUserLog
        == old(w.recordUserLog) + (if ok then TrackCalls(options, snake, pageTrack, userId) else [])
    {
      ok := Track(w, pageTrack, userId);
    }
  }
}
