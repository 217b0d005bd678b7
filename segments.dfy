/**
 * Segment resolution and per-segment dispatch of AdRoll.prototype.track
 * (lib/index.js:110-124).
 */
module Segments {
  import opened Payload

  /** The field that carries the segment id of each `record_user` call. */
  const SegmentsKey: string := "adroll_segments"

  /**
   * The segment ids that `track` dispatches, from the segments the events
   * mapping yields for `event`. Under `_version === 1` an unmapped event
   * falls back to its own name and every id is snake-cased; under any other
   * version the mapped ids are used verbatim, so an unmapped event yields none.
   */
  function Resolve(version: int, event: string, mapped: seq<string>, snake: string -> string): (segments: seq<string>)
    ensures version != 1 ==> segments == mapped
    ensures version == 1 && mapped == [] ==> segments == [snake(event)]
    ensures version == 1 && mapped != [] ==>
      |segments| == |mapped| && forall i :: 0 <= i < |mapped| ==> segments[i] == snake(mapped[i])
  {
    if version == 1 then
      var named := if mapped == [] then [event] else mapped;
      seq(|named|, i requires 0 <= i < |named| => snake(named[i]))
    else
      mapped
  }

  /**
   * Snapshots of the payload at each `record_user` call: one call per
   * segment, in order, each carrying that segment id and otherwise the
   * fields of `base`.
   */
  function Dispatch(base: Payload, segments: seq<string>): (calls: seq<Payload>)
    ensures |calls| == |segments|
    ensures forall i :: 0 <= i < |calls| ==>
      SegmentsKey in calls[i] && calls[i][SegmentsKey] == Str(segments[i])
    ensures forall i :: 0 <= i < |calls| ==> calls[i] - {SegmentsKey} == base - {SegmentsKey}
  {
    if |segments| == 0 then []
    else
      var n := |segments| - 1;
      Dispatch(base, segments[..n]) + [base[SegmentsKey := Str(segments[n])]]
  }
}
