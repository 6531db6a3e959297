/** `TranscriptSegment`: an immutable record of recognised text and its time span,
    identified by a UUID generated when the record is built. */
module Segments {
  import opened Platform

  /** A UUID. `UUID()` is modelled by a counter: a fresh id is one that no
      earlier call returned. */
  type Uuid = nat

  /** All fields are `let`; the id is never passed in, only generated. Nothing
      ties `startTime` to `endTime`: the record keeps whatever it is given. */
  datatype TranscriptSegment = TranscriptSegment(id: Uuid, text: string, startTime: real, endTime: real)

  /** The source of fresh UUIDs shared by every component that calls `UUID()`. */
  class UuidSource {
    var next: nat

    constructor ()
      ensures next == 0
    {
      next := 0;
    }

    /** `UUID()`: an id different from every id issued before. */
    method Fresh() returns (id: Uuid)
      modifies this
      ensures id == old(next) && next == old(next) + 1
    {
      id := next;
      next := next + 1;
    }
  }

  /** `TranscriptSegment(text:startTime:endTime:)`: the times and text are kept
      verbatim and the id is fresh, so two segments built from equal text and
      times still differ by id. */
  method NewSegment(uuids: UuidSource, text: string, startTime: real, endTime: real)
    returns (segment: TranscriptSegment)
    modifies uuids
    ensures segment == TranscriptSegment(old(uuids.next), text, startTime, endTime)
    ensures uuids.next == old(uuids.next) + 1
  {
    var id := uuids.Fresh();
    segment := TranscriptSegment(id, text, startTime, endTime);
  }

  /** Every segment's id was issued by a source whose counter is now `bound`. */
  predicate IssuedBefore(segments: seq<TranscriptSegment>, bound: nat) {
    forall i :: 0 <= i < |segments| ==> segments[i].id < bound
  }

  /** The inclusive test `time >= startTime && time <= endTime`. */
  predicate Covers(segment: TranscriptSegment, time: real) {
    segment.startTime <= time <= segment.endTime
  }

  /** The index of the first segment, in list order, whose closed interval
      contains `time`; None when no segment does. */
  function FirstCovering(segments: seq<TranscriptSegment>, time: real): (r: Option<nat>)
    ensures r.Some? ==> r.value < |segments| && Covers(segments[r.value], time)
    ensures r.Some? ==> forall j :: 0 <= j < r.value ==> !Covers(segments[j], time)
    ensures r.None? <==> forall j :: 0 <= j < |segments| ==> !Covers(segments[j], time)
  {
    if segments == [] then None
    else if Covers(segments[0], time) then Some(0)
    else match FirstCovering(segments[1..], time)
      case None => None
      case Some(k) => Some(k + 1)
  }

  /** The lookup is a function of the list and the time only: the segment it
      picks is the only covering one with no covering segment before it. */
  lemma FirstCoveringUnique(segments: seq<TranscriptSegment>, time: real, k: nat)
    requires k < |segments| && Covers(segments[k], time)
    requires forall j :: 0 <= j < k ==> !Covers(segments[j], time)
    ensures FirstCovering(segments, time) == Some(k)
  {
    assert FirstCovering(segments, time).Some?;
  }

  /** Two adjacent segments that share a boundary: the boundary time belongs to
      the earlier one. */
  lemma SharedBoundaryGoesToEarlier(a: TranscriptSegment, b: TranscriptSegment)
    requires a.startTime <= a.endTime == b.startTime <= b.endTime
    ensures FirstCovering([a, b], a.endTime) == Some(0)
  {
  }
}
