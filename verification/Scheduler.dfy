/** The scheduler's entry. */
module Scheduler {
  import opened Bundle
  import opened Schedule
  import opened GreedyRuns
  import opened Safety
  import opened BatchFlow
  import opened StreamingFlow
  import opened Determined

  predicate AnyStreaming(b: Bundle)
  {
    exists l :: 0 <= l < |b.lines| && RouteOf(b, l).streaming
  }

  ghost predicate CompletedRight(b: Bundle, asWritten: bool, r: Outcome)
  {
    r.Scheduled? ==> if AnyStreaming(b) then StreamScheduleRight(b, asWritten, r) else ScheduleRight(b, asWritten, r)
  }

  ghost predicate FailedRight(b: Bundle, asWritten: bool, run: seq<Placed>, r: Outcome)
  {
    r.Failed? ==>
      if AnyStreaming(b) then StreamFailureRight(b, asWritten, run, r.error)
      else FailureRight(b, asWritten, run, r.error)
  }

  /** One streaming route sends the whole bundle through the streaming driver. */
  method ScheduleOperations(b: Bundle, asWritten: bool) returns (r: Outcome, ghost run: seq<Placed>)
    requires ValidBundle(b)
    ensures CompletedRight(b, asWritten, r)
    ensures FailedRight(b, asWritten, run, r)
  {
    hide ScheduleRight, FailureRight, StreamScheduleRight, StreamFailureRight, ValidBundle, RouteOf;
    if AnyStreaming(b) {
      r, run := ScheduleStreaming(b, asWritten);
    } else {
      r, run := ScheduleBatch(b, asWritten);
    }
  }

  lemma StreamsIff(b: Bundle)
    requires ValidBundle(b)
    ensures AnyStreaming(b) <==> exists l :: 0 <= l < |b.lines| && b.routes[b.lines[l].productCode].streaming
  {
    forall l | 0 <= l < |b.lines|
      ensures RouteOf(b, l) == b.routes[b.lines[l].productCode]
    {
      assert b.lines[l] in b.lines;
    }
  }

  /** The streaming driver made the schedule exactly when the route of some line streams. */
  lemma DriverIs(b: Bundle, asWritten: bool, r: Outcome)
    requires ValidBundle(b) && r.Scheduled? && CompletedRight(b, asWritten, r)
    ensures if exists l :: 0 <= l < |b.lines| && b.routes[b.lines[l].productCode].streaming
            then StreamScheduleRight(b, asWritten, r) else ScheduleRight(b, asWritten, r)
  {
    StreamsIff(b);
    hide StreamScheduleRight, ScheduleRight;
  }

  /** Whichever driver ran: no resource is overbooked at any minute. */
  lemma NothingOverbooked(b: Bundle, asWritten: bool, r: Outcome, key: Key, m: int)
    requires ValidBundle(b) && SafeCalendars(b, asWritten) && CompletedRight(b, asWritten, r) && r.Scheduled?
    ensures WithinCapacity(b, key, WorkCount(b, asWritten, r.operations, key, m))
  {
    if AnyStreaming(b) {
      StreamRunIsGreedy(b, asWritten, r.operations);
    } else {
      BatchRunIsGreedy(b, asWritten, r.operations);
    }
    hide ValidBundle;
    NeverOverbooked(b, asWritten, r.operations, key, m);
  }

  /** Scheduling is deterministic: all finished schedules of a bundle hold the same operations
      in the same order, at the same times on the same resources. */
  lemma OneSchedule(b: Bundle, asWritten: bool, r: Outcome, r': Outcome)
    requires ValidBundle(b) && r.Scheduled? && r'.Scheduled?
    requires CompletedRight(b, asWritten, r) && CompletedRight(b, asWritten, r')
    ensures r.operations == r'.operations && r.intervals == r'.intervals
  {
    hide ValidBundle, StreamScheduleRight, ScheduleRight;
    if AnyStreaming(b) {
      StreamDetermined(b, asWritten, r, r');
    } else {
      BatchDetermined(b, asWritten, r, r');
    }
  }
}
