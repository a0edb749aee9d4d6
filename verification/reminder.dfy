/**
  The daily reminder gate. On every rerun the current hour is compared with
  the schedule; a single boolean latch, not a last-fired hour, stops the
  reminder from repeating while the clock stays inside scheduled hours.
 */
module Reminder {

  /** `reminder_hours`: the hours of the day at which a reminder may show. */
  const Schedule: seq<int> := [9, 12, 15, 18, 21]

  predicate Scheduled(hour: int)
  {
    hour in Schedule
  }

  /** Outcome of one poll: whether the reminder showed, and the latch afterwards. */
  datatype Poll = Poll(fired: bool, triggered: bool)

  /** `check_and_show_reminder` with the hour passed in: fire and latch, stay quiet, or re-arm. */
  function Check(hour: int, triggered: bool): (p: Poll)
    ensures p.fired <==> Scheduled(hour) && !triggered
    ensures Scheduled(hour) ==> p.triggered
    ensures !Scheduled(hour) ==> !p.triggered && !p.fired
  {
    if Scheduled(hour) && !triggered then Poll(true, true)
    else if !Scheduled(hour) then Poll(false, false)
    else Poll(false, triggered)
  }

  /** A scheduled hour with the latch already set changes nothing. */
  lemma LatchedScheduledHourIsQuiet(hour: int)
    requires Scheduled(hour)
    ensures Check(hour, true) == Poll(false, true)
  {
  }

  /** Polling the same hour twice fires at most once. */
  lemma SecondPollSameHourQuiet(hour: int, triggered: bool)
    ensures !Check(hour, Check(hour, triggered).triggered).fired
  {
  }

  /** The outcome of polling at each hour of `hours` in turn, starting from latch `triggered`. */
  datatype Run = Run(fired: seq<bool>, triggered: bool)

  function RunFrom(hours: seq<int>, triggered: bool): (r: Run)
    ensures |r.fired| == |hours|
    decreases |hours|
  {
    if hours == [] then Run([], triggered)
    else
      var p := Check(hours[0], triggered);
      var rest := RunFrom(hours[1..], p.triggered);
      Run([p.fired] + rest.fired, rest.triggered)
  }

  function CountFired(fired: seq<bool>): (n: nat)
    ensures n <= |fired|
  {
    if fired == [] then 0 else (if fired[0] then 1 else 0) + CountFired(fired[1..])
  }

  /**
    However many polls fall inside scheduled hours in a row, the reminder shows
    at most once among them, and not at all when the latch was already set.
   */
  lemma {:induction false} AtMostOncePerScheduledStretch(hours: seq<int>, triggered: bool)
    requires forall i :: 0 <= i < |hours| ==> Scheduled(hours[i])
    ensures CountFired(RunFrom(hours, triggered).fired) <= 1
    ensures triggered ==> CountFired(RunFrom(hours, triggered).fired) == 0
    ensures hours != [] ==> RunFrom(hours, triggered).triggered
    decreases |hours|
  {
    if hours != [] {
      var p := Check(hours[0], triggered);
      AtMostOncePerScheduledStretch(hours[1..], p.triggered);
      assert RunFrom(hours, triggered).fired == [p.fired] + RunFrom(hours[1..], p.triggered).fired;
      assert ([p.fired] + RunFrom(hours[1..], p.triggered).fired)[1..] == RunFrom(hours[1..], p.triggered).fired;
    }
  }

  /** A poll outside the schedule re-arms the gate, so the next scheduled poll fires. */
  lemma {:induction false} UnscheduledPollRearms(before: seq<int>, off: int, on: int, triggered: bool)
    requires !Scheduled(off) && Scheduled(on)
    ensures RunFrom(before + [off, on], triggered).fired[|before| + 1]
    decreases |before|
  {
    if before == [] {
      assert [off, on][1..] == [on];
    } else {
      var p := Check(before[0], triggered);
      assert (before + [off, on])[1..] == before[1..] + [off, on];
      UnscheduledPollRearms(before[1..], off, on, p.triggered);
    }
  }

  /** Nine o'clock fires, a second nine o'clock poll does not, ten o'clock re-arms, and nine fires again. */
  lemma RearmExample()
    ensures RunFrom([9, 9, 10, 9], false).fired == [true, false, false, true]
    ensures RunFrom([9, 9, 10, 9], false).triggered
  {
    assert Scheduled(9) && !Scheduled(10);
    assert [9, 9, 10, 9][1..] == [9, 10, 9];
    assert [9, 10, 9][1..] == [10, 9];
    assert [10, 9][1..] == [9];
  }

  /**
    Because the latch is a boolean, polls at 9 and then at 12 with no poll in
    between fire only once: the noon reminder is skipped.
   */
  lemma ConsecutiveScheduledHoursShareLatch()
    ensures RunFrom([9, 12], false).fired == [true, false]
  {
    assert Scheduled(9) && Scheduled(12);
    assert [9, 12][1..] == [12];
  }
}
