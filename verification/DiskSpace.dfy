/** The disk-space watch: `handleDiskSpace` (source/main/utils/handleDiskSpace.js). A check has one await, the probe,
    so a run is a sequence of probe outcomes, each with the size its caller required. */
module DiskSpace {
  import opened Wrappers

  const DISK_SPACE_REQUIRED := 2147482548.0
  const DISK_SPACE_REQUIRED_MARGIN_PERCENTAGE := 10.0
  const LONG_INTERVAL := 600000
  const MEDIUM_INTERVAL := 60000
  const SHORT_INTERVAL := 10000

  /** The closure's variables, and the event loop's running timers with their periods. */
  datatype Watch = Watch(
    interval: nat,
    intervalLength: nat,
    isNotEnoughDiskSpace: bool,
    running: map<nat, nat>,
    nextTimer: nat)

  /** `required` is the size asked for by the caller, `free` the probe's answer, absent when the probe failed;
      `throws` says that passing on the result of a good probe failed. */
  datatype Check = Check(required: Option<real>, free: Option<real>, throws: bool)

  /** The catch block runs. */
  predicate Fails(c: Check) {
    c.free.None? || c.throws
  }

  datatype Response = Response(isNotEnoughDiskSpace: bool, required: Option<real>, missing: Option<real>)

  function Required(c: Check): real {
    if c.required.Some? && c.required.value != 0.0 then c.required.value else DISK_SPACE_REQUIRED
  }

  function SetInterval(w: Watch, period: nat): Watch {
    w.(interval := w.nextTimer,
       intervalLength := period,
       running := (w.running - {w.interval})[w.nextTimer := period],
       nextTimer := w.nextTimer + 1)
  }

  function Opening(): Watch {
    SetInterval(Watch(0, LONG_INTERVAL, false, map[], 1), LONG_INTERVAL)
  }

  function Sample(w: Watch, required: real, free: real): Watch {
    if free <= required - required * DISK_SPACE_REQUIRED_MARGIN_PERCENTAGE / 100.0 then
      if w.isNotEnoughDiskSpace then w else SetInterval(w, SHORT_INTERVAL).(isNotEnoughDiskSpace := true)
    else if free >= required then
      var period := if free >= required * 2.0 then LONG_INTERVAL else MEDIUM_INTERVAL;
      if w.isNotEnoughDiskSpace then SetInterval(w, period).(isNotEnoughDiskSpace := false)
      else if period != w.intervalLength then SetInterval(w, period)
      else w
    else w
  }

  function After(w: Watch, c: Check): Watch {
    var w1 := if c.free.Some? then Sample(w, Required(c), c.free.value) else w;
    if Fails(c) then w1.(running := w1.running - {w1.interval}, intervalLength := LONG_INTERVAL) else w1
  }

  function AfterAll(w: Watch, history: seq<Check>): Watch {
    if history == [] then w else After(AfterAll(w, history[..|history| - 1]), history[|history| - 1])
  }

  class DiskSpaceWatch {
    var interval: nat
    var intervalLength: nat
    var isNotEnoughDiskSpace: bool
    var running: map<nat, nat>
    var nextTimer: nat

    function View(): Watch
      reads this
    {
      Watch(interval, intervalLength, isNotEnoughDiskSpace, running, nextTimer)
    }

    constructor ()
      ensures View() == Opening()
    {
      interval, intervalLength, isNotEnoughDiskSpace, running, nextTimer := 0, LONG_INTERVAL, false, map[], 1;
      new;
      SetDiskSpaceIntervalChecking(intervalLength);
    }

    method SetDiskSpaceIntervalChecking(period: nat)
      modifies this
      ensures View() == SetInterval(old(View()), period)
    {
      running := running - {interval};
      interval, nextTimer := nextTimer, nextTimer + 1;
      running := running[interval := period];
      intervalLength := period;
    }

    /** The answer tells the caller of a failed check that there is room, whatever the watch believes. */
    method HandleCheckDiskSpace(c: Check) returns (r: Response)
      modifies this
      ensures View() == After(old(View()), c)
      ensures r.isNotEnoughDiskSpace <==> c.free.Some? && !c.throws && isNotEnoughDiskSpace
      ensures r.required == (if c.free.None? || c.throws then None else Some(Required(c)))
      ensures c.free.Some? && !c.throws && c.required.Some? && c.required.value != 0.0 ==> r.required == c.required
      ensures r.missing.Some? <==> c.free.Some? && !c.throws
      ensures r.missing.Some? ==>
                && r.missing.value >= 0.0
                && (r.missing.value == 0.0 || r.missing.value + c.free.value == Required(c))
                && r.missing.value + c.free.value >= Required(c)
    {
      if c.free.Some? {
        var required, free := Required(c), c.free.value;
        var missing := if required - free > 0.0 then required - free else 0.0;
        CheckSample(required, free);
        if !c.throws {
          return Response(isNotEnoughDiskSpace, Some(required), Some(missing));
        }
      }
      running, intervalLength := running - {interval}, LONG_INTERVAL;
      r := Response(false, None, None);
    }

    /** The part between the probe and the response. */
    method CheckSample(required: real, free: real)
      modifies this
      ensures View() == Sample(old(View()), required, free)
    {
      var margin := required - required * DISK_SPACE_REQUIRED_MARGIN_PERCENTAGE / 100.0;
      if free <= margin {
        if !isNotEnoughDiskSpace {
          SetDiskSpaceIntervalChecking(SHORT_INTERVAL);
          isNotEnoughDiskSpace := true;
        }
      } else if free >= required {
        var period := if free >= required * 2.0 then LONG_INTERVAL else MEDIUM_INTERVAL;
        if isNotEnoughDiskSpace {
          SetDiskSpaceIntervalChecking(period);
          isNotEnoughDiskSpace := false;
        } else if period != intervalLength {
          SetDiskSpaceIntervalChecking(period);
        }
      }
    }
  }

  // What a history says, without running the watch.

  /** A sample at or below 90% of the required size is low, one at or above it is enough, ample from twice the size on;
      in between, and when the probe failed, the sample decides nothing. */
  datatype Verdict = Low | Enough | Ample | Undecided

  function Judge(c: Check): Verdict {
    if c.free.None? then Undecided
    else if 10.0 * c.free.value <= 9.0 * Required(c) then Low
    else if c.free.value < Required(c) then Undecided
    else if c.free.value < 2.0 * Required(c) then Enough
    else Ample
  }

  function LatestVerdict(history: seq<Check>): Verdict {
    if history == [] then Ample
    else if Judge(history[|history| - 1]) != Undecided then Judge(history[|history| - 1])
    else LatestVerdict(history[..|history| - 1])
  }

  function PeriodFor(v: Verdict): nat {
    match v
    case Low => 10000
    case Enough => 60000
    case _ => 600000
  }

  /** How many checks there are up to and including the last failed one; 0 if none failed. */
  function LastFailure(history: seq<Check>): (n: nat)
    ensures n <= |history|
    ensures n > 0 ==> Fails(history[n - 1])
    ensures forall i :: n <= i < |history| ==> !Fails(history[i])
  {
    if history == [] then 0
    else if Fails(history[|history| - 1]) then |history|
    else LastFailure(history[..|history| - 1])
  }

  /** The samples since the last failed check include one that makes the watch choose a period anew: out of shortage,
      any that is enough; otherwise, any that is not ample. */
  predicate Rearmed(history: seq<Check>) {
    var n := LastFailure(history);
    n > 0 ==> exists i :: n <= i < |history| && Rearms(LatestVerdict(history[..n]), history[i])
  }

  predicate Rearms(before: Verdict, c: Check) {
    Judge(c) != Undecided && if before == Low then Judge(c) != Low else Judge(c) != Ample
  }

  /** A sample, by its verdict. */
  lemma AfterByVerdict(w: Watch, c: Check)
    requires c.free.Some?
    ensures var v := Judge(c);
            Sample(w, Required(c), c.free.value) ==
            if v == Undecided || (v == Low && w.isNotEnoughDiskSpace) then w
            else if v != Low && !w.isNotEnoughDiskSpace && w.intervalLength == PeriodFor(v) then w
            else SetInterval(w, PeriodFor(v)).(isNotEnoughDiskSpace := v == Low)
  {
    var required := Required(c);
    assert required - required * DISK_SPACE_REQUIRED_MARGIN_PERCENTAGE / 100.0 == 0.9 * required;
  }

  /** A check whose probe fails, or whose result cannot be passed on, stops the running timer and forgets its period;
      one that goes through leaves the sample's effect as it is. */
  lemma FailureStopsTimer(w: Watch, c: Check)
    ensures var sampled := if c.free.Some? then Sample(w, Required(c), c.free.value) else w;
            && (c.free.Some? && !c.throws ==> After(w, c) == sampled)
            && (c.free.None? || c.throws ==>
                  && After(w, c).running == sampled.running - {sampled.interval}
                  && After(w, c).intervalLength == 600000
                  && After(w, c).isNotEnoughDiskSpace == sampled.isNotEnoughDiskSpace)
  {
  }

  /** A check is judged against the size that its caller asks for, or against the default if it asks for none. */
  lemma CallersSizeCounts(c: Check)
    requires c.free.Some?
    ensures var size := if c.required.Some? && c.required.value != 0.0 then c.required.value else 2147482548.0;
            && (Judge(c) == Low <==> 10.0 * c.free.value <= 9.0 * size)
            && (Judge(c) == Undecided <==> 9.0 * size < 10.0 * c.free.value && c.free.value < size)
            && (Judge(c) == Ample ==> c.free.value >= 2.0 * size)
            && (Judge(c) == Enough ==> size <= c.free.value < 2.0 * size)
            && Required(c) == size
  {
  }

  lemma HistoryStep(history: seq<Check>)
    requires history != []
    ensures var h := history[..|history| - 1];
            && (Fails(history[|history| - 1]) ==> LastFailure(history) == |history|)
            && (!Fails(history[|history| - 1]) ==>
                  && LastFailure(history) == LastFailure(h)
                  && (Rearmed(history) <==>
                        || Rearmed(h)
                        || Rearms(LatestVerdict(h[..LastFailure(h)]), history[|history| - 1])))
  {
    var h, c := history[..|history| - 1], history[|history| - 1];
    if !Fails(c) {
      var n := LastFailure(h);
      assert history[..n] == h[..n];
      var before := LatestVerdict(h[..n]);
      if n > 0 {
        if Rearmed(h) {
          var i :| n <= i < |h| && Rearms(before, h[i]);
          assert Rearms(before, history[i]);
        }
        if Rearms(before, c) {
          assert Rearms(before, history[|history| - 1]);
        }
        if Rearmed(history) {
          var i :| n <= i < |history| && Rearms(before, history[i]);
          assert i == |h| || Rearms(before, h[i]);
        }
      }
    }
  }

  /** What holds after every run. */
  ghost predicate Tracks(w: Watch, history: seq<Check>) {
    var n := LastFailure(history);
    && 0 < w.interval < w.nextTimer
    && (w.isNotEnoughDiskSpace <==> LatestVerdict(history) == Low)
    && (Rearmed(history) ==>
          && w.running == map[w.interval := w.intervalLength]
          && w.intervalLength == PeriodFor(LatestVerdict(history)))
    && (!Rearmed(history) ==>
          && w.running == map[] && w.intervalLength == 600000
          && (LatestVerdict(history) == Low <==> LatestVerdict(history[..n]) == Low))
  }

  lemma {:induction false} RunTracks(history: seq<Check>)
    ensures Tracks(AfterAll(Opening(), history), history)
  {
    if history != [] {
      var h, c := history[..|history| - 1], history[|history| - 1];
      var w := AfterAll(Opening(), h);
      RunTracks(h);
      HistoryStep(history);
      if c.free.Some? {
        AfterByVerdict(w, c);
      }
      if Fails(c) {
        assert history[..|history|] == history;
      } else {
        assert history[..LastFailure(h)] == h[..LastFailure(h)];
      }
    }
  }

  /** Over every history, failed checks included: the watch reports shortage exactly when the latest sample outside the
      open band was low, never runs more than one timer, and runs one exactly when no check failed since it last chose a
      period; that timer has the recorded period, which is the one for the latest decided sample. */
  lemma LatestDecidedSampleRules(history: seq<Check>)
    ensures var w := AfterAll(Opening(), history);
            && (w.isNotEnoughDiskSpace <==> LatestVerdict(history) == Low)
            && (Rearmed(history) <==> w.running == map[w.interval := w.intervalLength])
            && (!Rearmed(history) <==> w.running == map[])
            && (Rearmed(history) ==> w.intervalLength == PeriodFor(LatestVerdict(history)))
  {
    RunTracks(history);
    var w := AfterAll(Opening(), history);
    assert w.interval in map[w.interval := w.intervalLength];
  }

  /** While no check fails, one timer is always running, and it is the short one exactly in shortage. */
  lemma PollingKeepsItsPace(history: seq<Check>)
    requires forall i :: 0 <= i < |history| ==> !Fails(history[i])
    ensures var w := AfterAll(Opening(), history);
            && w.running == map[w.interval := w.intervalLength]
            && (w.intervalLength == 10000 <==> w.isNotEnoughDiskSpace)
  {
    RunTracks(history);
    assert LastFailure(history) == 0;
  }

  /** In shortage, a failed check stops the polling, and low samples on request never start it again. */
  lemma {:induction false} ShortageOutlivesPolling(history: seq<Check>, failed: Check, requested: seq<Check>)
    requires LatestVerdict(history) == Low && Fails(failed) && Judge(failed) in {Low, Undecided}
    requires forall i :: 0 <= i < |requested| ==> Judge(requested[i]) in {Low, Undecided}
    ensures var w := AfterAll(Opening(), history + [failed] + requested);
            w.isNotEnoughDiskSpace && w.running == map[]
  {
    var h := history + [failed] + requested;
    if requested == [] {
      assert h == history + [failed];
      assert h[..|h| - 1] == history;
      RunTracks(h);
      assert h[..LastFailure(h)] == h;
      assert LatestVerdict(h) == Low;
      assert !Rearmed(h);
    } else {
      var shorter := requested[..|requested| - 1];
      assert h[..|h| - 1] == history + [failed] + shorter;
      ShortageOutlivesPolling(history, failed, shorter);
      if h[|h| - 1].free.Some? {
        AfterByVerdict(AfterAll(Opening(), h[..|h| - 1]), h[|h| - 1]);
      }
    }
  }
}
