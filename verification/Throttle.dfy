/** The progress throttle of a download: the listener in `requestDownload`
    (source/main/ipc/downloadManagerChannel.js). */
module Throttle {
  import opened Wrappers

  /** A progress report: the percentage, and what `parseInt(progress, 10)` reads off it. */
  datatype Report = Report(progress: real, parsed: int)

  /** A percentage reads as its floor, unless it is so small that it is written with an exponent: then only the digit
      before the point is read. */
  predicate Tiny(progress: real) {
    0.0 < progress < 0.000001
  }

  predicate WellRead(r: Report) {
    && 0.0 <= r.progress <= 100.0
    && if Tiny(r.progress) then 1 <= r.parsed <= 9 else r.parsed == r.progress.Floor
  }

  function After(counter: nat, evt: Option<Report>): nat {
    if evt.None? || evt.value.parsed == counter then counter else counter + 1
  }

  function AfterAll(evts: seq<Option<Report>>): nat {
    if evts == [] then 0 else After(AfterAll(evts[..|evts| - 1]), evts[|evts| - 1])
  }

  class ProgressListener {
    var currentDownloadData: nat

    constructor ()
      ensures currentDownloadData == 0
    {
      currentDownloadData := 0;
    }

    /** Forwarding and counting go together. */
    method OnProgress(evt: Option<Report>) returns (forwarded: Option<Report>)
      modifies this
      ensures currentDownloadData == After(old(currentDownloadData), evt)
      ensures forwarded == if currentDownloadData == old(currentDownloadData) then None else evt
    {
      if evt.None? || evt.value.parsed == currentDownloadData {
        return None;
      }
      currentDownloadData := currentDownloadData + 1;
      return evt;
    }
  }

  predicate Stream(evts: seq<Option<Report>>) {
    && (forall i :: 0 <= i < |evts| && evts[i].Some? ==> WellRead(evts[i].value))
    && (forall i, j :: 0 <= i <= j < |evts| && evts[i].Some? && evts[j].Some? ==>
        evts[i].value.progress <= evts[j].value.progress)
  }

  /** The i-th report passes the listener. */
  predicate Forwarded(evts: seq<Option<Report>>, i: nat)
    requires i < |evts|
  {
    AfterAll(evts[..i + 1]) != AfterAll(evts[..i])
  }

  predicate NoTinyReport(evts: seq<Option<Report>>) {
    forall i :: 0 <= i < |evts| && evts[i].Some? ==> !Tiny(evts[i].value.progress)
  }

  predicate CounterBehind(evts: seq<Option<Report>>) {
    forall i :: 0 <= i < |evts| && evts[i].Some? ==> AfterAll(evts[..i + 1]) <= evts[i].value.progress.Floor
  }

  lemma FloorMonotone(x: real, y: real)
    requires x <= y
    ensures x.Floor <= y.Floor
  {
  }

  lemma PrefixIsStream(evts: seq<Option<Report>>, n: nat)
    requires Stream(evts) && n <= |evts|
    ensures Stream(evts[..n])
    ensures NoTinyReport(evts) ==> NoTinyReport(evts[..n])
  {
  }

  /** The counter is bounded by any percentage that no report has passed yet. */
  lemma {:induction false} CounterBelow(evts: seq<Option<Report>>, bound: real)
    requires Stream(evts) && NoTinyReport(evts) && bound >= 0.0
    requires forall i :: 0 <= i < |evts| && evts[i].Some? ==> evts[i].value.progress <= bound
    ensures AfterAll(evts) <= bound.Floor
  {
    if evts != [] {
      var before, last := evts[..|evts| - 1], evts[|evts| - 1];
      PrefixIsStream(evts, |evts| - 1);
      if last.None? {
        CounterBelow(before, bound);
      } else {
        var p := last.value.progress;
        assert WellRead(last.value) && !Tiny(p);
        forall i | 0 <= i < |before| && before[i].Some?
          ensures before[i].value.progress <= p
        {
          assert evts[i] == before[i];
        }
        CounterBelow(before, p);
        FloorMonotone(p, bound);
      }
    }
  }

  /** After each report the counter is at most the floored progress, exactly when no report is tiny: the first tiny one
      moves the counter ahead. */
  lemma CounterStaysBehindIff(evts: seq<Option<Report>>)
    requires Stream(evts)
    ensures CounterBehind(evts) <==> NoTinyReport(evts)
  {
    if NoTinyReport(evts) {
      forall i | 0 <= i < |evts| && evts[i].Some?
        ensures AfterAll(evts[..i + 1]) <= evts[i].value.progress.Floor
      {
        PrefixIsStream(evts, i + 1);
        CounterBelow(evts[..i + 1], evts[i].value.progress);
      }
    } else {
      var i :| 0 <= i < |evts| && evts[i].Some? && Tiny(evts[i].value.progress);
      FirstTinyOvertakes(evts, i);
    }
  }

  lemma {:induction false} FirstTinyOvertakes(evts: seq<Option<Report>>, i: nat)
    requires Stream(evts) && i < |evts| && evts[i].Some? && Tiny(evts[i].value.progress)
    ensures !CounterBehind(evts)
  {
    assert evts[i].value.progress.Floor == 0;
    if j :| 0 <= j < i && evts[j].Some? && Tiny(evts[j].value.progress) {
      FirstTinyOvertakes(evts, j);
    } else {
      var h := evts[..i];
      PrefixIsStream(evts, i);
      forall j | 0 <= j < |h| && h[j].Some?
        ensures h[j].value.progress <= 0.0 && !Tiny(h[j].value.progress)
      {
        assert evts[j] == h[j];
        assert evts[j].value.progress <= evts[i].value.progress;
      }
      CounterBelow(h, 0.0);
      assert evts[..i + 1][..i] == h;
      assert WellRead(evts[i].value);
    }
  }

  /** However many reports arrive, at most a hundred pass, never more than the whole percents done; and the first
      report of 100 percent passes. */
  lemma AtMostHundredPass(evts: seq<Option<Report>>)
    requires Stream(evts) && NoTinyReport(evts)
    ensures PassedCount(evts) == AfterAll(evts) <= 100
    ensures evts != [] && evts[|evts| - 1].Some? ==> PassedCount(evts) <= evts[|evts| - 1].value.progress.Floor
    ensures forall i :: 0 <= i < |evts| && FirstComplete(evts, i) ==> Forwarded(evts, i)
  {
    PassedIsCounter(evts);
    CounterBelow(evts, 100.0);
    if evts != [] && evts[|evts| - 1].Some? {
      CounterBelow(evts, evts[|evts| - 1].value.progress);
    }
    forall i | 0 <= i < |evts| && FirstComplete(evts, i)
      ensures Forwarded(evts, i)
    {
      FirstCompletePasses(evts, i);
    }
  }

  lemma FirstCompletePasses(evts: seq<Option<Report>>, i: nat)
    requires Stream(evts) && NoTinyReport(evts) && i < |evts| && FirstComplete(evts, i)
    ensures Forwarded(evts, i)
  {
    PrefixIsStream(evts, i);
    LastBelowHundred(evts[..i]);
    assert evts[..i + 1][..i] == evts[..i];
    assert WellRead(evts[i].value);
  }

  predicate FirstComplete(evts: seq<Option<Report>>, i: nat)
    requires i < |evts|
  {
    && evts[i].Some? && evts[i].value.progress == 100.0
    && forall j :: 0 <= j < i && evts[j].Some? ==> evts[j].value.progress < 100.0
  }

  function PassedCount(evts: seq<Option<Report>>): nat {
    if evts == [] then 0
    else PassedCount(evts[..|evts| - 1]) + if Forwarded(evts, |evts| - 1) then 1 else 0
  }

  lemma {:induction false} PassedIsCounter(evts: seq<Option<Report>>)
    ensures PassedCount(evts) == AfterAll(evts)
  {
    if evts != [] {
      PassedIsCounter(evts[..|evts| - 1]);
      assert evts[..|evts|] == evts;
    }
  }

  lemma {:induction false} LastBelowHundred(evts: seq<Option<Report>>)
    requires Stream(evts) && NoTinyReport(evts)
    requires forall j :: 0 <= j < |evts| && evts[j].Some? ==> evts[j].value.progress < 100.0
    ensures AfterAll(evts) < 100
  {
    if evts != [] {
      var last := evts[|evts| - 1];
      PrefixIsStream(evts, |evts| - 1);
      if last.None? {
        LastBelowHundred(evts[..|evts| - 1]);
      } else {
        CounterBelow(evts, last.value.progress);
      }
    }
  }

  /** Without tiny reports, a report passes exactly when fewer have passed before it than whole percents are done. */
  lemma PassesIffBehind(evts: seq<Option<Report>>, i: nat)
    requires Stream(evts) && NoTinyReport(evts) && i < |evts|
    ensures Forwarded(evts, i) <==> evts[i].Some? && PassedCount(evts[..i]) < evts[i].value.progress.Floor
  {
    var h := evts[..i];
    assert evts[..i + 1][..i] == h;
    PassedIsCounter(h);
    if evts[i].Some? {
      PrefixIsStream(evts, i);
      assert WellRead(evts[i].value);
      forall j | 0 <= j < |h| && h[j].Some?
        ensures h[j].value.progress <= evts[i].value.progress
      {
        assert h[j] == evts[j];
      }
      CounterBelow(h, evts[i].value.progress);
    }
  }

  /** One tiny report, and every report that stays below one percent passes, without end. */
  lemma {:induction false} TinyReportOpensTheGate(n: nat)
    ensures var evts := [Some(Report(0.0000005, 5))] + seq(n, i => Some(Report(0.5, 0)));
            Stream(evts) && PassedCount(evts) == n + 1
  {
    var evts := [Some(Report(0.0000005, 5))] + seq(n, i => Some(Report(0.5, 0)));
    assert (0.0000005).Floor == 0 && (0.5).Floor == 0;
    PassedIsCounter(evts);
    OpenGate(n);
  }

  lemma {:induction false} OpenGate(n: nat)
    ensures AfterAll([Some(Report(0.0000005, 5))] + seq(n, i => Some(Report(0.5, 0)))) == n + 1
  {
    var evts := [Some(Report(0.0000005, 5))] + seq(n, i => Some(Report(0.5, 0)));
    if n == 0 {
      assert evts == [Some(Report(0.0000005, 5))];
      assert evts[..0] == [];
    } else {
      OpenGate(n - 1);
      assert evts[..|evts| - 1] == [Some(Report(0.0000005, 5))] + seq(n - 1, i => Some(Report(0.5, 0)));
    }
  }
}
