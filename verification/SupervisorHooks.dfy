/** What hangs on the supervisor's states: the restart after a crash, the exit that a safe exit asks for, and the wait
    for an update. */
module SupervisorHooks {
  import opened Wrappers
  import opened Supervisor
  import opened SupervisorRuns
  import opened SupervisorTrace

  predicate IsCrash(b: Broadcast) {
    StateOf(b) == Some(Crashed)
  }

  function Crashes(t: seq<Broadcast>): nat {
    if t == [] then 0 else Crashes(t[..|t| - 1]) + if IsCrash(t[|t| - 1]) then 1 else 0
  }

  function TimersFired(es: seq<Event>): nat {
    if es == [] then 0 else TimersFired(es[..|es| - 1]) + if es[|es| - 1].CrashTimer? then 1 else 0
  }

  lemma CrashesNext(t: seq<Broadcast>, b: Broadcast)
    ensures Crashes(t + [b]) == Crashes(t) + if IsCrash(b) then 1 else 0
  {
    assert (t + [b])[..|t|] == t;
  }

  /** The trace grows by at most two broadcasts, and by a crash exactly when said so. */
  ghost predicate Adds(c: Core, c': Core, crashed: bool) {
    || (c'.trace == c.trace && !crashed)
    || (exists b :: c'.trace == c.trace + [b] && (IsCrash(b) <==> crashed))
    || (exists b, b' :: c'.trace == c.trace + [b] + [b'] && !IsCrash(b) && !IsCrash(b') && !crashed)
  }

  lemma AddsCounts(c: Core, c': Core, crashed: bool)
    requires Adds(c, c', crashed)
    ensures Crashes(c'.trace) == Crashes(c.trace) + if crashed then 1 else 0
  {
    if b :| c'.trace == c.trace + [b] && (IsCrash(b) <==> crashed) {
      CrashesNext(c.trace, b);
    } else if b, b' :| c'.trace == c.trace + [b] + [b'] && !IsCrash(b) && !IsCrash(b') && !crashed {
      CrashesNext(c.trace, b);
      CrashesNext(c.trace + [b], b');
    }
  }

  lemma StartAdds(cfg: Config, c: Core, alive: set<nat>, t: Task, a: Answer)
    ensures var e := StartStretch(cfg, c, alive, t, a); Adds(c, e.core, e.crashed)
  {
    var e := StartStretch(cfg, c, alive, t, a);
    if t.StartGuard? && e.task.StartLaunching? {
      assert e.core.trace == c.trace + [Began(t.isForced)];
    } else if t.StartWaiting? && t.launcher < |c.launchers| && a.Connects? && c.state == Starting {
      assert e.core.trace == c.trace + [Became(Running)] + [SentTls(Some(TlsConfig(a.port)))];
    }
  }

  lemma StopAdds(cfg: Config, c: Core, alive: set<nat>, t: Task, a: Answer, nextCall: nat, childResolved: bool)
    ensures var e := StopStretch(cfg, c, alive, t, a, nextCall, childResolved); Adds(c, e.core, e.crashed)
  {
    var e := StopStretch(cfg, c, alive, t, a, nextCall, childResolved);
    assert e.core.trace == c.trace || e.core.trace == c.trace + [Became(Stopping)];
  }

  lemma KillAdds(c: Core, t: Task, a: Answer)
    ensures var e := KillStretch(c, t, a); Adds(c, e.core, e.crashed)
  {
    var e := KillStretch(c, t, a);
    assert e.core.trace == c.trace || e.core.trace == c.trace + [Became(Stopped)];
  }

  lemma RestartAdds(c: Core, t: Task, nextCall: nat, childResolved: bool)
    ensures var e := RestartStretch(c, t, nextCall, childResolved); Adds(c, e.core, e.crashed)
  {
    var e := RestartStretch(c, t, nextCall, childResolved);
    assert e.core.trace == c.trace || e.core.trace == c.trace + [Became(Errored)];
  }

  lemma ExitAdds(cfg: Config, c: Core, alive: set<nat>, t: Task, a: Answer)
    ensures var e := ExitStretch(cfg, c, alive, t, a); Adds(c, e.core, e.crashed)
  {
    var e := ExitStretch(cfg, c, alive, t, a);
    if t.ExitDecide? {
      assert e.core.trace == c.trace + [Concluded(ExitVerdict(c, t.code, cfg.maxRetries), t.code)];
    }
  }

  lemma UpdateAdds(cfg: Config, c: Core, alive: set<nat>, t: Task, a: Answer, nextCall: nat, childResolved: bool)
    ensures var e := UpdateStretch(cfg, c, alive, t, a, nextCall, childResolved); Adds(c, e.core, e.crashed)
  {
    var e := UpdateStretch(cfg, c, alive, t, a, nextCall, childResolved);
    assert e.core == c && !e.crashed;
  }

  lemma StretchAdds(cfg: Config, c: Core, alive: set<nat>, t: Task, a: Answer, nextCall: nat, childResolved: bool)
    ensures var e := Stretch(cfg, c, alive, t, a, nextCall, childResolved); Adds(c, e.core, e.crashed)
  {
    if IsStart(t) {
      StartAdds(cfg, c, alive, t, a);
    } else if IsStop(t) {
      StopAdds(cfg, c, alive, t, a, nextCall, childResolved);
    } else if IsKill(t) {
      KillAdds(c, t, a);
    } else if IsRestart(t) {
      RestartAdds(c, t, nextCall, childResolved);
    } else if IsExit(t) {
      ExitAdds(cfg, c, alive, t, a);
    } else {
      UpdateAdds(cfg, c, alive, t, a, nextCall, childResolved);
    }
  }

  /** Starts, stops, kills and restarts touch no field before their first await. */
  lemma CallsTouchNothing(w: World, hasConfig: bool, isForced: bool)
    ensures CallStart(w, hasConfig, isForced).core == CallStop(w).core == CallKill(w).core ==
            CallRestart(w, isForced).core == w.core
    ensures CallStart(w, hasConfig, isForced).crashTimers == CallStop(w).crashTimers == CallKill(w).crashTimers
         == CallRestart(w, isForced).crashTimers == w.crashTimers
  {
  }

  lemma ErrorAdds(cfg: Config, w: World)
    ensures Adds(w.core, CallHandleNodeError(cfg, w).core, false)
    ensures CallHandleNodeError(cfg, w).crashTimers == w.crashTimers
  {
    var b := Became(if IsUnrecoverable(w.core, cfg.maxRetries) then Unrecoverable else Errored);
    CallsTouchNothing(w.(core := HandleNodeError(w.core, cfg.maxRetries)), false, false);
    assert CallHandleNodeError(cfg, w).core.trace == w.core.trace + [b];
  }

  lemma UpdateCallAdds(w: World)
    ensures CallExpectNodeUpdate(w).core == BeginUpdate(w.core) && CallExpectNodeUpdate(w).crashTimers == w.crashTimers
  {
  }

  lemma ApplyBalances(cfg: Config, w: World, id: nat, e: Effect)
    requires id < |w.tasks|
    ensures var w' := Apply(cfg, w, id, e);
            && w'.crashTimers == w.crashTimers + (if e.crashed then 1 else 0)
            && Crashes(w'.core.trace) == Crashes(e.core.trace)
  {
    var w1 := Parked(w, id, e);
    match e.call
    case NoCall =>
    case ToStart(hasConfig, isForced) => CallsTouchNothing(w1, hasConfig, isForced);
    case ToKill => CallsTouchNothing(w1, false, false);
    case ToHandleError =>
      ErrorAdds(cfg, w1);
      AddsCounts(e.core, CallHandleNodeError(cfg, w1).core, false);
  }

  lemma StepBalances(cfg: Config, w: World, id: nat, a: Answer)
    requires CanStep(w, id, a)
    ensures var w' := Apply(cfg, w, id, EffectOf(cfg, w, id, a));
            w'.crashTimers + Crashes(w.core.trace) == w.crashTimers + Crashes(w'.core.trace)
  {
    var e := EffectOf(cfg, w, id, a);
    StretchAdds(cfg, w.core, w.alive, w.tasks[id], a, |w.tasks|, ChildResolved(w, w.tasks[id]));
    AddsCounts(w.core, e.core, e.crashed);
    ApplyBalances(cfg, w, id, e);
  }

  lemma OutsideAdds(cfg: Config, w: World, e: Event)
    requires Enabled(w, e) && !e.Step?
    ensures var w' := Next(cfg, w, e);
            && w'.crashTimers == w.crashTimers - (if e.CrashTimer? then 1 else 0)
            && (|| w'.core.trace == w.core.trace
                || w'.core.trace == w.core.trace + [Became(Updating)]
                || w'.core.trace == w.core.trace + [Became(Exiting)])
  {
    match e
    case SetupStart => CallsTouchNothing(w, true, false);
    case Restart(isForced) => CallsTouchNothing(w, true, isForced);
    case CrashTimer => CallsTouchNothing(w.(crashTimers := w.crashTimers - 1), true, false);
    case DiskReport(_) => CallsTouchNothing(w, true, false);
    case SafeExit => CallsTouchNothing(w, true, false);
    case AwaitUpdate => UpdateCallAdds(w);
    case _ =>
  }

  lemma NoNewCrash(t: seq<Broadcast>, t': seq<Broadcast>)
    requires t' == t || t' == t + [Became(Updating)] || t' == t + [Became(Exiting)]
    ensures Crashes(t') == Crashes(t)
  {
    CrashesNext(t, Became(Updating));
    CrashesNext(t, Became(Exiting));
  }

  lemma OutsideBalances(cfg: Config, w: World, e: Event)
    requires Enabled(w, e) && !e.Step?
    ensures var w' := Next(cfg, w, e);
            && w'.crashTimers == w.crashTimers - (if e.CrashTimer? then 1 else 0)
            && Crashes(w'.core.trace) == Crashes(w.core.trace)
  {
    OutsideAdds(cfg, w, e);
    NoNewCrash(w.core.trace, Next(cfg, w, e).core.trace);
  }

  /** Every CRASHED broadcast schedules exactly one restart: in every run, the timers still running and those that
      went off are together as many as the crashes. */
  lemma {:induction false} CrashesScheduleRestarts(cfg: Config, previousPid: Option<nat>, alive: set<nat>,
          es: seq<Event>)
    requires Legal(cfg, Initial(previousPid, alive), es)
    ensures var w := Run(cfg, Initial(previousPid, alive), es);
            w.crashTimers + TimersFired(es) == Crashes(w.core.trace)
    decreases |es|
  {
    if es != [] {
      var before, e := es[..|es| - 1], es[|es| - 1];
      CrashesScheduleRestarts(cfg, previousPid, alive, before);
      if e.Step? {
        StepBalances(cfg, Run(cfg, Initial(previousPid, alive), before), e.task, e.answer);
      } else {
        OutsideBalances(cfg, Run(cfg, Initial(previousPid, alive), before), e);
      }
    }
  }

  // Leaving.

  /** The exit on stop was asked for and no start is in flight. */
  predicate Leaving(w: World) {
    w.core.exitOnStop && NoStart(w.tasks)
  }

  /** The fields that tell whether anything was launched. */
  predicate Unlaunched(c: Core, c': Core) {
    c'.exitOnStop == c.exitOnStop && c'.startupTries == c.startupTries && c'.launchers == c.launchers
  }

  predicate StartsNothing(c: Core, e: Effect) {
    Unlaunched(c, e.core) && !IsStart(e.task) && (e.call == NoCall || e.call == ToKill)
  }

  lemma StopStartsNothing(cfg: Config, c: Core, alive: set<nat>, t: Task, a: Answer, nextCall: nat, childResolved: bool)
    requires !IsStart(t)
    ensures StartsNothing(c, StopStretch(cfg, c, alive, t, a, nextCall, childResolved))
  {
  }

  lemma KillStartsNothing(c: Core, t: Task, a: Answer)
    requires !IsStart(t)
    ensures StartsNothing(c, KillStretch(c, t, a))
  {
  }

  lemma RestartStartsNothing(c: Core, t: Task, nextCall: nat, childResolved: bool)
    requires !IsStart(t) && c.exitOnStop
    ensures StartsNothing(c, RestartStretch(c, t, nextCall, childResolved))
  {
  }

  lemma ExitStartsNothing(cfg: Config, c: Core, alive: set<nat>, t: Task, a: Answer)
    requires !IsStart(t)
    ensures StartsNothing(c, ExitStretch(cfg, c, alive, t, a))
  {
  }

  lemma UpdateStartsNothing(cfg: Config, c: Core, alive: set<nat>, t: Task, a: Answer, nextCall: nat,
          childResolved: bool)
    requires !IsStart(t)
    ensures StartsNothing(c, UpdateStretch(cfg, c, alive, t, a, nextCall, childResolved))
  {
  }

  lemma LeavingStep(cfg: Config, w: World, id: nat, a: Answer)
    requires Leaving(w) && CanStep(w, id, a)
    ensures var w' := Apply(cfg, w, id, EffectOf(cfg, w, id, a)); Leaving(w') && Unlaunched(w.core, w'.core)
  {
    var t, e, resolved := w.tasks[id], EffectOf(cfg, w, id, a), ChildResolved(w, w.tasks[id]);
    StopStartsNothing(cfg, w.core, w.alive, t, a, |w.tasks|, resolved);
    KillStartsNothing(w.core, t, a);
    RestartStartsNothing(w.core, t, |w.tasks|, resolved);
    ExitStartsNothing(cfg, w.core, w.alive, t, a);
    UpdateStartsNothing(cfg, w.core, w.alive, t, a, |w.tasks|, resolved);
    assert StartsNothing(w.core, e);
    assert NoStart(Parked(w, id, e).tasks);
  }

  lemma LeavingCalls(w: World, isForced: bool)
    requires Leaving(w)
    ensures Leaving(CallStop(w)) && Leaving(CallKill(w)) && Leaving(CallRestart(w, isForced)) &&
            Leaving(CallExpectNodeUpdate(w))
    ensures Unlaunched(w.core, CallExpectNodeUpdate(w).core)
  {
  }

  lemma LeavingOutside(cfg: Config, w: World, e: Event)
    requires Leaving(w) && Enabled(w, e) && !e.Step? && e != SetupStart
    ensures Leaving(Next(cfg, w, e)) && Unlaunched(w.core, Next(cfg, w, e).core)
  {
    match e
    case Restart(isForced) => LeavingCalls(w, isForced);
    case CrashTimer =>
      LeavingCalls(w.(crashTimers := w.crashTimers - 1), false);
      CallsTouchNothing(w.(crashTimers := w.crashTimers - 1), false, false);
    case AwaitUpdate => LeavingCalls(w, false);
    case ProcessDies(_) =>
    case NodeExits(_, code) => assert NoStart(w.tasks + [ExitPoll(code, 0)]);
    case _ =>
      LeavingCalls(w, false);
      CallsTouchNothing(w, false, false);
  }

  /** Once a safe exit has asked the stopping node to exit and no start is in flight, no restart, forced or not, no
      crash timer and no disk report ever launches a node again. */
  lemma {:induction false} LeavingIsFinal(cfg: Config, w: World, es: seq<Event>)
    requires Leaving(w) && Legal(cfg, w, es)
    requires forall i :: 0 <= i < |es| ==> es[i] != SetupStart
    ensures Leaving(Run(cfg, w, es)) && Unlaunched(w.core, Run(cfg, w, es).core)
    decreases |es|
  {
    if es != [] {
      var before, e := es[..|es| - 1], es[|es| - 1];
      LeavingIsFinal(cfg, w, before);
      if e.Step? {
        LeavingStep(cfg, Run(cfg, w, before), e.task, e.answer);
      } else {
        LeavingOutside(cfg, Run(cfg, w, before), e);
      }
    }
  }

  // The same with starts in flight: these may still launch, and nothing else may.

  /** A start that has not got its launcher yet. */
  predicate MayLaunch(t: Task) {
    IsStart(t) && !t.StartWaiting?
  }

  function InFlight(tasks: seq<Task>): nat {
    if tasks == [] then 0 else InFlight(tasks[..|tasks| - 1]) + if MayLaunch(tasks[|tasks| - 1]) then 1 else 0
  }

  lemma InFlightAdd(tasks: seq<Task>, t: Task)
    ensures InFlight(tasks + [t]) == InFlight(tasks) + if MayLaunch(t) then 1 else 0
  {
    assert (tasks + [t])[..|tasks|] == tasks;
  }

  lemma {:induction false} InFlightPut(tasks: seq<Task>, i: nat, t: Task)
    requires i < |tasks|
    ensures InFlight(tasks[i := t]) + (if MayLaunch(tasks[i]) then 1 else 0) ==
            InFlight(tasks) + if MayLaunch(t) then 1 else 0
  {
    var n := |tasks| - 1;
    if i == n {
      assert tasks[i := t][..n] == tasks[..n];
    } else {
      assert tasks[i := t][..n] == tasks[..n][i := t];
      InFlightPut(tasks[..n], i, t);
    }
  }

  /** Launches made and still to come. */
  function Launches(w: World): nat {
    |w.core.launchers| + InFlight(w.tasks)
  }

  /** The exit was asked for; a stretch spends a start in flight on every launcher. */
  predicate Spends(c: Core, t: Task, e: Effect) {
    && e.core.exitOnStop && !e.call.ToStart?
    && |e.core.launchers| + (if MayLaunch(e.task) then 1 else 0) <= |c.launchers| + if MayLaunch(t) then 1 else 0
  }

  lemma StartSpends(cfg: Config, c: Core, alive: set<nat>, t: Task, a: Answer)
    requires c.exitOnStop && IsStart(t)
    ensures Spends(c, t, StartStretch(cfg, c, alive, t, a))
  {
  }

  lemma OthersSpend(cfg: Config, c: Core, alive: set<nat>, t: Task, a: Answer, nextCall: nat, childResolved: bool)
    requires c.exitOnStop && !IsStart(t)
    ensures Spends(c, t, Stretch(cfg, c, alive, t, a, nextCall, childResolved))
  {
    StopStartsNothing(cfg, c, alive, t, a, nextCall, childResolved);
    KillStartsNothing(c, t, a);
    RestartStartsNothing(c, t, nextCall, childResolved);
    ExitStartsNothing(cfg, c, alive, t, a);
    UpdateStartsNothing(cfg, c, alive, t, a, nextCall, childResolved);
  }

  ghost predicate NoMore(w: World, w': World) {
    w'.core.exitOnStop && Launches(w') <= Launches(w)
  }

  lemma StopLaunchesNothing(w: World)
    requires w.core.exitOnStop
    ensures NoMore(w, CallStop(w)) && NoMore(w, CallKill(w))
  {
    InFlightAdd(w.tasks, StopCheck(IsDead(w.core, w.alive), w.core.node));
    InFlightAdd(w.tasks, KillCheck(IsDead(w.core, w.alive), w.core.node));
  }

  lemma AddLaunchesNothing(w: World, t: Task)
    requires w.core.exitOnStop && !MayLaunch(t)
    ensures NoMore(w, Add(w, t))
  {
    InFlightAdd(w.tasks, t);
  }

  lemma RestartLaunchesNothing(w: World, isForced: bool)
    requires w.core.exitOnStop
    ensures NoMore(w, CallRestart(w, isForced))
  {
    if IsConnected(w.core) {
      var t := RestartStopping(|w.tasks|, w.core.configured, isForced);
      StopLaunchesNothing(w);
      AddLaunchesNothing(CallStop(w), t);
      assert CallRestart(w, isForced) == Add(CallStop(w), t);
    } else {
      AddLaunchesNothing(w, RestartGate(w.core.configured, isForced));
    }
  }

  lemma ErrorLaunchesNothing(cfg: Config, w: World)
    requires w.core.exitOnStop
    ensures NoMore(w, CallHandleNodeError(cfg, w))
  {
    RestartLaunchesNothing(w.(core := HandleNodeError(w.core, cfg.maxRetries)), false);
  }

  lemma UpdateLaunchesNothing(w: World)
    requires w.core.exitOnStop
    ensures NoMore(w, CallExpectNodeUpdate(w))
  {
    var w1 := w.(core := BeginUpdate(w.core));
    AddLaunchesNothing(w1, UpdatePoll(0));
    StopLaunchesNothing(w1);
    AddLaunchesNothing(CallKill(w1), UpdateKilling(|w1.tasks|));
  }

  lemma ParkedLaunchesNoMore(w: World, id: nat, e: Effect)
    requires w.core.exitOnStop && id < |w.tasks| && Spends(w.core, w.tasks[id], e)
    ensures NoMore(w, Parked(w, id, e))
  {
    InFlightPut(w.tasks, id, e.task);
  }

  lemma StepLaunchesNoMore(cfg: Config, w: World, id: nat, a: Answer)
    requires w.core.exitOnStop && CanStep(w, id, a)
    ensures NoMore(w, Apply(cfg, w, id, EffectOf(cfg, w, id, a)))
  {
    var t, e := w.tasks[id], EffectOf(cfg, w, id, a);
    if IsStart(t) {
      StartSpends(cfg, w.core, w.alive, t, a);
    } else {
      OthersSpend(cfg, w.core, w.alive, t, a, |w.tasks|, ChildResolved(w, t));
    }
    ParkedLaunchesNoMore(w, id, e);
    match e.call
    case NoCall =>
    case ToKill => StopLaunchesNothing(Parked(w, id, e));
    case ToHandleError => ErrorLaunchesNothing(cfg, Parked(w, id, e));
  }

  lemma ReportLaunchesNothing(w: World, isNotEnough: bool)
    requires w.core.exitOnStop
    ensures NoMore(w, HandleDiskReport(w, isNotEnough)) && NoMore(w, HandleSafeExit(w))
  {
    StopLaunchesNothing(w);
    RestartLaunchesNothing(w, false);
  }

  lemma OutsideLaunchesNoMore(cfg: Config, w: World, e: Event)
    requires w.core.exitOnStop && Enabled(w, e) && !e.Step? && e != SetupStart
    ensures NoMore(w, Next(cfg, w, e))
  {
    match e
    case Restart(isForced) => RestartLaunchesNothing(w, isForced);
    case CrashTimer =>
      var w1 := w.(crashTimers := w.crashTimers - 1);
      RestartLaunchesNothing(w1, false);
      assert NoMore(w, w1) && Next(cfg, w, e) == CallRestart(w1, false);
    case DiskReport(isNotEnough) => ReportLaunchesNothing(w, isNotEnough);
    case SafeExit => ReportLaunchesNothing(w, false);
    case AwaitUpdate => UpdateLaunchesNothing(w);
    case ProcessDies(_) =>
    case NodeExits(h, code) =>
      AddLaunchesNothing(w.(core := BeginExit(w.core), exited := w.exited + {h}), ExitPoll(code, 0));
  }

  lemma {:induction false} OnlyStartsInFlightLaunch(cfg: Config, w: World, es: seq<Event>)
    requires w.core.exitOnStop && Legal(cfg, w, es)
    requires forall i :: 0 <= i < |es| ==> es[i] != SetupStart
    ensures NoMore(w, Run(cfg, w, es))
    decreases |es|
  {
    if es != [] {
      var before, e := es[..|es| - 1], es[|es| - 1];
      OnlyStartsInFlightLaunch(cfg, w, before);
      if e.Step? {
        StepLaunchesNoMore(cfg, Run(cfg, w, before), e.task, e.answer);
      } else {
        OutsideLaunchesNoMore(cfg, Run(cfg, w, before), e);
      }
    }
  }

  /** After a safe exit while STOPPING, whatever happens, no more launchers come than there are starts in flight;
      none, if there are none, and then no start is tried either. */
  lemma SafeExitWhileStopping(cfg: Config, w: World, es: seq<Event>)
    requires w.core.state == Stopping
    requires Legal(cfg, Next(cfg, w, SafeExit), es)
    requires forall i :: 0 <= i < |es| ==> es[i] != SetupStart
    ensures var c := Run(cfg, Next(cfg, w, SafeExit), es).core;
            && |c.launchers| <= |w.core.launchers| + InFlight(w.tasks)
            && (NoStart(w.tasks) ==> c.startupTries == w.core.startupTries && c.launchers == w.core.launchers)
  {
    OnlyStartsInFlightLaunch(cfg, Next(cfg, w, SafeExit), es);
    if NoStart(w.tasks) {
      LeavingIsFinal(cfg, Next(cfg, w, SafeExit), es);
    }
  }

  // Updating.

  /** The latest broadcast says that the node has exited with the update code while the state was UPDATING. */
  predicate JustUpdated(t: seq<Broadcast>) {
    && t != []
    && t[|t| - 1] == Concluded(Updated, BCC_UPDATE_EXIT_CODE)
    && LastState(t[..|t| - 1]) == Updating
  }

  lemma UpdatedIsLatest(c: Core, maxRetries: nat)
    requires Consistent(c, maxRetries) && c.state == Updated
    ensures JustUpdated(c.trace)
  {
    var before, b := c.trace[..|c.trace| - 1], c.trace[|c.trace| - 1];
    assert MayFollow(before, b, maxRetries);
    assert b.SentTls? ==> LastState(before) == Running;
  }

  /** One poll of the wait passes. */
  predicate PassesUpdatePoll(cfg: Config, w: World, id: nat, a: Answer) {
    CanStep(w, id, a) && w.tasks[id].UpdatePoll? && EffectOf(cfg, w, id, a).task.UpdateExitPoll?
  }

  lemma PassedPollSawUpdated(cfg: Config, w: World, id: nat, a: Answer)
    requires PassesUpdatePoll(cfg, w, id, a)
    ensures w.core.state == Updated
  {
  }

  lemma PassedPollIsRightAfter(cfg: Config, w: World, id: nat, a: Answer)
    requires Consistent(w.core, cfg.maxRetries) && PassesUpdatePoll(cfg, w, id, a)
    ensures JustUpdated(w.core.trace)
  {
    PassedPollSawUpdated(cfg, w, id, a);
    UpdatedIsLatest(w.core, cfg.maxRetries);
  }

  /** In every run, a wait for an update gets past its first condition only right after the node has exited with the
      update code. (The wait began by broadcasting UPDATING, so that exit came after it.) */
  lemma UpdateWaitsForUpdated(cfg: Config, previousPid: Option<nat>, alive: set<nat>, es: seq<Event>, id: nat,
          a: Answer)
    requires Legal(cfg, Initial(previousPid, alive), es)
    ensures var w := Run(cfg, Initial(previousPid, alive), es);
            PassesUpdatePoll(cfg, w, id, a) ==> JustUpdated(w.core.trace)
  {
    var w := Run(cfg, Initial(previousPid, alive), es);
    RunIsConsistent(cfg, Initial(previousPid, alive), es);
    if PassesUpdatePoll(cfg, w, id, a) {
      PassedPollIsRightAfter(cfg, w, id, a);
    }
  }
}
