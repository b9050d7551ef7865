/** A session that finds the node process of an earlier session still alive: `_killProcessWithName` reads a config
    that only a successful guard ever sets, so the first start refuses, and so does every later one. */
module SupervisorLeftover {
  import opened Wrappers
  import opened Supervisor
  import opened SupervisorRuns

  /** A call that cannot get past the guards of `start` while no config was ever set. */
  predicate Barred(t: Task) {
    match t
    case StartLookup(_, hasConfig, _) => !hasConfig
    case StartKill(_, _, _) => true
    case StartKillPoll(_, _, hasConfig, _) => !hasConfig
    case StartGuard(canBeStarted, hasConfig, _) => !(canBeStarted && hasConfig)
    case RestartStopping(_, hasConfig, _) => !hasConfig
    case RestartGate(hasConfig, _) => !hasConfig
    case StartLaunching => false
    case StartWaiting(_) => false
    case _ => true
  }

  predicate NeverConfigured(c: Core) {
    && !c.configured && c.startupTries == 0 && c.launchers == [] && c.node == None
    && c.state != Starting && c.state != Running
  }

  predicate Barren(w: World) {
    NeverConfigured(w.core) && forall i :: 0 <= i < |w.tasks| ==> Barred(w.tasks[i])
  }

  /** What a stretch of a barred call does. */
  predicate Idle(e: Effect) {
    && NeverConfigured(e.core) && Barred(e.task)
    && e.call != ToHandleError && (e.call.ToStart? ==> !e.call.hasConfig)
  }

  lemma BarredStart(cfg: Config, c: Core, alive: set<nat>, t: Task, a: Answer)
    requires NeverConfigured(c) && Barred(t)
    ensures Idle(StartStretch(cfg, c, alive, t, a))
  {
  }

  lemma BarredStop(cfg: Config, c: Core, alive: set<nat>, t: Task, a: Answer, nextCall: nat, childResolved: bool)
    requires NeverConfigured(c) && Barred(t)
    ensures Idle(StopStretch(cfg, c, alive, t, a, nextCall, childResolved))
  {
  }

  lemma BarredKill(c: Core, t: Task, a: Answer)
    requires NeverConfigured(c) && Barred(t)
    ensures Idle(KillStretch(c, t, a))
  {
  }

  lemma BarredRestart(c: Core, t: Task, nextCall: nat, childResolved: bool)
    requires NeverConfigured(c) && Barred(t)
    ensures Idle(RestartStretch(c, t, nextCall, childResolved))
  {
  }

  lemma BarredExit(cfg: Config, c: Core, alive: set<nat>, t: Task, a: Answer)
    requires NeverConfigured(c) && Barred(t)
    ensures Idle(ExitStretch(cfg, c, alive, t, a))
  {
  }

  lemma BarredUpdate(cfg: Config, c: Core, alive: set<nat>, t: Task, a: Answer, nextCall: nat, childResolved: bool)
    requires NeverConfigured(c) && Barred(t)
    ensures Idle(UpdateStretch(cfg, c, alive, t, a, nextCall, childResolved))
  {
  }

  lemma BarredStretch(cfg: Config, c: Core, alive: set<nat>, t: Task, a: Answer, nextCall: nat, childResolved: bool)
    requires NeverConfigured(c) && Barred(t)
    ensures Idle(Stretch(cfg, c, alive, t, a, nextCall, childResolved))
  {
    BarredStart(cfg, c, alive, t, a);
    BarredStop(cfg, c, alive, t, a, nextCall, childResolved);
    BarredKill(c, t, a);
    BarredRestart(c, t, nextCall, childResolved);
    BarredExit(cfg, c, alive, t, a);
    BarredUpdate(cfg, c, alive, t, a, nextCall, childResolved);
  }

  lemma BarrenStep(cfg: Config, w: World, id: nat, a: Answer)
    requires Barren(w) && CanStep(w, id, a)
    ensures Barren(Apply(cfg, w, id, EffectOf(cfg, w, id, a)))
  {
    var e := EffectOf(cfg, w, id, a);
    BarredStretch(cfg, w.core, w.alive, w.tasks[id], a, |w.tasks|, ChildResolved(w, w.tasks[id]));
    assert Barren(Parked(w, id, e));
  }

  lemma BarrenCalls(w: World, isForced: bool)
    requires Barren(w)
    ensures Barren(CallStop(w)) && Barren(CallRestart(w, isForced)) && Barren(CallExpectNodeUpdate(w))
  {
  }

  lemma BarrenNext(cfg: Config, w: World, e: Event)
    requires Barren(w) && Enabled(w, e) && e != SetupStart
    ensures Barren(Next(cfg, w, e))
  {
    match e
    case Step(id, a) => BarrenStep(cfg, w, id, a);
    case Restart(isForced) => BarrenCalls(w, isForced);
    case CrashTimer => BarrenCalls(w.(crashTimers := w.crashTimers - 1), false);
    case ProcessDies(_) =>
    case _ => BarrenCalls(w, false);
  }

  lemma {:induction false} BarrenRun(cfg: Config, w: World, es: seq<Event>)
    requires Barren(w) && Legal(cfg, w, es)
    requires forall i :: 0 <= i < |es| ==> es[i] != SetupStart
    ensures Barren(Run(cfg, w, es))
    decreases |es|
  {
    if es != [] {
      BarrenRun(cfg, w, es[..|es| - 1]);
      BarrenNext(cfg, Run(cfg, w, es[..|es| - 1]), es[|es| - 1]);
    }
  }

  /** The session's one start, when its lookup finds the recorded process alive. */
  function FoundAlive(cfg: Config, pid: nat, alive: set<nat>): World
    requires pid in alive
  {
    var w := CallStart(Initial(Some(pid), alive), true, false);
    Next(cfg, w, Step(0, Fine))
  }

  /** Then nothing, not even forced restarts or killing that process, ever gets this session to launch a node. */
  lemma LeftoverNodeBarsTheSession(cfg: Config, pid: nat, alive: set<nat>, es: seq<Event>)
    requires pid in alive
    requires Legal(cfg, FoundAlive(cfg, pid, alive), es)
    requires forall i :: 0 <= i < |es| ==> es[i] != SetupStart
    ensures var c := Run(cfg, FoundAlive(cfg, pid, alive), es).core;
            c.startupTries == 0 && c.launchers == [] && c.state != Starting && c.state != Running
  {
    FoundAliveIsBarren(cfg, pid, alive);
    BarrenRun(cfg, FoundAlive(cfg, pid, alive), es);
  }

  lemma FoundAliveIsBarren(cfg: Config, pid: nat, alive: set<nat>)
    requires pid in alive
    ensures Barren(FoundAlive(cfg, pid, alive))
  {
    var w := CallStart(Initial(Some(pid), alive), true, false);
    assert w.tasks == [StartLookup(pid, true, false)];
    assert EffectOf(cfg, w, 0, Fine) == Plain(w.core, StartKill(pid, true, false));
  }

  /** The session's one start enters STARTING exactly when nothing is on record or the lookup reports it gone. */
  lemma FirstStartNeedsNoLeftover(cfg: Config, previousPid: Option<nat>, alive: set<nat>, a: Answer)
    requires cfg.maxRetries > 0 && (a == Fine || a == Fault)
    ensures var w0 := CallStart(Initial(previousPid, alive), true, false);
            var w1 := if previousPid.Some? then Next(cfg, w0, Step(0, a)) else w0;
            && Enabled(w1, Step(0, Fine))
            && (Next(cfg, w1, Step(0, Fine)).core.state == Starting <==> !SeenRunning(alive, previousPid, a))
            && (SeenRunning(alive, previousPid, a) ==> Barren(w1))
  {
    var w0 := CallStart(Initial(previousPid, alive), true, false);
    assert w0.tasks[0] == FirstStartTask(w0.core, true, false);
  }
}
