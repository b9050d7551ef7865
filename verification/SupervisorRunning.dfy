/** RUNNING means a connected node and a TLS config, in every orderly session, exactly as long as no failed `kill`
    cleans up under it. Without awaited updates none does: then only `stop` calls `kill`, after it has left RUNNING. */
module SupervisorRunning {
  import opened Wrappers
  import opened Supervisor
  import opened SupervisorRuns
  import opened SupervisorUnrecoverable
  import opened SupervisorSequenced

  predicate Equipped(c: Core) {
    c.state == Running ==> IsConnected(c) && c.tlsConfig.Some?
  }

  /** The cleanup of a `kill` that failed, run while the state is RUNNING. */
  predicate CleansUpUnderRunning(w: World, e: Event) {
    e.Step? && e.task < |w.tasks| && w.tasks[e.task].KillFailedReset? && w.core.state == Running
  }

  lemma StartEquips(cfg: Config, c: Core, alive: set<nat>, t: Task, a: Answer)
    requires CoreInv(c, {}) && TaskInv(c, {}, t) && Equipped(c) && IsStart(t)
    ensures Equipped(StartStretch(cfg, c, alive, t, a).core)
  {
  }

  lemma StopEquips(cfg: Config, c: Core, alive: set<nat>, t: Task, a: Answer, nextCall: nat, childResolved: bool)
    requires TaskInv(c, {}, t) && Equipped(c)
    ensures Equipped(StopStretch(cfg, c, alive, t, a, nextCall, childResolved).core)
  {
  }

  lemma KillEquips(c: Core, t: Task, a: Answer)
    requires IsKill(t) && Equipped(c)
    ensures Equipped(KillStretch(c, t, a).core) <==> !(t.KillFailedReset? && c.state == Running)
  {
  }

  lemma RestartEquips(c: Core, t: Task, nextCall: nat, childResolved: bool)
    requires Equipped(c)
    ensures Equipped(RestartStretch(c, t, nextCall, childResolved).core)
  {
  }

  lemma ExitEquips(cfg: Config, c: Core, alive: set<nat>, t: Task, a: Answer)
    requires TaskInv(c, {}, t) && Equipped(c)
    ensures Equipped(ExitStretch(cfg, c, alive, t, a).core)
  {
  }

  lemma UpdateEquips(cfg: Config, c: Core, alive: set<nat>, t: Task, a: Answer, nextCall: nat, childResolved: bool)
    requires Equipped(c)
    ensures Equipped(UpdateStretch(cfg, c, alive, t, a, nextCall, childResolved).core)
  {
  }

  lemma StretchEquips(cfg: Config, w: World, id: nat, a: Answer)
    requires Inv(w, false) && CanStep(w, id, a) && Equipped(w.core)
    ensures Equipped(EffectOf(cfg, w, id, a).core) <==> !CleansUpUnderRunning(w, Step(id, a))
  {
    var t, resolved := w.tasks[id], ChildResolved(w, w.tasks[id]);
    assert TaskInv(w.core, {}, t);
    if IsStart(t) {
      StartEquips(cfg, w.core, w.alive, t, a);
    } else if IsStop(t) {
      StopEquips(cfg, w.core, w.alive, t, a, |w.tasks|, resolved);
    } else if IsKill(t) {
      KillEquips(w.core, t, a);
    } else if IsRestart(t) {
      RestartEquips(w.core, t, |w.tasks|, resolved);
    } else if IsExit(t) {
      ExitEquips(cfg, w.core, w.alive, t, a);
    } else {
      UpdateEquips(cfg, w.core, w.alive, t, a, |w.tasks|, resolved);
    }
  }

  /** The calls that end a stretch leave RUNNING, or leave everything that counts as it is. */
  lemma ApplyEquips(cfg: Config, w: World, id: nat, e: Effect)
    requires id < |w.tasks|
    ensures var c' := Apply(cfg, w, id, e).core;
            && (e.call != ToHandleError ==> c' == e.core)
            && (e.call == ToHandleError ==> Equipped(c'))
  {
  }

  lemma ErrorComesFromStart(cfg: Config, w: World, id: nat, a: Answer)
    requires CanStep(w, id, a) && EffectOf(cfg, w, id, a).call == ToHandleError
    ensures IsStart(w.tasks[id])
  {
  }

  lemma StepEquips(cfg: Config, w: World, id: nat, a: Answer)
    requires Inv(w, false) && CanStep(w, id, a) && Equipped(w.core)
    ensures Equipped(Apply(cfg, w, id, EffectOf(cfg, w, id, a)).core) <==> !CleansUpUnderRunning(w, Step(id, a))
  {
    var e := EffectOf(cfg, w, id, a);
    StretchEquips(cfg, w, id, a);
    ApplyEquips(cfg, w, id, e);
    if e.call == ToHandleError {
      ErrorComesFromStart(cfg, w, id, a);
    }
  }

  lemma OutsideEquips(cfg: Config, w: World, e: Event)
    requires Enabled(w, e) && !e.Step? && Equipped(w.core)
    ensures Equipped(Next(cfg, w, e).core)
  {
  }

  /** One event keeps RUNNING equipped exactly when it is not that cleanup. */
  lemma OnlyFailedKillStrands(cfg: Config, w: World, e: Event)
    requires Inv(w, false) && Enabled(w, e) && Equipped(w.core)
    ensures Equipped(Next(cfg, w, e).core) <==> !CleansUpUnderRunning(w, e)
  {
    if e.Step? {
      StepEquips(cfg, w, e.task, e.answer);
    } else {
      OutsideEquips(cfg, w, e);
    }
  }

  ghost predicate NeverCleansUp(cfg: Config, w: World, es: seq<Event>)
    requires Legal(cfg, w, es)
  {
    es == [] ||
    var before, e := es[..|es| - 1], es[|es| - 1];
    NeverCleansUp(cfg, w, before) && !CleansUpUnderRunning(Run(cfg, w, before), e)
  }

  ghost predicate AlwaysEquipped(cfg: Config, w: World, es: seq<Event>)
    requires Legal(cfg, w, es)
  {
    Equipped(Run(cfg, w, es).core) && (es == [] || AlwaysEquipped(cfg, w, es[..|es| - 1]))
  }

  lemma {:induction false} EquippedIff(cfg: Config, w: World, es: seq<Event>)
    requires Inv(w, false) && Equipped(w.core)
    requires Legal(cfg, w, es) && OrderlyRun(cfg, w, es)
    ensures AlwaysEquipped(cfg, w, es) <==> NeverCleansUp(cfg, w, es)
    decreases |es|
  {
    if es != [] {
      var before := es[..|es| - 1];
      EquippedIff(cfg, w, before);
      OrderlyRunInv(cfg, w, false, before);
      if AlwaysEquipped(cfg, w, before) {
        OnlyFailedKillStrands(cfg, Run(cfg, w, before), es[|es| - 1]);
      }
    }
  }

  /** Throughout an orderly session, with updates or without, RUNNING means a connected node and a TLS config if and
      only if no failed `kill` ever cleans up while the state is RUNNING. */
  lemma RunningHasNode(cfg: Config, previousPid: Option<nat>, alive: set<nat>, es: seq<Event>)
    requires Legal(cfg, Initial(previousPid, alive), es)
    requires OrderlyRun(cfg, Initial(previousPid, alive), es)
    ensures AlwaysEquipped(cfg, Initial(previousPid, alive), es) <==>
            NeverCleansUp(cfg, Initial(previousPid, alive), es)
  {
    InitialInv(previousPid, alive, false);
    EquippedIff(cfg, Initial(previousPid, alive), es);
  }

  // Without updates.

  /** A kill that found the node alive. */
  predicate LiveKill(t: Task) {
    IsKill(t) && !(t.KillCheck? && t.isDead)
  }

  predicate Proper(c: Core, t: Task) {
    !IsUpdate(t) && (LiveKill(t) ==> !UpOrComing(c.state))
  }

  /** No update is awaited, and no node that is up or coming is being killed. */
  predicate Healthy(c: Core, tasks: seq<Task>) {
    forall i :: 0 <= i < |tasks| ==> Proper(c, tasks[i])
  }

  /** A stretch that does not bring the node up. */
  predicate Harmonious(c: Core, e: Effect) {
    && (UpOrComing(e.core.state) ==> UpOrComing(c.state))
    && Proper(e.core, e.task)
    && (e.call == ToKill ==> !UpOrComing(e.core.state))
  }

  lemma HarmoniousPut(c: Core, tasks: seq<Task>, id: nat, e: Effect)
    requires id < |tasks| && Healthy(c, tasks) && Harmonious(c, e)
    ensures Healthy(e.core, tasks[id := e.task])
  {
    var tasks' := tasks[id := e.task];
    forall i | 0 <= i < |tasks'|
      ensures Proper(e.core, tasks'[i])
    {
      assert Proper(c, tasks[i]);
    }
  }

  predicate BringsUp(t: Task, e: Effect, a: Answer) {
    (t.StartGuard? && e.task.StartLaunching?) || (t.StartWaiting? && a.Connects?)
  }

  lemma StartIsHarmonious(cfg: Config, c: Core, alive: set<nat>, t: Task, a: Answer)
    requires TaskInv(c, {}, t) && IsStart(t) && (t.StartWaiting? ==> t.launcher < |c.launchers|)
    requires !BringsUp(t, StartStretch(cfg, c, alive, t, a), a)
    ensures Harmonious(c, StartStretch(cfg, c, alive, t, a))
  {
  }

  lemma StopIsHarmonious(cfg: Config, c: Core, alive: set<nat>, t: Task, a: Answer, nextCall: nat, childResolved: bool)
    requires TaskInv(c, {}, t) && IsStop(t)
    ensures Harmonious(c, StopStretch(cfg, c, alive, t, a, nextCall, childResolved))
  {
  }

  lemma KillIsHarmonious(c: Core, t: Task, a: Answer)
    requires IsKill(t) && Proper(c, t)
    ensures Harmonious(c, KillStretch(c, t, a))
  {
  }

  lemma RestartIsHarmonious(c: Core, t: Task, nextCall: nat, childResolved: bool)
    requires IsRestart(t)
    ensures Harmonious(c, RestartStretch(c, t, nextCall, childResolved))
  {
  }

  lemma ExitIsHarmonious(cfg: Config, c: Core, alive: set<nat>, t: Task, a: Answer)
    requires TaskInv(c, {}, t) && IsExit(t)
    ensures Harmonious(c, ExitStretch(cfg, c, alive, t, a))
  {
  }

  lemma OthersAreHarmonious(cfg: Config, w: World, id: nat, a: Answer)
    requires Inv(w, false) && Healthy(w.core, w.tasks) && CanStep(w, id, a) && !IsStart(w.tasks[id])
    ensures Harmonious(w.core, EffectOf(cfg, w, id, a))
  {
    var t, resolved := w.tasks[id], ChildResolved(w, w.tasks[id]);
    assert TaskInv(w.core, {}, t) && Proper(w.core, t);
    if IsStop(t) {
      StopIsHarmonious(cfg, w.core, w.alive, t, a, |w.tasks|, resolved);
    } else if IsKill(t) {
      KillIsHarmonious(w.core, t, a);
    } else if IsRestart(t) {
      RestartIsHarmonious(w.core, t, |w.tasks|, resolved);
    } else {
      assert IsExit(t);
      ExitIsHarmonious(cfg, w.core, w.alive, t, a);
    }
  }

  /** While a node comes up, nothing is killed. */
  lemma UpIsHealthy(c: Core, tasks: seq<Task>, id: nat, e: Effect)
    requires id < |tasks| && Healthy(c, tasks) && NoneActive(tasks) && Proper(e.core, e.task)
    ensures Healthy(e.core, tasks[id := e.task])
  {
    var tasks' := tasks[id := e.task];
    forall i | 0 <= i < |tasks'|
      ensures Proper(e.core, tasks'[i])
    {
      assert Proper(c, tasks[i]) && !Active(tasks[i]);
    }
  }

  lemma StartKeepsHealth(cfg: Config, w: World, id: nat, a: Answer)
    requires Inv(w, false) && Healthy(w.core, w.tasks) && CanStep(w, id, a)
    requires Orderly(w, Step(id, a)) && IsStart(w.tasks[id])
    ensures var e := EffectOf(cfg, w, id, a); Healthy(e.core, w.tasks[id := e.task]) && e.call != ToKill
  {
    var t, e := w.tasks[id], EffectOf(cfg, w, id, a);
    assert TaskInv(w.core, {}, t);
    if BringsUp(t, e, a) {
      if t.StartWaiting? {
        assert Launching(t) && Fragile(w.core, w.tasks);
      }
      UpIsHealthy(w.core, w.tasks, id, e);
    } else {
      StartIsHarmonious(cfg, w.core, w.alive, t, a);
      HarmoniousPut(w.core, w.tasks, id, e);
    }
  }

  lemma StretchKeepsHealth(cfg: Config, w: World, id: nat, a: Answer)
    requires Inv(w, false) && Healthy(w.core, w.tasks) && CanStep(w, id, a) && Orderly(w, Step(id, a))
    ensures var e := EffectOf(cfg, w, id, a);
            Healthy(e.core, w.tasks[id := e.task]) && (e.call == ToKill ==> !UpOrComing(e.core.state))
  {
    if IsStart(w.tasks[id]) {
      StartKeepsHealth(cfg, w, id, a);
    } else {
      OthersAreHarmonious(cfg, w, id, a);
      HarmoniousPut(w.core, w.tasks, id, EffectOf(cfg, w, id, a));
    }
  }

  lemma AddKeepsHealth(c: Core, tasks: seq<Task>, t: Task)
    requires Healthy(c, tasks) && Proper(c, t)
    ensures Healthy(c, tasks + [t])
  {
  }

  lemma CallsKeepHealth(w: World, hasConfig: bool, isForced: bool)
    requires Healthy(w.core, w.tasks)
    ensures Healthy(w.core, CallStart(w, hasConfig, isForced).tasks) && Healthy(w.core, CallStop(w).tasks)
    ensures Healthy(w.core, CallRestart(w, isForced).tasks)
    ensures !UpOrComing(w.core.state) ==> Healthy(w.core, CallKill(w).tasks)
  {
    AddKeepsHealth(w.core, w.tasks, FirstStartTask(w.core, hasConfig, isForced));
    var stop := StopCheck(IsDead(w.core, w.alive), w.core.node);
    AddKeepsHealth(w.core, w.tasks, stop);
    AddKeepsHealth(w.core, w.tasks + [stop], RestartStopping(|w.tasks|, w.core.configured, isForced));
    AddKeepsHealth(w.core, w.tasks, RestartGate(w.core.configured, isForced));
  }

  /** Leaving STARTING and RUNNING harms no task. */
  lemma CalmerKeepsHealth(c: Core, c': Core, tasks: seq<Task>)
    requires Healthy(c, tasks) && (UpOrComing(c'.state) ==> UpOrComing(c.state))
    ensures Healthy(c', tasks)
  {
    forall i | 0 <= i < |tasks|
      ensures Proper(c', tasks[i])
    {
      assert Proper(c, tasks[i]);
    }
  }

  lemma ErrorKeepsHealth(cfg: Config, w: World)
    requires Healthy(w.core, w.tasks)
    ensures Healthy(CallHandleNodeError(cfg, w).core, CallHandleNodeError(cfg, w).tasks)
  {
    var w1 := w.(core := HandleNodeError(w.core, cfg.maxRetries));
    CalmerKeepsHealth(w.core, w1.core, w.tasks);
    CallsKeepHealth(w1, false, false);
  }

  lemma StepKeepsHealth(cfg: Config, w: World, id: nat, a: Answer)
    requires Inv(w, false) && Healthy(w.core, w.tasks) && CanStep(w, id, a) && Orderly(w, Step(id, a))
    ensures var w' := Apply(cfg, w, id, EffectOf(cfg, w, id, a)); Healthy(w'.core, w'.tasks)
  {
    var e := EffectOf(cfg, w, id, a);
    var w1 := Parked(w, id, e);
    StretchKeepsHealth(cfg, w, id, a);
    match e.call
    case NoCall =>
    case ToStart(hasConfig, isForced) => CallsKeepHealth(w1, hasConfig, isForced);
    case ToKill => CallsKeepHealth(w1, false, false);
    case ToHandleError => ErrorKeepsHealth(cfg, w1);
  }

  lemma OutsideKeepsHealth(cfg: Config, w: World, e: Event)
    requires Healthy(w.core, w.tasks) && Enabled(w, e) && !e.Step? && e != AwaitUpdate
    ensures Healthy(Next(cfg, w, e).core, Next(cfg, w, e).tasks)
  {
    match e
    case Restart(isForced) => CallsKeepHealth(w, true, isForced);
    case CrashTimer => CallsKeepHealth(w.(crashTimers := w.crashTimers - 1), true, false);
    case SafeExit =>
      CallsKeepHealth(w, true, false);
      CalmerKeepsHealth(w.core, w.core.(exitOnStop := true), w.tasks);
    case ProcessDies(_) =>
    case NodeExits(_, code) =>
      CalmerKeepsHealth(w.core, BeginExit(w.core), w.tasks);
      AddKeepsHealth(BeginExit(w.core), w.tasks, ExitPoll(code, 0));
    case _ => CallsKeepHealth(w, true, false);
  }

  lemma {:induction false} WithoutUpdatesNeverCleansUp(cfg: Config, w: World, es: seq<Event>)
    requires Inv(w, false) && Healthy(w.core, w.tasks)
    requires Legal(cfg, w, es) && OrderlyRun(cfg, w, es)
    requires forall i :: 0 <= i < |es| ==> es[i] != AwaitUpdate
    ensures Healthy(Run(cfg, w, es).core, Run(cfg, w, es).tasks) && NeverCleansUp(cfg, w, es)
    decreases |es|
  {
    if es != [] {
      var before, e := es[..|es| - 1], es[|es| - 1];
      WithoutUpdatesNeverCleansUp(cfg, w, before);
      OrderlyRunInv(cfg, w, false, before);
      var w1 := Run(cfg, w, before);
      if e.Step? {
        assert Proper(w1.core, w1.tasks[e.task]);
        StepKeepsHealth(cfg, w1, e.task, e.answer);
      } else {
        OutsideKeepsHealth(cfg, w1, e);
      }
    }
  }

  /** So it is in every session in which no update is awaited. */
  lemma RunningHasNodeWithoutUpdates(cfg: Config, previousPid: Option<nat>, alive: set<nat>, es: seq<Event>)
    requires Legal(cfg, Initial(previousPid, alive), es)
    requires OrderlyRun(cfg, Initial(previousPid, alive), es)
    requires forall i :: 0 <= i < |es| ==> es[i] != AwaitUpdate
    ensures AlwaysEquipped(cfg, Initial(previousPid, alive), es)
  {
    InitialInv(previousPid, alive, false);
    WithoutUpdatesNeverCleansUp(cfg, Initial(previousPid, alive), es);
    RunningHasNode(cfg, previousPid, alive, es);
  }
}
