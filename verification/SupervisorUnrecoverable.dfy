/** UNRECOVERABLE is final until a forced restart, and a forced restart gets one launch. */
module SupervisorUnrecoverable {
  import opened Wrappers
  import opened Supervisor
  import opened SupervisorRuns
  import opened SupervisorTrace

  /** A launcher has a pid exactly when it was marked connected. */
  ghost predicate LaunchersTagged(c: Core) {
    forall h :: 0 <= h < |c.launchers| ==> (c.launchers[h].connected <==> c.launchers[h].pid.Some?)
  }

  /** A call that cannot enter another state than UNRECOVERABLE on its own. */
  predicate Harmless(t: Task) {
    match t
    case StartLookup(_, _, isForced) => !isForced
    case StartKill(_, _, isForced) => !isForced
    case StartKillPoll(_, _, _, isForced) => !isForced
    case StartGuard(_, _, isForced) => !isForced
    case RestartStopping(_, _, isForced) => !isForced
    case RestartGate(_, isForced) => !isForced
    case StartLaunching => false
    case StartWaiting(_) => false
    case StopCheck(isDead, _) => isDead
    case KillCheck(isDead, _) => isDead
    case KillStore => false
    case KillReset => false
    case _ => true
  }

  /** A forced restart that has not entered STARTING yet. */
  predicate ForcedPending(t: Task) {
    match t
    case RestartGate(_, isForced) => isForced
    case StartLookup(_, _, isForced) => isForced
    case StartKill(_, _, isForced) => isForced
    case StartKillPoll(_, _, _, isForced) => isForced
    case StartGuard(_, _, isForced) => isForced
    case _ => false
  }

  predicate Launching(t: Task) {
    t.StartLaunching? || t.StartWaiting?
  }

  /** The retries are used up and no node is connected. */
  ghost predicate CalmCore(cfg: Config, c: Core) {
    && IsUnrecoverable(c, cfg.maxRetries)
    && LaunchersTagged(c)
    && !IsConnected(c)
  }

  ghost predicate HarmlessExcept(tasks: seq<Task>, f: Option<nat>) {
    && (forall i :: 0 <= i < |tasks| && Some(i) != f ==> Harmless(tasks[i]))
    && (f.Some? ==> f.value < |tasks| && (ForcedPending(tasks[f.value]) || Launching(tasks[f.value])))
  }

  /** Every call in progress is harmless except, possibly, the forced restart `f`; the state is UNRECOVERABLE
      unless that restart has got as far as launching. */
  ghost predicate Calm(cfg: Config, w: World, f: Option<nat>) {
    && CalmCore(cfg, w.core)
    && HarmlessExcept(w.tasks, f)
    && (f == None || ForcedPending(w.tasks[f.value]) ==> w.core.state == Unrecoverable)
  }

  /** Launches that the forced restart may still make. */
  ghost function Budget(w: World, f: Option<nat>): nat {
    if f.Some? && f.value < |w.tasks| && ForcedPending(w.tasks[f.value]) then 1 else 0
  }

  /** `w'` is calm too, and no start happened that was not in the budget. */
  ghost predicate Progress(cfg: Config, w: World, f: Option<nat>, w': World, f': Option<nat>) {
    && Calm(cfg, w', f')
    && (f == None ==> f' == None && |w'.core.launchers| == |w.core.launchers|)
    && w.core.startupTries <= w'.core.startupTries
    && w'.core.startupTries + Budget(w', f') <= w.core.startupTries + Budget(w, f)
  }

  /** Everything but another forced restart, an update request, and a node that does come up. */
  predicate Quiet(e: Event) {
    match e
    case Restart(isForced) => !isForced
    case AwaitUpdate => false
    case Step(_, a) => a.Fine? || a.Fault?
    case _ => true
  }

  /** What a harmless stretch does. */
  predicate Tame(c: Core, e: Effect) {
    && e.core.launchers == c.launchers
    && (e.core.node == c.node || e.core.node == None)
    && e.core.startupTries == c.startupTries
    && (c.state == Unrecoverable ==> e.core.state == Unrecoverable)
    && Harmless(e.task)
    && (e.call == NoCall || e.call == ToKill || (e.call.ToStart? && !e.call.isForced))
  }

  lemma TameStart(cfg: Config, c: Core, alive: set<nat>, t: Task, a: Answer)
    requires IsUnrecoverable(c, cfg.maxRetries) && Harmless(t)
    ensures Tame(c, StartStretch(cfg, c, alive, t, a))
  {
  }

  lemma TameStop(cfg: Config, c: Core, alive: set<nat>, t: Task, a: Answer, nextCall: nat, childResolved: bool)
    requires Harmless(t)
    ensures Tame(c, StopStretch(cfg, c, alive, t, a, nextCall, childResolved))
  {
  }

  lemma TameKill(c: Core, t: Task, a: Answer)
    requires Harmless(t)
    ensures Tame(c, KillStretch(c, t, a))
  {
  }

  lemma TameRestart(c: Core, t: Task, nextCall: nat, childResolved: bool)
    requires Harmless(t)
    ensures Tame(c, RestartStretch(c, t, nextCall, childResolved))
  {
  }

  lemma TameExit(cfg: Config, c: Core, alive: set<nat>, t: Task, a: Answer)
    requires IsUnrecoverable(c, cfg.maxRetries) && Harmless(t)
    ensures Tame(c, ExitStretch(cfg, c, alive, t, a))
  {
  }

  lemma TameUpdate(cfg: Config, c: Core, alive: set<nat>, t: Task, a: Answer, nextCall: nat, childResolved: bool)
    requires Harmless(t)
    ensures Tame(c, UpdateStretch(cfg, c, alive, t, a, nextCall, childResolved))
  {
  }

  lemma HarmlessStretch(cfg: Config, c: Core, alive: set<nat>, t: Task, a: Answer, nextCall: nat, childResolved: bool)
    requires IsUnrecoverable(c, cfg.maxRetries) && Harmless(t)
    ensures Tame(c, Stretch(cfg, c, alive, t, a, nextCall, childResolved))
  {
    TameStart(cfg, c, alive, t, a);
    TameStop(cfg, c, alive, t, a, nextCall, childResolved);
    TameKill(c, t, a);
    TameRestart(c, t, nextCall, childResolved);
    TameExit(cfg, c, alive, t, a);
    TameUpdate(cfg, c, alive, t, a, nextCall, childResolved);
  }

  lemma ForcedStretch(cfg: Config, c: Core, alive: set<nat>, t: Task, a: Answer, nextCall: nat, childResolved: bool)
    requires CalmCore(cfg, c) && ForcedPending(t) && (a.Fine? || a.Fault?)
    ensures var e := Stretch(cfg, c, alive, t, a, nextCall, childResolved);
            && CalmCore(cfg, e.core)
            && (|| (e.core == c && ForcedPending(e.task) && e.call == NoCall)
                || (e.core == c && Harmless(e.task) && (e.call == NoCall || (e.call.ToStart? && e.call.isForced)))
                || (e.core.startupTries == c.startupTries + 1 && e.task == StartLaunching && e.call == NoCall))
  {
  }

  lemma LaunchStretch(cfg: Config, c: Core, alive: set<nat>, t: Task, a: Answer)
    requires CalmCore(cfg, c) && Launching(t) && (a.Fine? || a.Fault?)
    requires t.StartWaiting? ==> t.launcher < |c.launchers| && a == Fault
    ensures var e := StartStretch(cfg, c, alive, t, a);
            && CalmCore(cfg, e.core) && e.core.startupTries == c.startupTries
            && (|| (Launching(e.task) && e.call == NoCall)
                || (e.core == c && e.task == Settled(false) && e.call == ToHandleError))
  {
  }

  lemma AddHarmless(tasks: seq<Task>, t: Task, f: Option<nat>)
    requires HarmlessExcept(tasks, f) && Harmless(t)
    ensures HarmlessExcept(tasks + [t], f)
  {
  }

  lemma CalmSteps(cfg: Config, w: World, id: nat, a: Answer, f: Option<nat>)
    requires Calm(cfg, w, f) && CanStep(w, id, a) && Quiet(Step(id, a)) && Some(id) != f
    ensures Progress(cfg, w, f, Apply(cfg, w, id, EffectOf(cfg, w, id, a)), f)
  {
    var t, e := w.tasks[id], EffectOf(cfg, w, id, a);
    HarmlessStretch(cfg, w.core, w.alive, t, a, |w.tasks|, ChildResolved(w, t));
    var tasks := w.tasks[id := e.task];
    assert HarmlessExcept(tasks, f);
    if e.call.ToStart? {
      AddHarmless(tasks, FirstStartTask(e.core, e.call.hasConfig, false), f);
    } else if e.call == ToKill {
      AddHarmless(tasks, KillCheck(true, e.core.node), f);
    }
  }

  lemma LaunchSteps(cfg: Config, w: World, id: nat, a: Answer) returns (f': Option<nat>)
    requires Calm(cfg, w, Some(id)) && CanStep(w, id, a) && Quiet(Step(id, a)) && Launching(w.tasks[id])
    ensures Progress(cfg, w, Some(id), Apply(cfg, w, id, EffectOf(cfg, w, id, a)), f')
  {
    var e := EffectOf(cfg, w, id, a);
    LaunchStretch(cfg, w.core, w.alive, w.tasks[id], a);
    f' := if e.call == NoCall then Some(id) else None;
    assert HarmlessExcept(w.tasks[id := e.task], f');
  }

  lemma ForcedSteps(cfg: Config, w: World, id: nat, a: Answer) returns (f': Option<nat>)
    requires Calm(cfg, w, Some(id)) && CanStep(w, id, a) && Quiet(Step(id, a)) && ForcedPending(w.tasks[id])
    ensures Progress(cfg, w, Some(id), Apply(cfg, w, id, EffectOf(cfg, w, id, a)), f')
  {
    var e := EffectOf(cfg, w, id, a);
    ForcedStretch(cfg, w.core, w.alive, w.tasks[id], a, |w.tasks|, ChildResolved(w, w.tasks[id]));
    f' := if e.call.ToStart? then Some(|w.tasks|) else if Harmless(e.task) then None else Some(id);
    assert HarmlessExcept(w.tasks[id := e.task], if Harmless(e.task) then None else Some(id));
  }

  lemma CalmRestart(cfg: Config, w: World, f: Option<nat>)
    requires Calm(cfg, w, f)
    ensures Progress(cfg, w, f, CallRestart(w, false), f)
  {
    AddHarmless(w.tasks, RestartGate(w.core.configured, false), f);
  }

  lemma CalmStop(cfg: Config, w: World, f: Option<nat>)
    requires Calm(cfg, w, f)
    ensures Progress(cfg, w, f, CallStop(w), f)
  {
    AddHarmless(w.tasks, StopCheck(true, w.core.node), f);
  }

  lemma CalmOutside(cfg: Config, w: World, e: Event, f: Option<nat>)
    requires Calm(cfg, w, f) && Enabled(w, e) && Quiet(e) && !e.Step?
    ensures Progress(cfg, w, f, Next(cfg, w, e), f)
  {
    match e
    case SetupStart => AddHarmless(w.tasks, FirstStartTask(w.core, true, false), f);
    case NodeExits(_, code) => AddHarmless(w.tasks, ExitPoll(code, 0), f);
    case ProcessDies(_) =>
    case CrashTimer => CalmRestart(cfg, w.(crashTimers := w.crashTimers - 1), f);
    case Restart(_) => CalmRestart(cfg, w, f);
    case _ =>
      CalmRestart(cfg, w, f);
      CalmStop(cfg, w, f);
  }

  lemma {:induction false} CalmRun(cfg: Config, w: World, es: seq<Event>, f: Option<nat>) returns (f': Option<nat>)
    requires Calm(cfg, w, f) && Legal(cfg, w, es)
    requires forall i :: 0 <= i < |es| ==> Quiet(es[i])
    ensures Progress(cfg, w, f, Run(cfg, w, es), f')
    decreases |es|
  {
    f' := f;
    if es != [] {
      var before, e := es[..|es| - 1], es[|es| - 1];
      f' := CalmRun(cfg, w, before, f);
      if e.Step? {
        if Some(e.task) == f' {
          if Launching(Run(cfg, w, before).tasks[e.task]) {
            f' := LaunchSteps(cfg, Run(cfg, w, before), e.task, e.answer);
          } else {
            f' := ForcedSteps(cfg, Run(cfg, w, before), e.task, e.answer);
          }
        } else {
          CalmSteps(cfg, Run(cfg, w, before), e.task, e.answer, f');
        }
      } else {
        CalmOutside(cfg, Run(cfg, w, before), e, f');
      }
    }
  }

  /** In any run UNRECOVERABLE means that the retries are used up. */
  lemma UnrecoverableIsExhausted(cfg: Config, c: Core)
    requires Consistent(c, cfg.maxRetries) && c.state == Unrecoverable
    ensures IsUnrecoverable(c, cfg.maxRetries)
  {
    var t := c.trace;
    var before, b := t[..|t| - 1], t[|t| - 1];
    assert t == before + [b];
    Extend(before, b, cfg.maxRetries);
  }

  /** What "UNRECOVERABLE, with its node dropped or disconnected, and nothing dangerous under way" means. */
  ghost predicate Fallen(cfg: Config, w: World) {
    && Consistent(w.core, cfg.maxRetries)
    && LaunchersTagged(w.core)
    && w.core.state == Unrecoverable
    && !IsConnected(w.core)
    && forall i :: 0 <= i < |w.tasks| ==> Harmless(w.tasks[i])
  }

  lemma StartStretchTags(cfg: Config, c: Core, alive: set<nat>, t: Task, a: Answer)
    requires LaunchersTagged(c)
    ensures LaunchersTagged(StartStretch(cfg, c, alive, t, a).core)
  {
    if t.StartWaiting? && t.launcher < |c.launchers| && (a.Connects? || a.Unreadable?) {
      assert StartStretch(cfg, c, alive, t, a).core.launchers == ConnectLauncher(c, t.launcher, a.pid).launchers;
    }
  }

  lemma StopKeepsLaunchers(cfg: Config, c: Core, alive: set<nat>, t: Task, a: Answer, nextCall: nat,
          childResolved: bool)
    ensures StopStretch(cfg, c, alive, t, a, nextCall, childResolved).core.launchers == c.launchers
  {
  }

  lemma KillKeepsLaunchers(c: Core, t: Task, a: Answer)
    ensures KillStretch(c, t, a).core.launchers == c.launchers
  {
  }

  lemma ExitKeepsLaunchers(cfg: Config, c: Core, alive: set<nat>, t: Task, a: Answer)
    ensures ExitStretch(cfg, c, alive, t, a).core.launchers == c.launchers
  {
  }

  lemma OthersKeepLaunchers(cfg: Config, c: Core, alive: set<nat>, t: Task, a: Answer, nextCall: nat,
          childResolved: bool)
    ensures RestartStretch(c, t, nextCall, childResolved).core.launchers == c.launchers
    ensures UpdateStretch(cfg, c, alive, t, a, nextCall, childResolved).core.launchers == c.launchers
  {
  }

  lemma StretchTags(cfg: Config, c: Core, alive: set<nat>, t: Task, a: Answer, nextCall: nat, childResolved: bool)
    requires LaunchersTagged(c)
    ensures LaunchersTagged(Stretch(cfg, c, alive, t, a, nextCall, childResolved).core)
  {
    StartStretchTags(cfg, c, alive, t, a);
    StopKeepsLaunchers(cfg, c, alive, t, a, nextCall, childResolved);
    KillKeepsLaunchers(c, t, a);
    ExitKeepsLaunchers(cfg, c, alive, t, a);
    OthersKeepLaunchers(cfg, c, alive, t, a, nextCall, childResolved);
  }

  lemma NextTags(cfg: Config, w: World, e: Event)
    requires LaunchersTagged(w.core) && Enabled(w, e)
    ensures LaunchersTagged(Next(cfg, w, e).core)
  {
    if e.Step? {
      StretchTags(cfg, w.core, w.alive, w.tasks[e.task], e.answer, |w.tasks|, ChildResolved(w, w.tasks[e.task]));
      assert Next(cfg, w, e).core.launchers == EffectOf(cfg, w, e.task, e.answer).core.launchers;
    } else {
      assert Next(cfg, w, e).core.launchers == w.core.launchers;
    }
  }

  lemma {:induction false} RunTags(cfg: Config, w: World, es: seq<Event>)
    requires LaunchersTagged(w.core) && Legal(cfg, w, es)
    ensures LaunchersTagged(Run(cfg, w, es).core)
    decreases |es|
  {
    if es != [] {
      RunTags(cfg, w, es[..|es| - 1]);
      NextTags(cfg, Run(cfg, w, es[..|es| - 1]), es[|es| - 1]);
    }
  }

  /** Any run that has reached UNRECOVERABLE without a connected node, and has no start, stop or kill of a live node
      under way, has fallen. */
  lemma ReachedUnrecoverableIsFallen(cfg: Config, previousPid: Option<nat>, alive: set<nat>, es: seq<Event>)
    requires Legal(cfg, Initial(previousPid, alive), es)
    requires var w := Run(cfg, Initial(previousPid, alive), es);
             w.core.state == Unrecoverable && !IsConnected(w.core) && forall i :: 0 <= i < |w.tasks| ==>
                 Harmless(w.tasks[i])
    ensures Fallen(cfg, Run(cfg, Initial(previousPid, alive), es))
  {
    RunIsConsistent(cfg, Initial(previousPid, alive), es);
    RunTags(cfg, Initial(previousPid, alive), es);
  }

  /** Unforced restarts, crash timers, disk reports of either kind, exit events, safe exits and all calls in progress,
      in any number and any order, leave the state UNRECOVERABLE and launch nothing. */
  lemma UnrecoverableIsFinal(cfg: Config, w: World, es: seq<Event>)
    requires Fallen(cfg, w) && Legal(cfg, w, es)
    requires forall i :: 0 <= i < |es| ==> Quiet(es[i])
    ensures var w' := Run(cfg, w, es);
            && Fallen(cfg, w')
            && w'.core.startupTries == w.core.startupTries
            && |w'.core.launchers| == |w.core.launchers|
  {
    UnrecoverableIsExhausted(cfg, w.core);
    RunIsConsistent(cfg, w, es);
    var _ := CalmRun(cfg, w, es, None);
  }

  predicate NoForcedStart(w: World) {
    forall i :: 0 <= i < |w.tasks| ==> !ForcedPending(w.tasks[i]) && !Launching(w.tasks[i])
  }

  lemma CalmIsFallen(cfg: Config, w: World, f: Option<nat>)
    requires Calm(cfg, w, f) && Consistent(w.core, cfg.maxRetries) && NoForcedStart(w)
    ensures Fallen(cfg, w)
  {
    assert f == None;
  }

  lemma ForcedRestartIsCalm(cfg: Config, w: World)
    requires Fallen(cfg, w)
    ensures Calm(cfg, CallRestart(w, true), Some(|w.tasks|))
  {
    UnrecoverableIsExhausted(cfg, w.core);
  }

  /** A forced restart of a fallen node makes at most one launch, whatever else happens meanwhile; and once that restart
      is through, if its launch failed or was refused, the node is fallen again. */
  lemma ForcedRestartGetsOneLaunch(cfg: Config, w: World, es: seq<Event>)
    requires Fallen(cfg, w)
    requires Legal(cfg, CallRestart(w, true), es)
    requires forall i :: 0 <= i < |es| ==> Quiet(es[i])
    ensures var w' := Run(cfg, CallRestart(w, true), es);
            && w.core.startupTries <= w'.core.startupTries <= w.core.startupTries + 1
            && (NoForcedStart(w') ==> Fallen(cfg, w'))
  {
    ForcedRestartIsCalm(cfg, w);
    RunIsConsistent(cfg, CallRestart(w, true), es);
    var f := CalmRun(cfg, CallRestart(w, true), es, Some(|w.tasks|));
    var w' := Run(cfg, CallRestart(w, true), es);
    if NoForcedStart(w') {
      CalmIsFallen(cfg, w', f);
    }
  }
}
