/** The recursion start, _handleBccNodeError, restart, start when every launch fails. */
module SupervisorFailing {
  import opened Wrappers
  import opened Supervisor
  import opened SupervisorRuns
  import opened SupervisorUnrecoverable

  /** Calls in progress go on, in any order, and no launch succeeds. */
  predicate Failing(e: Event) {
    e.Step? && (e.answer == Fine || e.answer == Fault)
  }

  /** No connected node, and no process under the recorded pid. */
  ghost predicate Startable(c: Core, alive: set<nat>) {
    && LaunchersTagged(c)
    && !IsConnected(c)
    && !c.exitOnStop
    && (c.previousPid.Some? ==> c.previousPid.value !in alive)
  }

  /** A call that never goes on: it never settles, or waits for a later call that never goes on. */
  predicate Hopeless(tasks: seq<Task>, i: nat)
    requires i < |tasks|
    decreases |tasks| - i
  {
    || tasks[i].NeverSettles?
    || (&& ChildOf(tasks[i]).Some?
        && i < ChildOf(tasks[i]).value < |tasks|
        && Hopeless(tasks, ChildOf(tasks[i]).value))
  }

  /** No call will go on. */
  predicate Idle(tasks: seq<Task>) {
    forall i :: 0 <= i < |tasks| ==> tasks[i].Settled? || Hopeless(tasks, i)
  }

  /** The calls of an idle supervisor stay as they were, and all later ones are settled. */
  predicate SettledSince(earlier: seq<Task>, tasks: seq<Task>) {
    && |earlier| <= |tasks|
    && (forall i :: 0 <= i < |earlier| ==> tasks[i] == earlier[i])
    && (forall i :: |earlier| <= i < |tasks| ==> tasks[i].Settled?)
  }

  /** What a run of failing launches comes to: the tries there will have been, beside the calls that were there
      before. */
  datatype Goal = Goal(final: nat, earlier: seq<Task>)

  /** The tries there will have been when every launch has failed: as many as allowed, or one more than before if the
      first start is forced past the bound. */
  function FinalTries(cfg: Config, c: Core, isForced: bool): nat {
    if isForced && IsUnrecoverable(c, cfg.maxRetries) then c.startupTries + 1 else cfg.maxRetries
  }

  predicate BeforeLaunch(c: Core, t: Task) {
    match t
    case RestartGate(hasConfig, _) => hasConfig
    case StartLookup(pid, hasConfig, _) => hasConfig && c.previousPid == Some(pid)
    case StartGuard(canBeStarted, hasConfig, _) => canBeStarted && hasConfig
    case _ => false
  }

  predicate Forced(t: Task) {
    match t
    case RestartGate(_, isForced) => isForced
    case StartLookup(_, _, isForced) => isForced
    case StartGuard(_, _, isForced) => isForced
    case _ => false
  }

  predicate InLaunch(c: Core, t: Task) {
    t.StartLaunching? || (t.StartWaiting? && t.launcher < |c.launchers|)
  }

  /** A finished call, or a restart waiting for a later call. */
  predicate Background(tasks: seq<Task>, i: nat)
    requires i < |tasks|
  {
    tasks[i].Settled? || (tasks[i].RestartStarting? && i < tasks[i].child < |tasks|)
  }

  /** The first launch to come may be the last, forced one. */
  predicate MayLaunch(cfg: Config, final: nat, c: Core, t: Task) {
    if c.startupTries < cfg.maxRetries then final == cfg.maxRetries else Forced(t) && final == c.startupTries + 1
  }

  predicate HasLaunched(cfg: Config, final: nat, c: Core) {
    c.startupTries <= final && (c.startupTries < cfg.maxRetries ==> final == cfg.maxRetries)
    && (c.startupTries >= cfg.maxRetries ==> final == c.startupTries)
  }

  /** The earlier calls are idle, and each later one but `front` is in the background. */
  predicate Beside(earlier: seq<Task>, tasks: seq<Task>, front: Option<nat>) {
    && Idle(earlier) && |earlier| <= |tasks|
    && (forall i :: 0 <= i < |earlier| ==> tasks[i] == earlier[i])
    && (forall i :: |earlier| <= i < |tasks| && Some(i) != front ==> Background(tasks, i))
    && (front.Some? ==> |earlier| <= front.value < |tasks|)
  }

  /** Only the call `front` can still launch; without one, the tries have come to `final` and the state is
      UNRECOVERABLE. */
  ghost predicate Chain(cfg: Config, goal: Goal, w: World, front: Option<nat>) {
    && Startable(w.core, w.alive)
    && Beside(goal.earlier, w.tasks, front)
    && match front
       case None => w.core.state == Unrecoverable && w.core.startupTries == goal.final
       case Some(i) =>
         || (BeforeLaunch(w.core, w.tasks[i]) && MayLaunch(cfg, goal.final, w.core, w.tasks[i]))
         || (InLaunch(w.core, w.tasks[i]) && HasLaunched(cfg, goal.final, w.core) && w.core.configured)
  }

  function Weight(t: Task): nat {
    match t
    case RestartStarting(_) => 1
    case StartGuard(_, _, _) => 2
    case StartLookup(_, _, _) => 3
    case RestartGate(_, _) => 5
    case StartLaunching => 11
    case StartWaiting(_) => 10
    case _ => 0
  }

  function TotalWeight(tasks: seq<Task>): nat {
    if tasks == [] then 0 else TotalWeight(tasks[..|tasks| - 1]) + Weight(tasks[|tasks| - 1])
  }

  /** How many stretches of code can still run. */
  function Remaining(final: nat, w: World): int {
    (final - w.core.startupTries) * 10 + TotalWeight(w.tasks)
  }

  lemma WeightOfAdd(tasks: seq<Task>, t: Task)
    ensures TotalWeight(tasks + [t]) == TotalWeight(tasks) + Weight(t)
  {
    assert (tasks + [t])[..|tasks|] == tasks;
  }

  lemma {:induction false} WeightOfPut(tasks: seq<Task>, i: nat, t: Task)
    requires i < |tasks|
    ensures TotalWeight(tasks[i := t]) == TotalWeight(tasks) - Weight(tasks[i]) + Weight(t)
    decreases |tasks|
  {
    var n := |tasks| - 1;
    if i == n {
      assert tasks[i := t][..n] == tasks[..n];
    } else {
      assert tasks[i := t][..n] == tasks[..n][i := t];
      WeightOfPut(tasks[..n], i, t);
    }
  }

  ghost predicate Descends(cfg: Config, goal: Goal, w: World, w': World, front': Option<nat>) {
    Chain(cfg, goal, w', front') && Remaining(goal.final, w') < Remaining(goal.final, w)
  }

  lemma BackgroundStep(cfg: Config, goal: Goal, w: World, id: nat, a: Answer, front: Option<nat>)
    requires Chain(cfg, goal, w, front) && CanStep(w, id, a) && Failing(Step(id, a)) && Some(id) != front
    ensures Descends(cfg, goal, w, Apply(cfg, w, id, EffectOf(cfg, w, id, a)), front)
  {
    var resolved := ChildResolved(w, w.tasks[id]);
    if id < |goal.earlier| {
      IdleCannotStep(goal.earlier, w, id, a);
    }
    assert Background(w.tasks, id);
    assert EffectOf(cfg, w, id, a) == Plain(if resolved then w.core else RestartFailed(w.core), Settled(resolved));
    WeightOfPut(w.tasks, id, Settled(resolved));
    SettlingKeepsBeside(goal.earlier, w.tasks, id, resolved, front);
  }

  lemma SettlingKeepsBeside(earlier: seq<Task>, tasks: seq<Task>, id: nat, resolved: bool, front: Option<nat>)
    requires Beside(earlier, tasks, front) && |earlier| <= id < |tasks|
    ensures Beside(earlier, tasks[id := Settled(resolved)], if front == Some(id) then None else front)
  {
    var tasks' := tasks[id := Settled(resolved)];
    forall i | |earlier| <= i < |tasks'| && Some(i) != front
      ensures Background(tasks', i)
    {
      assert i == id || Background(tasks, i);
    }
  }

  lemma AddingKeepsBeside(earlier: seq<Task>, tasks: seq<Task>, front: Option<nat>, t: Task)
    requires Beside(earlier, tasks, front)
    ensures front == None || Background(tasks + [t], front.value) ==> Beside(earlier, tasks + [t], Some(|tasks|))
  {
    var tasks' := tasks + [t];
    forall i | |earlier| <= i < |tasks| && Some(i) != front
      ensures Background(tasks', i)
    {
      assert Background(tasks, i);
    }
  }

  lemma MovingKeepsBeside(earlier: seq<Task>, tasks: seq<Task>, id: nat, t: Task)
    requires Beside(earlier, tasks, Some(id))
    ensures Beside(earlier, tasks[id := t], Some(id))
  {
    var tasks' := tasks[id := t];
    forall i | |earlier| <= i < |tasks| && i != id
      ensures Background(tasks', i)
    {
      assert Background(tasks, i);
    }
  }

  lemma HopelessIsNotSettled(tasks: seq<Task>, i: nat)
    requires i < |tasks| && Hopeless(tasks, i)
    ensures !tasks[i].Settled?
  {
  }

  /** An idle call cannot take a step, whatever came after it. */
  lemma IdleCannotStep(earlier: seq<Task>, w: World, id: nat, a: Answer)
    requires Idle(earlier) && id < |earlier| <= |w.tasks|
    requires forall i :: 0 <= i < |earlier| ==> w.tasks[i] == earlier[i]
    ensures !CanStep(w, id, a)
  {
    if !earlier[id].Settled? && !earlier[id].NeverSettles? {
      assert Hopeless(earlier, id);
      HopelessIsNotSettled(earlier, ChildOf(earlier[id]).value);
    }
  }

  lemma LaunchFault(cfg: Config, w: World, id: nat)
    requires id < |w.tasks| && InLaunch(w.core, w.tasks[id])
    ensures EffectOf(cfg, w, id, Fault) == Plain(w.core, Settled(false)).(call := ToHandleError)
  {
  }

  lemma GateStep(cfg: Config, goal: Goal, w: World, id: nat, a: Answer)
    requires Chain(cfg, goal, w, Some(id)) && CanStep(w, id, a) && w.tasks[id].RestartGate?
    ensures Descends(cfg, goal, w, Apply(cfg, w, id, EffectOf(cfg, w, id, a)), Some(|w.tasks|))
  {
    var tasks := w.tasks[id := RestartStarting(|w.tasks|)];
    var t := FirstStartTask(w.core, true, w.tasks[id].isForced);
    WeightOfPut(w.tasks, id, RestartStarting(|w.tasks|));
    WeightOfAdd(tasks, t);
    MovingKeepsBeside(goal.earlier, w.tasks, id, RestartStarting(|w.tasks|));
    assert Background(tasks + [t], id);
    AddingKeepsBeside(goal.earlier, tasks, Some(id), t);
  }

  lemma ApproachStep(cfg: Config, goal: Goal, w: World, id: nat, a: Answer)
    requires Chain(cfg, goal, w, Some(id)) && CanStep(w, id, a) && Failing(Step(id, a))
    requires w.tasks[id].StartLookup? || w.tasks[id].StartGuard? || (w.tasks[id].StartLaunching? && a == Fine)
    ensures Descends(cfg, goal, w, Apply(cfg, w, id, EffectOf(cfg, w, id, a)), Some(id))
  {
    WeightOfPut(w.tasks, id, EffectOf(cfg, w, id, a).task);
    MovingKeepsBeside(goal.earlier, w.tasks, id, EffectOf(cfg, w, id, a).task);
  }

  lemma FailureStep(cfg: Config, goal: Goal, w: World, id: nat) returns (front': Option<nat>)
    requires Chain(cfg, goal, w, Some(id)) && CanStep(w, id, Fault) && InLaunch(w.core, w.tasks[id])
    ensures Descends(cfg, goal, w, Apply(cfg, w, id, EffectOf(cfg, w, id, Fault)), front')
  {
    var tasks := w.tasks[id := Settled(false)];
    LaunchFault(cfg, w, id);
    WeightOfPut(w.tasks, id, Settled(false));
    SettlingKeepsBeside(goal.earlier, w.tasks, id, false, Some(id));
    if IsUnrecoverable(w.core, cfg.maxRetries) {
      front' := None;
    } else {
      front' := Some(|w.tasks|);
      WeightOfAdd(tasks, RestartGate(true, false));
      AddingKeepsBeside(goal.earlier, tasks, None, RestartGate(true, false));
    }
  }

  lemma ChainNext(cfg: Config, goal: Goal, w: World, e: Event, front: Option<nat>) returns (front': Option<nat>)
    requires Chain(cfg, goal, w, front) && Enabled(w, e) && Failing(e)
    ensures Descends(cfg, goal, w, Next(cfg, w, e), front')
  {
    var id, t := e.task, w.tasks[e.task];
    if Some(id) != front {
      front' := front;
      BackgroundStep(cfg, goal, w, id, e.answer, front);
    } else if t.RestartGate? {
      front' := Some(|w.tasks|);
      GateStep(cfg, goal, w, id, e.answer);
    } else if InLaunch(w.core, t) && e.answer == Fault {
      front' := FailureStep(cfg, goal, w, id);
    } else {
      front' := front;
      ApproachStep(cfg, goal, w, id, e.answer);
    }
  }

  lemma {:induction false} ChainRun(cfg: Config, goal: Goal, w: World, es: seq<Event>, front: Option<nat>)
    returns (front': Option<nat>)
    requires Chain(cfg, goal, w, front) && Legal(cfg, w, es)
    requires forall i :: 0 <= i < |es| ==> Failing(es[i])
    ensures Chain(cfg, goal, Run(cfg, w, es), front')
    ensures Remaining(goal.final, Run(cfg, w, es)) + |es| <= Remaining(goal.final, w)
    decreases |es|
  {
    front' := front;
    if es != [] {
      var before := es[..|es| - 1];
      front' := ChainRun(cfg, goal, w, before, front);
      front' := ChainNext(cfg, goal, Run(cfg, w, before), es[|es| - 1], front');
    }
  }

  ghost predicate Stuck(w: World) {
    forall e: Event :: Failing(e) ==> !Enabled(w, e)
  }

  lemma FrontMayFail(cfg: Config, goal: Goal, w: World, i: nat)
    requires Chain(cfg, goal, w, Some(i))
    ensures !Stuck(w)
  {
    assert Failing(Step(i, Fault)) && Enabled(w, Step(i, Fault));
  }

  lemma RestartMayGoOn(w: World, i: nat)
    requires i < |w.tasks| && w.tasks[i].RestartStarting? && w.tasks[i].child < |w.tasks| &&
             w.tasks[w.tasks[i].child].Settled?
    ensures !Stuck(w)
  {
    assert Failing(Step(i, Fine)) && Enabled(w, Step(i, Fine));
  }

  lemma StuckHasNoFront(cfg: Config, goal: Goal, w: World, front: Option<nat>)
    requires Chain(cfg, goal, w, front) && Stuck(w)
    ensures front == None
  {
    if front.Some? {
      FrontMayFail(cfg, goal, w, front.value);
    }
  }

  /** A waiting restart waits for a later call, so the last unsettled one could go on. */
  lemma {:induction false} StuckIsSettled(cfg: Config, goal: Goal, w: World, i: nat)
    requires Chain(cfg, goal, w, None) && Stuck(w) && |goal.earlier| <= i < |w.tasks|
    ensures w.tasks[i].Settled?
    decreases |w.tasks| - i
  {
    assert Background(w.tasks, i);
    if w.tasks[i].RestartStarting? {
      StuckIsSettled(cfg, goal, w, w.tasks[i].child);
      RestartMayGoOn(w, i);
    }
  }

  lemma {:induction false} WeightOfPrefix(earlier: seq<Task>, tasks: seq<Task>)
    requires |earlier| <= |tasks| && forall i :: 0 <= i < |earlier| ==> tasks[i] == earlier[i]
    ensures TotalWeight(earlier) <= TotalWeight(tasks)
  {
    if |earlier| == |tasks| {
      assert earlier == tasks;
    } else {
      WeightOfPrefix(earlier, tasks[..|tasks| - 1]);
    }
  }

  ghost predicate EndsUnrecoverable(goal: Goal, w: World) {
    && w.core.startupTries == goal.final && w.core.state == Unrecoverable
    && SettledSince(goal.earlier, w.tasks)
  }

  lemma TriesWithinFinal(cfg: Config, goal: Goal, w: World, front: Option<nat>)
    requires Chain(cfg, goal, w, front)
    ensures w.core.startupTries <= goal.final && TotalWeight(goal.earlier) <= Remaining(goal.final, w)
  {
    WeightOfPrefix(goal.earlier, w.tasks);
  }

  /** What every run from `w` comes to when its `front` may launch. */
  lemma ChainEnds(cfg: Config, goal: Goal, w: World, es: seq<Event>, front: nat)
    requires Chain(cfg, goal, w, Some(front)) && Legal(cfg, w, es)
    requires forall i :: 0 <= i < |es| ==> Failing(es[i])
    ensures var w' := Run(cfg, w, es);
            && |es| + TotalWeight(goal.earlier) <= Remaining(goal.final, w)
            && w'.core.startupTries <= goal.final
            && (Stuck(w') ==> EndsUnrecoverable(goal, w'))
  {
    var front' := ChainRun(cfg, goal, w, es, Some(front));
    var w' := Run(cfg, w, es);
    if Stuck(w') {
      StuckHasNoFront(cfg, goal, w', front');
      forall i | |goal.earlier| <= i < |w'.tasks|
        ensures w'.tasks[i].Settled?
      {
        StuckIsSettled(cfg, goal, w', i);
      }
    }
    TriesWithinFinal(cfg, goal, w', front');
  }

  /** From an unforced start, at any time when no other call will go on, of which every launch fails, with rejections
      delivered at any time: the run is finite, never makes more than `startupMaxRetries - _startupTries` launches,
      and when nothing is left to do it has made exactly that many and the state is UNRECOVERABLE, not the ERRORED of
      an enclosing restart. */
  lemma FailingStartEndsUnrecoverable(cfg: Config, w: World, es: seq<Event>)
    requires Startable(w.core, w.alive) && Idle(w.tasks) && w.core.startupTries < cfg.maxRetries
    requires Legal(cfg, CallStart(w, true, false), es)
    requires forall i :: 0 <= i < |es| ==> Failing(es[i])
    ensures var w' := Run(cfg, CallStart(w, true, false), es);
            && |es| <= (cfg.maxRetries - w.core.startupTries) * 10 + 3
            && w'.core.startupTries <= cfg.maxRetries
            && (Stuck(w') ==> EndsUnrecoverable(Goal(cfg.maxRetries, w.tasks), w'))
  {
    WeightOfAdd(w.tasks, FirstStartTask(w.core, true, false));
    ChainEnds(cfg, Goal(cfg.maxRetries, w.tasks), CallStart(w, true, false), es, |w.tasks|);
  }

  /** The same from a restart, such as those of crash timers and disk reports; and a restart forced past the bound makes
      exactly one launch before it falls back to UNRECOVERABLE. */
  lemma FailingRestartEndsUnrecoverable(cfg: Config, w: World, isForced: bool, es: seq<Event>)
    requires Startable(w.core, w.alive) && Idle(w.tasks) && w.core.configured
    requires isForced || w.core.startupTries < cfg.maxRetries
    requires Legal(cfg, CallRestart(w, isForced), es)
    requires forall i :: 0 <= i < |es| ==> Failing(es[i])
    ensures var w', final := Run(cfg, CallRestart(w, isForced), es), FinalTries(cfg, w.core, isForced);
            && |es| <= (final - w.core.startupTries) * 10 + 5
            && w'.core.startupTries <= final
            && (Stuck(w') ==> EndsUnrecoverable(Goal(final, w.tasks), w'))
  {
    WeightOfAdd(w.tasks, RestartGate(true, isForced));
    ChainEnds(cfg, Goal(FinalTries(cfg, w.core, isForced), w.tasks), CallRestart(w, isForced), es, |w.tasks|);
  }

  /** A forced restart of a fallen node whose launch fails makes exactly one launch, and the node is fallen again. */
  lemma ForcedRestartFallsBack(cfg: Config, w: World, es: seq<Event>)
    requires Fallen(cfg, w) && Startable(w.core, w.alive) && Idle(w.tasks) && w.core.configured
    requires Legal(cfg, CallRestart(w, true), es)
    requires forall i :: 0 <= i < |es| ==> Failing(es[i])
    ensures var w' := Run(cfg, CallRestart(w, true), es);
            && |es| <= 15
            && (Stuck(w') ==> w'.core.startupTries == w.core.startupTries + 1 && Fallen(cfg, w'))
  {
    UnrecoverableIsExhausted(cfg, w.core);
    FailingRestartEndsUnrecoverable(cfg, w, true, es);
    ForcedRestartGetsOneLaunch(cfg, w, es);
  }
}
