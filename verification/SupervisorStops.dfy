/** What stopping, killing, an exit and an awaited update come to when nothing comes between. The other calls in
    progress may be any. */
module SupervisorStops {
  import opened Wrappers
  import opened Supervisor
  import opened SupervisorRuns
  import opened SupervisorPlay

  /** The fields after a node with this pid was let go. */
  function LetGo(c: Core, pid: nat): Core {
    c.(previousPid := Some(pid), node := None, tlsConfig := None)
  }

  function Tell(c: Core, s: NodeState): Core {
    c.(state := s, trace := c.trace + [Became(s)])
  }

  // stop.

  lemma StopBegins(cfg: Config, w: World, id: nat, h: nat)
    requires id < |w.tasks| && w.tasks[id] == StopCheck(false, Some(h))
    ensures Play(cfg, w, Steps(id, 2)) == Some(Moved(w, Tell(w.core, Stopping), id, StopPoll(0)))
  {
    var c := Tell(w.core, Stopping);
    GoesTwice(cfg, w, id, w.tasks[id], c, StopNode, c, StopPoll(0));
  }

  lemma StopEnds(cfg: Config, w: World, id: nat, waited: nat, pid: nat)
    requires id < |w.tasks| && w.tasks[id] == StopPoll(waited) && NodePid(w.core) == Some(pid) && pid !in w.alive
    ensures Play(cfg, w, Steps(id, 3)) == Some(Moved(w, LetGo(w.core, pid), id, Settled(true)))
  {
    var c := w.core.(previousPid := Some(pid));
    GoesThrice(cfg, w, id, StopPoll(waited), w.core, StopStore, c, StopReset, LetGo(w.core, pid), Settled(true));
  }

  /** A stop of a node whose process goes after so many polls. */
  function StopEvents(id: nat, polls: nat, pid: nat): seq<Event> {
    Steps(id, 2) + Steps(id, polls) + [ProcessDies(pid)] + Steps(id, 3)
  }

  lemma StopRuns(cfg: Config, w: World, id: nat, h: nat, pid: nat, polls: nat)
    requires id < |w.tasks| && w.tasks[id] == StopCheck(false, Some(h))
    requires NodePid(w.core) == Some(pid) && pid in w.alive && InTime(cfg, ForStop, polls)
    ensures Play(cfg, w, StopEvents(id, polls, pid)) ==
            Some(Moved(w.(alive := w.alive - {pid}), LetGo(Tell(w.core, Stopping), pid), id, Settled(true)))
  {
    hide Play;
    var c := Tell(w.core, Stopping);
    var w1 := Moved(w, c, id, StopPoll(0));
    var w2 := Moved(w1, c, id, StopPoll(polls * 1000));
    var w3 := w2.(alive := w.alive - {pid});
    var w4 := Moved(w3, LetGo(c, pid), id, Settled(true));
    StopBegins(cfg, w, id, h);
    WaitsOn(cfg, w1, id, ForStop, polls);
    PlayOne(cfg, w2, ProcessDies(pid));
    StopEnds(cfg, w3, id, polls * 1000, pid);
    Join(cfg, w, Steps(id, 2), w1, Steps(id, polls), w2);
    Join(cfg, w, Steps(id, 2) + Steps(id, polls), w2, [ProcessDies(pid)], w3);
    Join(cfg, w, Steps(id, 2) + Steps(id, polls) + [ProcessDies(pid)], w3, Steps(id, 3), w4);
    assert w4.tasks == w.tasks[id := Settled(true)];
  }

  // kill.

  lemma KillRuns(cfg: Config, w: World, id: nat, captured: Option<nat>, pid: nat)
    requires id < |w.tasks| && w.tasks[id] == KillCheck(false, captured) && NodePid(w.core) == Some(pid)
    ensures Play(cfg, w, Steps(id, 3)) == Some(Moved(w, LetGo(Tell(w.core, Stopped), pid), id, Settled(true)))
  {
    var c := w.core.(previousPid := Some(pid));
    var c' := LetGo(Tell(w.core, Stopped), pid);
    GoesThrice(cfg, w, id, w.tasks[id], w.core, KillStore, c, KillReset, c', Settled(true));
  }

  /** A kill whose signal or whose store throws keeps the state, lets go of the node all the same and rejects. */
  lemma KillFails(cfg: Config, w: World, id: nat, pid: nat)
    requires id < |w.tasks| && NodePid(w.core) == Some(pid)
    requires w.tasks[id] == KillStore || (w.tasks[id].KillCheck? && !w.tasks[id].isDead && w.tasks[id].captured.Some?)
    ensures Play(cfg, w, [Step(id, Fault)] + Steps(id, 2)) == Some(Moved(w, LetGo(w.core, pid), id, Settled(false)))
  {
    hide Play;
    var w1 := Moved(w, w.core, id, KillFailed);
    var c := w.core.(previousPid := Some(pid));
    MovedHere(w, id);
    PlayNone(cfg, w);
    MoveOn(cfg, w, [], id, w.core, w.tasks[id], Fault, w.core, KillFailed);
    assert [] + [Step(id, Fault)] == [Step(id, Fault)];
    GoesTwice(cfg, w1, id, KillFailed, c, KillFailedReset, LetGo(w.core, pid), Settled(false));
    MovedTwice(w, w.core, id, KillFailed, LetGo(w.core, pid), Settled(false));
    Join(cfg, w, [Step(id, Fault)], w1, Steps(id, 2), Moved(w, LetGo(w.core, pid), id, Settled(false)));
  }

  /** If the store throws again, the kill keeps the node, and never settles. */
  lemma UnstoredKillHangs(cfg: Config, w: World, id: nat, a: Answer)
    requires id < |w.tasks| && w.tasks[id] == KillFailed && w.core.node.Some?
    ensures Enabled(w, Step(id, Fault))
    ensures var w' := Next(cfg, w, Step(id, Fault));
            w' == Moved(w, w.core, id, NeverSettles) && !CanStep(w', id, a)
  {
    StepMoves(cfg, w, id, Fault, w.core, NeverSettles);
  }

  /** A kill of a dead node never settles. */
  lemma DeadKillHangs(cfg: Config, w: World, id: nat, captured: Option<nat>, a: Answer)
    requires id < |w.tasks| && w.tasks[id] == KillCheck(true, captured) && CanStep(w, id, a)
    ensures var w' := Next(cfg, w, Step(id, a));
            w' == Moved(w, w.core, id, NeverSettles) && forall a' :: !CanStep(w', id, a')
  {
    StepMoves(cfg, w, id, a, w.core, NeverSettles);
  }

  /** The call has failed and waits for the kill with this number. */
  predicate ResortsTo(t: Task, child: nat) {
    t == StopKilling(child) || t == UpdateKilling(child)
  }

  lemma ResortBegins(cfg: Config, w: World, id: nat, a: Answer, t: Task)
    requires CanStep(w, id, a) && EffectOf(cfg, w, id, a) == Plain(w.core, t).(call := ToKill)
    requires !IsDead(w.core, w.alive)
    ensures Next(cfg, w, Step(id, a)) == w.(tasks := w.tasks[id := t] + [KillCheck(false, w.core.node)])
  {
    assert w.alive + {} == w.alive;
  }

  lemma ResortEnds(cfg: Config, w: World, id: nat, child: nat)
    requires id < |w.tasks| && ResortsTo(w.tasks[id], child) && child < |w.tasks| && w.tasks[child] == Settled(true)
    ensures Play(cfg, w, [Step(id, Fine)]) == Some(Moved(w, w.core, id, Settled(true)))
  {
    StepMoves(cfg, w, id, Fine, w.core, Settled(true));
    PlayOne(cfg, w, Step(id, Fine));
  }

  /** A call that fails or runs out of time kills the node instead: it answers, a kill is made and goes through, and
      the call takes its outcome. `child` is the number of the kill. */
  function ResortEvents(id: nat, a: Answer, child: nat): seq<Event> {
    [Step(id, a)] + Steps(child, 3) + [Step(id, Fine)]
  }

  /** The node is let go and in STOPPED; the call and its kill are resolved. */
  function Killed(w: World, id: nat, pid: nat): World
    requires id < |w.tasks|
  {
    w.(core := LetGo(Tell(w.core, Stopped), pid), tasks := w.tasks[id := Settled(true)] + [Settled(true)])
  }

  lemma KilledAnew(w: World, c: Core, id: nat, t: Task, pid: nat)
    requires id < |w.tasks|
    ensures Killed(Moved(w, c, id, t), id, pid) == Killed(w.(core := c), id, pid)
  {
    assert w.tasks[id := t][id := Settled(true)] == w.tasks[id := Settled(true)];
  }

  lemma ResortRuns(cfg: Config, w: World, id: nat, a: Answer, t: Task, pid: nat)
    requires CanStep(w, id, a) && EffectOf(cfg, w, id, a) == Plain(w.core, t).(call := ToKill)
    requires ResortsTo(t, |w.tasks|) && NodePid(w.core) == Some(pid) && !IsDead(w.core, w.alive)
    ensures Play(cfg, w, ResortEvents(id, a, |w.tasks|)) == Some(Killed(w, id, pid))
  {
    hide Play;
    var n := |w.tasks|;
    var c := LetGo(Tell(w.core, Stopped), pid);
    var w1 := w.(tasks := w.tasks[id := t] + [KillCheck(false, w.core.node)]);
    var w2 := Moved(w1, c, n, Settled(true));
    ResortBegins(cfg, w, id, a, t);
    PlayOne(cfg, w, Step(id, a));
    KillRuns(cfg, w1, n, w.core.node, pid);
    ResortEnds(cfg, w2, id, n);
    Join(cfg, w, [Step(id, a)], w1, Steps(n, 3), w2);
    Join(cfg, w, [Step(id, a)] + Steps(n, 3), w2, [Step(id, Fine)], Moved(w2, c, id, Settled(true)));
    assert Moved(w2, c, id, Settled(true)).tasks == Killed(w, id, pid).tasks;
  }

  lemma StopPollGivesUp(cfg: Config, w: World, id: nat, waited: nat, pid: nat)
    requires id < |w.tasks| && w.tasks[id] == StopPoll(waited) && waited >= cfg.shutdownTimeout
    requires NodePid(w.core) == Some(pid) && pid in w.alive
    ensures Play(cfg, w, ResortEvents(id, Fine, |w.tasks|)) == Some(Killed(w, id, pid))
  {
    ResortRuns(cfg, w, id, Fine, StopKilling(|w.tasks|), pid);
  }

  /** A run, a wait and another run, joined. */
  lemma WaitJoins(cfg: Config, w: World, es: seq<Event>, w1: World, id: nat, wait: Wait, polls: nat, es': seq<Event>,
          w3: World)
    requires id < |w1.tasks| && w1.tasks[id] == Awaiting(wait, 0) && Play(cfg, w, es) == Some(w1)
    requires Unmet(w1, wait) && InTime(cfg, wait, polls)
    requires Play(cfg, Moved(w1, w1.core, id, Awaiting(wait, polls * 1000)), es') == Some(w3)
    ensures Play(cfg, w, es + Steps(id, polls) + es') == Some(w3)
  {
    hide Play;
    var w2 := Moved(w1, w1.core, id, Awaiting(wait, polls * 1000));
    WaitsOn(cfg, w1, id, wait, polls);
    Join(cfg, w, es, w1, Steps(id, polls), w2);
    Join(cfg, w, es + Steps(id, polls), w2, es', w3);
  }

  /** A stop whose node outlives the timeout kills it. */
  lemma OutlivedStopRuns(cfg: Config, w: World, id: nat, h: nat, pid: nat, polls: nat)
    requires id < |w.tasks| && w.tasks[id] == StopCheck(false, Some(h))
    requires NodePid(w.core) == Some(pid) && pid in w.alive && OutOfTime(cfg, ForStop, polls)
    ensures Play(cfg, w, Steps(id, 2) + Steps(id, polls) + ResortEvents(id, Fine, |w.tasks|)) ==
            Some(Killed(w.(core := Tell(w.core, Stopping)), id, pid))
  {
    hide Play;
    var c := Tell(w.core, Stopping);
    var w1 := Moved(w, c, id, StopPoll(0));
    var w2 := Moved(w1, c, id, StopPoll(polls * 1000));
    StopBegins(cfg, w, id, h);
    StopPollGivesUp(cfg, w2, id, polls * 1000, pid);
    WaitJoins(cfg, w, Steps(id, 2), w1, id, ForStop, polls, ResortEvents(id, Fine, |w.tasks|), Killed(w2, id, pid));
    MovedTwice(w, c, id, StopPoll(0), c, StopPoll(polls * 1000));
    KilledAnew(w, c, id, StopPoll(polls * 1000), pid);
  }

  /** So does a stop whose request to the node throws. */
  lemma ThrowingStopRuns(cfg: Config, w: World, id: nat, h: nat, pid: nat)
    requires id < |w.tasks| && w.tasks[id] == StopCheck(false, Some(h))
    requires NodePid(w.core) == Some(pid) && pid in w.alive
    ensures Play(cfg, w, Steps(id, 1) + ResortEvents(id, Fault, |w.tasks|)) ==
            Some(Killed(w.(core := Tell(w.core, Stopping)), id, pid))
  {
    hide Play;
    var c := Tell(w.core, Stopping);
    var w1 := Moved(w, c, id, StopNode);
    GoesOnce(cfg, w, id, w.tasks[id], c, StopNode);
    ResortRuns(cfg, w1, id, Fault, StopKilling(|w.tasks|), pid);
    Join(cfg, w, Steps(id, 1), w1, ResortEvents(id, Fault, |w.tasks|), Killed(w1, id, pid));
    KilledAnew(w, c, id, StopNode, pid);
  }

  /** And a stop that cannot store the pid, although the process has gone: a connected node is not dead. */
  lemma UnstoredStopRuns(cfg: Config, w: World, id: nat, pid: nat)
    requires id < |w.tasks| && w.tasks[id] == StopStore && NodePid(w.core) == Some(pid) && IsConnected(w.core)
    ensures Play(cfg, w, ResortEvents(id, Fault, |w.tasks|)) == Some(Killed(w, id, pid))
  {
    ResortRuns(cfg, w, id, Fault, StopKilling(|w.tasks|), pid);
  }

  // _handleBccNodeExit.

  /** What an exit is found to be. */
  ghost predicate IsVerdict(c: Core, code: int, maxRetries: nat, v: NodeState) {
    && (c.state == Stopping ==> v == Stopped)
    && (c.state == Updating && code == 20 ==> v == Updated)
    && (c.state != Stopping && !(c.state == Updating && code == 20) ==>
        v == if c.startupTries >= maxRetries then Unrecoverable else Crashed)
  }

  /** The fields when the exit is noticed. */
  function Noticed(c: Core): Core {
    if c.state == Running then Tell(c, Exiting) else c
  }

  function Found(c: Core, v: NodeState, code: int): Core {
    c.(state := v, trace := c.trace + [Concluded(v, code)])
  }

  /** The world once the exit was handled: the node is let go, and a crash has set a timer. */
  function Handled(w: World, id: nat, v: NodeState, code: int, pid: nat): World
    requires id < |w.tasks|
  {
    var c := LetGo(Found(w.core, v, code), pid);
    w.(core := c, tasks := w.tasks[id := Settled(true)],
       crashTimers := if v == Crashed then w.crashTimers + 1 else w.crashTimers)
  }

  /** The world with the verdict broadcast and the pid on record, and the timer of a crash set. */
  function Decided(w: World, id: nat, v: NodeState, code: int, pid: nat): World
    requires id < |w.tasks|
  {
    w.(core := Found(w.core, v, code).(previousPid := Some(pid)), tasks := w.tasks[id := ExitReset],
       crashTimers := if v == Crashed then w.crashTimers + 1 else w.crashTimers)
  }

  lemma VerdictIs(c: Core, code: int, maxRetries: nat, v: NodeState)
    requires IsVerdict(c, code, maxRetries, v)
    ensures ConcludeExit(c, code, maxRetries) == Found(c, v, code)
  {
  }

  lemma ExitDecides(cfg: Config, w: World, id: nat, code: int, pid: nat, v: NodeState)
    requires id < |w.tasks| && w.tasks[id] == ExitDecide(code) && NodePid(w.core) == Some(pid)
    requires IsVerdict(w.core, code, cfg.maxRetries, v)
    ensures Next(cfg, w, Step(id, Fine)) == Decided(w, id, v, code, pid)
  {
    VerdictIs(w.core, code, cfg.maxRetries, v);
    assert w.alive + {} == w.alive;
  }

  /** A handler that cannot store the pid rejects and keeps the node; a crash has its timer all the same. */
  lemma UnstoredExitDecides(cfg: Config, w: World, id: nat, code: int, v: NodeState)
    requires id < |w.tasks| && w.tasks[id] == ExitDecide(code) && w.core.node.Some?
    requires IsVerdict(w.core, code, cfg.maxRetries, v)
    ensures Next(cfg, w, Step(id, Fault)) ==
            w.(core := Found(w.core, v, code), tasks := w.tasks[id := Settled(false)],
               crashTimers := if v == Crashed then w.crashTimers + 1 else w.crashTimers)
  {
    VerdictIs(w.core, code, cfg.maxRetries, v);
    assert w.alive + {} == w.alive;
  }

  lemma ExitEnds(cfg: Config, w: World, id: nat, code: int, pid: nat, v: NodeState)
    requires id < |w.tasks| && w.tasks[id] == ExitDecide(code) && NodePid(w.core) == Some(pid)
    requires IsVerdict(w.core, code, cfg.maxRetries, v)
    ensures Play(cfg, w, Steps(id, 2)) == Some(Handled(w, id, v, code, pid))
  {
    hide Play;
    var w1 := Decided(w, id, v, code, pid);
    var c' := LetGo(Found(w.core, v, code), pid);
    ExitDecides(cfg, w, id, code, pid, v);
    PlayOne(cfg, w, Step(id, Fine));
    GoesOnce(cfg, w1, id, ExitReset, c', Settled(true));
    assert Steps(id, 2) == [Step(id, Fine)] + Steps(id, 1);
    Join(cfg, w, [Step(id, Fine)], w1, Steps(id, 1), Moved(w1, c', id, Settled(true)));
    assert w1.tasks[id := Settled(true)] == w.tasks[id := Settled(true)];
  }

  lemma HandledAnew(w: World, id: nat, t: Task, v: NodeState, code: int, pid: nat)
    requires id < |w.tasks|
    ensures Handled(Moved(w, w.core, id, t), id, v, code, pid) == Handled(w, id, v, code, pid)
  {
    assert w.tasks[id := t][id := Settled(true)] == w.tasks[id := Settled(true)];
  }

  lemma ExitSettles(cfg: Config, w: World, id: nat, code: int, waited: nat, pid: nat, v: NodeState)
    requires id < |w.tasks| && w.tasks[id] == ExitPoll(code, waited) && NodePid(w.core) == Some(pid) && pid !in w.alive
    requires IsVerdict(w.core, code, cfg.maxRetries, v)
    ensures Play(cfg, w, Steps(id, 3)) == Some(Handled(w, id, v, code, pid))
  {
    hide Play;
    var w1 := Moved(w, w.core, id, ExitDecide(code));
    GoesOnce(cfg, w, id, ExitPoll(code, waited), w.core, ExitDecide(code));
    ExitEnds(cfg, w1, id, code, pid, v);
    HandledAnew(w, id, ExitDecide(code), v, code, pid);
    Join(cfg, w, Steps(id, 1), w1, Steps(id, 2), Handled(w, id, v, code, pid));
    StepsJoin(id, 1, 2);
  }

  /** A handler that waited in vain decides all the same. */
  lemma ExitGivesUp(cfg: Config, w: World, id: nat, code: int, waited: nat, pid: nat, v: NodeState)
    requires id < |w.tasks| && w.tasks[id] == ExitPoll(code, waited) && waited >= cfg.shutdownTimeout
    requires NodePid(w.core) == Some(pid) && pid in w.alive && IsVerdict(w.core, code, cfg.maxRetries, v)
    ensures Play(cfg, w, Steps(id, 4)) == Some(Handled(w, id, v, code, pid))
  {
    hide Play;
    var w1 := Moved(w, w.core, id, ExitDecide(code));
    GoesTwice(cfg, w, id, ExitPoll(code, waited), w.core, ExitKilling(code), w.core, ExitDecide(code));
    ExitEnds(cfg, w1, id, code, pid, v);
    HandledAnew(w, id, ExitDecide(code), v, code, pid);
    Join(cfg, w, Steps(id, 2), w1, Steps(id, 2), Handled(w, id, v, code, pid));
    StepsJoin(id, 2, 2);
  }

  /** The world when the exit of a launcher is noticed and its handler called. */
  function Noticing(w: World, h: nat, code: int): World {
    w.(core := Noticed(w.core), tasks := w.tasks + [ExitPoll(code, 0)], exited := w.exited + {h})
  }

  lemma ExitIsNoticed(cfg: Config, w: World, h: nat, code: int)
    requires Enabled(w, NodeExits(h, code))
    ensures Play(cfg, w, [NodeExits(h, code)]) == Some(Noticing(w, h, code))
  {
    PlayOne(cfg, w, NodeExits(h, code));
  }

  /** The exit of a node whose process goes after so many polls. */
  function ExitEvents(id: nat, h: nat, code: int, polls: nat, pid: nat): seq<Event> {
    [NodeExits(h, code)] + Steps(id, polls) + ([ProcessDies(pid)] + Steps(id, 3))
  }

  /** The exit of the node is handled: the fields say what it was found to be, the pid is on record, the node is let
      go, and a timer is set exactly for a crash. */
  lemma ExitRuns(cfg: Config, w: World, h: nat, code: int, pid: nat, polls: nat, v: NodeState)
    requires Enabled(w, NodeExits(h, code)) && NodePid(w.core) == Some(pid) && pid in w.alive
    requires InTime(cfg, ForExit(code), polls) && IsVerdict(Noticed(w.core), code, cfg.maxRetries, v)
    ensures Play(cfg, w, ExitEvents(|w.tasks|, h, code, polls, pid)) ==
            Some(Handled(Noticing(w, h, code).(alive := w.alive - {pid}), |w.tasks|, v, code, pid))
  {
    hide Play;
    var n := |w.tasks|;
    var w1 := Noticing(w, h, code);
    var w2 := Moved(w1, w1.core, n, ExitPoll(code, polls * 1000));
    var w3 := w2.(alive := w.alive - {pid});
    ExitIsNoticed(cfg, w, h, code);
    PlayOne(cfg, w2, ProcessDies(pid));
    ExitSettles(cfg, w3, n, code, polls * 1000, pid, v);
    Join(cfg, w2, [ProcessDies(pid)], w3, Steps(n, 3), Handled(w3, n, v, code, pid));
    WaitJoins(cfg, w, [NodeExits(h, code)], w1, n, ForExit(code), polls, [ProcessDies(pid)] + Steps(n, 3),
      Handled(w3, n, v, code, pid));
    HandledAnew(w1.(alive := w.alive - {pid}), n, ExitPoll(code, polls * 1000), v, code, pid);
  }

  /** And so it is when the process outlives the timeout. */
  lemma OutlivedExitRuns(cfg: Config, w: World, h: nat, code: int, pid: nat, polls: nat, v: NodeState)
    requires Enabled(w, NodeExits(h, code)) && NodePid(w.core) == Some(pid) && pid in w.alive
    requires OutOfTime(cfg, ForExit(code), polls) && IsVerdict(Noticed(w.core), code, cfg.maxRetries, v)
    ensures Play(cfg, w, [NodeExits(h, code)] + Steps(|w.tasks|, polls) + Steps(|w.tasks|, 4)) ==
            Some(Handled(Noticing(w, h, code), |w.tasks|, v, code, pid))
  {
    hide Play;
    var n := |w.tasks|;
    var w1 := Noticing(w, h, code);
    var w2 := Moved(w1, w1.core, n, ExitPoll(code, polls * 1000));
    ExitIsNoticed(cfg, w, h, code);
    ExitGivesUp(cfg, w2, n, code, polls * 1000, pid, v);
    WaitJoins(cfg, w, [NodeExits(h, code)], w1, n, ForExit(code), polls, Steps(n, 4), Handled(w2, n, v, code, pid));
    HandledAnew(w1, n, ExitPoll(code, polls * 1000), v, code, pid);
  }

  // expectNodeUpdate.

  /** The world when an update is awaited. */
  function Expecting(w: World): World {
    w.(core := Tell(w.core, Updating), tasks := w.tasks + [UpdatePoll(0)])
  }

  lemma UpdateBegins(cfg: Config, w: World)
    requires w.core.configured
    ensures Play(cfg, w, [AwaitUpdate]) == Some(Expecting(w))
  {
    PlayOne(cfg, w, AwaitUpdate);
  }

  lemma UpdateEnds(cfg: Config, w: World, id: nat, waited: nat)
    requires id < |w.tasks| && w.tasks[id] == UpdatePoll(waited) && w.core.state == Updated && w.core.node.None?
    ensures Play(cfg, w, Steps(id, 2)) == Some(Moved(w, w.core, id, Settled(true)))
  {
    GoesTwice(cfg, w, id, UpdatePoll(waited), w.core, UpdateExitPoll(0), w.core, Settled(true));
  }

  /** The fields after an update took over: the update is announced, the exit of the node is found to be one, and the
      node is let go. */
  function TakenOver(c: Core, pid: nat): Core {
    LetGo(c.(state := Updated, trace := c.trace + [Became(Updating)] + [Concluded(Updated, 20)]), pid)
  }

  /** The world after it. */
  function UpdatedWorld(w: World, h: nat, pid: nat): World {
    w.(core := TakenOver(w.core, pid), tasks := w.tasks + [Settled(true), Settled(true)],
       alive := w.alive - {pid}, exited := w.exited + {h})
  }

  lemma UpdatedWorldIs(w: World, h: nat, pid: nat)
    ensures var n, w1 := |w.tasks|, Noticing(Expecting(w), h, 20).(alive := w.alive - {pid});
            var w2 := Handled(w1, n + 1, Updated, 20, pid);
            Moved(w2, w2.core, n, Settled(true)) == UpdatedWorld(w, h, pid)
  {
    LastTwoUpdated(w.tasks, UpdatePoll(0), ExitPoll(20, 0), Settled(true), Settled(true));
    assert w.tasks + [UpdatePoll(0)] + [ExitPoll(20, 0)] == w.tasks + [UpdatePoll(0), ExitPoll(20, 0)];
  }

  /** An awaited update resolves once the node has left with exit code 20 and its exit was handled. */
  lemma UpdateRuns(cfg: Config, w: World, h: nat, pid: nat, polls: nat)
    requires w.core.configured && Enabled(w, NodeExits(h, 20)) && NodePid(w.core) == Some(pid) && pid in w.alive
    requires InTime(cfg, ForExit(20), polls)
    ensures Play(cfg, w, [AwaitUpdate] + ExitEvents(|w.tasks| + 1, h, 20, polls, pid) + Steps(|w.tasks|, 2)) ==
            Some(UpdatedWorld(w, h, pid))
  {
    hide Play;
    var n := |w.tasks|;
    var w1 := Expecting(w);
    var w2 := Handled(Noticing(w1, h, 20).(alive := w.alive - {pid}), n + 1, Updated, 20, pid);
    UpdateBegins(cfg, w);
    ExitRuns(cfg, w1, h, 20, pid, polls, Updated);
    Join(cfg, w, [AwaitUpdate], w1, ExitEvents(n + 1, h, 20, polls, pid), w2);
    UpdateEnds(cfg, w2, n, 0);
    Join(cfg, w, [AwaitUpdate] + ExitEvents(n + 1, h, 20, polls, pid), w2, Steps(n, 2),
      Moved(w2, w2.core, n, Settled(true)));
    UpdatedWorldIs(w, h, pid);
  }

  lemma UpdatePollGivesUp(cfg: Config, w: World, id: nat, waited: nat, pid: nat)
    requires id < |w.tasks| && w.tasks[id] == UpdatePoll(waited)
    requires w.core.state != Updated && waited >= cfg.updateTimeout
    requires NodePid(w.core) == Some(pid) && pid in w.alive
    ensures Play(cfg, w, ResortEvents(id, Fine, |w.tasks|)) == Some(Killed(w, id, pid))
  {
    ResortRuns(cfg, w, id, Fine, UpdateKilling(|w.tasks|), pid);
  }

  /** An update that does not come in time: the node is killed, and the call takes the outcome of the kill. */
  lemma MissedUpdateRuns(cfg: Config, w: World, pid: nat, polls: nat)
    requires w.core.configured && NodePid(w.core) == Some(pid) && pid in w.alive && OutOfTime(cfg, ForUpdate, polls)
    ensures Play(cfg, w, [AwaitUpdate] + Steps(|w.tasks|, polls) + ResortEvents(|w.tasks|, Fine, |w.tasks| + 1)) ==
            Some(Killed(Expecting(w), |w.tasks|, pid))
  {
    hide Play;
    var n := |w.tasks|;
    var w1 := Expecting(w);
    var w2 := Moved(w1, w1.core, n, UpdatePoll(polls * 1000));
    UpdateBegins(cfg, w);
    UpdatePollGivesUp(cfg, w2, n, polls * 1000, pid);
    WaitJoins(cfg, w, [AwaitUpdate], w1, n, ForUpdate, polls, ResortEvents(n, Fine, n + 1), Killed(w2, n, pid));
    KilledAnew(w1, w1.core, n, UpdatePoll(polls * 1000), pid);
  }

  lemma UpdateExitPollGivesUp(cfg: Config, w: World, id: nat, waited: nat, pid: nat)
    requires id < |w.tasks| && w.tasks[id] == UpdateExitPoll(waited) && waited >= cfg.updateTimeout
    requires NodePid(w.core) == Some(pid) && pid in w.alive
    ensures Play(cfg, w, ResortEvents(id, Fine, |w.tasks|)) == Some(Killed(w, id, pid))
  {
    ResortRuns(cfg, w, id, Fine, UpdateKilling(|w.tasks|), pid);
  }

  /** The same when the node is UPDATED but its process does not go. */
  lemma LingeringUpdateRuns(cfg: Config, w: World, id: nat, waited: nat, pid: nat, polls: nat)
    requires id < |w.tasks| && w.tasks[id] == UpdatePoll(waited) && w.core.state == Updated
    requires NodePid(w.core) == Some(pid) && pid in w.alive && OutOfTime(cfg, ForUpdateExit, polls)
    ensures Play(cfg, w, Steps(id, 1) + Steps(id, polls) + ResortEvents(id, Fine, |w.tasks|)) ==
            Some(Killed(w, id, pid))
  {
    hide Play;
    var w1 := Moved(w, w.core, id, UpdateExitPoll(0));
    var w2 := Moved(w1, w.core, id, UpdateExitPoll(polls * 1000));
    GoesOnce(cfg, w, id, UpdatePoll(waited), w.core, UpdateExitPoll(0));
    UpdateExitPollGivesUp(cfg, w2, id, polls * 1000, pid);
    WaitJoins(cfg, w, Steps(id, 1), w1, id, ForUpdateExit, polls, ResortEvents(id, Fine, |w.tasks|),
        Killed(w2, id, pid));
    MovedTwice(w, w.core, id, UpdateExitPoll(0), w.core, UpdateExitPoll(polls * 1000));
    KilledAnew(w, w.core, id, UpdateExitPoll(polls * 1000), pid);
  }

  lemma UnconfiguredUpdateBegins(cfg: Config, w: World)
    requires !w.core.configured && NodeLives(w)
    ensures Next(cfg, w, AwaitUpdate) ==
            w.(core := Tell(w.core, Updating),
               tasks := w.tasks + [KillCheck(false, w.core.node), UpdateKilling(|w.tasks|)])
  {
    var k := KillCheck(false, w.core.node);
    assert w.tasks + [k] + [UpdateKilling(|w.tasks|)] == w.tasks + [k, UpdateKilling(|w.tasks|)];
  }

  /** Without a config the node is killed at once. */
  lemma UnconfiguredUpdateRuns(cfg: Config, w: World, pid: nat)
    requires !w.core.configured && NodePid(w.core) == Some(pid) && pid in w.alive
    ensures Play(cfg, w, [AwaitUpdate] + Steps(|w.tasks|, 3) + [Step(|w.tasks| + 1, Fine)]) ==
            Some(w.(core := LetGo(Tell(Tell(w.core, Updating), Stopped), pid),
                    tasks := w.tasks + [Settled(true), Settled(true)]))
  {
    hide Play;
    var n := |w.tasks|;
    var c := Tell(w.core, Updating);
    var w1 := w.(core := c, tasks := w.tasks + [KillCheck(false, w.core.node), UpdateKilling(n)]);
    var w2 := Moved(w1, LetGo(Tell(c, Stopped), pid), n, Settled(true));
    UnconfiguredUpdateBegins(cfg, w);
    PlayOne(cfg, w, AwaitUpdate);
    KillRuns(cfg, w1, n, w.core.node, pid);
    ResortEnds(cfg, w2, n + 1, n);
    Join(cfg, w, [AwaitUpdate], w1, Steps(n, 3), w2);
    Join(cfg, w, [AwaitUpdate] + Steps(n, 3), w2, [Step(n + 1, Fine)], Moved(w2, w2.core, n + 1, Settled(true)));
    LastTwoUpdated(w.tasks, KillCheck(false, w.core.node), UpdateKilling(n), Settled(true), Settled(true));
  }

  // The reports and the exit of the application.

  /** A report of a full disk, or the exit of the application, that comes while the node neither stops nor has
      stopped. */
  predicate OrdersStop(w: World, e: Event) {
    (e == SafeExit || e == DiskReport(true)) && w.core.state != Stopping && w.core.state != Stopped
  }

  /** Such an order leads to STOPPING at the next step of the stop it makes. */
  lemma OrderBeginsStop(cfg: Config, w: World, e: Event)
    requires OrdersStop(w, e) && IsConnected(w.core)
    ensures var w1 := Next(cfg, w, e);
            && Enabled(w1, Step(|w.tasks|, Fine))
            && Next(cfg, w1, Step(|w.tasks|, Fine)).core == Tell(w.core, Stopping)
  {
    assert Next(cfg, w, e) == w.(tasks := w.tasks + [StopCheck(false, w.core.node)]);
  }

  /** And to the end of it: the node is stopped and let go, its pid on record, and when its launcher then reports the
      exit the state is STOPPED. */
  lemma OrderedStopRuns(cfg: Config, w: World, e: Event, pid: nat, polls: nat)
    requires OrdersStop(w, e) && NodePid(w.core) == Some(pid) && pid in w.alive && InTime(cfg, ForStop, polls)
    ensures Play(cfg, w, [e] + StopEvents(|w.tasks|, polls, pid)) ==
            Some(w.(core := LetGo(Tell(w.core, Stopping), pid), tasks := w.tasks + [Settled(true)],
                    alive := w.alive - {pid}))
  {
    hide Play;
    var n := |w.tasks|;
    var w1 := w.(tasks := w.tasks + [StopCheck(false, w.core.node)]);
    var w2 := Moved(w1.(alive := w.alive - {pid}), LetGo(Tell(w.core, Stopping), pid), n, Settled(true));
    assert Next(cfg, w, e) == w1;
    PlayOne(cfg, w, e);
    StopRuns(cfg, w1, n, w.core.node.value, pid, polls);
    Join(cfg, w, [e], w1, StopEvents(n, polls, pid), w2);
    assert w2.tasks == w.tasks + [Settled(true)];
  }

  lemma LateExitRuns(cfg: Config, w: World, h: nat, code: int)
    requires Enabled(w, NodeExits(h, code)) && w.core.state == Stopping && w.core.node.None? && w.core.tlsConfig.None?
    ensures Play(cfg, w, [NodeExits(h, code)] + Steps(|w.tasks|, 3)) ==
            Some(w.(core := Found(w.core, Stopped, code), tasks := w.tasks + [Settled(true)], exited := w.exited + {h}))
  {
    hide Play;
    var n := |w.tasks|;
    var w1 := Noticing(w, h, code);
    var c := Found(w.core, Stopped, code);
    ExitIsNoticed(cfg, w, h, code);
    VerdictIs(w.core, code, cfg.maxRetries, Stopped);
    GoesThrice(cfg, w1, n, ExitPoll(code, 0), w.core, ExitDecide(code), c, ExitReset, c, Settled(true));
    Join(cfg, w, [NodeExits(h, code)], w1, Steps(n, 3), Moved(w1, c, n, Settled(true)));
    assert w1.tasks[n := Settled(true)] == w.tasks + [Settled(true)];
  }

  /** Otherwise the order is for nothing, but that an exit of the application while STOPPING is kept in mind. */
  lemma OtherOrders(cfg: Config, w: World)
    ensures w.core.state == Stopped || w.core.state == Stopping ==> Next(cfg, w, DiskReport(true)) == w
    ensures w.core.state == Stopped ==> Next(cfg, w, SafeExit) == w
    ensures w.core.state == Stopping ==> Next(cfg, w, SafeExit) == w.(core := w.core.(exitOnStop := true))
    ensures w.core.state == Starting || w.core.state == Running ==> Next(cfg, w, DiskReport(false)) == w
  {
  }
}
