/** What starting, launching and restarting come to when nothing comes between. The other calls in progress may be
    any. */
module SupervisorStarts {
  import opened Wrappers
  import opened Supervisor
  import opened SupervisorRuns
  import opened SupervisorPlay
  import opened SupervisorStops

  /** The fields of a node that enters STARTING. */
  function Begun(c: Core, isForced: bool): Core {
    c.(state := Starting, startupTries := c.startupTries + 1, configured := true, trace := c.trace + [Began(isForced)])
  }

  /** A start may go on: it is forced, or retries are left. */
  predicate MayBegin(cfg: Config, c: Core, isForced: bool) {
    isForced || c.startupTries < cfg.maxRetries
  }

  // start.

  lemma GuardPasses(cfg: Config, w: World, id: nat, isForced: bool)
    requires id < |w.tasks| && w.tasks[id] == StartGuard(true, true, isForced) && MayBegin(cfg, w.core, isForced)
    ensures Play(cfg, w, Steps(id, 1)) == Some(Moved(w, Begun(w.core, isForced), id, StartLaunching))
  {
    GoesOnce(cfg, w, id, w.tasks[id], Begun(w.core, isForced), StartLaunching);
  }

  lemma GuardRefuses(cfg: Config, w: World, id: nat, canBeStarted: bool, hasConfig: bool, isForced: bool)
    requires id < |w.tasks| && w.tasks[id] == StartGuard(canBeStarted, hasConfig, isForced)
    requires canBeStarted && hasConfig ==> !MayBegin(cfg, w.core, isForced)
    ensures Play(cfg, w, Steps(id, 1)) == Some(Moved(w, w.core, id, Settled(false)))
  {
    GoesOnce(cfg, w, id, w.tasks[id], w.core, Settled(false));
  }

  /** The start looks for the process on record, if there is one. */
  function Looking(recorded: Option<nat>, hasConfig: bool, isForced: bool): Task {
    match recorded
    case None => StartGuard(true, hasConfig, isForced)
    case Some(pid) => StartLookup(pid, hasConfig, isForced)
  }

  function StartSteps(recorded: Option<nat>): nat {
    if recorded.None? then 1 else 2
  }

  predicate NoLeftover(w: World) {
    w.core.previousPid.Some? ==> w.core.previousPid.value !in w.alive
  }

  /** A start that finds no leftover process enters STARTING. */
  lemma StartRuns(cfg: Config, w: World, id: nat, isForced: bool)
    requires id < |w.tasks| && w.tasks[id] == Looking(w.core.previousPid, true, isForced)
    requires NoLeftover(w) && MayBegin(cfg, w.core, isForced)
    ensures Play(cfg, w, Steps(id, StartSteps(w.core.previousPid))) ==
            Some(Moved(w, Begun(w.core, isForced), id, StartLaunching))
  {
    match w.core.previousPid
    case None => GuardPasses(cfg, w, id, isForced);
    case Some(pid) =>
      GoesTwice(cfg, w, id, StartLookup(pid, true, isForced), w.core, StartGuard(true, true, isForced),
        Begun(w.core, isForced), StartLaunching);
  }

  lemma KillingBegins(cfg: Config, w: World, id: nat, pid: nat, isForced: bool)
    requires id < |w.tasks| && w.tasks[id] == StartLookup(pid, true, isForced) && pid in w.alive && w.core.configured
    ensures Play(cfg, w, Steps(id, 2)) == Some(Moved(w, w.core, id, StartKillPoll(pid, 0, true, isForced)))
  {
    GoesTwice(cfg, w, id, w.tasks[id], w.core, StartKill(pid, true, isForced), w.core,
      StartKillPoll(pid, 0, true, isForced));
  }

  lemma KillingSucceeds(cfg: Config, w: World, id: nat, pid: nat, waited: nat, isForced: bool)
    requires id < |w.tasks| && w.tasks[id] == StartKillPoll(pid, waited, true, isForced) && pid !in w.alive
    requires MayBegin(cfg, w.core, isForced)
    ensures Play(cfg, w, Steps(id, 2)) == Some(Moved(w, Begun(w.core, isForced), id, StartLaunching))
  {
    GoesTwice(cfg, w, id, w.tasks[id], w.core, StartGuard(true, true, isForced), Begun(w.core, isForced),
        StartLaunching);
  }

  /** A start that finds the process on record alive kills it and, once it is gone, enters STARTING. */
  lemma StartKillsLeftover(cfg: Config, w: World, id: nat, pid: nat, isForced: bool, polls: nat)
    requires id < |w.tasks| && w.tasks[id] == StartLookup(pid, true, isForced) && pid in w.alive && w.core.configured
    requires MayBegin(cfg, w.core, isForced) && InTime(cfg, ForKill(pid, true, isForced), polls)
    ensures Play(cfg, w, Steps(id, 2) + Steps(id, polls) + ([ProcessDies(pid)] + Steps(id, 2))) ==
            Some(Moved(w.(alive := w.alive - {pid}), Begun(w.core, isForced), id, StartLaunching))
  {
    hide Play;
    var w1 := Moved(w, w.core, id, StartKillPoll(pid, 0, true, isForced));
    var w2 := Moved(w1, w.core, id, StartKillPoll(pid, polls * 1000, true, isForced));
    var w3 := w2.(alive := w.alive - {pid});
    var w4 := Moved(w3, Begun(w.core, isForced), id, StartLaunching);
    KillingBegins(cfg, w, id, pid, isForced);
    PlayOne(cfg, w2, ProcessDies(pid));
    KillingSucceeds(cfg, w3, id, pid, polls * 1000, isForced);
    Join(cfg, w2, [ProcessDies(pid)], w3, Steps(id, 2), w4);
    WaitJoins(cfg, w, Steps(id, 2), w1, id, ForKill(pid, true, isForced), polls, [ProcessDies(pid)] + Steps(id, 2), w4);
    assert w4.tasks == w.tasks[id := StartLaunching];
  }

  lemma KillingGivesUp(cfg: Config, w: World, id: nat, pid: nat, waited: nat, isForced: bool)
    requires id < |w.tasks| && w.tasks[id] == StartKillPoll(pid, waited, true, isForced) && pid in w.alive
    requires waited >= cfg.killTimeout
    ensures Play(cfg, w, Steps(id, 2)) == Some(Moved(w, w.core, id, Settled(false)))
  {
    GoesTwice(cfg, w, id, w.tasks[id], w.core, StartGuard(false, true, isForced), w.core, Settled(false));
  }

  /** One whose leftover process outlives the timeout is refused and touches nothing, forced or not. */
  lemma LeftoverOutlivesStart(cfg: Config, w: World, id: nat, pid: nat, isForced: bool, polls: nat)
    requires id < |w.tasks| && w.tasks[id] == StartLookup(pid, true, isForced) && pid in w.alive && w.core.configured
    requires OutOfTime(cfg, ForKill(pid, true, isForced), polls)
    ensures Play(cfg, w, Steps(id, 2) + Steps(id, polls) + Steps(id, 2)) == Some(Moved(w, w.core, id, Settled(false)))
  {
    hide Play;
    var w1 := Moved(w, w.core, id, StartKillPoll(pid, 0, true, isForced));
    var w2 := Moved(w1, w.core, id, StartKillPoll(pid, polls * 1000, true, isForced));
    var w4 := Moved(w2, w.core, id, Settled(false));
    KillingBegins(cfg, w, id, pid, isForced);
    KillingGivesUp(cfg, w2, id, pid, polls * 1000, isForced);
    WaitJoins(cfg, w, Steps(id, 2), w1, id, ForKill(pid, true, isForced), polls, Steps(id, 2), w4);
    assert w4.tasks == w.tasks[id := Settled(false)];
  }

  /** So is one whose kill throws, as it does while no config was ever set. */
  lemma ThrowingKillRefuses(cfg: Config, w: World, id: nat, pid: nat, isForced: bool, a: Answer)
    requires id < |w.tasks| && w.tasks[id] == StartLookup(pid, true, isForced) && pid in w.alive
    requires a == Fault || (a == Fine && !w.core.configured)
    ensures Play(cfg, w, Steps(id, 1) + [Step(id, a)] + Steps(id, 1)) == Some(Moved(w, w.core, id, Settled(false)))
  {
    hide Play;
    var w1 := Moved(w, w.core, id, StartGuard(false, true, isForced));
    GoesOnce(cfg, w, id, w.tasks[id], w.core, StartKill(pid, true, isForced));
    MoveOn(cfg, w, Steps(id, 1), id, w.core, StartKill(pid, true, isForced), a, w.core,
        StartGuard(false, true, isForced));
    GuardRefuses(cfg, w1, id, false, true, isForced);
    MovedTwice(w, w.core, id, StartGuard(false, true, isForced), w.core, Settled(false));
    Join(cfg, w, Steps(id, 1) + [Step(id, a)], w1, Steps(id, 1), Moved(w, w.core, id, Settled(false)));
  }

  // The launch.

  /** The fields of a node that is up: everything the children and the port message report is in place. */
  function Up(c: Core, pid: nat, port: nat): Core {
    c.(state := Running, startupTries := 0, node := Some(|c.launchers|),
       launchers := c.launchers + [Launcher(Some(pid), true)], tlsConfig := Some(TlsConfig(port)),
       trace := c.trace + [Became(Running), SentTls(Some(TlsConfig(port)))])
  }

  lemma Arrives(cfg: Config, w: World, id: nat)
    requires id < |w.tasks| && w.tasks[id] == StartLaunching
    ensures var c := w.core.(launchers := w.core.launchers + [Launcher(None, false)], node := Some(|w.core.launchers|));
            Play(cfg, w, Steps(id, 1)) == Some(Moved(w, c, id, StartWaiting(|w.core.launchers|)))
  {
    var c := w.core.(launchers := w.core.launchers + [Launcher(None, false)], node := Some(|w.core.launchers|));
    GoesOnce(cfg, w, id, StartLaunching, c, StartWaiting(|w.core.launchers|));
  }

  lemma FreshStays(w: World, c: Core, id: nat, t: Task, pid: nat)
    requires id < |w.tasks| && FreshPid(w, pid)
    requires c.previousPid == w.core.previousPid && c.launchers == w.core.launchers + [Launcher(None, false)]
    ensures FreshPid(Moved(w, c, id, t), pid)
  {
  }

  lemma ConnectsFields(c: Core, pid: nat, port: nat)
    requires c.state == Starting
    ensures var c1 := c.(launchers := c.launchers + [Launcher(None, false)], node := Some(|c.launchers|));
            HandleReplyPort(ConnectLauncher(c1, |c.launchers|, pid), port) == Up(c, pid, port)
  {
    LastUpdated(c.launchers, Launcher(None, false), Launcher(Some(pid), true));
    assert c.trace + [Became(Running)] + [SentTls(Some(TlsConfig(port)))] ==
           c.trace + [Became(Running), SentTls(Some(TlsConfig(port)))];
  }

  lemma Connecting(cfg: Config, w: World, id: nat, c: Core, pid: nat, port: nat)
    requires id < |w.tasks| && w.tasks[id] == StartWaiting(|c.launchers|) && c.state == Starting && FreshPid(w, pid)
    requires w.core == c.(launchers := c.launchers + [Launcher(None, false)], node := Some(|c.launchers|))
    ensures Enabled(w, Step(id, Connects(pid, port)))
    ensures Next(cfg, w, Step(id, Connects(pid, port))) ==
            w.(core := Up(c, pid, port), tasks := w.tasks[id := Settled(true)], alive := w.alive + {pid})
  {
    ConnectsFields(c, pid, port);
  }

  /** A launch whose children come up ends RUNNING, with the port they replied with sent out and no tries counted. */
  lemma LaunchRuns(cfg: Config, w: World, id: nat, pid: nat, port: nat)
    requires id < |w.tasks| && w.tasks[id] == StartLaunching && w.core.state == Starting && FreshPid(w, pid)
    ensures Play(cfg, w, Steps(id, 1) + [Step(id, Connects(pid, port))]) ==
            Some(w.(core := Up(w.core, pid, port), tasks := w.tasks[id := Settled(true)], alive := w.alive + {pid}))
  {
    hide Play;
    var c := w.core.(launchers := w.core.launchers + [Launcher(None, false)], node := Some(|w.core.launchers|));
    var w1 := Moved(w, c, id, StartWaiting(|w.core.launchers|));
    Arrives(cfg, w, id);
    FreshStays(w, c, id, StartWaiting(|w.core.launchers|), pid);
    Connecting(cfg, w1, id, w.core, pid, port);
    PlayOne(cfg, w1, Step(id, Connects(pid, port)));
    Join(cfg, w, Steps(id, 1), w1, [Step(id, Connects(pid, port))], Next(cfg, w1, Step(id, Connects(pid, port))));
    MovedTwice(w, c, id, StartWaiting(|w.core.launchers|), Up(w.core, pid, port), Settled(true));
  }

  /** Children that come up without a readable reply are a failed launch of a connected node: while retries are left
      it is ERRORED and restarted, which begins with stopping it. */
  lemma UnreadableLaunchRestarts(cfg: Config, w: World, id: nat, h: nat, pid: nat)
    requires id < |w.tasks| && w.tasks[id] == StartWaiting(h) && w.core.node == Some(h) && h < |w.core.launchers|
    requires FreshPid(w, pid) && w.core.startupTries < cfg.maxRetries
    ensures var up := w.core.(launchers := w.core.launchers[h := Launcher(Some(pid), true)]);
            var settled := w.tasks[id := Settled(false)];
            && Enabled(w, Step(id, Unreadable(pid)))
            && Next(cfg, w, Step(id, Unreadable(pid))) ==
               w.(core := Tell(up, Errored), alive := w.alive + {pid},
                  tasks := settled + [StopCheck(false, Some(h))] +
                           [RestartStopping(|w.tasks|, w.core.configured, false)])
  {
  }

  // restart.

  /** A restart whose stop resolved starts the node again, with the config and the force flag it captured. */
  lemma RestartGoesOn(cfg: Config, w: World, id: nat, child: nat, hasConfig: bool, isForced: bool)
    requires id < |w.tasks| && w.tasks[id] == RestartStopping(child, hasConfig, isForced)
    requires child < |w.tasks| && w.tasks[child] == Settled(true)
    requires !w.core.exitOnStop && !IsConnected(w.core)
    ensures Play(cfg, w, [Step(id, Fine), Step(id, Fine)]) ==
            Some(w.(tasks := w.tasks[id := RestartStarting(|w.tasks|)] +
                             [Looking(w.core.previousPid, hasConfig, isForced)]))
  {
    hide Play;
    var w1 := Moved(w, w.core, id, RestartGate(hasConfig, isForced));
    var look := Looking(w.core.previousPid, hasConfig, isForced);
    var w2 := w.(tasks := w.tasks[id := RestartStarting(|w.tasks|)] + [look]);
    StepMoves(cfg, w, id, Fine, w.core, RestartGate(hasConfig, isForced));
    GateOpens(cfg, w1, id, hasConfig, isForced);
    MovedTwice(w, w.core, id, RestartGate(hasConfig, isForced), w.core, RestartStarting(|w.tasks|));
    PlayOne(cfg, w, Step(id, Fine));
    PlayOne(cfg, w1, Step(id, Fine));
    Join(cfg, w, [Step(id, Fine)], w1, [Step(id, Fine)], w2);
    assert [Step(id, Fine)] + [Step(id, Fine)] == [Step(id, Fine), Step(id, Fine)];
  }

  lemma GateOpens(cfg: Config, w: World, id: nat, hasConfig: bool, isForced: bool)
    requires id < |w.tasks| && w.tasks[id] == RestartGate(hasConfig, isForced)
    requires !w.core.exitOnStop && !IsConnected(w.core)
    ensures Next(cfg, w, Step(id, Fine)) ==
            w.(tasks := w.tasks[id := RestartStarting(|w.tasks|)] + [Looking(w.core.previousPid, hasConfig, isForced)])
  {
    assert w.alive + {} == w.alive;
  }

  /** Once the exit was asked for, a restart ends where it would start. */
  lemma GateStaysShut(cfg: Config, w: World, id: nat, hasConfig: bool, isForced: bool)
    requires id < |w.tasks| && w.tasks[id] == RestartGate(hasConfig, isForced) && w.core.exitOnStop
    ensures Play(cfg, w, Steps(id, 1)) == Some(Moved(w, w.core, id, Settled(true)))
  {
    GoesOnce(cfg, w, id, w.tasks[id], w.core, Settled(true));
  }

  /** A restart takes the outcome of its stop and of its start: if one was rejected, it rejects too, and the state is
      ERRORED unless it is UNRECOVERABLE. */
  lemma RestartTakesOutcome(cfg: Config, w: World, id: nat, child: nat, resolved: bool)
    requires id < |w.tasks| && child < |w.tasks| && w.tasks[child] == Settled(resolved)
    requires || w.tasks[id] == RestartStarting(child)
             || (w.tasks[id].RestartStopping? && w.tasks[id].child == child && !resolved)
    ensures var c := if resolved || w.core.state == Unrecoverable then w.core else Tell(w.core, Errored);
            Play(cfg, w, [Step(id, Fine)]) == Some(Moved(w, c, id, Settled(resolved)))
  {
    var c := if resolved || w.core.state == Unrecoverable then w.core else Tell(w.core, Errored);
    StepMoves(cfg, w, id, Fine, c, Settled(resolved));
    PlayOne(cfg, w, Step(id, Fine));
  }

  /** What orders a restart: its call, the timer of a crash, and a report of enough space while the node neither starts
      nor runs. */
  predicate OrdersRestart(w: World, e: Event, isForced: bool) {
    || e == Restart(isForced)
    || (!isForced && e == CrashTimer && w.crashTimers > 0)
    || (!isForced && e == DiskReport(false) && w.core.state != Starting && w.core.state != Running)
  }

  /** The timer that fired is spent. */
  function Spent(w: World, e: Event): World {
    if e == CrashTimer && w.crashTimers > 0 then w.(crashTimers := w.crashTimers - 1) else w
  }

  lemma OrderCalls(cfg: Config, w: World, e: Event, isForced: bool)
    requires OrdersRestart(w, e, isForced) && w.core.configured
    ensures Enabled(w, e)
    ensures !IsConnected(w.core) ==> Next(cfg, w, e) == Spent(w, e).(tasks := w.tasks + [RestartGate(true, isForced)])
    ensures IsConnected(w.core) ==>
              Next(cfg, w, e) == Spent(w, e).(tasks := w.tasks + [StopCheck(false, w.core.node)] +
                                                      [RestartStopping(|w.tasks|, true, isForced)])
  {
  }

  /** The last call made is a start. */
  lemma LastStarts(cfg: Config, w: World, before: seq<Task>, isForced: bool)
    requires w.tasks == before + [Looking(w.core.previousPid, true, isForced)]
    requires NoLeftover(w) && MayBegin(cfg, w.core, isForced)
    ensures Play(cfg, w, Steps(|before|, StartSteps(w.core.previousPid))) ==
            Some(w.(core := Begun(w.core, isForced), tasks := before + [StartLaunching]))
  {
    StartRuns(cfg, w, |before|, isForced);
    LastUpdated(before, Looking(w.core.previousPid, true, isForced), StartLaunching);
  }

  lemma GateLooks(cfg: Config, w: World, before: seq<Task>, isForced: bool)
    requires w.tasks == before + [RestartGate(true, isForced)] && !w.core.exitOnStop && !IsConnected(w.core)
    ensures Play(cfg, w, [Step(|before|, Fine)]) ==
            Some(w.(tasks := before + [RestartStarting(|before| + 1)] + [Looking(w.core.previousPid, true, isForced)]))
  {
    GateOpens(cfg, w, |before|, true, isForced);
    LastUpdated(before, RestartGate(true, isForced), RestartStarting(|before| + 1));
    PlayOne(cfg, w, Step(|before|, Fine));
  }

  lemma GateRuns(cfg: Config, w: World, before: seq<Task>, isForced: bool)
    requires w.tasks == before + [RestartGate(true, isForced)] && !w.core.exitOnStop
    requires !IsConnected(w.core) && NoLeftover(w) && MayBegin(cfg, w.core, isForced)
    ensures Play(cfg, w, [Step(|before|, Fine)] + Steps(|before| + 1, StartSteps(w.core.previousPid))) ==
            Some(w.(core := Begun(w.core, isForced),
                    tasks := before + [RestartStarting(|before| + 1)] + [StartLaunching]))
  {
    hide Play;
    var wait := before + [RestartStarting(|before| + 1)];
    var w1 := w.(tasks := wait + [Looking(w.core.previousPid, true, isForced)]);
    GateLooks(cfg, w, before, isForced);
    LastStarts(cfg, w1, wait, isForced);
    Join(cfg, w, [Step(|before|, Fine)], w1, Steps(|before| + 1, StartSteps(w.core.previousPid)),
      w1.(core := Begun(w.core, isForced), tasks := wait + [StartLaunching]));
  }

  /** A configured node that is not connected, with no leftover process and retries left, enters STARTING again when a
      restart is ordered. */
  lemma RestartOfNoneRuns(cfg: Config, w: World, e: Event, isForced: bool)
    requires OrdersRestart(w, e, isForced) && w.core.configured && !w.core.exitOnStop
    requires !IsConnected(w.core) && NoLeftover(w) && MayBegin(cfg, w.core, isForced)
    ensures var n := |w.tasks|;
            Play(cfg, w, [e] + ([Step(n, Fine)] + Steps(n + 1, StartSteps(w.core.previousPid)))) ==
            Some(Spent(w, e).(core := Begun(w.core, isForced),
                              tasks := w.tasks + [RestartStarting(n + 1)] + [StartLaunching]))
  {
    hide Play;
    var n := |w.tasks|;
    var w1 := Spent(w, e).(tasks := w.tasks + [RestartGate(true, isForced)]);
    OrderCalls(cfg, w, e, isForced);
    PlayOne(cfg, w, e);
    GateRuns(cfg, w1, w.tasks, isForced);
    Join(cfg, w, [e], w1, [Step(n, Fine)] + Steps(n + 1, StartSteps(w.core.previousPid)),
      w1.(core := Begun(w.core, isForced), tasks := w.tasks + [RestartStarting(n + 1)] + [StartLaunching]));
  }

  /** A restart that goes on from its stop into its start. */
  function GoingOn(n: nat): seq<Event> {
    [Step(n + 1, Fine), Step(n + 1, Fine)] + Steps(n + 2, 2)
  }

  /** The stop of a restart, and the start after it. */
  function RestartEvents(n: nat, polls: nat, pid: nat): seq<Event> {
    StopEvents(n, polls, pid) + GoingOn(n)
  }

  /** The fields of a node that was stopped and enters STARTING again. */
  function Restarting(c: Core, isForced: bool, pid: nat): Core {
    Begun(LetGo(Tell(c, Stopping), pid), isForced)
  }

  /** The calls before, the settled stop, the restart and its start. */
  function Launching(before: seq<Task>): seq<Task> {
    before + [Settled(true)] + [RestartStarting(|before| + 2)] + [StartLaunching]
  }

  lemma StoppedGoesOn(cfg: Config, w: World, before: seq<Task>, isForced: bool, pid: nat)
    requires w.tasks == before + [Settled(true)] + [RestartStopping(|before|, true, isForced)] && !w.core.exitOnStop
    requires !IsConnected(w.core) && w.core.previousPid == Some(pid) && pid !in w.alive
    requires MayBegin(cfg, w.core, isForced)
    ensures Play(cfg, w, GoingOn(|before|)) == Some(w.(core := Begun(w.core, isForced), tasks := Launching(before)))
  {
    hide Play;
    var n := |before|;
    var wait := before + [Settled(true)] + [RestartStarting(n + 2)];
    var w1 := w.(tasks := wait + [Looking(Some(pid), true, isForced)]);
    LastUpdated(before + [Settled(true)], RestartStopping(n, true, isForced), RestartStarting(n + 2));
    RestartGoesOn(cfg, w, n + 1, n, true, isForced);
    LastStarts(cfg, w1, wait, isForced);
    Join(cfg, w, [Step(n + 1, Fine), Step(n + 1, Fine)], w1, Steps(n + 2, 2),
      w1.(core := Begun(w.core, isForced), tasks := wait + [StartLaunching]));
  }

  lemma RestartCalls(cfg: Config, w: World, e: Event, isForced: bool)
    requires OrdersRestart(w, e, isForced) && w.core.configured && IsConnected(w.core)
    ensures Play(cfg, w, [e]) ==
            Some(Spent(w, e).(tasks := w.tasks + [StopCheck(false, w.core.node)] +
                                       [RestartStopping(|w.tasks|, true, isForced)]))
  {
    OrderCalls(cfg, w, e, isForced);
    PlayOne(cfg, w, e);
  }

  lemma ChildStops(cfg: Config, w: World, before: seq<Task>, wait: Task, pid: nat, polls: nat)
    requires w.tasks == before + [StopCheck(false, w.core.node)] + [wait]
    requires NodePid(w.core) == Some(pid) && pid in w.alive && InTime(cfg, ForStop, polls)
    ensures Play(cfg, w, StopEvents(|before|, polls, pid)) ==
            Some(w.(core := LetGo(Tell(w.core, Stopping), pid), tasks := before + [Settled(true)] + [wait],
                    alive := w.alive - {pid}))
  {
    StopRuns(cfg, w, |before|, w.core.node.value, pid, polls);
    assert w.tasks[|before| := Settled(true)] == before + [Settled(true)] + [wait];
  }

  lemma StopGoesOn(cfg: Config, w: World, before: seq<Task>, isForced: bool, pid: nat, polls: nat)
    requires w.tasks == before + [StopCheck(false, w.core.node)] + [RestartStopping(|before|, true, isForced)]
    requires !w.core.exitOnStop && MayBegin(cfg, w.core, isForced)
    requires NodePid(w.core) == Some(pid) && pid in w.alive && InTime(cfg, ForStop, polls)
    ensures Play(cfg, w, RestartEvents(|before|, polls, pid)) ==
            Some(w.(core := Restarting(w.core, isForced, pid), tasks := Launching(before), alive := w.alive - {pid}))
  {
    hide Play;
    var wait := RestartStopping(|before|, true, isForced);
    var w1 := w.(core := LetGo(Tell(w.core, Stopping), pid), tasks := before + [Settled(true)] + [wait],
                 alive := w.alive - {pid});
    ChildStops(cfg, w, before, wait, pid, polls);
    StoppedGoesOn(cfg, w1, before, isForced, pid);
    Join(cfg, w, StopEvents(|before|, polls, pid), w1, GoingOn(|before|),
      w1.(core := Restarting(w.core, isForced, pid), tasks := Launching(before)));
  }

  /** A restart of a connected node whose process goes in time stops it, puts its pid on record and enters STARTING. */
  lemma RestartRuns(cfg: Config, w: World, e: Event, isForced: bool, pid: nat, polls: nat)
    requires OrdersRestart(w, e, isForced) && w.core.configured && !w.core.exitOnStop && MayBegin(cfg, w.core, isForced)
    requires IsConnected(w.core) && NodePid(w.core) == Some(pid) && pid in w.alive && InTime(cfg, ForStop, polls)
    ensures Play(cfg, w, [e] + RestartEvents(|w.tasks|, polls, pid)) ==
            Some(Spent(w, e).(core := Restarting(w.core, isForced, pid), tasks := Launching(w.tasks),
                              alive := w.alive - {pid}))
  {
    hide Play;
    var n := |w.tasks|;
    var stopping := w.tasks + [StopCheck(false, w.core.node)] + [RestartStopping(n, true, isForced)];
    var w1 := Spent(w, e).(tasks := stopping);
    RestartCalls(cfg, w, e, isForced);
    StopGoesOn(cfg, w1, w.tasks, isForced, pid, polls);
    Join(cfg, w, [e], w1, RestartEvents(n, polls, pid),
      w1.(core := Restarting(w.core, isForced, pid), tasks := Launching(w.tasks), alive := w.alive - {pid}));
  }

  /** The launch of a restart, whose call then settles. */
  function LaunchEvents(n: nat, pid: nat, port: nat): seq<Event> {
    Steps(n + 2, 1) + [Step(n + 2, Connects(pid, port))] + [Step(n + 1, Fine)]
  }

  lemma LaunchSettles(cfg: Config, w: World, before: seq<Task>, pid: nat, port: nat)
    requires w.tasks == Launching(before) && w.core.state == Starting && FreshPid(w, pid)
    ensures Play(cfg, w, LaunchEvents(|before|, pid, port)) ==
            Some(w.(core := Up(w.core, pid, port), tasks := before + [Settled(true), Settled(true), Settled(true)],
                    alive := w.alive + {pid}))
  {
    hide Play;
    var n := |before|;
    var w1 := w.(core := Up(w.core, pid, port), tasks := w.tasks[n + 2 := Settled(true)], alive := w.alive + {pid});
    LaunchRuns(cfg, w, n + 2, pid, port);
    RestartTakesOutcome(cfg, w1, n + 1, n + 2, true);
    Join(cfg, w, Steps(n + 2, 1) + [Step(n + 2, Connects(pid, port))], w1, [Step(n + 1, Fine)],
      Moved(w1, w1.core, n + 1, Settled(true)));
    assert w1.tasks[n + 1 := Settled(true)] == before + [Settled(true), Settled(true), Settled(true)];
  }

  /** And when the children of the new launcher come up, the node is RUNNING again, with the new pid and port, and every
      call is resolved. */
  lemma RestartComesUp(cfg: Config, w: World, e: Event, isForced: bool, gone: nat, polls: nat, pid: nat, port: nat)
    requires OrdersRestart(w, e, isForced) && w.core.configured && !w.core.exitOnStop && MayBegin(cfg, w.core, isForced)
    requires IsConnected(w.core) && NodePid(w.core) == Some(gone) && gone in w.alive && InTime(cfg, ForStop, polls)
    requires FreshPid(w, pid)
    ensures Play(cfg, w, [e] + RestartEvents(|w.tasks|, polls, gone) + LaunchEvents(|w.tasks|, pid, port)) ==
            Some(Spent(w, e).(core := Up(Restarting(w.core, isForced, gone), pid, port),
                              tasks := w.tasks + [Settled(true), Settled(true), Settled(true)],
                              alive := w.alive - {gone} + {pid}))
  {
    hide Play;
    var n := |w.tasks|;
    var w1 := Spent(w, e).(core := Restarting(w.core, isForced, gone), tasks := Launching(w.tasks),
                           alive := w.alive - {gone});
    RestartRuns(cfg, w, e, isForced, gone, polls);
    LaunchSettles(cfg, w1, w.tasks, pid, port);
    Join(cfg, w, [e] + RestartEvents(n, polls, gone), w1, LaunchEvents(n, pid, port),
      w1.(core := Up(w1.core, pid, port), tasks := w.tasks + [Settled(true), Settled(true), Settled(true)],
          alive := w.alive - {gone} + {pid}));
  }

  /** The fields of a running node that crashed and was let go. */
  function Fallen(c: Core, code: int, pid: nat): Core {
    LetGo(Found(Tell(c, Exiting), Crashed, code), pid)
  }

  /** The exit of a node and, if it was a crash, the restart its timer orders. */
  function CrashEvents(n: nat, h: nat, code: int, polls: nat, pid: nat): seq<Event> {
    ExitEvents(n, h, code, polls, pid) + ([CrashTimer] + ([Step(n + 1, Fine)] + Steps(n + 2, 2)))
  }

  /** A running node that exits with retries left is found to have crashed, and the timer set for it starts it again. */
  lemma CrashedNodeStartsAgain(cfg: Config, w: World, h: nat, code: int, pid: nat, polls: nat)
    requires w.core.state == Running && w.core.configured && !w.core.exitOnStop && w.core.startupTries < cfg.maxRetries
    requires Enabled(w, NodeExits(h, code)) && NodePid(w.core) == Some(pid) && pid in w.alive
    requires InTime(cfg, ForExit(code), polls)
    ensures Play(cfg, w, CrashEvents(|w.tasks|, h, code, polls, pid)) ==
            Some(w.(core := Begun(Fallen(w.core, code, pid), false), alive := w.alive - {pid}, exited := w.exited + {h},
                    tasks := w.tasks + [Settled(true)] + [RestartStarting(|w.tasks| + 2)] + [StartLaunching]))
  {
    hide Play;
    var n := |w.tasks|;
    var w1 := w.(core := Fallen(w.core, code, pid), alive := w.alive - {pid}, exited := w.exited + {h},
                 tasks := w.tasks + [Settled(true)], crashTimers := w.crashTimers + 1);
    ExitRuns(cfg, w, h, code, pid, polls, Crashed);
    LastUpdated(w.tasks, ExitPoll(code, 0), Settled(true));
    RestartOfNoneRuns(cfg, w1, CrashTimer, false);
    Join(cfg, w, ExitEvents(n, h, code, polls, pid), w1, [CrashTimer] + ([Step(n + 1, Fine)] + Steps(n + 2, 2)),
      Spent(w1, CrashTimer).(core := Begun(w1.core, false),
                             tasks := w1.tasks + [RestartStarting(n + 2)] + [StartLaunching]));
  }

  // The first start of a session.

  /** Setting up starts the node: with nothing left over it enters STARTING. */
  lemma SetupRuns(cfg: Config, w: World)
    requires !IsConnected(w.core) && NoLeftover(w) && w.core.startupTries < cfg.maxRetries
    ensures Play(cfg, w, [SetupStart] + Steps(|w.tasks|, StartSteps(w.core.previousPid))) ==
            Some(w.(core := Begun(w.core, false), tasks := w.tasks + [StartLaunching]))
  {
    hide Play;
    var w1 := w.(tasks := w.tasks + [Looking(w.core.previousPid, true, false)]);
    assert Next(cfg, w, SetupStart) == w1;
    PlayOne(cfg, w, SetupStart);
    LastStarts(cfg, w1, w.tasks, false);
    Join(cfg, w, [SetupStart], w1, Steps(|w.tasks|, StartSteps(w.core.previousPid)),
      w1.(core := Begun(w.core, false), tasks := w.tasks + [StartLaunching]));
  }
}
