/** Runs in which starts wait for each other, for the previous stop and for the exit handler: the node process is
    handed over through its recorded pid, so that two of them never live at once. */
module SupervisorSequenced {
  import opened Wrappers
  import opened Supervisor
  import opened SupervisorRuns
  import opened SupervisorUnrecoverable

  /** A stop, kill or exit handler that is not through and found the node alive. */
  predicate Active(t: Task) {
    IsExit(t) || (IsStop(t) && !(t.StopCheck? && t.isDead)) || (IsKill(t) && !(t.KillCheck? && t.isDead))
  }

  predicate NoneActive(tasks: seq<Task>) {
    forall i :: 0 <= i < |tasks| ==> !Active(tasks[i])
  }

  predicate AllExited(c: Core, exited: set<nat>) {
    forall h :: 0 <= h < |c.launchers| && c.launchers[h].connected ==> h in exited
  }

  predicate CallsStart(w: World, e: Event) {
    e.SetupStart? || (e.Step? && e.task < |w.tasks| && w.tasks[e.task].RestartGate? && !w.core.exitOnStop)
  }

  /** `start` is called only when no other start is in flight, and enters STARTING only when the previous stop, kill
      or exit handler has reached `_reset` (or given up) and every earlier node has delivered its exit event. */
  predicate Orderly(w: World, e: Event) {
    && (CallsStart(w, e) ==> NoStart(w.tasks))
    && (e.Step? && e.task < |w.tasks| && w.tasks[e.task].StartGuard? ==>
          NoneActive(w.tasks) && AllExited(w.core, w.exited))
  }

  /** When `start` looks for the recorded process and it is alive, the lookup works. */
  predicate Truthful(w: World, e: Event) {
    e.Step? && e.answer == Fault && e.task < |w.tasks| ==>
      match w.tasks[e.task]
      case StartLookup(pid, _, _) => pid !in w.alive
      case StartKillPoll(pid, _, _, _) => pid !in w.alive
      case _ => true
  }

  ghost predicate OrderlyRun(cfg: Config, w: World, es: seq<Event>)
    requires Legal(cfg, w, es)
  {
    es == [] ||
    var before, e := es[..|es| - 1], es[|es| - 1];
    OrderlyRun(cfg, w, before) && Orderly(Run(cfg, w, before), e)
  }

  ghost predicate TruthfulRun(cfg: Config, w: World, es: seq<Event>)
    requires Legal(cfg, w, es)
  {
    es == [] ||
    var before, e := es[..|es| - 1], es[|es| - 1];
    TruthfulRun(cfg, w, before) && Truthful(Run(cfg, w, before), e)
  }

  // The invariant.

  predicate RecordedIsDead(c: Core, alive: set<nat>) {
    c.previousPid.Some? ==> c.previousPid.value !in alive
  }

  predicate ProcessAlive(c: Core, alive: set<nat>, h: int)
    requires 0 <= h < |c.launchers|
  {
    c.launchers[h].pid.Some? && c.launchers[h].pid.value in alive
  }

  ghost predicate AllDead(c: Core, alive: set<nat>) {
    forall h :: 0 <= h < |c.launchers| ==> !ProcessAlive(c, alive, h)
  }

  /** A live process belongs to the current node or is on record; with a current node it is the only one. */
  ghost predicate CoreInv(c: Core, alive: set<nat>) {
    && c.WellFormed()
    && LaunchersTagged(c)
    && (forall h :: 0 <= h < |c.launchers| && ProcessAlive(c, alive, h) ==>
          c.node == Some(h) || c.previousPid == c.launchers[h].pid)
    && (forall h :: 0 <= h < |c.launchers| && ProcessAlive(c, alive, h) && IsConnected(c) ==> c.node == Some(h))
    && (forall h, k :: 0 <= h < k < |c.launchers| && c.launchers[h].pid.Some? ==>
        c.launchers[h].pid != c.launchers[k].pid)
  }

  predicate NodeStored(c: Core) {
    c.node.Some? ==> IsConnected(c) && c.previousPid == NodePid(c)
  }

  predicate UpOrComing(s: NodeState) {
    s == Starting || s == Running
  }

  ghost predicate TaskInv(c: Core, alive: set<nat>, t: Task) {
    match t
    case StartLookup(pid, _, _) => !IsConnected(c) && c.previousPid == Some(pid)
    case StartKill(pid, _, _) => !IsConnected(c) && c.previousPid == Some(pid)
    case StartKillPoll(pid, _, _, _) => !IsConnected(c) && c.previousPid == Some(pid)
    case StartGuard(canBeStarted, _, _) => canBeStarted ==> !IsConnected(c) && RecordedIsDead(c, alive)
    case StartLaunching => !IsConnected(c) && RecordedIsDead(c, alive) && AllDead(c, alive) && c.state != Running
    case StartWaiting(h) =>
      !IsConnected(c) && RecordedIsDead(c, alive) && AllDead(c, alive) && c.state != Running && c.node == Some(h)
    case StopNode => !UpOrComing(c.state)
    case StopPoll(_) => !UpOrComing(c.state)
    case StopStore => !UpOrComing(c.state)
    case StopKilling(_) => !UpOrComing(c.state)
    case StopReset => !UpOrComing(c.state) && NodeStored(c)
    case ExitReset => !UpOrComing(c.state) && NodeStored(c)
    case KillReset => NodeStored(c)
    case KillFailedReset => NodeStored(c)
    case _ => true
  }

  ghost predicate Fragile(c: Core, tasks: seq<Task>) {
    (c.node.Some? && !IsConnected(c)) || exists i :: 0 <= i < |tasks| && Launching(tasks[i])
  }

  ghost predicate TasksInv(c: Core, tasks: seq<Task>, alive: set<nat>, exited: set<nat>) {
    && (forall i :: 0 <= i < |tasks| ==> TaskInv(c, alive, tasks[i]))
    && (forall i, j :: 0 <= i < j < |tasks| ==> !(IsStart(tasks[i]) && IsStart(tasks[j])))
    && (Fragile(c, tasks) ==> NoneActive(tasks) && AllExited(c, exited))
  }

  /** The processes that the invariant speaks of: without `tracking`, for runs with failing lookups, none. */
  function Seen(w: World, tracking: bool): set<nat> {
    if tracking then w.alive else {}
  }

  ghost predicate Inv(w: World, tracking: bool) {
    && CoreInv(w.core, Seen(w, tracking))
    && TasksInv(w.core, w.tasks, Seen(w, tracking), w.exited)
  }

  // How the fields may change under the other calls.

  /** Only the state, the TLS config or bookkeeping changed, and not towards STARTING or RUNNING. */
  predicate Steady(c: Core, c': Core) {
    && c'.node == c.node && c'.launchers == c.launchers && c'.previousPid == c.previousPid
    && (c'.state == c.state || !UpOrComing(c'.state))
  }

  lemma SteadyKeeps(c: Core, c': Core, alive: set<nat>, tasks: seq<Task>, exited: set<nat>)
    requires Steady(c, c') && CoreInv(c, alive) && TasksInv(c, tasks, alive, exited)
    ensures CoreInv(c', alive) && TasksInv(c', tasks, alive, exited)
  {
  }

  lemma ReplaceTask(c: Core, tasks: seq<Task>, alive: set<nat>, exited: set<nat>, id: nat, t: Task)
    requires TasksInv(c, tasks, alive, exited) && id < |tasks|
    requires TaskInv(c, alive, t)
    requires IsStart(t) ==> IsStart(tasks[id])
    requires Launching(t) ==> Launching(tasks[id])
    requires Active(t) ==> Active(tasks[id])
    ensures TasksInv(c, tasks[id := t], alive, exited)
  {
    var tasks' := tasks[id := t];
    if Fragile(c, tasks') && !(c.node.Some? && !IsConnected(c)) {
      var i :| 0 <= i < |tasks'| && Launching(tasks'[i]);
      assert Launching(tasks[i]);
    }
  }

  lemma AddTask(c: Core, tasks: seq<Task>, alive: set<nat>, exited: set<nat>, t: Task)
    requires CoreInv(c, alive) && TasksInv(c, tasks, alive, exited)
    requires TaskInv(c, alive, t)
    requires IsStart(t) ==> NoStart(tasks)
    requires !Launching(t)
    requires Active(t) ==> !Fragile(c, tasks)
    ensures TasksInv(c, tasks + [t], alive, exited)
  {
    var tasks' := tasks + [t];
    if Fragile(c, tasks') && !(c.node.Some? && !IsConnected(c)) {
      var i :| 0 <= i < |tasks'| && Launching(tasks'[i]);
      assert Launching(tasks[i]);
    }
  }

  /** While the node is connected nothing is fragile. */
  lemma ConnectedIsNotFragile(c: Core, tasks: seq<Task>, alive: set<nat>, exited: set<nat>)
    requires TasksInv(c, tasks, alive, exited) && IsConnected(c)
    ensures !Fragile(c, tasks)
  {
    if i :| 0 <= i < |tasks| && Launching(tasks[i]) {
      assert TaskInv(c, alive, tasks[i]);
    }
  }

  /** While some stop, kill or exit handler is active, no node is coming up and the current one, if any, is connected. */
  lemma ActiveIsNotFragile(c: Core, tasks: seq<Task>, alive: set<nat>, exited: set<nat>, id: nat)
    requires TasksInv(c, tasks, alive, exited) && id < |tasks| && Active(tasks[id])
    ensures !Fragile(c, tasks)
    ensures c.node.Some? ==> IsConnected(c)
    ensures forall i :: 0 <= i < |tasks| ==> !Launching(tasks[i])
  {
    assert !NoneActive(tasks);
  }

  lemma StoreKeeps(c: Core, alive: set<nat>, tasks: seq<Task>, exited: set<nat>)
    requires CoreInv(c, alive) && TasksInv(c, tasks, alive, exited)
    requires c.node.Some? ==> IsConnected(c)
    ensures CoreInv(StoreProcessStates(c), alive) && TasksInv(StoreProcessStates(c), tasks, alive, exited)
    ensures NodeStored(StoreProcessStates(c))
  {
    var c' := StoreProcessStates(c);
    if c.node.Some? {
      forall i | 0 <= i < |tasks| ensures TaskInv(c', alive, tasks[i]) {
        assert TaskInv(c, alive, tasks[i]);
      }
    }
  }

  lemma ResetKeeps(c: Core, alive: set<nat>, tasks: seq<Task>, exited: set<nat>)
    requires CoreInv(c, alive) && TasksInv(c, tasks, alive, exited)
    requires NodeStored(c)
    requires forall i :: 0 <= i < |tasks| ==> !Launching(tasks[i])
    ensures CoreInv(Reset(c), alive) && TasksInv(Reset(c), tasks, alive, exited)
  {
    forall i | 0 <= i < |tasks| ensures TaskInv(Reset(c), alive, tasks[i]) {
      assert TaskInv(c, alive, tasks[i]);
    }
  }

  /** Calls that neither start nor are active do not depend on the fields. */
  lemma InertTask(c: Core, alive: set<nat>, t: Task)
    requires !IsStart(t) && !Active(t)
    ensures TaskInv(c, alive, t)
  {
  }

  // Outside events and calls.

  lemma RestartCallKeeps(w: World, tracking: bool, isForced: bool)
    requires Inv(w, tracking)
    ensures Inv(CallRestart(w, isForced), tracking)
  {
    if IsConnected(w.core) {
      ConnectedIsNotFragile(w.core, w.tasks, Seen(w, tracking), w.exited);
      AddTask(w.core, w.tasks, Seen(w, tracking), w.exited, StopCheck(false, w.core.node));
      AddTask(w.core, CallStop(w).tasks, Seen(w, tracking), w.exited,
          RestartStopping(|w.tasks|, w.core.configured, isForced));
    } else {
      AddTask(w.core, w.tasks, Seen(w, tracking), w.exited, RestartGate(w.core.configured, isForced));
    }
  }

  lemma DeadUnlessConnected(c: Core, alive: set<nat>)
    requires LaunchersTagged(c)
    ensures IsDead(c, alive) <==> !IsConnected(c)
  {
  }

  lemma StopCallKeeps(w: World, tracking: bool)
    requires Inv(w, tracking)
    ensures Inv(CallStop(w), tracking) && Inv(CallKill(w), tracking)
  {
    DeadUnlessConnected(w.core, w.alive);
    if IsConnected(w.core) {
      ConnectedIsNotFragile(w.core, w.tasks, Seen(w, tracking), w.exited);
    }
    AddTask(w.core, w.tasks, Seen(w, tracking), w.exited, StopCheck(IsDead(w.core, w.alive), w.core.node));
    AddTask(w.core, w.tasks, Seen(w, tracking), w.exited, KillCheck(IsDead(w.core, w.alive), w.core.node));
  }

  lemma StartCallKeeps(w: World, tracking: bool, hasConfig: bool, isForced: bool)
    requires Inv(w, tracking) && NoStart(w.tasks)
    ensures Inv(CallStart(w, hasConfig, isForced), tracking)
  {
    AddTask(w.core, w.tasks, Seen(w, tracking), w.exited, FirstStartTask(w.core, hasConfig, isForced));
  }

  lemma SteadyWorld(w: World, tracking: bool, c': Core)
    requires Inv(w, tracking) && Steady(w.core, c')
    ensures Inv(w.(core := c'), tracking)
  {
    SteadyKeeps(w.core, c', Seen(w, tracking), w.tasks, w.exited);
  }

  lemma ErrorCallKeeps(cfg: Config, w: World, tracking: bool)
    requires Inv(w, tracking)
    ensures Inv(CallHandleNodeError(cfg, w), tracking)
  {
    var w1 := w.(core := HandleNodeError(w.core, cfg.maxRetries));
    SteadyWorld(w, tracking, w1.core);
    RestartCallKeeps(w1, tracking, false);
  }

  lemma UpdateCallKeeps(w: World, tracking: bool)
    requires Inv(w, tracking)
    ensures Inv(CallExpectNodeUpdate(w), tracking)
  {
    var w1 := w.(core := BeginUpdate(w.core));
    SteadyWorld(w, tracking, w1.core);
    if w.core.configured {
      AddTask(w1.core, w1.tasks, Seen(w1, tracking), w1.exited, UpdatePoll(0));
    } else {
      StopCallKeeps(w1, tracking);
      var w2 := CallKill(w1);
      AddTask(w2.core, w2.tasks, Seen(w2, tracking), w2.exited, UpdateKilling(|w1.tasks|));
    }
  }

  lemma DeathKeeps(w: World, tracking: bool, pid: nat)
    requires Inv(w, tracking)
    ensures Inv(w.(alive := w.alive - {pid}), tracking)
  {
    var alive := Seen(w.(alive := w.alive - {pid}), tracking);
    forall i | 0 <= i < |w.tasks| ensures TaskInv(w.core, alive, w.tasks[i]) {
      assert TaskInv(w.core, Seen(w, tracking), w.tasks[i]);
    }
  }

  lemma ExitEventKeeps(w: World, tracking: bool, h: nat, code: int)
    requires Inv(w, tracking) && h < |w.core.launchers| && w.core.launchers[h].connected && h !in w.exited
    ensures Inv(Add(w.(core := BeginExit(w.core), exited := w.exited + {h}), ExitPoll(code, 0)), tracking)
  {
    var c', exited := BeginExit(w.core), w.exited + {h};
    assert !Fragile(w.core, w.tasks);
    assert TasksInv(w.core, w.tasks, Seen(w, tracking), exited);
    SteadyKeeps(w.core, c', Seen(w, tracking), w.tasks, exited);
    AddTask(c', w.tasks, Seen(w, tracking), exited, ExitPoll(code, 0));
  }

  lemma OutsideKeeps(cfg: Config, w: World, tracking: bool, e: Event)
    requires Inv(w, tracking) && Enabled(w, e) && Orderly(w, e) && !e.Step?
    ensures Inv(Next(cfg, w, e), tracking)
  {
    match e
    case SetupStart => StartCallKeeps(w, tracking, true, false);
    case Restart(isForced) => RestartCallKeeps(w, tracking, isForced);
    case CrashTimer => RestartCallKeeps(w.(crashTimers := w.crashTimers - 1), tracking, false);
    case DiskReport(isNotEnough) =>
      StopCallKeeps(w, tracking);
      RestartCallKeeps(w, tracking, false);
    case SafeExit =>
      StopCallKeeps(w, tracking);
      SteadyWorld(w, tracking, w.core.(exitOnStop := true));
    case AwaitUpdate => UpdateCallKeeps(w, tracking);
    case ProcessDies(pid) => DeathKeeps(w, tracking, pid);
    case NodeExits(h, code) => ExitEventKeeps(w, tracking, h, code);
  }

  // Stretches of calls in progress.

  /** A stretch that leaves the fields steady and moves its task without making it more dangerous. */
  lemma SteadyStretch(w: World, tracking: bool, id: nat, e: Effect)
    requires Inv(w, tracking) && id < |w.tasks|
    requires Steady(w.core, e.core) && e.spawned == {}
    requires TaskInv(e.core, Seen(w, tracking), e.task)
    requires IsStart(e.task) ==> IsStart(w.tasks[id])
    requires Launching(e.task) ==> Launching(w.tasks[id])
    requires Active(e.task) ==> Active(w.tasks[id])
    ensures Inv(Parked(w, id, e), tracking)
  {
    SteadyKeeps(w.core, e.core, Seen(w, tracking), w.tasks, w.exited);
    ReplaceTask(e.core, w.tasks, Seen(w, tracking), w.exited, id, e.task);
    assert w.alive + e.spawned == w.alive;
  }

  lemma StoreStretch(w: World, tracking: bool, id: nat, e: Effect)
    requires Inv(w, tracking) && id < |w.tasks| && Active(w.tasks[id])
    requires e.core == StoreProcessStates(w.core) && e.spawned == {}
    requires NodeStored(e.core) ==> TaskInv(e.core, Seen(w, tracking), e.task)
    requires Active(e.task)
    requires !IsStart(e.task)
    ensures Inv(Parked(w, id, e), tracking)
  {
    ActiveIsNotFragile(w.core, w.tasks, Seen(w, tracking), w.exited, id);
    StoreKeeps(w.core, Seen(w, tracking), w.tasks, w.exited);
    ReplaceTask(e.core, w.tasks, Seen(w, tracking), w.exited, id, e.task);
    assert w.alive + e.spawned == w.alive;
  }

  lemma ResetStretch(w: World, tracking: bool, id: nat, e: Effect)
    requires Inv(w, tracking) && id < |w.tasks| && Active(w.tasks[id]) && NodeStored(w.core)
    requires e.core == Reset(w.core) && e.task.Settled? && e.spawned == {}
    ensures Inv(Parked(w, id, e), tracking)
  {
    ActiveIsNotFragile(w.core, w.tasks, Seen(w, tracking), w.exited, id);
    ResetKeeps(w.core, Seen(w, tracking), w.tasks, w.exited);
    ReplaceTask(e.core, w.tasks, Seen(w, tracking), w.exited, id, e.task);
    assert w.alive + e.spawned == w.alive;
  }

  lemma BeginStretch(w: World, tracking: bool, id: nat, isForced: bool)
    requires Inv(w, tracking) && id < |w.tasks| && w.tasks[id].StartGuard? && w.tasks[id].canBeStarted
    requires NoneActive(w.tasks) && AllExited(w.core, w.exited)
    ensures Inv(Parked(w, id, Plain(BeginStart(w.core, isForced), StartLaunching)), tracking)
  {
    var c', tasks := BeginStart(w.core, isForced), w.tasks[id := StartLaunching];
    assert TaskInv(w.core, Seen(w, tracking), w.tasks[id]);
    forall i | 0 <= i < |tasks| ensures TaskInv(c', Seen(w, tracking), tasks[i]) {
      if i != id {
        InertTask(c', Seen(w, tracking), tasks[i]);
      }
    }
    assert w.alive + {} == w.alive;
  }

  lemma AdoptStretch(w: World, tracking: bool, id: nat)
    requires Inv(w, tracking) && id < |w.tasks| && w.tasks[id].StartLaunching?
    ensures Inv(Parked(w, id, Plain(AdoptLauncher(w.core), StartWaiting(|w.core.launchers|))), tracking)
  {
    var c', tasks := AdoptLauncher(w.core), w.tasks[id := StartWaiting(|w.core.launchers|)];
    assert Fragile(w.core, w.tasks);
    assert TaskInv(w.core, Seen(w, tracking), w.tasks[id]);
    forall i | 0 <= i < |tasks| ensures TaskInv(c', Seen(w, tracking), tasks[i]) {
      if i != id {
        InertTask(c', Seen(w, tracking), tasks[i]);
      }
    }
    assert w.alive + {} == w.alive;
  }

  /** The fields after the node came up: its process is alive, and the only one. */
  lemma ConnectKeepsCore(c: Core, c': Core, seen: set<nat>, seen': set<nat>, h: nat, pid: nat)
    requires CoreInv(c, seen) && AllDead(c, seen) && RecordedIsDead(c, seen) && h < |c.launchers| && c.node == Some(h)
    requires seen' <= seen + {pid}
    requires forall k :: 0 <= k < |c.launchers| ==> c.launchers[k].pid != Some(pid)
    requires c'.launchers == c.launchers[h := Launcher(Some(pid), true)]
    requires c'.node == c.node && c'.previousPid == c.previousPid
    ensures CoreInv(c', seen') && IsConnected(c')
  {
    forall k | 0 <= k < |c'.launchers| && k != h
      ensures !ProcessAlive(c', seen', k)
    {
      assert !ProcessAlive(c, seen, k);
    }
  }

  lemma ConnectStretch(w: World, tracking: bool, id: nat, e: Effect, pid: nat)
    requires Inv(w, tracking) && id < |w.tasks|
    requires w.tasks[id].StartWaiting? && w.tasks[id].launcher < |w.core.launchers|
    requires FreshPid(w, pid) && e.spawned == {pid} && e.task.Settled?
    requires var c1 := ConnectLauncher(w.core, w.tasks[id].launcher, pid);
             e.core == c1 || exists port :: e.core == HandleReplyPort(c1, port)
    ensures Inv(Parked(w, id, e), tracking)
  {
    var h, w' := w.tasks[id].launcher, Parked(w, id, e);
    assert Fragile(w.core, w.tasks);
    assert TaskInv(w.core, Seen(w, tracking), w.tasks[id]);
    ConnectKeepsCore(w.core, e.core, Seen(w, tracking), Seen(w', tracking), h, pid);
    forall i | 0 <= i < |w'.tasks| ensures TaskInv(e.core, Seen(w', tracking), w'.tasks[i]) {
      if i != id {
        InertTask(e.core, Seen(w', tracking), w'.tasks[i]);
      }
    }
  }

  lemma StartWaitKeeps(cfg: Config, w: World, tracking: bool, id: nat, a: Answer)
    requires Inv(w, tracking) && CanStep(w, id, a) && w.tasks[id].StartWaiting?
    ensures Inv(Parked(w, id, EffectOf(cfg, w, id, a)), tracking)
  {
    var e := EffectOf(cfg, w, id, a);
    if a.Connects? || a.Unreadable? {
      ConnectStretch(w, tracking, id, e, a.pid);
    } else {
      SteadyStretch(w, tracking, id, e);
    }
  }

  /** On the way to the launch nothing changes but where the start is parked. */
  lemma StartApproachKeeps(cfg: Config, w: World, tracking: bool, id: nat, a: Answer)
    requires Inv(w, tracking) && CanStep(w, id, a) && IsStart(w.tasks[id]) && !w.tasks[id].StartWaiting?
    requires var e := EffectOf(cfg, w, id, a); !Launching(e.task)
    requires tracking ==> Truthful(w, Step(id, a))
    ensures Inv(Parked(w, id, EffectOf(cfg, w, id, a)), tracking)
  {
    var t, e := w.tasks[id], EffectOf(cfg, w, id, a);
    assert TaskInv(w.core, Seen(w, tracking), t);
    assert e.core == w.core && e.spawned == {} && !Active(e.task);
    SteadyStretch(w, tracking, id, e);
  }

  lemma StartStretchKeeps(cfg: Config, w: World, tracking: bool, id: nat, a: Answer)
    requires Inv(w, tracking) && CanStep(w, id, a) && Orderly(w, Step(id, a)) && IsStart(w.tasks[id])
    requires tracking ==> Truthful(w, Step(id, a))
    ensures Inv(Parked(w, id, EffectOf(cfg, w, id, a)), tracking)
  {
    var t, e := w.tasks[id], EffectOf(cfg, w, id, a);
    if t.StartGuard? && e.task.StartLaunching? {
      BeginStretch(w, tracking, id, t.isForced);
    } else if t.StartLaunching? && a != Fault {
      AdoptStretch(w, tracking, id);
    } else if t.StartWaiting? {
      StartWaitKeeps(cfg, w, tracking, id, a);
    } else {
      StartApproachKeeps(cfg, w, tracking, id, a);
    }
  }

  lemma StopStretchKeeps(cfg: Config, w: World, tracking: bool, id: nat, a: Answer)
    requires Inv(w, tracking) && CanStep(w, id, a) && IsStop(w.tasks[id])
    requires tracking ==> Truthful(w, Step(id, a))
    ensures Inv(Parked(w, id, EffectOf(cfg, w, id, a)), tracking)
  {
    var t, e := w.tasks[id], EffectOf(cfg, w, id, a);
    assert TaskInv(w.core, Seen(w, tracking), t);
    if t.StopStore? && e.task.StopReset? {
      StoreStretch(w, tracking, id, e);
    } else if t.StopReset? {
      ResetStretch(w, tracking, id, e);
    } else {
      SteadyStretch(w, tracking, id, e);
    }
  }

  lemma KillResetStretch(w: World, tracking: bool, id: nat)
    requires Inv(w, tracking) && id < |w.tasks| && w.tasks[id].KillReset?
    ensures Inv(Parked(w, id, Plain(FinishKill(w.core), Settled(true))), tracking)
  {
    var c1 := ChangeToState(w.core, Became(Stopped));
    assert TaskInv(w.core, Seen(w, tracking), w.tasks[id]);
    SteadyWorld(w, tracking, c1);
    ResetStretch(w.(core := c1), tracking, id, Plain(Reset(c1), Settled(true)));
  }

  lemma KillStretchKeeps(cfg: Config, w: World, tracking: bool, id: nat, a: Answer)
    requires Inv(w, tracking) && CanStep(w, id, a) && IsKill(w.tasks[id])
    ensures Inv(Parked(w, id, EffectOf(cfg, w, id, a)), tracking)
  {
    var t, e := w.tasks[id], EffectOf(cfg, w, id, a);
    assert TaskInv(w.core, Seen(w, tracking), t);
    if e.task.KillReset? || e.task.KillFailedReset? {
      StoreStretch(w, tracking, id, e);
    } else if t.KillReset? {
      KillResetStretch(w, tracking, id);
    } else if t.KillFailedReset? {
      ResetStretch(w, tracking, id, e);
    } else {
      SteadyStretch(w, tracking, id, e);
    }
  }

  lemma ExitDecideKeeps(cfg: Config, w: World, tracking: bool, id: nat, a: Answer)
    requires Inv(w, tracking) && CanStep(w, id, a) && w.tasks[id].ExitDecide?
    ensures Inv(Parked(w, id, EffectOf(cfg, w, id, a)), tracking)
  {
    var t, e := w.tasks[id], EffectOf(cfg, w, id, a);
    var c1 := ConcludeExit(w.core, t.code, cfg.maxRetries);
    assert Steady(w.core, c1);
    if StoreThrows(c1, a) {
      SteadyStretch(w, tracking, id, e);
    } else {
      SteadyWorld(w, tracking, c1);
      StoreStretch(w.(core := c1), tracking, id, e);
    }
  }

  lemma ExitStretchKeeps(cfg: Config, w: World, tracking: bool, id: nat, a: Answer)
    requires Inv(w, tracking) && CanStep(w, id, a) && IsExit(w.tasks[id])
    requires tracking ==> Truthful(w, Step(id, a))
    ensures Inv(Parked(w, id, EffectOf(cfg, w, id, a)), tracking)
  {
    var t, e := w.tasks[id], EffectOf(cfg, w, id, a);
    if t.ExitDecide? {
      ExitDecideKeeps(cfg, w, tracking, id, a);
    } else if t.ExitReset? {
      assert TaskInv(w.core, Seen(w, tracking), t);
      ResetStretch(w, tracking, id, e);
    } else {
      SteadyStretch(w, tracking, id, e);
    }
  }

  lemma RestartStretchKeeps(cfg: Config, w: World, tracking: bool, id: nat, a: Answer)
    requires Inv(w, tracking) && CanStep(w, id, a) && IsRestart(w.tasks[id])
    ensures Inv(Parked(w, id, EffectOf(cfg, w, id, a)), tracking)
  {
    SteadyStretch(w, tracking, id, EffectOf(cfg, w, id, a));
  }

  lemma UpdateStretchKeeps(cfg: Config, w: World, tracking: bool, id: nat, a: Answer)
    requires Inv(w, tracking) && CanStep(w, id, a) && IsUpdate(w.tasks[id])
    requires tracking ==> Truthful(w, Step(id, a))
    ensures Inv(Parked(w, id, EffectOf(cfg, w, id, a)), tracking)
  {
    SteadyStretch(w, tracking, id, EffectOf(cfg, w, id, a));
  }

  lemma StretchKeeps(cfg: Config, w: World, tracking: bool, id: nat, a: Answer)
    requires Inv(w, tracking) && CanStep(w, id, a) && Orderly(w, Step(id, a))
    requires tracking ==> Truthful(w, Step(id, a))
    ensures Inv(Parked(w, id, EffectOf(cfg, w, id, a)), tracking)
  {
    var t := w.tasks[id];
    if IsStart(t) {
      StartStretchKeeps(cfg, w, tracking, id, a);
    } else if IsStop(t) {
      StopStretchKeeps(cfg, w, tracking, id, a);
    } else if IsKill(t) {
      KillStretchKeeps(cfg, w, tracking, id, a);
    } else if IsExit(t) {
      ExitStretchKeeps(cfg, w, tracking, id, a);
    } else if IsRestart(t) {
      RestartStretchKeeps(cfg, w, tracking, id, a);
    } else {
      UpdateStretchKeeps(cfg, w, tracking, id, a);
    }
  }

  lemma CallKeeps(cfg: Config, w: World, tracking: bool, call: Call)
    requires Inv(w, tracking) && (call.ToStart? ==> NoStart(w.tasks))
    ensures match call
            case NoCall => true
            case ToStart(hasConfig, isForced) => Inv(CallStart(w, hasConfig, isForced), tracking)
            case ToKill => Inv(CallKill(w), tracking)
            case ToHandleError => Inv(CallHandleNodeError(cfg, w), tracking)
  {
    match call
    case NoCall =>
    case ToStart(hasConfig, isForced) => StartCallKeeps(w, tracking, hasConfig, isForced);
    case ToKill => StopCallKeeps(w, tracking);
    case ToHandleError => ErrorCallKeeps(cfg, w, tracking);
  }

  lemma OnlyGatesStart(cfg: Config, w: World, id: nat, a: Answer)
    requires CanStep(w, id, a) && Orderly(w, Step(id, a)) && EffectOf(cfg, w, id, a).call.ToStart?
    ensures NoStart(Parked(w, id, EffectOf(cfg, w, id, a)).tasks)
  {
    assert w.tasks[id].RestartGate?;
    assert CallsStart(w, Step(id, a));
  }

  lemma StepKeeps(cfg: Config, w: World, tracking: bool, id: nat, a: Answer)
    requires Inv(w, tracking) && Enabled(w, Step(id, a)) && Orderly(w, Step(id, a))
    requires tracking ==> Truthful(w, Step(id, a))
    ensures Inv(Next(cfg, w, Step(id, a)), tracking)
  {
    var e := EffectOf(cfg, w, id, a);
    StretchKeeps(cfg, w, tracking, id, a);
    if e.call.ToStart? {
      OnlyGatesStart(cfg, w, id, a);
    }
    CallKeeps(cfg, Parked(w, id, e), tracking, e.call);
  }

  // Whole runs.

  /** At the start of a session: nothing launched yet, and any process at all may be alive or on record. */
  lemma InitialInv(previousPid: Option<nat>, alive: set<nat>, tracking: bool)
    ensures Inv(Initial(previousPid, alive), tracking)
  {
  }

  lemma {:induction false} OrderlyRunInv(cfg: Config, w: World, tracking: bool, es: seq<Event>)
    requires Inv(w, tracking) && Legal(cfg, w, es) && OrderlyRun(cfg, w, es) && (tracking ==> TruthfulRun(cfg, w, es))
    ensures Inv(Run(cfg, w, es), tracking)
    decreases |es|
  {
    if es != [] {
      var before, e := es[..|es| - 1], es[|es| - 1];
      var w1 := Run(cfg, w, before);
      OrderlyRunInv(cfg, w, tracking, before);
      if e.Step? {
        StepKeeps(cfg, w1, tracking, e.task, e.answer);
      } else {
        OutsideKeeps(cfg, w1, tracking, e);
      }
    }
  }

  /** Of all the node processes this supervisor ever started, at most one is alive, and it is the current node's or
      the one on record; nothing of the kind is alive from when a node is launched until it is up, nor is the recorded
      process of an earlier session. */
  lemma AtMostOneNodeAlive(cfg: Config, previousPid: Option<nat>, alive: set<nat>, es: seq<Event>)
    requires Legal(cfg, Initial(previousPid, alive), es)
    requires OrderlyRun(cfg, Initial(previousPid, alive), es)
    requires TruthfulRun(cfg, Initial(previousPid, alive), es)
    ensures var w := Run(cfg, Initial(previousPid, alive), es);
            && (forall h, k :: 0 <= h < k < |w.core.launchers| ==>
                  !(ProcessAlive(w.core, w.alive, h) && ProcessAlive(w.core, w.alive, k)))
            && (forall h :: 0 <= h < |w.core.launchers| && ProcessAlive(w.core, w.alive, h) ==>
                  w.core.node == Some(h) || w.core.previousPid == w.core.launchers[h].pid)
            && (forall id :: 0 <= id < |w.tasks| && Launching(w.tasks[id]) ==>
                  AllDead(w.core, w.alive) && RecordedIsDead(w.core, w.alive))
  {
    InitialInv(previousPid, alive, true);
    OrderlyRunInv(cfg, Initial(previousPid, alive), true, es);
    var w := Run(cfg, Initial(previousPid, alive), es);
    forall id | 0 <= id < |w.tasks| && Launching(w.tasks[id])
      ensures AllDead(w.core, w.alive) && RecordedIsDead(w.core, w.alive)
    {
      assert TaskInv(w.core, Seen(w, true), w.tasks[id]);
    }
  }

  predicate DropsRecorded(c: Core, c': Core) {
    NodePid(c).Some? && c'.node != c.node ==> c'.previousPid == NodePid(c)
  }

  lemma StartDropsRecorded(cfg: Config, c: Core, seen: set<nat>, alive: set<nat>, t: Task, a: Answer)
    requires CoreInv(c, seen) && TaskInv(c, seen, t)
    ensures DropsRecorded(c, StartStretch(cfg, c, alive, t, a).core)
  {
  }

  lemma StopDropsRecorded(cfg: Config, c: Core, seen: set<nat>, alive: set<nat>, t: Task, a: Answer,
          nextCall: nat, childResolved: bool)
    requires TaskInv(c, seen, t)
    ensures DropsRecorded(c, StopStretch(cfg, c, alive, t, a, nextCall, childResolved).core)
  {
  }

  lemma KillDropsRecorded(c: Core, seen: set<nat>, t: Task, a: Answer)
    requires TaskInv(c, seen, t)
    ensures DropsRecorded(c, KillStretch(c, t, a).core)
  {
  }

  lemma ExitDropsRecorded(cfg: Config, c: Core, seen: set<nat>, alive: set<nat>, t: Task, a: Answer)
    requires TaskInv(c, seen, t)
    ensures DropsRecorded(c, ExitStretch(cfg, c, alive, t, a).core)
  {
  }

  lemma OthersDropNothing(cfg: Config, c: Core, alive: set<nat>, t: Task, a: Answer, nextCall: nat, childResolved: bool)
    ensures DropsRecorded(c, RestartStretch(c, t, nextCall, childResolved).core)
    ensures DropsRecorded(c, UpdateStretch(cfg, c, alive, t, a, nextCall, childResolved).core)
  {
  }

  lemma StretchDropsRecorded(cfg: Config, c: Core, seen: set<nat>, alive: set<nat>, t: Task, a: Answer, nextCall: nat,
          childResolved: bool)
    requires CoreInv(c, seen) && TaskInv(c, seen, t)
    ensures DropsRecorded(c, Stretch(cfg, c, alive, t, a, nextCall, childResolved).core)
  {
    StartDropsRecorded(cfg, c, seen, alive, t, a);
    StopDropsRecorded(cfg, c, seen, alive, t, a, nextCall, childResolved);
    KillDropsRecorded(c, seen, t, a);
    ExitDropsRecorded(cfg, c, seen, alive, t, a);
    OthersDropNothing(cfg, c, alive, t, a, nextCall, childResolved);
  }

  lemma StepDropsRecorded(cfg: Config, w: World, tracking: bool, id: nat, a: Answer)
    requires Inv(w, tracking) && CanStep(w, id, a)
    ensures var c' := Apply(cfg, w, id, EffectOf(cfg, w, id, a)).core;
            DropsRecorded(w.core, c')
  {
    StretchDropsRecorded(cfg, w.core, Seen(w, tracking), w.alive, w.tasks[id], a, |w.tasks|,
        ChildResolved(w, w.tasks[id]));
  }

  /** Whatever makes the supervisor let go of a node with a pid, that pid is on record by then. */
  lemma DroppedNodeIsRecorded(cfg: Config, previousPid: Option<nat>, alive: set<nat>, es: seq<Event>, e: Event)
    requires Legal(cfg, Initial(previousPid, alive), es)
    requires OrderlyRun(cfg, Initial(previousPid, alive), es)
    ensures var w := Run(cfg, Initial(previousPid, alive), es);
            Enabled(w, e) ==> DropsRecorded(w.core, Next(cfg, w, e).core)
  {
    var w := Run(cfg, Initial(previousPid, alive), es);
    InitialInv(previousPid, alive, false);
    OrderlyRunInv(cfg, Initial(previousPid, alive), false, es);
    if Enabled(w, e) {
      NextDropsRecorded(cfg, w, e);
    }
  }

  lemma NextDropsRecorded(cfg: Config, w: World, e: Event)
    requires Inv(w, false) && Enabled(w, e)
    ensures DropsRecorded(w.core, Next(cfg, w, e).core)
  {
    if e.Step? {
      StepDropsRecorded(cfg, w, false, e.task, e.answer);
    }
  }
}
