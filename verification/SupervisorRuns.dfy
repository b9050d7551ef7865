/** Whole runs of the node supervisor: the asynchronous methods of source/main/bcc/BccNode.js, the crash hook
    of source/main/bcc/setup.js and the disk-space callback of source/main/index.js as one step system.
    Every call in progress is a task parked at an await; any task and any outside event may go next. */
module SupervisorRuns {
  import opened Wrappers
  import opened Supervisor
  import opened Polling

  datatype Config = Config(maxRetries: nat, shutdownTimeout: nat, killTimeout: nat, updateTimeout: nat)

  /** Where a call is parked. `hasConfig` tells whether the `config` it captured was defined; a task number
      is the promise of that call. */
  datatype Task =
    // start
    | StartLookup(pid: nat, hasConfig: bool, isForced: bool)
    | StartKill(pid: nat, hasConfig: bool, isForced: bool)
    | StartKillPoll(pid: nat, waited: nat, hasConfig: bool, isForced: bool)
    | StartGuard(canBeStarted: bool, hasConfig: bool, isForced: bool)
    | StartLaunching
    | StartWaiting(launcher: nat)
    // stop
    | StopCheck(isDead: bool, captured: Option<nat>)
    | StopNode
    | StopPoll(waited: nat)
    | StopStore
    | StopReset
    | StopKilling(child: nat)
    // kill
    | KillCheck(isDead: bool, captured: Option<nat>)
    | KillStore
    | KillReset
    | KillFailed
    | KillFailedReset
    | NeverSettles
    // restart
    | RestartStopping(child: nat, hasConfig: bool, isForced: bool)
    | RestartGate(hasConfig: bool, isForced: bool)
    | RestartStarting(child: nat)
    // _handleBccNodeExit
    | ExitPoll(code: int, waited: nat)
    | ExitKilling(code: int)
    | ExitDecide(code: int)
    | ExitReset
    // expectNodeUpdate
    | UpdatePoll(waited: nat)
    | UpdateExitPoll(waited: nat)
    | UpdateKilling(child: nat)
    // settled
    | Settled(resolved: bool)

  /** `alive` is the process table, `crashTimers` the restarts the crash hook has scheduled, `exited` the
      launchers whose exit event was delivered. */
  datatype World = World(
    core: Core,
    tasks: seq<Task>,
    alive: set<nat>,
    crashTimers: nat,
    exited: set<nat>)

  /** How the environment answers the operation a task is waiting for. */
  datatype Answer =
    | Fine
    | Fault
    | Connects(pid: nat, port: nat)
    | Unreadable(pid: nat)

  datatype Event =
    | SetupStart
    | Restart(isForced: bool)
    | CrashTimer
    | DiskReport(isNotEnough: bool)
    | SafeExit
    | AwaitUpdate
    | ProcessDies(pid: nat)
    | NodeExits(launcher: nat, code: int)
    | Step(task: nat, answer: Answer)

  function Initial(previousPid: Option<nat>, alive: set<nat>): World {
    World(NewNode.(previousPid := previousPid), [], alive, 0, {})
  }

  // Calls, up to their first await.

  function Add(w: World, t: Task): World {
    w.(tasks := w.tasks + [t])
  }

  /** `_isNodeProcessStillRunning`, when the lookup works. */
  predicate IsNodeProcessRunning(c: Core, alive: set<nat>) {
    NodePid(c).Some? && NodePid(c).value in alive
  }

  /** `_isDead`. */
  predicate IsDead(c: Core, alive: set<nat>) {
    !IsConnected(c) && !IsNodeProcessRunning(c, alive)
  }

  function FirstStartTask(c: Core, hasConfig: bool, isForced: bool): Task {
    if IsConnected(c) then StartGuard(false, hasConfig, isForced)
    else match c.previousPid
      case None => StartGuard(true, hasConfig, isForced)
      case Some(pid) => StartLookup(pid, hasConfig, isForced)
  }

  function CallStart(w: World, hasConfig: bool, isForced: bool): World {
    Add(w, FirstStartTask(w.core, hasConfig, isForced))
  }

  function CallStop(w: World): World {
    Add(w, StopCheck(IsDead(w.core, w.alive), w.core.node))
  }

  function CallKill(w: World): World {
    Add(w, KillCheck(IsDead(w.core, w.alive), w.core.node))
  }

  function CallRestart(w: World, isForced: bool): World {
    if IsConnected(w.core)
    then Add(CallStop(w), RestartStopping(|w.tasks|, w.core.configured, isForced))
    else Add(w, RestartGate(w.core.configured, isForced))
  }

  function CallHandleNodeError(cfg: Config, w: World): World {
    var w1 := w.(core := HandleNodeError(w.core, cfg.maxRetries));
    if IsUnrecoverable(w.core, cfg.maxRetries) then w1 else CallRestart(w1, false)
  }

  function CallExpectNodeUpdate(w: World): World {
    var w1 := w.(core := BeginUpdate(w.core));
    // without a config, reading updateTimeout throws and the catch block kills at once
    if w.core.configured then Add(w1, UpdatePoll(0)) else Add(CallKill(w1), UpdateKilling(|w1.tasks|))
  }

  // One stretch of one call.

  /** The call that a stretch ends with, if any. */
  datatype Call =
    | NoCall
    | ToStart(hasConfig: bool, isForced: bool)
    | ToKill
    | ToHandleError

  /** What a stretch does: the new fields, where the call is parked next, the call it makes, the process it spawned,
      and whether the crash hook ran. */
  datatype Effect = Effect(core: Core, task: Task, call: Call, spawned: set<nat>, crashed: bool)

  function Plain(c: Core, t: Task): Effect {
    Effect(c, t, NoCall, {}, false)
  }

  /** What a lookup of `pid` reports: a failing lookup reads as "not running". */
  predicate SeenRunning(alive: set<nat>, pid: Option<nat>, a: Answer) {
    pid.Some? && pid.value in alive && a != Fault
  }

  /** `_storeProcessStates` touches the store, and so may throw, only while there is a node. */
  predicate StoreThrows(c: Core, a: Answer) {
    a == Fault && c.node.Some?
  }

  /** `start`, from the lookup of the previous process on. */
  function StartStretch(cfg: Config, c: Core, alive: set<nat>, t: Task, a: Answer): Effect {
    match t
    case StartLookup(pid, hasConfig, isForced) =>
      if SeenRunning(alive, Some(pid), a) then Plain(c, StartKill(pid, hasConfig, isForced))
      else Plain(c, StartGuard(true, hasConfig, isForced))
    case StartKill(pid, hasConfig, isForced) =>
      // process.kill may throw; so does reading killTimeout while no config was ever set
      if a == Fault || !c.configured then Plain(c, StartGuard(false, hasConfig, isForced))
      else Plain(c, StartKillPoll(pid, 0, hasConfig, isForced))
    case StartKillPoll(pid, waited, hasConfig, isForced) =>
      (match Judge(!SeenRunning(alive, Some(pid), a), cfg.killTimeout, RETRY_EVERY, waited)
       case Met => Plain(c, StartGuard(true, hasConfig, isForced))
       case GaveUp => Plain(c, StartGuard(false, hasConfig, isForced))
       case Again(waited') => Plain(c, StartKillPoll(pid, waited', hasConfig, isForced)))
    case StartGuard(canBeStarted, hasConfig, isForced) =>
      if canBeStarted && hasConfig && (isForced || !IsUnrecoverable(c, cfg.maxRetries))
      then Plain(BeginStart(c, isForced), StartLaunching)
      else Plain(c, Settled(false))
    case StartLaunching =>
      if a == Fault then Plain(c, Settled(false)).(call := ToHandleError)
      else Plain(AdoptLauncher(c), StartWaiting(|c.launchers|))
    case StartWaiting(h) =>
      if h >= |c.launchers| then Plain(c, t)
      else (match a
            case Connects(pid, port) =>
              Plain(HandleReplyPort(ConnectLauncher(c, h, pid), port), Settled(true)).(spawned := {pid})
            case Unreadable(pid) =>
              Plain(ConnectLauncher(c, h, pid), Settled(false)).(spawned := {pid}, call := ToHandleError)
            case _ => Plain(c, Settled(false)).(call := ToHandleError))
    case _ => Plain(c, t)
  }

  /** `stop`. `nextCall` is the number of the next call. */
  function StopStretch(cfg: Config, c: Core, alive: set<nat>, t: Task, a: Answer, nextCall: nat,
          childResolved: bool): Effect {
    match t
    case StopCheck(isDead, captured) =>
      if isDead then Plain(c, Settled(true))
      else Plain(BeginStop(c), if captured.Some? then StopNode else StopPoll(0))
    case StopNode =>
      if a == Fault then Plain(c, StopKilling(nextCall)).(call := ToKill)
      else Plain(c, StopPoll(0))
    case StopPoll(waited) =>
      (match Judge(!SeenRunning(alive, NodePid(c), a), cfg.shutdownTimeout, RETRY_EVERY, waited)
       case Met => Plain(c, StopStore)
       case GaveUp => Plain(c, StopKilling(nextCall)).(call := ToKill)
       case Again(waited') => Plain(c, StopPoll(waited')))
    case StopStore =>
      if StoreThrows(c, a) then Plain(c, StopKilling(nextCall)).(call := ToKill)
      else Plain(StoreProcessStates(c), StopReset)
    case StopReset => Plain(Reset(c), Settled(true))
    case StopKilling(_) => Plain(c, Settled(childResolved))
    case _ => Plain(c, t)
  }

  /** `kill`. */
  function KillStretch(c: Core, t: Task, a: Answer): Effect {
    match t
    case KillCheck(isDead, captured) =>
      // on a dead node the inner async executor returns, but nobody ever settles the outer promise
      if isDead then Plain(c, NeverSettles)
      else if a == Fault && captured.Some? then Plain(c, KillFailed)
      else Plain(c, KillStore)
    case KillStore =>
      if StoreThrows(c, a) then Plain(c, KillFailed)
      else Plain(StoreProcessStates(c), KillReset)
    case KillReset => Plain(FinishKill(c), Settled(true))
    case KillFailed =>
      if StoreThrows(c, a) then Plain(c, NeverSettles)
      else Plain(StoreProcessStates(c), KillFailedReset)
    case KillFailedReset => Plain(Reset(c), Settled(false))
    case _ => Plain(c, t)
  }

  /** `restart`. */
  function RestartStretch(c: Core, t: Task, nextCall: nat, childResolved: bool): Effect {
    match t
    case RestartStopping(_, hasConfig, isForced) =>
      if childResolved then Plain(c, RestartGate(hasConfig, isForced))
      else Plain(RestartFailed(c), Settled(false))
    case RestartGate(hasConfig, isForced) =>
      if c.exitOnStop then Plain(c, Settled(true))
      else Plain(c, RestartStarting(nextCall)).(call := ToStart(hasConfig, isForced))
    case RestartStarting(_) =>
      if childResolved then Plain(c, Settled(true))
      else Plain(RestartFailed(c), Settled(false))
    case _ => Plain(c, t)
  }

  /** `_handleBccNodeExit`. */
  function ExitStretch(cfg: Config, c: Core, alive: set<nat>, t: Task, a: Answer): Effect {
    match t
    case ExitPoll(code, waited) =>
      (match Judge(!SeenRunning(alive, NodePid(c), a), cfg.shutdownTimeout, RETRY_EVERY, waited)
       case Met => Plain(c, ExitDecide(code))
       case GaveUp => Plain(c, ExitKilling(code))
       case Again(waited') => Plain(c, ExitPoll(code, waited')))
    // killing it may work, fail or time out: the handler goes on in every case
    case ExitKilling(code) => Plain(c, ExitDecide(code))
    case ExitDecide(code) =>
      var c1 := ConcludeExit(c, code, cfg.maxRetries);
      (if StoreThrows(c, a) then Plain(c1, Settled(false)) else Plain(StoreProcessStates(c1), ExitReset))
        .(crashed := c1.state == Crashed)
    case ExitReset => Plain(Reset(c), Settled(true))
    case _ => Plain(c, t)
  }

  /** `expectNodeUpdate`. */
  function UpdateStretch(cfg: Config, c: Core, alive: set<nat>, t: Task, a: Answer, nextCall: nat,
          childResolved: bool): Effect {
    match t
    case UpdatePoll(waited) =>
      (match Judge(c.state == Updated, cfg.updateTimeout, RETRY_EVERY, waited)
       case Met => Plain(c, UpdateExitPoll(0))
       case GaveUp => Plain(c, UpdateKilling(nextCall)).(call := ToKill)
       case Again(waited') => Plain(c, UpdatePoll(waited')))
    case UpdateExitPoll(waited) =>
      (match Judge(!SeenRunning(alive, NodePid(c), a), cfg.updateTimeout, RETRY_EVERY, waited)
       case Met => Plain(c, Settled(true))
       case GaveUp => Plain(c, UpdateKilling(nextCall)).(call := ToKill)
       case Again(waited') => Plain(c, UpdateExitPoll(waited')))
    case UpdateKilling(_) => Plain(c, Settled(childResolved))
    case _ => Plain(c, t)
  }

  predicate IsStart(t: Task) {
    t.StartLookup? || t.StartKill? || t.StartKillPoll? || t.StartGuard? || t.StartLaunching? || t.StartWaiting?
  }

  predicate NoStart(tasks: seq<Task>) {
    forall i :: 0 <= i < |tasks| ==> !IsStart(tasks[i])
  }

  predicate IsStop(t: Task) {
    t.StopCheck? || t.StopNode? || t.StopPoll? || t.StopStore? || t.StopReset? || t.StopKilling?
  }

  predicate IsKill(t: Task) {
    t.KillCheck? || t.KillStore? || t.KillReset? || t.KillFailed? || t.KillFailedReset?
  }

  predicate IsRestart(t: Task) {
    t.RestartStopping? || t.RestartGate? || t.RestartStarting?
  }

  predicate IsExit(t: Task) {
    t.ExitPoll? || t.ExitKilling? || t.ExitDecide? || t.ExitReset?
  }

  predicate IsUpdate(t: Task) {
    t.UpdatePoll? || t.UpdateExitPoll? || t.UpdateKilling?
  }

  function Stretch(cfg: Config, c: Core, alive: set<nat>, t: Task, a: Answer, nextCall: nat,
          childResolved: bool): Effect {
    if IsStart(t) then StartStretch(cfg, c, alive, t, a)
    else if IsStop(t) then StopStretch(cfg, c, alive, t, a, nextCall, childResolved)
    else if IsKill(t) then KillStretch(c, t, a)
    else if IsRestart(t) then RestartStretch(c, t, nextCall, childResolved)
    else if IsExit(t) then ExitStretch(cfg, c, alive, t, a)
    else UpdateStretch(cfg, c, alive, t, a, nextCall, childResolved)
  }

  // The step system.

  /** The call a task is waiting for. */
  function ChildOf(t: Task): Option<nat> {
    match t
    case StopKilling(child) => Some(child)
    case UpdateKilling(child) => Some(child)
    case RestartStopping(child, _, _) => Some(child)
    case RestartStarting(child) => Some(child)
    case _ => None
  }

  /** Pids are not reused. */
  predicate FreshPid(w: World, pid: nat) {
    && pid !in w.alive
    && w.core.previousPid != Some(pid)
    && forall h :: 0 <= h < |w.core.launchers| ==> w.core.launchers[h].pid != Some(pid)
  }

  predicate ChildResolved(w: World, t: Task) {
    ChildOf(t).Some? && ChildOf(t).value < |w.tasks| && w.tasks[ChildOf(t).value] == Settled(true)
  }

  predicate CanStep(w: World, id: nat, a: Answer) {
    && id < |w.tasks|
    && var t := w.tasks[id];
    && !t.Settled? && !t.NeverSettles?
    && (ChildOf(t).Some? ==> ChildOf(t).value < |w.tasks| && w.tasks[ChildOf(t).value].Settled?)
    && (t.StartWaiting? ==> t.launcher < |w.core.launchers| && a != Fine)
    && (a.Connects? ==> t.StartWaiting? && FreshPid(w, a.pid))
    && (a.Unreadable? ==> t.StartWaiting? && FreshPid(w, a.pid))
  }

  /** The world with a call parked at its next await. */
  function Parked(w: World, id: nat, e: Effect): World
    requires id < |w.tasks|
  {
    World(e.core, w.tasks[id := e.task], w.alive + e.spawned,
          if e.crashed then w.crashTimers + 1 else w.crashTimers, w.exited)
  }

  function Apply(cfg: Config, w: World, id: nat, e: Effect): World
    requires id < |w.tasks|
  {
    match e.call
    case NoCall => Parked(w, id, e)
    case ToStart(hasConfig, isForced) => CallStart(Parked(w, id, e), hasConfig, isForced)
    case ToKill => CallKill(Parked(w, id, e))
    case ToHandleError => CallHandleNodeError(cfg, Parked(w, id, e))
  }

  function EffectOf(cfg: Config, w: World, id: nat, a: Answer): Effect
    requires id < |w.tasks|
  {
    Stretch(cfg, w.core, w.alive, w.tasks[id], a, |w.tasks|, ChildResolved(w, w.tasks[id]))
  }

  /** `onCheckDiskSpace` of source/main/index.js. */
  function HandleDiskReport(w: World, isNotEnough: bool): World {
    if isNotEnough then
      if w.core.state != Stopping && w.core.state != Stopped then CallStop(w) else w
    else if w.core.state != Starting && w.core.state != Running then CallRestart(w, false)
    else w
  }

  /** `safeExit` of source/main/index.js, as far as the supervisor sees it. */
  function HandleSafeExit(w: World): World {
    match w.core.state
    case Stopped => w
    case Stopping => w.(core := w.core.(exitOnStop := true))
    case _ => CallStop(w)
  }

  predicate Enabled(w: World, e: Event) {
    match e
    case CrashTimer => w.crashTimers > 0
    case NodeExits(h, _) => h < |w.core.launchers| && w.core.launchers[h].connected && h !in w.exited
    case Step(id, a) => CanStep(w, id, a)
    case _ => true
  }

  function Next(cfg: Config, w: World, e: Event): World
    requires Enabled(w, e)
  {
    match e
    case SetupStart => CallStart(w, true, false)
    case Restart(isForced) => CallRestart(w, isForced)
    case CrashTimer => CallRestart(w.(crashTimers := w.crashTimers - 1), false)
    case DiskReport(isNotEnough) => HandleDiskReport(w, isNotEnough)
    case SafeExit => HandleSafeExit(w)
    case AwaitUpdate => CallExpectNodeUpdate(w)
    case ProcessDies(pid) => w.(alive := w.alive - {pid})
    case NodeExits(h, code) => Add(w.(core := BeginExit(w.core), exited := w.exited + {h}), ExitPoll(code, 0))
    case Step(id, a) => Apply(cfg, w, id, EffectOf(cfg, w, id, a))
  }

  /** A run: a start and the events that follow, each possible where it happens. */
  ghost predicate Legal(cfg: Config, w: World, es: seq<Event>)
    decreases |es|, 0
  {
    es == [] ||
    var before := es[..|es| - 1];
    Legal(cfg, w, before) && Enabled(Run(cfg, w, before), es[|es| - 1])
  }

  ghost function Run(cfg: Config, w: World, es: seq<Event>): World
    requires Legal(cfg, w, es)
    decreases |es|, 1
  {
    if es == [] then w else Next(cfg, Run(cfg, w, es[..|es| - 1]), es[|es| - 1])
  }
}
