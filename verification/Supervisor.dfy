/** The node supervisor (source/main/bcc/BccNode.js): its fields, and what each stretch of code between
    two awaits does to them. */
module Supervisor {
  import opened Wrappers

  /** The ten states of `BccNodeStates`. */
  datatype NodeState =
    | Starting
    | Running
    | Exiting
    | Stopping
    | Stopped
    | Updating
    | Updated
    | Crashed
    | Errored
    | Unrecoverable

  /** A launcher object. `pid` and `connected` are written together once its processes are up. */
  datatype Launcher = Launcher(pid: Option<nat>, connected: bool)

  datatype TlsConfig = TlsConfig(port: nat)

  /** One broadcast to the outside. Two kinds carry what caused them: whether the start was forced,
      and the exit code the exit handler was deciding on. */
  datatype Broadcast =
    | Began(isForced: bool)
    | Became(state: NodeState)
    | Concluded(state: NodeState, code: int)
    | SentTls(config: Option<TlsConfig>)

  const BCC_UPDATE_EXIT_CODE: int := 20

  /** The fields of a `BccNode`, the persisted PREVIOUS_BCC_PID, and everything broadcast so far.
      Launcher objects are shared by reference, so `node` is an index into `launchers`. */
  datatype Core = Core(
    state: NodeState,
    startupTries: nat,
    configured: bool,
    node: Option<nat>,
    tlsConfig: Option<TlsConfig>,
    exitOnStop: bool,
    previousPid: Option<nat>,
    launchers: seq<Launcher>,
    trace: seq<Broadcast>)
  {
    ghost predicate WellFormed() {
      node.Some? ==> node.value < |launchers|
    }
  }

  const NewNode: Core := Core(Stopped, 0, false, None, None, false, None, [], [])

  function NodePid(c: Core): Option<nat> {
    if c.node.Some? && c.node.value < |c.launchers| then c.launchers[c.node.value].pid else None
  }

  predicate IsConnected(c: Core) {
    c.node.Some? && c.node.value < |c.launchers| && c.launchers[c.node.value].connected
  }

  predicate IsUnrecoverable(c: Core, maxRetries: nat) {
    c.startupTries >= maxRetries
  }

  function StateOf(b: Broadcast): Option<NodeState> {
    match b
    case Began(_) => Some(Starting)
    case Became(s) => Some(s)
    case Concluded(s, _) => Some(s)
    case SentTls(_) => None
  }

  /** `_changeToState`: set the state and broadcast it. */
  function ChangeToState(c: Core, b: Broadcast): Core
    requires StateOf(b).Some?
  {
    c.(state := StateOf(b).value, trace := c.trace + [b])
  }

  // One function per stretch of synchronous code.

  function BeginStart(c: Core, isForced: bool): Core {
    ChangeToState(c.(configured := true, startupTries := c.startupTries + 1), Began(isForced))
  }

  function AdoptLauncher(c: Core): Core {
    c.(launchers := c.launchers + [Launcher(None, false)], node := Some(|c.launchers|))
  }

  function ConnectLauncher(c: Core, h: nat, pid: nat): Core
    requires h < |c.launchers|
  {
    c.(launchers := c.launchers[h := Launcher(Some(pid), true)])
  }

  function HandleReplyPort(c: Core, port: nat): Core {
    var c1 := c.(tlsConfig := Some(TlsConfig(port)));
    if c.state == Starting then
      var c2 := ChangeToState(c1, Became(Running));
      c2.(trace := c2.trace + [SentTls(c2.tlsConfig)], startupTries := 0)
    else c1
  }

  function HandleNodeError(c: Core, maxRetries: nat): Core {
    ChangeToState(c, Became(if IsUnrecoverable(c, maxRetries) then Unrecoverable else Errored))
  }

  function BeginStop(c: Core): Core {
    ChangeToState(c, Became(Stopping))
  }

  function StoreProcessStates(c: Core): Core {
    if NodePid(c).Some? then c.(previousPid := NodePid(c)) else c
  }

  function Reset(c: Core): Core {
    c.(node := None, tlsConfig := None)
  }

  function FinishKill(c: Core): Core {
    Reset(ChangeToState(c, Became(Stopped)))
  }

  function RestartFailed(c: Core): Core {
    if c.state != Unrecoverable then ChangeToState(c, Became(Errored)) else c
  }

  function BeginUpdate(c: Core): Core {
    ChangeToState(c, Became(Updating))
  }

  function BeginExit(c: Core): Core {
    if c.state == Running then ChangeToState(c, Became(Exiting)) else c
  }

  function ExitVerdict(c: Core, code: int, maxRetries: nat): NodeState {
    if c.state == Stopping then Stopped
    else if c.state == Updating && code == BCC_UPDATE_EXIT_CODE then Updated
    else if IsUnrecoverable(c, maxRetries) then Unrecoverable
    else Crashed
  }

  function ConcludeExit(c: Core, code: int, maxRetries: nat): Core {
    ChangeToState(c, Concluded(ExitVerdict(c, code, maxRetries), code))
  }

  /** The supervisor object itself. Each method is one stretch of synchronous code of the method named in
      its comment, and is proved to do what the function above says; whole runs, in which such stretches
      interleave, are the subject of module SupervisorRuns. */
  class BccNode {
    var state: NodeState
    var startupTries: nat
    var configured: bool
    var node: Option<nat>
    var tlsConfig: Option<TlsConfig>
    var exitOnStop: bool
    var previousPid: Option<nat>
    var launchers: seq<Launcher>
    var trace: seq<Broadcast>

    function View(): Core
      reads this
    {
      Core(state, startupTries, configured, node, tlsConfig, exitOnStop, previousPid, launchers, trace)
    }

    constructor (previousPid: Option<nat>)
      ensures View() == NewNode.(previousPid := previousPid)
    {
      state, startupTries, configured := Stopped, 0, false;
      node, tlsConfig, exitOnStop := None, None, false;
      this.previousPid, launchers, trace := previousPid, [], [];
    }

    method BroadcastState(b: Broadcast)
      requires StateOf(b).Some?
      modifies this
      ensures View() == ChangeToState(old(View()), b)
    {
      state := StateOf(b).value;
      trace := trace + [b];
    }

    /** `start`, from the guards to the launcher: rejects (false) without touching anything, or enters STARTING. */
    method Start(canBeStarted: bool, hasConfig: bool, maxRetries: nat, isForced: bool) returns (started: bool)
      modifies this
      ensures started == (canBeStarted && hasConfig && (isForced || !IsUnrecoverable(old(View()), maxRetries)))
      ensures View() == if started then BeginStart(old(View()), isForced) else old(View())
    {
      if !canBeStarted || !hasConfig {
        return false;
      }
      if startupTries >= maxRetries && !isForced {
        return false;
      }
      configured := true;
      startupTries := startupTries + 1;
      BroadcastState(Began(isForced));
      return true;
    }

    /** `start`, when the launcher object arrives: keep it as the managed node. */
    method Adopt() returns (h: nat)
      modifies this
      ensures View() == AdoptLauncher(old(View())) && h == |old(launchers)|
    {
      h := |launchers|;
      launchers := launchers + [Launcher(None, false)];
      node := Some(h);
    }

    /** `start`, when the child processes are up: record the pid and mark the launcher connected. */
    method Connect(h: nat, pid: nat)
      requires h < |launchers|
      modifies this
      ensures View() == ConnectLauncher(old(View()), h, pid)
    {
      launchers := launchers[h := Launcher(Some(pid), true)];
    }

    /** `_handleBccReplyPortMessage`. */
    method HandleReplyPortMessage(port: nat)
      modifies this
      ensures View() == HandleReplyPort(old(View()), port)
    {
      tlsConfig := Some(TlsConfig(port));
      if state == Starting {
        BroadcastState(Became(Running));
        trace := trace + [SentTls(tlsConfig)];
        startupTries := 0;
      }
    }

    /** `_handleBccNodeError`, up to its restart; answers whether it restarts. */
    method HandleError(maxRetries: nat) returns (restarts: bool)
      modifies this
      ensures View() == HandleNodeError(old(View()), maxRetries)
      ensures restarts == !IsUnrecoverable(old(View()), maxRetries)
    {
      if startupTries >= maxRetries {
        BroadcastState(Became(Unrecoverable));
        restarts := false;
      } else {
        BroadcastState(Became(Errored));
        restarts := true;
      }
    }

    /** `_storeProcessStates`. */
    method StoreStates()
      modifies this
      ensures View() == StoreProcessStates(old(View()))
    {
      if node.Some? && node.value < |launchers| && launchers[node.value].pid.Some? {
        previousPid := launchers[node.value].pid;
      }
    }

    /** `_reset`. */
    method ResetFields()
      modifies this
      ensures View() == Reset(old(View()))
    {
      if node.Some? {
        node := None;
      }
      tlsConfig := None;
    }

    /** `kill`, after the pid was stored. */
    method ConcludeKill()
      modifies this
      ensures View() == FinishKill(old(View()))
    {
      BroadcastState(Became(Stopped));
      ResetFields();
    }

    /** The catch block of `restart`. */
    method CatchRestartError()
      modifies this
      ensures View() == RestartFailed(old(View()))
    {
      if state != Unrecoverable {
        BroadcastState(Became(Errored));
      }
    }

    /** `_handleBccNodeExit`, before it waits for the process to be gone. */
    method NoticeExit()
      modifies this
      ensures View() == BeginExit(old(View()))
    {
      if state == Running {
        BroadcastState(Became(Exiting));
      }
    }

    /** `_handleBccNodeExit`, once the process is gone; answers whether the crash hook is called. */
    method DecideExit(code: int, maxRetries: nat) returns (crashed: bool)
      modifies this
      ensures View() == ConcludeExit(old(View()), code, maxRetries)
      ensures crashed == (state == Crashed)
    {
      if state == Stopping {
        BroadcastState(Concluded(Stopped, code));
      } else if state == Updating && code == BCC_UPDATE_EXIT_CODE {
        BroadcastState(Concluded(Updated, code));
      } else if startupTries >= maxRetries {
        BroadcastState(Concluded(Unrecoverable, code));
      } else {
        BroadcastState(Concluded(Crashed, code));
      }
      crashed := state == Crashed;
    }
  }
}
