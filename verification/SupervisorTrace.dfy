/** What every run broadcasts, however its tasks and outside events interleave. */
module SupervisorTrace {
  import opened Wrappers
  import opened Supervisor
  import opened SupervisorRuns

  /** STARTING broadcasts since the last RUNNING broadcast, or since creation. */
  function StartsSinceRunning(t: seq<Broadcast>): nat {
    if t == [] then 0
    else match t[|t| - 1]
      case Began(_) => StartsSinceRunning(t[..|t| - 1]) + 1
      case Became(Running) => 0
      case _ => StartsSinceRunning(t[..|t| - 1])
  }

  function LastState(t: seq<Broadcast>): NodeState {
    if t == [] then Stopped
    else match StateOf(t[|t| - 1])
      case Some(s) => s
      case None => LastState(t[..|t| - 1])
  }

  predicate EndsRunning(t: seq<Broadcast>) {
    |t| > 0 && t[|t| - 1] == Became(Running)
  }

  /** When `b` may be broadcast after `t`. */
  predicate MayFollow(t: seq<Broadcast>, b: Broadcast, maxRetries: nat) {
    && (EndsRunning(t) <==> b.SentTls?)
    && match b
       case Began(isForced) => isForced || StartsSinceRunning(t) < maxRetries
       case Became(Starting) => false
       case Became(Running) => |t| > 0 && t[|t| - 1].Began?
       case Became(Updated) => false
       case Became(Crashed) => false
       case Became(Unrecoverable) => StartsSinceRunning(t) >= maxRetries
       case Became(_) => true
       case Concluded(s, code) =>
         s == (if LastState(t) == Stopping then Stopped
               else if LastState(t) == Updating && code == BCC_UPDATE_EXIT_CODE then Updated
               else if StartsSinceRunning(t) >= maxRetries then Unrecoverable
               else Crashed)
       case SentTls(config) => config.Some?
  }

  ghost predicate GoodTrace(t: seq<Broadcast>, maxRetries: nat) {
    t == [] || (GoodTrace(t[..|t| - 1], maxRetries) && MayFollow(t[..|t| - 1], t[|t| - 1], maxRetries))
  }

  /** The fields agree with what was broadcast, and what was broadcast is in order. */
  ghost predicate Consistent(c: Core, maxRetries: nat) {
    && c.startupTries == StartsSinceRunning(c.trace)
    && c.state == LastState(c.trace)
    && GoodTrace(c.trace, maxRetries)
    && !EndsRunning(c.trace)
  }

  lemma Extend(t: seq<Broadcast>, b: Broadcast, maxRetries: nat)
    requires GoodTrace(t, maxRetries) && MayFollow(t, b, maxRetries)
    ensures GoodTrace(t + [b], maxRetries)
    ensures LastState(t + [b]) == (if b.SentTls? then LastState(t) else StateOf(b).value)
    ensures StartsSinceRunning(t + [b]) ==
            if b.Began? then StartsSinceRunning(t) + 1 else if b == Became(Running) then 0 else StartsSinceRunning(t)
  {
    assert (t + [b])[..|t|] == t;
  }

  lemma StateChange(c: Core, b: Broadcast, maxRetries: nat)
    requires Consistent(c, maxRetries) && MayFollow(c.trace, b, maxRetries)
    requires StateOf(b).Some? && !b.Began? && b != Became(Running)
    ensures Consistent(ChangeToState(c, b), maxRetries)
  {
    Extend(c.trace, b, maxRetries);
  }

  lemma StartIsConsistent(c: Core, isForced: bool, maxRetries: nat)
    requires Consistent(c, maxRetries)
    requires isForced || !IsUnrecoverable(c, maxRetries)
    ensures Consistent(BeginStart(c, isForced), maxRetries)
  {
    Extend(c.trace, Began(isForced), maxRetries);
  }

  /** STARTING is always the latest broadcast while the state is STARTING. */
  lemma StartingIsLast(t: seq<Broadcast>, maxRetries: nat)
    requires GoodTrace(t, maxRetries) && LastState(t) == Starting
    ensures |t| > 0 && t[|t| - 1].Began?
  {
    assert MayFollow(t[..|t| - 1], t[|t| - 1], maxRetries);
  }

  lemma ReplyPortIsConsistent(c: Core, port: nat, maxRetries: nat)
    requires Consistent(c, maxRetries)
    ensures Consistent(HandleReplyPort(c, port), maxRetries)
  {
    if c.state == Starting {
      StartingIsLast(c.trace, maxRetries);
      var t1 := c.trace + [Became(Running)];
      Extend(c.trace, Became(Running), maxRetries);
      Extend(t1, SentTls(Some(TlsConfig(port))), maxRetries);
    }
  }

  lemma StartStretchIsConsistent(cfg: Config, c: Core, alive: set<nat>, t: Task, a: Answer)
    requires Consistent(c, cfg.maxRetries)
    ensures Consistent(StartStretch(cfg, c, alive, t, a).core, cfg.maxRetries)
  {
    if t.StartGuard? && (t.isForced || !IsUnrecoverable(c, cfg.maxRetries)) {
      StartIsConsistent(c, t.isForced, cfg.maxRetries);
    } else if t.StartWaiting? && t.launcher < |c.launchers| && a.Connects? {
      ReplyPortIsConsistent(ConnectLauncher(c, t.launcher, a.pid), a.port, cfg.maxRetries);
    }
  }

  predicate SameVoice(c: Core, c': Core) {
    c'.state == c.state && c'.startupTries == c.startupTries && c'.trace == c.trace
  }

  lemma StopStretchVoice(cfg: Config, c: Core, alive: set<nat>, t: Task, a: Answer, nextCall: nat, childResolved: bool)
    ensures var c' := StopStretch(cfg, c, alive, t, a, nextCall, childResolved).core;
            SameVoice(c, c') || c' == BeginStop(c)
  {
  }

  lemma KillStretchVoice(c: Core, t: Task, a: Answer)
    ensures var c' := KillStretch(c, t, a).core;
            SameVoice(c, c') || SameVoice(ChangeToState(c, Became(Stopped)), c')
  {
  }

  lemma StopStretchIsConsistent(cfg: Config, c: Core, alive: set<nat>, t: Task, a: Answer, nextCall: nat,
          childResolved: bool)
    requires Consistent(c, cfg.maxRetries)
    ensures Consistent(StopStretch(cfg, c, alive, t, a, nextCall, childResolved).core, cfg.maxRetries)
  {
    StopStretchVoice(cfg, c, alive, t, a, nextCall, childResolved);
    StateChange(c, Became(Stopping), cfg.maxRetries);
  }

  lemma KillStretchIsConsistent(cfg: Config, c: Core, t: Task, a: Answer)
    requires Consistent(c, cfg.maxRetries)
    ensures Consistent(KillStretch(c, t, a).core, cfg.maxRetries)
  {
    KillStretchVoice(c, t, a);
    StateChange(c, Became(Stopped), cfg.maxRetries);
  }

  lemma RestartStretchIsConsistent(cfg: Config, c: Core, t: Task, nextCall: nat, childResolved: bool)
    requires Consistent(c, cfg.maxRetries)
    ensures Consistent(RestartStretch(c, t, nextCall, childResolved).core, cfg.maxRetries)
  {
    StateChange(c, Became(Errored), cfg.maxRetries);
  }

  lemma ExitStretchIsConsistent(cfg: Config, c: Core, alive: set<nat>, t: Task, a: Answer)
    requires Consistent(c, cfg.maxRetries)
    ensures Consistent(ExitStretch(cfg, c, alive, t, a).core, cfg.maxRetries)
  {
    if t.ExitDecide? {
      StateChange(c, Concluded(ExitVerdict(c, t.code, cfg.maxRetries), t.code), cfg.maxRetries);
    }
  }

  lemma UpdateStretchKeepsFields(cfg: Config, c: Core, alive: set<nat>, t: Task, a: Answer, nextCall: nat,
          childResolved: bool)
    ensures UpdateStretch(cfg, c, alive, t, a, nextCall, childResolved).core == c
  {
  }

  lemma StretchIsConsistent(cfg: Config, c: Core, alive: set<nat>, t: Task, a: Answer, nextCall: nat,
          childResolved: bool)
    requires Consistent(c, cfg.maxRetries)
    ensures Consistent(Stretch(cfg, c, alive, t, a, nextCall, childResolved).core, cfg.maxRetries)
  {
    if IsStart(t) {
      StartStretchIsConsistent(cfg, c, alive, t, a);
    } else if IsStop(t) {
      StopStretchIsConsistent(cfg, c, alive, t, a, nextCall, childResolved);
    } else if IsKill(t) {
      KillStretchIsConsistent(cfg, c, t, a);
    } else if IsRestart(t) {
      RestartStretchIsConsistent(cfg, c, t, nextCall, childResolved);
    } else if IsExit(t) {
      ExitStretchIsConsistent(cfg, c, alive, t, a);
    } else {
      UpdateStretchKeepsFields(cfg, c, alive, t, a, nextCall, childResolved);
    }
  }

  lemma ApplyIsConsistent(cfg: Config, w: World, id: nat, e: Effect)
    requires id < |w.tasks| && Consistent(e.core, cfg.maxRetries)
    ensures Consistent(Apply(cfg, w, id, e).core, cfg.maxRetries)
  {
    var b := Became(if IsUnrecoverable(e.core, cfg.maxRetries) then Unrecoverable else Errored);
    StateChange(e.core, b, cfg.maxRetries);
  }

  lemma NextIsConsistent(cfg: Config, w: World, e: Event)
    requires Enabled(w, e)
    requires Consistent(w.core, cfg.maxRetries)
    ensures Consistent(Next(cfg, w, e).core, cfg.maxRetries)
  {
    match e
    case Step(id, a) =>
      StretchIsConsistent(cfg, w.core, w.alive, w.tasks[id], a, |w.tasks|, ChildResolved(w, w.tasks[id]));
      ApplyIsConsistent(cfg, w, id, EffectOf(cfg, w, id, a));
    case AwaitUpdate => StateChange(w.core, Became(Updating), cfg.maxRetries);
    case NodeExits(_, _) => StateChange(w.core, Became(Exiting), cfg.maxRetries);
    case _ =>
  }

  lemma {:induction false} RunIsConsistent(cfg: Config, w: World, es: seq<Event>)
    requires Legal(cfg, w, es)
    requires Consistent(w.core, cfg.maxRetries)
    ensures Consistent(Run(cfg, w, es).core, cfg.maxRetries)
    decreases |es|
  {
    if es != [] {
      RunIsConsistent(cfg, w, es[..|es| - 1]);
      NextIsConsistent(cfg, Run(cfg, w, es[..|es| - 1]), es[|es| - 1]);
    }
  }

  // The laws, read off a good trace.

  lemma {:induction false} GoodAt(t: seq<Broadcast>, maxRetries: nat, i: nat)
    requires GoodTrace(t, maxRetries) && i < |t|
    ensures GoodTrace(t[..i], maxRetries) && MayFollow(t[..i], t[i], maxRetries)
    decreases |t|
  {
    if i < |t| - 1 {
      GoodAt(t[..|t| - 1], maxRetries, i);
      assert t[..|t| - 1][..i] == t[..i];
    }
  }

  ghost predicate TraceLaw(t: seq<Broadcast>, maxRetries: nat, i: nat)
    requires i < |t|
  {
    && (t[i] == Began(false) ==> StartsSinceRunning(t[..i]) < maxRetries)
    && (StateOf(t[i]) == Some(Running) ==>
          && i > 0 && t[i - 1].Began?
          && i + 1 < |t| && t[i + 1].SentTls? && t[i + 1].config.Some?)
    && (t[i].SentTls? ==> i > 0 && t[i - 1] == Became(Running))
    && (StateOf(t[i]) == Some(Updated) ==>
          && LastState(t[..i]) == Updating
          && t[i].Concluded? && t[i].code == BCC_UPDATE_EXIT_CODE)
    && (StateOf(t[i]) == Some(Unrecoverable) ==> StartsSinceRunning(t[..i]) >= maxRetries)
    && (StateOf(t[i]) == Some(Crashed) ==> StartsSinceRunning(t[..i]) < maxRetries)
  }

  lemma GoodTraceLaw(t: seq<Broadcast>, maxRetries: nat, i: nat)
    requires GoodTrace(t, maxRetries) && !EndsRunning(t) && i < |t|
    ensures TraceLaw(t, maxRetries, i)
  {
    GoodAt(t, maxRetries, i);
    if StateOf(t[i]) == Some(Running) {
      assert t[..i][|t[..i]| - 1] == t[i - 1];
      assert i + 1 < |t|;
      GoodAt(t, maxRetries, i + 1);
      assert t[..i + 1][i] == t[i];
    }
  }

  /** In every run of a new supervisor, under any interleaving: the retry counter counts the STARTING broadcasts
      since the last RUNNING one, the state is the last one broadcast, and every broadcast obeys the law. */
  lemma EveryRunIsLawful(cfg: Config, previousPid: Option<nat>, alive: set<nat>, es: seq<Event>)
    requires Legal(cfg, Initial(previousPid, alive), es)
    ensures var c := Run(cfg, Initial(previousPid, alive), es).core;
            && c.startupTries == StartsSinceRunning(c.trace)
            && c.state == LastState(c.trace)
            && forall i: nat :: i < |c.trace| ==> TraceLaw(c.trace, cfg.maxRetries, i)
  {
    RunIsConsistent(cfg, Initial(previousPid, alive), es);
    var c := Run(cfg, Initial(previousPid, alive), es).core;
    forall i: nat | i < |c.trace| ensures TraceLaw(c.trace, cfg.maxRetries, i) {
      GoodTraceLaw(c.trace, cfg.maxRetries, i);
    }
  }

  function CountStarts(t: seq<Broadcast>): nat {
    if t == [] then 0
    else CountStarts(t[..|t| - 1]) + if t[|t| - 1].Began? then 1 else 0
  }

  lemma {:induction false} StartsWithoutRunning(t: seq<Broadcast>, i: nat, j: nat)
    requires i <= j <= |t|
    requires forall k :: i <= k < j ==> t[k] != Became(Running)
    ensures CountStarts(t[i..j]) + StartsSinceRunning(t[..i]) == StartsSinceRunning(t[..j])
    decreases j
  {
    if i < j {
      StartsWithoutRunning(t, i, j - 1);
      assert t[i..j][..|t[i..j]| - 1] == t[i..j - 1];
      assert t[..j][..j - 1] == t[..j - 1];
    }
  }

  lemma {:induction false} UnforcedStartsBounded(t: seq<Broadcast>, maxRetries: nat)
    requires GoodTrace(t, maxRetries)
    requires forall k :: 0 <= k < |t| ==> t[k] != Began(true)
    ensures StartsSinceRunning(t) <= maxRetries
    decreases |t|
  {
    if t != [] {
      UnforcedStartsBounded(t[..|t| - 1], maxRetries);
      assert MayFollow(t[..|t| - 1], t[|t| - 1], maxRetries);
    }
  }

  /** When no start is forced, no stretch of broadcasts without RUNNING holds more than `startupMaxRetries` starts. */
  lemma AtMostMaxRetriesStarts(cfg: Config, previousPid: Option<nat>, alive: set<nat>, es: seq<Event>, i: nat, j: nat)
    requires Legal(cfg, Initial(previousPid, alive), es)
    requires i <= j <= |Run(cfg, Initial(previousPid, alive), es).core.trace|
    requires forall k :: 0 <= k < j ==> Run(cfg, Initial(previousPid, alive), es).core.trace[k] != Began(true)
    requires forall k :: i <= k < j ==> Run(cfg, Initial(previousPid, alive), es).core.trace[k] != Became(Running)
    ensures CountStarts(Run(cfg, Initial(previousPid, alive), es).core.trace[i..j]) <= cfg.maxRetries
  {
    RunIsConsistent(cfg, Initial(previousPid, alive), es);
    var t := Run(cfg, Initial(previousPid, alive), es).core.trace;
    StartsWithoutRunning(t, i, j);
    if j < |t| {
      GoodAt(t, cfg.maxRetries, j);
    } else {
      assert t[..j] == t;
    }
    UnforcedStartsBounded(t[..j], cfg.maxRetries);
  }

  // The TLS configs sent out.

  function SentConfigs(t: seq<Broadcast>): seq<Option<TlsConfig>> {
    if t == [] then []
    else SentConfigs(t[..|t| - 1]) + if t[|t| - 1].SentTls? then [t[|t| - 1].config] else []
  }

  lemma SentOn(t: seq<Broadcast>, b: Broadcast)
    ensures SentConfigs(t + [b]) == SentConfigs(t) + if b.SentTls? then [b.config] else []
  {
    assert (t + [b])[..|t|] == t;
  }

  /** The trace is kept, or something else than a TLS config is broadcast. */
  predicate Silent(c: Core, c': Core) {
    c'.trace == c.trace ||
    (|c'.trace| > 0 && c'.trace == c.trace + [c'.trace[|c'.trace| - 1]] && !c'.trace[|c'.trace| - 1].SentTls?)
  }

  lemma SilentSendsNothing(c: Core, c': Core)
    requires Silent(c, c')
    ensures SentConfigs(c'.trace) == SentConfigs(c.trace)
  {
    if c'.trace != c.trace {
      SentOn(c.trace, c'.trace[|c'.trace| - 1]);
    }
  }

  lemma StartIsSilent(cfg: Config, c: Core, alive: set<nat>, t: Task, a: Answer)
    requires !(t.StartWaiting? && a.Connects?)
    ensures Silent(c, StartStretch(cfg, c, alive, t, a).core)
  {
  }

  lemma OthersAreSilent(cfg: Config, c: Core, alive: set<nat>, t: Task, a: Answer, nextCall: nat, childResolved: bool)
    requires !IsStart(t)
    ensures Silent(c, Stretch(cfg, c, alive, t, a, nextCall, childResolved).core)
  {
    StopStretchVoice(cfg, c, alive, t, a, nextCall, childResolved);
    KillStretchVoice(c, t, a);
    UpdateStretchKeepsFields(cfg, c, alive, t, a, nextCall, childResolved);
  }

  /** The config a reply makes known: that of the port replied with, if the node is still starting. */
  function Announces(w: World, e: Event): seq<Option<TlsConfig>> {
    if e.Step? && e.answer.Connects? && w.core.state == Starting then [Some(TlsConfig(e.answer.port))] else []
  }

  lemma ReplyAnnounces(c: Core, h: nat, pid: nat, port: nat)
    requires h < |c.launchers|
    ensures SentConfigs(HandleReplyPort(ConnectLauncher(c, h, pid), port).trace) ==
            SentConfigs(c.trace) + if c.state == Starting then [Some(TlsConfig(port))] else []
  {
    if c.state == Starting {
      SentOn(c.trace, Became(Running));
      SentOn(c.trace + [Became(Running)], SentTls(Some(TlsConfig(port))));
    }
  }

  lemma ErrorIsSilent(cfg: Config, w: World, id: nat, e: Effect)
    requires id < |w.tasks|
    ensures SentConfigs(Apply(cfg, w, id, e).core.trace) == SentConfigs(e.core.trace)
  {
    SilentSendsNothing(e.core, Apply(cfg, w, id, e).core);
  }

  lemma NextAnnounces(cfg: Config, w: World, e: Event)
    requires Enabled(w, e)
    ensures SentConfigs(Next(cfg, w, e).core.trace) == SentConfigs(w.core.trace) + Announces(w, e)
  {
    match e
    case Step(id, a) =>
      var t := w.tasks[id];
      var effect := EffectOf(cfg, w, id, a);
      ErrorIsSilent(cfg, w, id, effect);
      if a.Connects? {
        ReplyAnnounces(w.core, t.launcher, a.pid, a.port);
      } else if IsStart(t) {
        StartIsSilent(cfg, w.core, w.alive, t, a);
        SilentSendsNothing(w.core, effect.core);
      } else {
        OthersAreSilent(cfg, w.core, w.alive, t, a, |w.tasks|, ChildResolved(w, t));
        SilentSendsNothing(w.core, effect.core);
      }
    case _ => SilentSendsNothing(w.core, Next(cfg, w, e).core);
  }

  ghost function Announced(cfg: Config, w: World, es: seq<Event>): seq<Option<TlsConfig>>
    requires Legal(cfg, w, es)
  {
    if es == [] then []
    else Announced(cfg, w, es[..|es| - 1]) + Announces(Run(cfg, w, es[..|es| - 1]), es[|es| - 1])
  }

  /** In every run, under any interleaving, what is sent out are the configs of the ports replied with while the node
      was starting, each once and in the order of the replies. */
  lemma {:induction false} SentConfigsAreReplied(cfg: Config, previousPid: Option<nat>, alive: set<nat>, es: seq<Event>)
    requires Legal(cfg, Initial(previousPid, alive), es)
    ensures var w := Initial(previousPid, alive);
            SentConfigs(Run(cfg, w, es).core.trace) == Announced(cfg, w, es)
  {
    var w := Initial(previousPid, alive);
    if es != [] {
      SentConfigsAreReplied(cfg, previousPid, alive, es[..|es| - 1]);
      NextAnnounces(cfg, Run(cfg, w, es[..|es| - 1]), es[|es| - 1]);
    }
  }
}
