/** Runs read from the front: playing one event after the other, moving one call on, and waiting. */
module SupervisorPlay {
  import opened Wrappers
  import opened Supervisor
  import opened SupervisorRuns

  /** The world after these events, if each is possible where it comes. */
  function Play(cfg: Config, w: World, es: seq<Event>): Option<World>
    decreases |es|
  {
    if es == [] then Some(w)
    else if Enabled(w, es[0]) then Play(cfg, Next(cfg, w, es[0]), es[1..])
    else None
  }

  lemma {:induction false} PlayOn(cfg: Config, w: World, es: seq<Event>, es': seq<Event>)
    requires Play(cfg, w, es).Some?
    ensures Play(cfg, w, es + es') == Play(cfg, Play(cfg, w, es).value, es')
    decreases |es|
  {
    if es == [] {
      assert es + es' == es';
    } else {
      assert (es + es')[1..] == es[1..] + es';
      PlayOn(cfg, Next(cfg, w, es[0]), es[1..], es');
    }
  }

  lemma PlayNone(cfg: Config, w: World)
    ensures Play(cfg, w, []) == Some(w)
  {
  }

  lemma PlayOne(cfg: Config, w: World, e: Event)
    requires Enabled(w, e)
    ensures Play(cfg, w, [e]) == Some(Next(cfg, w, e))
  {
    assert Play(cfg, Next(cfg, w, e), [e][1..]) == Some(Next(cfg, w, e));
  }

  /** Playing is running. */
  lemma {:induction false} PlayIsRun(cfg: Config, w: World, es: seq<Event>)
    requires Play(cfg, w, es).Some?
    ensures Legal(cfg, w, es) && Run(cfg, w, es) == Play(cfg, w, es).value
    decreases |es|
  {
    if es != [] {
      var n := |es| - 1;
      PlayPrefix(cfg, w, es, n);
      PlayOn(cfg, w, es[..n], es[n..]);
      assert es[..n] + es[n..] == es && es[n..][1..] == [];
      PlayIsRun(cfg, w, es[..n]);
    }
  }

  lemma {:induction false} PlayPrefix(cfg: Config, w: World, es: seq<Event>, n: nat)
    requires Play(cfg, w, es).Some? && n <= |es|
    ensures Play(cfg, w, es[..n]).Some?
    decreases |es|
  {
    if n > 0 {
      assert es[..n][1..] == es[1..][..n - 1];
      PlayPrefix(cfg, Next(cfg, w, es[0]), es[1..], n - 1);
    }
  }

  lemma Join(cfg: Config, w: World, es: seq<Event>, w1: World, es': seq<Event>, w2: World)
    requires Play(cfg, w, es) == Some(w1) && Play(cfg, w1, es') == Some(w2)
    ensures Play(cfg, w, es + es') == Some(w2)
  {
    PlayOn(cfg, w, es, es');
  }

  /** The world with other fields, and with one call parked elsewhere. */
  function Moved(w: World, c: Core, id: nat, t: Task): World
    requires id < |w.tasks|
  {
    w.(core := c, tasks := w.tasks[id := t])
  }

  lemma MovedTwice(w: World, c: Core, id: nat, t: Task, c': Core, t': Task)
    requires id < |w.tasks|
    ensures Moved(Moved(w, c, id, t), c', id, t') == Moved(w, c', id, t')
  {
    assert w.tasks[id := t][id := t'] == w.tasks[id := t'];
  }

  lemma MovedHere(w: World, id: nat)
    requires id < |w.tasks|
    ensures Moved(w, w.core, id, w.tasks[id]) == w
  {
    assert w.tasks[id := w.tasks[id]] == w.tasks;
  }

  lemma LastUpdated<T>(s: seq<T>, a: T, b: T)
    ensures (s + [a])[|s| := b] == s + [b]
  {
  }

  lemma LastTwoUpdated<T>(s: seq<T>, a: T, b: T, a': T, b': T)
    ensures (s + [a, b])[|s| := a'][|s| + 1 := b'] == s + [a', b']
    ensures (s + [a, b])[|s| + 1 := b'][|s| := a'] == s + [a', b']
  {
  }

  lemma StepMoves(cfg: Config, w: World, id: nat, a: Answer, c: Core, t: Task)
    requires CanStep(w, id, a) && EffectOf(cfg, w, id, a) == Plain(c, t)
    ensures Next(cfg, w, Step(id, a)) == Moved(w, c, id, t)
  {
    assert w.alive + {} == w.alive;
  }

  /** A call that waits for no other call has this stretch before it; `n` is the number of calls. */
  predicate Goes(cfg: Config, c: Core, alive: set<nat>, n: nat, t: Task, a: Answer, c': Core, t': Task) {
    && !t.Settled? && !t.NeverSettles? && !t.StartWaiting? && ChildOf(t).None?
    && (a == Fine || a == Fault)
    && Stretch(cfg, c, alive, t, a, n, false) == Plain(c', t')
  }

  /** One more step of the same call. */
  lemma MoveOn(cfg: Config, w: World, es: seq<Event>, id: nat, c: Core, t: Task, a: Answer, c': Core, t': Task)
    requires id < |w.tasks| && Play(cfg, w, es) == Some(Moved(w, c, id, t))
    requires Goes(cfg, c, w.alive, |w.tasks|, t, a, c', t')
    ensures Play(cfg, w, es + [Step(id, a)]) == Some(Moved(w, c', id, t'))
  {
    var w1 := Moved(w, c, id, t);
    StepMoves(cfg, w1, id, a, c', t');
    PlayOne(cfg, w1, Step(id, a));
    MovedTwice(w, c, id, t, c', t');
    Join(cfg, w, es, w1, [Step(id, a)], Moved(w, c', id, t'));
  }

  /** A call goes on so many times, nothing failing. */
  function Steps(id: nat, times: nat): seq<Event> {
    if times == 0 then [] else Steps(id, times - 1) + [Step(id, Fine)]
  }

  lemma {:induction false} StepsJoin(id: nat, m: nat, n: nat)
    ensures Steps(id, m) + Steps(id, n) == Steps(id, m + n)
  {
    if n > 0 {
      StepsJoin(id, m, n - 1);
      assert Steps(id, m) + Steps(id, n) == Steps(id, m) + Steps(id, n - 1) + [Step(id, Fine)];
    }
  }

  lemma GoesOnce(cfg: Config, w: World, id: nat, t: Task, c1: Core, t1: Task)
    requires id < |w.tasks| && w.tasks[id] == t
    requires Goes(cfg, w.core, w.alive, |w.tasks|, t, Fine, c1, t1)
    ensures Play(cfg, w, Steps(id, 1)) == Some(Moved(w, c1, id, t1))
  {
    MovedHere(w, id);
    MoveOn(cfg, w, Steps(id, 0), id, w.core, t, Fine, c1, t1);
  }

  lemma GoesTwice(cfg: Config, w: World, id: nat, t: Task, c1: Core, t1: Task, c2: Core, t2: Task)
    requires id < |w.tasks| && w.tasks[id] == t
    requires Goes(cfg, w.core, w.alive, |w.tasks|, t, Fine, c1, t1)
    requires Goes(cfg, c1, w.alive, |w.tasks|, t1, Fine, c2, t2)
    ensures Play(cfg, w, Steps(id, 2)) == Some(Moved(w, c2, id, t2))
  {
    GoesOnce(cfg, w, id, t, c1, t1);
    MoveOn(cfg, w, Steps(id, 1), id, c1, t1, Fine, c2, t2);
  }

  lemma GoesThrice(cfg: Config, w: World, id: nat, t: Task, c1: Core, t1: Task, c2: Core, t2: Task, c3: Core, t3: Task)
    requires id < |w.tasks| && w.tasks[id] == t
    requires Goes(cfg, w.core, w.alive, |w.tasks|, t, Fine, c1, t1)
    requires Goes(cfg, c1, w.alive, |w.tasks|, t1, Fine, c2, t2)
    requires Goes(cfg, c2, w.alive, |w.tasks|, t2, Fine, c3, t3)
    ensures Play(cfg, w, Steps(id, 3)) == Some(Moved(w, c3, id, t3))
  {
    GoesTwice(cfg, w, id, t, c1, t1, c2, t2);
    MoveOn(cfg, w, Steps(id, 2), id, c2, t2, Fine, c3, t3);
  }

  // Waiting.

  datatype Wait =
    | ForStop
    | ForExit(code: int)
    | ForUpdate
    | ForUpdateExit
    | ForKill(pid: nat, hasConfig: bool, isForced: bool)

  function Awaiting(wait: Wait, waited: nat): Task {
    match wait
    case ForStop => StopPoll(waited)
    case ForExit(code) => ExitPoll(code, waited)
    case ForUpdate => UpdatePoll(waited)
    case ForUpdateExit => UpdateExitPoll(waited)
    case ForKill(pid, hasConfig, isForced) => StartKillPoll(pid, waited, hasConfig, isForced)
  }

  function Timeout(cfg: Config, wait: Wait): nat {
    match wait
    case ForStop => cfg.shutdownTimeout
    case ForExit(_) => cfg.shutdownTimeout
    case ForUpdate => cfg.updateTimeout
    case ForUpdateExit => cfg.updateTimeout
    case ForKill(_, _, _) => cfg.killTimeout
  }

  predicate NodeLives(w: World) {
    NodePid(w.core).Some? && NodePid(w.core).value in w.alive
  }

  /** What is waited for has not come. */
  predicate Unmet(w: World, wait: Wait) {
    match wait
    case ForUpdate => w.core.state != Updated
    case ForKill(pid, _, _) => pid in w.alive
    case _ => NodeLives(w)
  }

  lemma PollGoesOn(cfg: Config, w: World, id: nat, wait: Wait, waited: nat)
    requires id < |w.tasks| && Unmet(w, wait) && waited < Timeout(cfg, wait)
    ensures Goes(cfg, w.core, w.alive, |w.tasks|, Awaiting(wait, waited), Fine, w.core, Awaiting(wait, waited + 1000))
  {
  }

  /** The number of polls still within the timeout. */
  predicate InTime(cfg: Config, wait: Wait, polls: nat) {
    polls == 0 || (polls - 1) * 1000 < Timeout(cfg, wait)
  }

  lemma WaitsOnce(cfg: Config, w: World, es: seq<Event>, id: nat, wait: Wait, waited: nat)
    requires id < |w.tasks| && Play(cfg, w, es) == Some(Moved(w, w.core, id, Awaiting(wait, waited)))
    requires Unmet(w, wait) && waited < Timeout(cfg, wait)
    ensures Play(cfg, w, es + [Step(id, Fine)]) == Some(Moved(w, w.core, id, Awaiting(wait, waited + 1000)))
  {
    PollGoesOn(cfg, w, id, wait, waited);
    MoveOn(cfg, w, es, id, w.core, Awaiting(wait, waited), Fine, w.core, Awaiting(wait, waited + 1000));
  }

  /** Polling goes on as long as what is waited for has not come and the timeout is not reached. */
  lemma {:induction false} WaitsOn(cfg: Config, w: World, id: nat, wait: Wait, polls: nat)
    requires id < |w.tasks| && w.tasks[id] == Awaiting(wait, 0) && Unmet(w, wait) && InTime(cfg, wait, polls)
    ensures Play(cfg, w, Steps(id, polls)) == Some(Moved(w, w.core, id, Awaiting(wait, polls * 1000)))
  {
    hide Play;
    if polls == 0 {
      PlayNone(cfg, w);
      MovedHere(w, id);
    } else {
      WaitsOn(cfg, w, id, wait, polls - 1);
      WaitsOnce(cfg, w, Steps(id, polls - 1), id, wait, (polls - 1) * 1000);
    }
  }

  /** The polls after which the timeout is reached. */
  predicate OutOfTime(cfg: Config, wait: Wait, polls: nat) {
    InTime(cfg, wait, polls) && polls * 1000 >= Timeout(cfg, wait)
  }
}
