/** That a failed `kill` can clean up under RUNNING, as SupervisorRunning.RunningHasNode allows for: in this run an
    update is awaited while a failed launch is being retried; the retry succeeds, the wait times out and kills the new
    node, the kill throws, and its cleanup leaves RUNNING with nothing behind it. */
module SupervisorStranded {
  import opened Wrappers
  import opened Polling
  import opened Supervisor
  import opened SupervisorRuns
  import opened SupervisorSequenced

  const UPDATE_TIMEOUT := 60000

  /** The values of source/main/config.js. */
  const Cfg: Config := Config(5, 10000, 10000, UPDATE_TIMEOUT)

  /** `es` is an orderly run of a new supervisor that ends in `w`. */
  ghost predicate LeadsTo(es: seq<Event>, w: World) {
    && Legal(Cfg, Initial(None, {}), es)
    && OrderlyRun(Cfg, Initial(None, {}), es) && TruthfulRun(Cfg, Initial(None, {}), es)
    && Run(Cfg, Initial(None, {}), es) == w
  }

  lemma Then(es: seq<Event>, w: World, e: Event, w': World)
    requires LeadsTo(es, w) && Goes(w, e, w')
    ensures LeadsTo(es + [e], w')
  {
    assert (es + [e])[..|es|] == es;
  }

  /** Everything about a world that matters here. */
  predicate Looks(w: World, state: NodeState, tries: nat, node: Option<nat>, launchers: seq<Launcher>,
          tasks: seq<Task>) {
    && w.core.state == state && w.core.startupTries == tries && w.core.node == node && w.core.launchers == launchers
    && w.tasks == tasks && w.core.configured == (tries > 0 || state == Running)
    && w.core.previousPid == None && !w.core.exitOnStop
    && w.alive == (if state == Running then {1} else {}) && w.exited == {}
  }

  ghost predicate Goes(w: World, e: Event, w': World) {
    Enabled(w, e) && Orderly(w, e) && Truthful(w, e) && w' == Next(Cfg, w, e)
  }

  const New: Launcher := Launcher(None, false)
  const Up: Launcher := Launcher(Some(1), true)
  const Failed: Task := Settled(false)
  const Waits: Task := RestartStarting(3)

  lemma StartIsCalled(w: World) returns (w': World)
    requires Looks(w, Stopped, 0, None, [], [])
    ensures Goes(w, SetupStart, w')
    ensures Looks(w', Stopped, 0, None, [], [StartGuard(true, true, false)])
  {
    w' := Next(Cfg, w, SetupStart);
  }

  lemma StartBegins(w: World) returns (w': World)
    requires Looks(w, Stopped, 0, None, [], [StartGuard(true, true, false)])
    ensures Goes(w, Step(0, Fine), w')
    ensures Looks(w', Starting, 1, None, [], [StartLaunching])
  {
    w' := Next(Cfg, w, Step(0, Fine));
  }

  lemma LaunchFails(w: World) returns (w': World)
    requires Looks(w, Starting, 1, None, [], [StartLaunching])
    ensures Goes(w, Step(0, Fault), w')
    ensures Looks(w', Errored, 1, None, [], [Failed, RestartGate(true, false)])
  {
    w' := Next(Cfg, w, Step(0, Fault));
  }

  lemma UpdateIsAwaited(w: World) returns (w': World)
    requires Looks(w, Errored, 1, None, [], [Failed, RestartGate(true, false)])
    ensures Goes(w, AwaitUpdate, w')
    ensures Looks(w', Updating, 1, None, [], [Failed, RestartGate(true, false), UpdatePoll(0)])
  {
    w' := Next(Cfg, w, AwaitUpdate);
  }

  lemma RestartGoesOn(w: World) returns (w': World)
    requires Looks(w, Updating, 1, None, [], [Failed, RestartGate(true, false), UpdatePoll(0)])
    ensures Goes(w, Step(1, Fine), w')
    ensures Looks(w', Updating, 1, None, [], [Failed, Waits, UpdatePoll(0), StartGuard(true, true, false)])
  {
    w' := Next(Cfg, w, Step(1, Fine));
  }

  lemma StartBeginsAgain(w: World) returns (w': World)
    requires Looks(w, Updating, 1, None, [], [Failed, Waits, UpdatePoll(0), StartGuard(true, true, false)])
    ensures Goes(w, Step(3, Fine), w')
    ensures Looks(w', Starting, 2, None, [], [Failed, Waits, UpdatePoll(0), StartLaunching])
  {
    w' := Next(Cfg, w, Step(3, Fine));
  }

  lemma LauncherArrives(w: World) returns (w': World)
    requires Looks(w, Starting, 2, None, [], [Failed, Waits, UpdatePoll(0), StartLaunching])
    ensures Goes(w, Step(3, Fine), w')
    ensures Looks(w', Starting, 2, Some(0), [New], [Failed, Waits, UpdatePoll(0), StartWaiting(0)])
  {
    w' := Next(Cfg, w, Step(3, Fine));
  }

  lemma NodeConnects(w: World) returns (w': World)
    requires Looks(w, Starting, 2, Some(0), [New], [Failed, Waits, UpdatePoll(0), StartWaiting(0)])
    ensures Goes(w, Step(3, Connects(1, 8090)), w')
    ensures Looks(w', Running, 0, Some(0), [Up], [Failed, Waits, UpdatePoll(0), Settled(true)])
  {
    w' := Next(Cfg, w, Step(3, Connects(1, 8090)));
  }

  /** The node is up and the update has been waited for for so long. */
  predicate Waiting(w: World, waited: nat) {
    Looks(w, Running, 0, Some(0), [Up], [Failed, Waits, UpdatePoll(waited), Settled(true)])
  }

  /** The same world, some time later. */
  function Later(w: World, waited: nat): World {
    w.(tasks := [Failed, Waits, UpdatePoll(waited), Settled(true)])
  }

  function Polled(es: seq<Event>, n: nat): seq<Event> {
    if n == 0 then es else Polled(es, n - 1) + [Step(2, Fine)]
  }

  lemma UpdateIsPolled(w: World, waited: nat)
    requires Waiting(w, waited) && waited < UPDATE_TIMEOUT
    ensures Goes(w, Step(2, Fine), Later(w, waited + RETRY_EVERY))
  {
  }

  lemma PollLeadsOn(es: seq<Event>, es': seq<Event>, w: World, waited: nat, waited': nat)
    requires Waiting(w, 0) && waited < UPDATE_TIMEOUT && waited' == waited + RETRY_EVERY && es' == es + [Step(2, Fine)]
    requires LeadsTo(es, Later(w, waited))
    ensures LeadsTo(es', Later(w, waited'))
  {
    UpdateIsPolled(Later(w, waited), waited);
    assert Later(Later(w, waited), waited') == Later(w, waited');
    Then(es, Later(w, waited), Step(2, Fine), Later(w, waited'));
  }

  function Waited(polls: nat): nat {
    polls * 1000
  }

  lemma WaitedNext(k: nat)
    ensures Waited(k + 1) == Waited(k) + RETRY_EVERY
  {
  }

  ghost predicate HoldsAfter(holds: (seq<Event>, World) -> bool, es: seq<Event>, w: World, n: nat) {
    holds(Polled(es, n), Later(w, Waited(n)))
  }

  ghost predicate KeptByPolls(holds: (seq<Event>, World) -> bool, es: seq<Event>, w: World, n: nat) {
    forall k: nat :: k < n && HoldsAfter(holds, es, w, k) ==> HoldsAfter(holds, es, w, k + 1)
  }

  lemma {:induction false} HoldsAfterPolls(holds: (seq<Event>, World) -> bool, es: seq<Event>, w: World, n: nat)
    requires HoldsAfter(holds, es, w, 0) && KeptByPolls(holds, es, w, n)
    ensures HoldsAfter(holds, es, w, n)
  {
    if n > 0 {
      HoldsAfterPolls(holds, es, w, n - 1);
    }
  }

  lemma OnePollLeadsOn(es: seq<Event>, w: World, k: nat)
    requires Waiting(w, 0) && Waited(k) < UPDATE_TIMEOUT && LeadsTo(Polled(es, k), Later(w, Waited(k)))
    ensures LeadsTo(Polled(es, k + 1), Later(w, Waited(k + 1)))
  {
    WaitedNext(k);
    PollLeadsOn(Polled(es, k), Polled(es, k + 1), w, Waited(k), Waited(k + 1));
  }

  lemma PollsKeepLeading(es: seq<Event>, w: World, n: nat)
    requires Waiting(w, 0) && Waited(n) <= UPDATE_TIMEOUT
    ensures KeptByPolls(LeadsTo, es, w, n)
  {
    forall k: nat | k < n && HoldsAfter(LeadsTo, es, w, k)
      ensures HoldsAfter(LeadsTo, es, w, k + 1)
    {
      OnePollLeadsOn(es, w, k);
    }
  }

  lemma LeadsBeforePolls(es: seq<Event>, w: World)
    requires LeadsTo(es, w) && Waiting(w, 0)
    ensures HoldsAfter(LeadsTo, es, w, 0)
  {
    assert Later(w, 0) == w;
  }

  lemma UpdateIsWaitedFor(es: seq<Event>, w: World) returns (es': seq<Event>, w': World)
    requires LeadsTo(es, w) && Waiting(w, 0)
    ensures LeadsTo(es', w') && Waiting(w', UPDATE_TIMEOUT)
  {
    var n := 60;
    LeadsBeforePolls(es, w);
    PollsKeepLeading(es, w, n);
    HoldsAfterPolls(LeadsTo, es, w, n);
    es', w' := Polled(es, n), Later(w, Waited(n));
  }

  lemma UpdateTimesOut(w: World) returns (w': World)
    requires Waiting(w, UPDATE_TIMEOUT)
    ensures Goes(w, Step(2, Fine), w')
    ensures Looks(w', Running, 0, Some(0), [Up],
        [Failed, Waits, UpdateKilling(4), Settled(true), KillCheck(false, Some(0))])
  {
    w' := Next(Cfg, w, Step(2, Fine));
  }

  lemma KillThrows(w: World) returns (w': World)
    requires Looks(w, Running, 0, Some(0), [Up],
        [Failed, Waits, UpdateKilling(4), Settled(true), KillCheck(false, Some(0))])
    ensures Goes(w, Step(4, Fault), w')
    ensures Looks(w', Running, 0, Some(0), [Up], [Failed, Waits, UpdateKilling(4), Settled(true), KillFailed])
  {
    w' := Next(Cfg, w, Step(4, Fault));
  }

  lemma PidIsStored(w: World) returns (w': World)
    requires Looks(w, Running, 0, Some(0), [Up], [Failed, Waits, UpdateKilling(4), Settled(true), KillFailed])
    ensures Goes(w, Step(4, Fine), w')
    ensures w'.tasks == [Failed, Waits, UpdateKilling(4), Settled(true), KillFailedReset]
    ensures w'.core.state == Running
  {
    w' := Next(Cfg, w, Step(4, Fine));
  }

  lemma CleanupStrands(w: World) returns (w': World)
    requires w.tasks == [Failed, Waits, UpdateKilling(4), Settled(true), KillFailedReset]
    requires w.core.state == Running
    ensures Goes(w, Step(4, Fine), w')
    ensures w'.core.state == Running && w'.core.node == None && w'.core.tlsConfig == None
  {
    w' := Next(Cfg, w, Step(4, Fine));
  }

  /** An orderly run of a new supervisor, with every lookup truthful, that ends RUNNING without a node. */
  lemma FailedKillStrandsRunning() returns (es: seq<Event>)
    ensures Legal(Cfg, Initial(None, {}), es)
    ensures OrderlyRun(Cfg, Initial(None, {}), es) && TruthfulRun(Cfg, Initial(None, {}), es)
    ensures var w := Run(Cfg, Initial(None, {}), es);
            w.core.state == Running && w.core.node == None && w.core.tlsConfig == None
  {
    var w0 := Initial(None, {});
    es := [];
    var w1 := StartIsCalled(w0);
    Then(es, w0, SetupStart, w1);
    es := es + [SetupStart];
    var w2 := StartBegins(w1);
    Then(es, w1, Step(0, Fine), w2);
    es := es + [Step(0, Fine)];
    var w3 := LaunchFails(w2);
    Then(es, w2, Step(0, Fault), w3);
    es := es + [Step(0, Fault)];
    var w4 := UpdateIsAwaited(w3);
    Then(es, w3, AwaitUpdate, w4);
    es := es + [AwaitUpdate];
    var w5 := RestartGoesOn(w4);
    Then(es, w4, Step(1, Fine), w5);
    es := es + [Step(1, Fine)];
    var w6 := StartBeginsAgain(w5);
    Then(es, w5, Step(3, Fine), w6);
    es := es + [Step(3, Fine)];
    var w7 := LauncherArrives(w6);
    Then(es, w6, Step(3, Fine), w7);
    es := es + [Step(3, Fine)];
    var w8 := NodeConnects(w7);
    Then(es, w7, Step(3, Connects(1, 8090)), w8);
    es := es + [Step(3, Connects(1, 8090))];
    es, w8 := UpdateIsWaitedFor(es, w8);
    var w9 := UpdateTimesOut(w8);
    Then(es, w8, Step(2, Fine), w9);
    es := es + [Step(2, Fine)];
    var w10 := KillThrows(w9);
    Then(es, w9, Step(4, Fault), w10);
    es := es + [Step(4, Fault)];
    var w11 := PidIsStored(w10);
    Then(es, w10, Step(4, Fine), w11);
    es := es + [Step(4, Fine)];
    var w12 := CleanupStrands(w11);
    Then(es, w11, Step(4, Fine), w12);
    es := es + [Step(4, Fine)];
  }
}
