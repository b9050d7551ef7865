/** Why SupervisorSequenced.AtMostOneNodeAlive speaks of truthful lookups: `start` reads a failing lookup of the
    recorded process as "not running", and launches beside it. */
module SupervisorMissed {
  import opened Wrappers
  import opened Supervisor
  import opened SupervisorRuns
  import opened SupervisorSequenced

  /** `es` is an orderly run of a session with `old_` on record and alive, and it ends in `w`. */
  ghost predicate LeadsTo(cfg: Config, old_: nat, es: seq<Event>, w: World) {
    && Legal(cfg, Initial(Some(old_), {old_}), es)
    && OrderlyRun(cfg, Initial(Some(old_), {old_}), es)
    && Run(cfg, Initial(Some(old_), {old_}), es) == w
  }

  lemma Then(cfg: Config, old_: nat, es: seq<Event>, w: World, e: Event) returns (w': World)
    requires LeadsTo(cfg, old_, es, w) && Enabled(w, e) && Orderly(w, e)
    ensures w' == Next(cfg, w, e) && LeadsTo(cfg, old_, es + [e], w')
  {
    assert (es + [e])[..|es|] == es;
    w' := Next(cfg, w, e);
  }

  /** The world while the session's one start has got to `t`. */
  predicate At(w: World, old_: nat, t: Task, tries: nat, node: Option<nat>, launchers: seq<Launcher>) {
    && w.tasks == [t] && w.alive == {old_} && w.exited == {}
    && w.core.previousPid == Some(old_) && w.core.startupTries == tries
    && w.core.node == node && w.core.launchers == launchers
  }

  lemma FindsNothing(cfg: Config, old_: nat) returns (es: seq<Event>, w: World)
    ensures LeadsTo(cfg, old_, es, w) && At(w, old_, StartGuard(true, true, false), 0, None, [])
    ensures es == [SetupStart, Step(0, Fault)]
  {
    w := Then(cfg, old_, [], Initial(Some(old_), {old_}), SetupStart);
    assert w.tasks == [StartLookup(old_, true, false)];
    w := Then(cfg, old_, [] + [SetupStart], w, Step(0, Fault));
    es := [] + [SetupStart] + [Step(0, Fault)];
  }

  lemma Launches(cfg: Config, old_: nat, es: seq<Event>, w: World) returns (w': World)
    requires cfg.maxRetries > 0
    requires LeadsTo(cfg, old_, es, w) && At(w, old_, StartGuard(true, true, false), 0, None, [])
    ensures LeadsTo(cfg, old_, es + [Step(0, Fine)] + [Step(0, Fine)], w')
    ensures At(w', old_, StartWaiting(0), 1, Some(0), [Launcher(None, false)])
  {
    w' := Then(cfg, old_, es, w, Step(0, Fine));
    assert At(w', old_, StartLaunching, 1, None, []);
    w' := Then(cfg, old_, es + [Step(0, Fine)], w', Step(0, Fine));
  }

  lemma ComesUp(cfg: Config, old_: nat, new_: nat, w: World)
    requires old_ != new_ && At(w, old_, StartWaiting(0), 1, Some(0), [Launcher(None, false)])
    ensures Enabled(w, Step(0, Connects(new_, 8090))) && Orderly(w, Step(0, Connects(new_, 8090)))
    ensures var w' := Next(cfg, w, Step(0, Connects(new_, 8090)));
            NodePid(w'.core) == Some(new_) && w'.core.previousPid == Some(old_) && w'.alive == {old_, new_}
  {
  }

  /** An orderly run at whose end the process on record and the new node are both alive. */
  lemma MissedLookupLaunchesBeside(cfg: Config, old_: nat, new_: nat) returns (es: seq<Event>)
    requires cfg.maxRetries > 0 && old_ != new_
    ensures es == [SetupStart, Step(0, Fault), Step(0, Fine), Step(0, Fine), Step(0, Connects(new_, 8090))]
    ensures Legal(cfg, Initial(Some(old_), {old_}), es) && OrderlyRun(cfg, Initial(Some(old_), {old_}), es)
    ensures var w := Run(cfg, Initial(Some(old_), {old_}), es);
            NodePid(w.core) == Some(new_) && w.core.previousPid == Some(old_) && w.alive == {old_, new_}
  {
    var es0, w0 := FindsNothing(cfg, old_);
    var w1 := Launches(cfg, old_, es0, w0);
    var es1 := es0 + [Step(0, Fine)] + [Step(0, Fine)];
    ComesUp(cfg, old_, new_, w1);
    var w2 := Then(cfg, old_, es1, w1, Step(0, Connects(new_, 8090)));
    es := es1 + [Step(0, Connects(new_, 8090))];
  }
}
