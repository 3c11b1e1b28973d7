/** The properties of every run, from the first registration on. */
module SessionRuns {
  import opened Prelude
  import opened Gateways
  import opened Cooldowns
  import opened SessionLoop
  import opened SessionInvariants
  import opened SessionHooks
  import opened SessionSignals
  import opened SessionFailback
  import opened SessionMoves

  /** Everything the loop head keeps. */
  ghost predicate Head(c: Client) {
    && AtHead(c) && Addressed(c)
    && HooksAt(c, 0)
    && Honest(c.history.signals, c.history.sessions)
    && FailbackHead(c) && (c.pinned ==> NeverFailedBack(c))
    && MovesSound(c)
  }

  /** What holds of a run whether it goes on or has left the loop. */
  ghost predicate Kept(step: Step, pinned: bool) {
    && (step.Continue? ==> Head(step.client))
    && HooksKept(step, pinned) && HonestStep(step) && FailbackKept(step) && MovesSound(step.client)
  }

  lemma StartIsHead(pinned: bool, requested: string, cfg: Config, now: int)
    requires cfg.url.text != ""
    ensures Head(Start(pinned, requested, cfg, now))
  {
  }

  lemma IterationKeepsAll(c: Client, input: Input)
    requires Head(c)
    ensures Kept(Iterate(c, input), c.pinned) && Iterate(c, input).client.requested == c.requested
  {
    hide Iterate;
    IterationReachesHead(c, input);
    IterationCycles(c, input);
    IterationIsHonest(c, input);
    IterationKeepsFailback(c, input);
    IterationKeepsMoves(c, input);
  }

  lemma HeadGoesOn(c: Client)
    requires Head(c)
    ensures Kept(Continue(c), c.pinned)
  {
  }

  /** Every run keeps everything: by induction over its iterations. */
  lemma {:induction false} RunKeepsAll(c: Client, inputs: seq<Input>)
    requires Head(c)
    ensures Kept(Run(c, inputs), c.pinned) && Run(c, inputs).client.requested == c.requested
    decreases |inputs|
  {
    hide Iterate, AtHead, Addressed, HooksCycle, Honest, FailbackHead, MovesSound, HoldsOff, Ordered;
    HeadGoesOn(c);
    if inputs != [] {
      IterationKeepsAll(c, inputs[0]);
      match Iterate(c, inputs[0])
      case Exit(_) =>
      case Continue(next) => RunKeepsAll(next, inputs[1..]);
    }
  }

  // ----- the properties, for every client, every configuration and everything the world may do -----

  /** At every loop head of every run the engine, the state file and the configuration name the same
      region and gateway, that gateway is not cooling, and nothing announced by or raised for an earlier
      session is left. Loop heads are the clients reached after any number of iterations. */
  lemma EveryLoopHeadAgrees(pinned: bool, requested: string, cfg: Config, now: int, inputs: seq<Input>)
    requires cfg.url.text != ""
    ensures var step := Run(Start(pinned, requested, cfg, now), inputs);
            step.Continue? ==>
              var c := step.client;
              && c.engine.region == c.record.region == c.cfg.region
              && c.engine.url == c.record.url == c.cfg.url
              && !CoolingDown(c.until, c.cfg.url, c.now)
              && c.engine.warnedAt == 0 && c.engine.migrateAt == 0
              && !c.engine.leaseLost && !c.engine.isFailback
  {
    StartIsHead(pinned, requested, cfg, now);
    RunKeepsAll(Start(pinned, requested, cfg, now), inputs);
  }

  /** In every run the hooks are a prefix of (stopping stopped starting started)* for a client that may
      move and of (stopped starting started)* for a pinned one. */
  lemma HooksFollowTheCycle(pinned: bool, requested: string, cfg: Config, now: int, inputs: seq<Input>)
    requires cfg.url.text != ""
    ensures var hooks := Run(Start(pinned, requested, cfg, now), inputs).client.history.hooks;
            forall i :: 0 <= i < |hooks| ==>
                          hooks[i] == if pinned then [Stopped, Starting, Started][i % 3]
                                      else [Stopping, Stopped, Starting, Started][i % 4]
  {
    StartIsHead(pinned, requested, cfg, now);
    RunKeepsAll(Start(pinned, requested, cfg, now), inputs);
  }

  /** In every run each signal raised came from the gateway serving its session, each one acted on was
      raised in the same session by that gateway with nothing of its kind in between, and no raise is
      acted on twice. */
  lemma SignalsComeFromTheServingGateway(pinned: bool, requested: string, cfg: Config, now: int, inputs: seq<Input>)
    requires cfg.url.text != ""
    ensures var h := Run(Start(pinned, requested, cfg, now), inputs).client.history;
            forall j: nat :: j < |h.signals| ==>
              && h.signals[j].session < |h.sessions|
              && (h.signals[j].Raised? ==> h.signals[j].from == h.sessions[h.signals[j].session])
              && (h.signals[j].Consumed? ==>
                    exists i: nat :: ActsOn(h.signals, j, i)
                                     && h.signals[i].from == h.sessions[h.signals[j].session]
                                     && forall k: nat :: ActsOn(h.signals, k, i) ==> k == j)
  {
    StartIsHead(pinned, requested, cfg, now);
    RunKeepsAll(Start(pinned, requested, cfg, now), inputs);
    var h := Run(Start(pinned, requested, cfg, now), inputs).client.history;
    forall j: nat | j < |h.signals|
      ensures h.signals[j].session < |h.sessions|
      ensures h.signals[j].Raised? ==> h.signals[j].from == h.sessions[h.signals[j].session]
      ensures h.signals[j].Consumed? ==>
                exists i: nat :: ActsOn(h.signals, j, i)
                                 && h.signals[i].from == h.sessions[h.signals[j].session]
                                 && forall k: nat :: ActsOn(h.signals, k, i) ==> k == j
    {
      HonestMeaning(h.signals, h.sessions, j);
      if h.signals[j].Consumed? {
        var i: nat :| ActsOn(h.signals, j, i) && h.signals[i].from == h.sessions[h.signals[j].session];
        forall k: nat | ActsOn(h.signals, k, i) ensures k == j {
          RaisedOnceConsumedOnce(h.signals, i, j, k);
        }
      }
    }
  }

  /** In every run, once a session established by failback is judged within 20 s of that failback, no
      failback is attempted for 45 s after the judgement, hence after the session's end. */
  lemma NoFailbackSoonAfterAnEviction(pinned: bool, requested: string, cfg: Config, now: int, inputs: seq<Input>)
    requires cfg.url.text != ""
    ensures var fs := Run(Start(pinned, requested, cfg, now), inputs).client.history.failbacks;
            forall i: nat, j: nat, l: nat ::
              EstablishedBefore(fs, j, i) && fs[j].judged - fs[i].at < FAILBACK_EVICTION_WINDOW
              && j < l < |fs| && fs[l].Attempted? ==>
                fs[l].at >= fs[j].judged + 45_000 && fs[l].at >= fs[j].returned + 45_000
  {
    StartIsHead(pinned, requested, cfg, now);
    RunKeepsAll(Start(pinned, requested, cfg, now), inputs);
    var fs := Run(Start(pinned, requested, cfg, now), inputs).client.history.failbacks;
    forall i: nat, j: nat, l: nat |
      EstablishedBefore(fs, j, i) && fs[j].judged - fs[i].at < FAILBACK_EVICTION_WINDOW
      && j < l < |fs| && fs[l].Attempted?
      ensures fs[l].at >= fs[j].judged + 45_000 && fs[l].at >= fs[j].returned + 45_000
    {
      assert QuickEnd(fs, j);
    }
  }

  /** In every run a topology move never goes to the gateway in use under another name, and goes to a gateway in
      cooldown at the moment of the decision only if every gateway of the roster is in cooldown then: never if
      the roster lists the gateway in use, and never if latency drove the move. */
  lemma MovesAreWellChosen(pinned: bool, requested: string, cfg: Config, now: int, inputs: seq<Input>)
    requires cfg.url.text != ""
    ensures var h := Run(Start(pinned, requested, cfg, now), inputs).client.history;
            forall i :: 0 <= i < |h.proposals| ==>
              var p := h.proposals[i];
              && p.session < |h.sessions|
              && HostKey(p.target.url) != HostKey(h.sessions[p.session])
              && (CoolingDown(p.until, p.target.url, p.decided) ==>
                    && AllHeld(p.until, p.roster, p.decided)
                    && !Advertises(p.roster, HostKey(h.sessions[p.session]))
                    && requested != "")
  {
    StartIsHead(pinned, requested, cfg, now);
    RunKeepsAll(Start(pinned, requested, cfg, now), inputs);
    var h := Run(Start(pinned, requested, cfg, now), inputs).client.history;
    forall i | 0 <= i < |h.proposals| ensures WellChosen(h.proposals[i], h.sessions, requested) {
    }
  }

  /** In every run the moves proposed from one instant to another, w milliseconds later, are at most
      floor(w / 10 min) + 1. */
  lemma MovesAreThrottled(pinned: bool, requested: string, cfg: Config, now: int, inputs: seq<Input>)
    requires cfg.url.text != ""
    ensures var ps := Run(Start(pinned, requested, cfg, now), inputs).client.history.proposals;
            forall i: nat, j: nat :: i <= j < |ps| ==>
              ps[i].at <= ps[j].at && j - i + 1 <= (ps[j].at - ps[i].at) / 600_000 + 1
  {
    hide Run;
    StartIsHead(pinned, requested, cfg, now);
    RunKeepsAll(Start(pinned, requested, cfg, now), inputs);
    var ps := Run(Start(pinned, requested, cfg, now), inputs).client.history.proposals;
    forall i: nat, j: nat | i <= j < |ps|
      ensures ps[i].at <= ps[j].at && j - i + 1 <= (ps[j].at - ps[i].at) / 600_000 + 1
    {
      SpanHoldsFewProposals(ps, i, j, ps[j].at - ps[i].at);
    }
  }
}
