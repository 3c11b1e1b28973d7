/** What every run of the session loop keeps. */
module SessionInvariants {
  import opened Prelude
  import opened Gateways
  import opened Cooldowns
  import opened Election
  import opened SessionLoop
  import Engine
  import Reelection

  // ----- frames: what the workers of a session and the recovery steps leave alone -----

  /** What a session may change: signals, expired cooldowns, the pending move, the clock, the history. */
  ghost predicate SessionFrame(a: Client, b: Client) {
    && b.pinned == a.pinned && b.requested == a.requested && b.cfg == a.cfg && b.record == a.record
    && b.primary == a.primary && b.lastFailbackAt == a.lastFailbackAt && b.now >= a.now
    && b.engine.region == a.engine.region && b.engine.url == a.engine.url && b.engine.central == a.engine.central
    && b.engine.suppressedUntil == a.engine.suppressedUntil
    && b.until.Keys <= a.until.Keys
    && b.history.sessions == a.history.sessions && b.history.hooks == a.history.hooks
    && b.history.failbacks == a.history.failbacks && b.history.tries == a.history.tries
    && (b.engine.isFailback ==>
          || a.engine.isFailback
          || (b.now >= a.engine.suppressedUntil && !EqualFold(a.engine.region, a.primary.region)))
  }

  lemma TickFrame(s: Session, tick: Tick)
    requires s.client.history.sessions != []
    ensures SessionFrame(s.client, OnTick(s, tick).client)
  {
    hide Reelection.Choose, Measure, Available;
    if tick.Beat? {
      hide Engine.BeatAll, StatusReportTargets;
      var c := Advance(s.client, tick.wait);
      Engine.BeatAllIsSound(c.engine, c.cfg.url, StatusReportTargets(c.cfg.url, c.engine.central), tick.replies);
    }
  }

  lemma {:induction false} TicksFrame(s: Session, ticks: seq<Tick>)
    requires s.client.history.sessions != []
    ensures SessionFrame(s.client, RunTicks(s, ticks).client)
    decreases ticks
  {
    if ticks != [] {
      hide OnTick;
      TickFrame(s, ticks[0]);
      TicksFrame(OnTick(s, ticks[0]), ticks[1..]);
    }
  }

  lemma ServedFrame(c: Client, input: Input)
    ensures SessionFrame(Opened(c), Served(c, input))
  {
    TicksFrame(Session(Opened(c), {}), input.ticks);
  }

  /** What a failover may change: where the client points, cooldowns, the clock, the record of tries. */
  ghost predicate FailoverFrame(a: Client, b: Client) {
    && b == a.(cfg := b.cfg, until := b.until, now := b.now, history := a.history.(tries := b.history.tries))
    && b.now >= a.now
  }

  lemma AskedFrame(c: Client, a: Attempt)
    requires c.history.sessions != []
    ensures FailoverFrame(c, Asked(c, a).client)
    ensures Asked(c, a).ok <==> Asked(c, a).client.cfg.url.text != ""
  {
  }

  lemma {:induction false} ReregisterFrame(c: Client, attempts: seq<Attempt>, backoff: nat)
    requires c.history.sessions != []
    ensures FailoverFrame(c, Reregister(c, attempts, backoff).client)
    ensures var f := Reregister(c, attempts, backoff);
            f.outcome.Registered? ==> f.client.cfg.url.text != ""
    decreases |attempts|
  {
    hide Asked;
    if attempts != [] {
      AskedFrame(c, attempts[0]);
      var asked := Asked(c, attempts[0]);
      if asked.ok && attempts[0].registration.outcome.Retryable? {
        ReregisterFrame(HeldOut(asked.client, if |attempts| > 1 then backoff else 0), attempts[1..], 2 * backoff);
      }
    }
  }

  /** What trying to move or to fail back leaves alone, whether it works or not. */
  lemma TryFrame(c: Client, target: Reelection.Target, registration: Registration, startedTook: nat)
    ensures var t := TryMove(c, target, registration, startedTook).client;
            && t.pinned == c.pinned && t.requested == c.requested && t.now >= c.now
            && t.history.sessions == c.history.sessions
            && t.engine.suppressedUntil == c.engine.suppressedUntil && t.lastFailbackAt == c.lastFailbackAt
            && t.history == c.history.(hooks := t.history.hooks)
            && t.reelection == c.reelection.(pending := None)
            && (!TryMove(c, target, registration, startedTook).ok ==> t.engine == c.engine)
    ensures var t := TryFailback(c, registration, startedTook).client;
            && t.pinned == c.pinned && t.requested == c.requested && t.now >= c.now
            && t.history.sessions == c.history.sessions
            && t.engine.suppressedUntil == c.engine.suppressedUntil && t.primary == c.primary
            && t.history == c.history.(hooks := t.history.hooks, failbacks := t.history.failbacks)
            && t.reelection == c.reelection
            && (!TryFailback(c, registration, startedTook).ok ==> t.engine == c.engine)
  {
  }

  // ----- the loop head -----

  /** At the head of every iteration the endpoint is the same wherever it is recorded, the gateway in
      use has no cooldown of any age, and no signal raised for an earlier session is left. */
  ghost predicate AtHead(c: Client) {
    && c.cfg.url.text != ""
    && c.engine.region == c.cfg.region == c.record.region
    && c.engine.url == c.cfg.url == c.record.url
    && HostKey(c.cfg.url) !in c.until
    && c.engine.warnedAt == 0 && c.engine.migrateAt == 0
    && !c.engine.leaseLost && !c.engine.isFailback
  }

  /** Every gateway the client may move to by itself has a URL, and a pinned client is on its primary. */
  ghost predicate Addressed(c: Client) {
    && c.primary.url.text != ""
    && (c.reelection.pending.Some? ==> c.reelection.pending.value.url.text != "")
    && (c.pinned ==> c.primary.region == c.cfg.region)
  }

  lemma TickKeepsAddressed(s: Session, tick: Tick)
    requires s.client.history.sessions != [] && Addressed(s.client)
    ensures Addressed(OnTick(s, tick).client)
  {
  }

  lemma {:induction false} TicksKeepAddressed(s: Session, ticks: seq<Tick>)
    requires s.client.history.sessions != [] && Addressed(s.client)
    ensures Addressed(RunTicks(s, ticks).client)
    decreases ticks
  {
    if ticks != [] {
      hide OnTick;
      TickFrame(s, ticks[0]);
      TickKeepsAddressed(s, ticks[0]);
      TicksKeepAddressed(OnTick(s, ticks[0]), ticks[1..]);
    }
  }

  lemma AppliedIsAtHead(c: Client, startedTook: nat)
    requires c.cfg.url.text != "" && !c.engine.leaseLost && !c.engine.isFailback
    ensures AtHead(Applied(c, startedTook))
  {
  }

  ghost predicate HeadKept(step: Step) {
    step.Continue? ==> AtHead(step.client) && Addressed(step.client)
  }

  /** Taking the one-shot signals leaves the client where it is. */
  lemma TakenFrame(c: Client, returned: int, input: Input)
    requires c.history.sessions != []
    ensures var t := Taken(c, returned, input);
            && t.pinned == c.pinned && t.cfg == c.cfg && t.primary == c.primary && t.reelection == c.reelection
            && t.record == c.record && t.history.sessions == c.history.sessions && t.now >= c.now
            && !t.engine.leaseLost && t.engine.migrateAt == 0
            && t.engine.isFailback == c.engine.isFailback && t.engine.region == c.engine.region
            && t.engine.url == c.engine.url
            && t.history.failbacks == c.history.failbacks + [Ended(SessionNumber(c), returned, t.now)]
  {
    hide Judged, MigrationTaken, LeaseLostTaken;
    var hooked := Fire(Fire(c, Stopped, input.stoppedTook), Starting, input.startingTook);
    SignalsTakenFrame(hooked);
    JudgedFrame(MigrationTaken(LeaseLostTaken(hooked)), returned);
  }

  lemma SignalsTakenFrame(c: Client)
    requires c.history.sessions != []
    ensures LeaseLostTaken(c).history.sessions != []
    ensures var t := MigrationTaken(LeaseLostTaken(c));
            t == c.(engine := c.engine.(leaseLost := false, migrateAt := 0),
                    history := c.history.(signals := t.history.signals))
  {
  }

  /** Judging a session notes its end; it may suppress failbacks and hold a gateway out, nothing else. */
  lemma JudgedFrame(c: Client, returned: int)
    requires c.history.sessions != []
    ensures var j := Judged(c, returned);
            && j == c.(engine := c.engine.(suppressedUntil := j.engine.suppressedUntil), until := j.until,
                       lastFailbackAt := j.lastFailbackAt, history := j.history)
            && j.history == c.history.(failbacks := c.history.failbacks + [Ended(SessionNumber(c), returned, c.now)])
  {
    hide Excluded, EvictedAfterFailback;
  }

  lemma ReconnectedIsAtHead(c: Client, input: Input)
    requires c.history.sessions != [] && Addressed(c) && c.cfg.url.text != "" && !c.engine.isFailback
    ensures HeadKept(Reconnected(c, input))
  {
  }

  lemma FailedOverIsAtHead(c: Client, keep: bool, planned: bool, input: Input)
    requires !c.pinned && c.history.sessions != [] && Addressed(c) && c.cfg.url.text != ""
    requires !c.engine.isFailback && !c.engine.leaseLost
    ensures HeadKept(FailedOver(c, keep, planned, input))
  {
    hide Reregister, Reconnected;
    if |c.cfg.regions| == 0 {
      ReconnectedIsAtHead(c, input);
    } else {
      var away := if keep then c else FailedRegionExcluded(c, planned, input.discovery);
      ReregisterFrame(away, input.attempts, FAILOVER_RETRY_BACKOFF);
      var f := Reregister(away, input.attempts, FAILOVER_RETRY_BACKOFF);
      if f.outcome.Registered? {
        AppliedIsAtHead(f.client, input.startedTook);
      }
    }
  }

  lemma MovedOrFailedOverIsAtHead(c: Client, keep: bool, planned: bool, input: Input)
    requires !c.pinned && c.history.sessions != [] && Addressed(c) && c.cfg.url.text != ""
    requires !c.engine.isFailback && !c.engine.leaseLost
    ensures HeadKept(MovedOrFailedOver(c, keep, planned, input))
  {
    hide FailedOver;
    if c.reelection.pending.None? {
      FailedOverIsAtHead(c, keep, planned, input);
    } else {
      var m := TryMove(c, c.reelection.pending.value, input.move, input.startedTook);
      if !m.ok {
        FailedOverIsAtHead(m.client, true, planned, input);
      }
    }
  }

  lemma RecoveredIsAtHead(c: Client, returned: int, input: Input)
    requires !c.pinned && c.history.sessions != [] && Addressed(c) && c.cfg.url.text != ""
    ensures HeadKept(Recovered(c, returned, input))
  {
    hide MovedOrFailedOver, Taken;
    var leaseLost, planned := c.engine.leaseLost, c.engine.migrateAt != 0;
    TakenFrame(c, returned, input);
    var judged := Taken(c, returned, input);
    var taken := FailbackTaken(judged);
    if !FailbackReady(judged) {
      MovedOrFailedOverIsAtHead(taken, leaseLost, planned, input);
    } else {
      var f := TryFailback(taken, input.failback, input.startedTook);
      if !f.ok {
        MovedOrFailedOverIsAtHead(f.client, true, planned, input);
      }
    }
  }

  /** Whichever recovery branch an iteration takes, it ends at a proper loop head or leaves the loop. */
  lemma IterationReachesHead(c: Client, input: Input)
    requires AtHead(c) && Addressed(c)
    ensures HeadKept(Iterate(c, input))
  {
    hide Recovered, Reconnected, Served;
    ServedFrame(c, input);
    ServedKeepsHead(c, input);
    var served := Served(c, input);
    var told := if served.pinned then served else Fire(served, Stopping, input.stoppingTook);
    if told.pinned {
      ReconnectedIsAtHead(told, input);
    } else {
      RecoveredIsAtHead(told, served.now - input.late, input);
    }
  }

  lemma ServedKeepsHead(c: Client, input: Input)
    requires AtHead(c) && Addressed(c)
    ensures var end := Served(c, input);
            && Addressed(end) && HostKey(end.cfg.url) !in end.until
            && (end.pinned ==> !end.engine.isFailback)
  {
    TicksKeepAddressed(Session(Opened(c), {}), input.ticks);
    ServedFrame(c, input);
  }
}
