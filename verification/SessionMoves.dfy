/** Where a client moves by itself: topology moves between gateways that work, and failovers. */
module SessionMoves {
  import opened Prelude
  import opened Gateways
  import opened Cooldowns
  import opened Election
  import opened SessionLoop
  import opened SessionInvariants
  import Engine
  import Reelection

  // ----- topology moves -----

  /** At decision time the target is not the gateway in use under another name, and it is in cooldown only if
      every gateway of the roster is: not if the roster lists the gateway in use, as it does whenever the move
      is driven by latency. */
  ghost predicate WellChosen(p: Proposal, sessions: seq<Url>, requested: string) {
    && p.session < |sessions|
    && HostKey(p.target.url) != HostKey(sessions[p.session])
    && (Held(p.until, HostKey(p.target.url), p.decided) ==>
          && AllHeld(p.until, p.roster, p.decided)
          && !Advertises(p.roster, HostKey(sessions[p.session]))
          && requested != "")
  }

  /** Proposals lie at least one throttle interval apart. */
  ghost predicate Spaced(ps: seq<Proposal>) {
    forall i :: 0 <= i < |ps| - 1 ==> ps[i].at + Reelection.MIN_INTERVAL <= ps[i + 1].at
  }

  ghost predicate MovesSound(c: Client) {
    var ps := c.history.proposals;
    && (forall i :: 0 <= i < |ps| ==> WellChosen(ps[i], c.history.sessions, c.requested))
    && Spaced(ps)
    && c.reelection.lastAt == (if ps == [] then None else Some(ps[|ps| - 1].at))
    && (ps != [] ==> ps[|ps| - 1].at <= c.now)
  }

  /** What holds while a session stands. */
  ghost predicate OnOpenGateway(c: Client) {
    && c.history.sessions != []
    && MovesSound(c)
    && HostKey(c.cfg.url) !in c.until
    && c.cfg.url == c.history.sessions[SessionNumber(c)]
  }

  /** Changes that propose nothing and hold nothing more out. */
  ghost predicate Quiet(a: Client, b: Client) {
    && b.history.proposals == a.history.proposals && b.history.sessions == a.history.sessions
    && b.reelection == a.reelection && b.now >= a.now && b.cfg == a.cfg && b.until.Keys <= a.until.Keys
    && b.requested == a.requested
  }

  lemma QuietStaysOpen(a: Client, b: Client)
    requires OnOpenGateway(a) && Quiet(a, b)
    ensures OnOpenGateway(b)
  {
    hide WellChosen, HostKey, Spaced;
  }

  lemma ProposingStaysOpen(c: Client, fetched: Client, roster: Regions, target: Reelection.Target)
    requires OnOpenGateway(c) && !Reelection.Throttled(c.reelection, c.now)
    requires WellChosen(Proposal(SessionNumber(c), fetched.now, c.now, fetched.until, roster, target),
                        c.history.sessions, c.requested)
    ensures OnOpenGateway(Proposing(c, fetched, roster, target))
  {
    hide WellChosen, HostKey;
    var ps := c.history.proposals;
    var p := Proposal(SessionNumber(c), fetched.now, c.now, fetched.until, roster, target);
    assert Proposing(c, fetched, roster, target).history.proposals == ps + [p];
  }

  lemma WatchKeepsMoves(s: Session, roster: Regions, fetchTook: nat, table: Latencies, probeTook: nat)
    requires OnOpenGateway(s.client)
    ensures OnOpenGateway(OnWatch(s, roster, fetchTook, table, probeTook).client)
  {
    hide Reelection.Choose, Proposing, WellChosen, MovesSound;
    var c := s.client;
    var end := OnWatch(s, roster, fetchTook, table, probeTook).client;
    var taken := WithSignals(c.(engine := c.engine.(nodeSetChanged := false)),
        [Consumed(Engine.NodeSetChange, SessionNumber(c))]);
    var fetched := Advance(taken, fetchTook);
    var done := Advance(fetched.(until := Reaped(fetched.until, roster, fetched.now)), probeTook);
    QuietStaysOpen(c, done);
    if end == c || end == taken || end == done {
      QuietStaysOpen(c, end);
    } else {
      var target := Reelection.Choose(fetched.until, fetched.now, fetched.cfg.url, fetched.requested, roster, table);
      ChoiceIsWellChosen(fetched, done, roster, table);
      ProposingStaysOpen(done, fetched, roster, target.value);
    }
  }

  lemma ChoiceIsWellChosen(fetched: Client, done: Client, roster: Regions, table: Latencies)
    requires OnOpenGateway(done) && Quiet(fetched, done) && HostKey(fetched.cfg.url) !in fetched.until
    ensures var target :=
              Reelection.Choose(fetched.until, fetched.now, fetched.cfg.url, fetched.requested, roster, table);
            target.Some? ==>
              WellChosen(Proposal(SessionNumber(done), fetched.now, done.now, fetched.until, roster, target.value),
                         done.history.sessions, done.requested)
  {
    hide Reelection.Choose;
    Reelection.ChoiceIsOpenAndElsewhere(fetched.until, fetched.now, fetched.cfg.url, fetched.requested, roster, table);
  }

  lemma OtherTicksAreQuiet(s: Session, tick: Tick)
    requires s.client.history.sessions != [] && (tick.Watch? ==> Watcher in s.finished)
    ensures Quiet(s.client, OnTick(s, tick).client)
  {
    hide OnWatch, Engine.Heartbeat;
  }

  lemma TickKeepsMoves(s: Session, tick: Tick)
    requires OnOpenGateway(s.client)
    ensures OnOpenGateway(OnTick(s, tick).client)
  {
    hide OnWatch, OnBeat, OnProbe, OnMigrate;
    if tick.Watch? && Watcher !in s.finished {
      var waited := Session(Advance(s.client, tick.wait), s.finished);
      QuietStaysOpen(s.client, waited.client);
      WatchKeepsMoves(waited, tick.roster, tick.fetchTook, tick.table, tick.probeTook);
    } else {
      OtherTicksAreQuiet(s, tick);
      QuietStaysOpen(s.client, OnTick(s, tick).client);
    }
  }

  lemma {:induction false} TicksKeepMoves(s: Session, ticks: seq<Tick>)
    requires OnOpenGateway(s.client)
    ensures OnOpenGateway(RunTicks(s, ticks).client)
    decreases ticks
  {
    hide OnTick, MovesSound;
    if ticks != [] {
      TickKeepsMoves(s, ticks[0]);
      TicksKeepMoves(OnTick(s, ticks[0]), ticks[1..]);
    }
  }

  lemma LaterSessionsKeepMoves(c: Client)
    requires MovesSound(c)
    ensures MovesSound(Opened(c))
  {
    var ps := c.history.proposals;
    forall i | 0 <= i < |ps| ensures WellChosen(ps[i], c.history.sessions + [c.cfg.url], c.requested) {
      hide HostKey, Held, AllHeld, Advertises, Spaced;
      assert WellChosen(ps[i], c.history.sessions, c.requested);
    }
  }

  lemma ServedKeepsMoves(c: Client, input: Input)
    requires AtHead(c) && MovesSound(c)
    ensures MovesSound(Served(c, input))
  {
    hide RunTicks;
    LaterSessionsKeepMoves(c);
    TicksKeepMoves(Session(Opened(c), {}), input.ticks);
  }

  /** Recovery proposes nothing and leaves the throttle alone. */
  ghost predicate ProposesNothing(a: Client, b: Client) {
    && b.history.proposals == a.history.proposals && b.history.sessions == a.history.sessions
    && b.reelection.lastAt == a.reelection.lastAt && b.now >= a.now && b.requested == a.requested
  }

  lemma ReconnectedProposesNothing(c: Client, input: Input)
    requires c.history.sessions != []
    ensures ProposesNothing(c, Reconnected(c, input).client)
  {
  }

  lemma FailedOverProposesNothing(c: Client, keep: bool, planned: bool, input: Input)
    requires c.history.sessions != []
    ensures ProposesNothing(c, FailedOver(c, keep, planned, input).client)
  {
    hide Reregister, Reconnected;
    if |c.cfg.regions| == 0 {
      ReconnectedProposesNothing(c, input);
    } else {
      var away := if keep then c else FailedRegionExcluded(c, planned, input.discovery);
      ReregisterFrame(away, input.attempts, FAILOVER_RETRY_BACKOFF);
    }
  }

  lemma MovedOrFailedOverProposesNothing(c: Client, keep: bool, planned: bool, input: Input)
    requires c.history.sessions != []
    ensures ProposesNothing(c, MovedOrFailedOver(c, keep, planned, input).client)
  {
    hide FailedOver, TryMove;
    if c.reelection.pending.None? {
      FailedOverProposesNothing(c, keep, planned, input);
    } else {
      TryFrame(c, c.reelection.pending.value, input.move, input.startedTook);
      var moved := TryMove(c, c.reelection.pending.value, input.move, input.startedTook).client;
      FailedOverProposesNothing(moved, true, planned, input);
    }
  }

  lemma RecoveredProposesNothing(c: Client, returned: int, input: Input)
    requires c.history.sessions != []
    ensures ProposesNothing(c, Recovered(c, returned, input).client)
  {
    hide MovedOrFailedOver, Taken, TryFailback;
    TakenFrame(c, returned, input);
    TakenProposesNothing(c, returned, input);
    var leaseLost, planned := c.engine.leaseLost, c.engine.migrateAt != 0;
    var taken := FailbackTaken(Taken(c, returned, input));
    TryFrame(taken, Reelection.Target("", c.cfg.url, c.cfg.regions), input.failback, input.startedTook);
    MovedOrFailedOverProposesNothing(taken, leaseLost, planned, input);
    var tried := TryFailback(taken, input.failback, input.startedTook).client;
    MovedOrFailedOverProposesNothing(tried, true, planned, input);
  }

  lemma TakenProposesNothing(c: Client, returned: int, input: Input)
    requires c.history.sessions != []
    ensures ProposesNothing(c, Taken(c, returned, input))
  {
  }

  lemma IterationKeepsMoves(c: Client, input: Input)
    requires AtHead(c) && MovesSound(c)
    ensures MovesSound(Iterate(c, input).client) && Iterate(c, input).client.requested == c.requested
  {
    hide Recovered, Reconnected, Served, MovesSound;
    ServedKeepsMoves(c, input);
    ServedFrame(c, input);
    var served := Served(c, input);
    var told := if served.pinned then served else Fire(served, Stopping, input.stoppingTook);
    SoundnessLasts(served, told);
    if told.pinned {
      ReconnectedProposesNothing(told, input);
      SoundnessLasts(told, Reconnected(told, input).client);
    } else {
      RecoveredProposesNothing(told, served.now - input.late, input);
      SoundnessLasts(told, Recovered(told, served.now - input.late, input).client);
    }
  }

  lemma SoundnessLasts(a: Client, b: Client)
    requires MovesSound(a) && ProposesNothing(a, b)
    ensures MovesSound(b)
  {
    hide WellChosen;
  }

  /** However long a client runs, a span of w milliseconds holds at most floor(w / interval) + 1 proposals. */
  lemma {:induction false} SpanHoldsFewProposals(ps: seq<Proposal>, i: nat, j: nat, w: int)
    requires Spaced(ps) && i <= j < |ps| && ps[j].at - ps[i].at <= w
    ensures ps[i].at + (j - i) * Reelection.MIN_INTERVAL <= ps[j].at
    ensures j - i + 1 <= w / Reelection.MIN_INTERVAL + 1
    decreases j
  {
    if i < j {
      assert ps[j - 1].at + Reelection.MIN_INTERVAL <= ps[j].at;
      SpanHoldsFewProposals(ps, i, j - 1, w);
    }
  }

  // ----- failovers -----

  const FETCH_TIMEOUT := 2_000
  const PROBE_TIMEOUT := 1_500
  const REGISTER_TIMEOUT := 20_000

  /** The requests of an attempt end within their own timeouts. */
  ghost predicate Timely(attempts: seq<Attempt>) {
    forall a :: a in attempts ==>
      && a.fetchTook <= FETCH_TIMEOUT && a.probeTook <= PROBE_TIMEOUT && a.registration.took <= REGISTER_TIMEOUT
  }

  /** The longest time from the start of k attempts to the last filtering of a roster. */
  function Horizon(k: nat, backoff: nat): nat {
    if k == 0 then 0
    else if k == 1 then FETCH_TIMEOUT
    else FETCH_TIMEOUT + PROBE_TIMEOUT + REGISTER_TIMEOUT + backoff + Horizon(k - 1, 2 * backoff)
  }

  /** 3 x 23.5 s of requests, 7 s of backoff and a last fetch: shorter than the failover cooldown. */
  lemma FailoverFitsItsCooldown()
    ensures Horizon(MAX_FAILOVER_ATTEMPTS, FAILOVER_RETRY_BACKOFF) == 79_500 < REGION_FAILOVER_COOLDOWN
  {
    assert Horizon(1, 8_000) == 2_000;
    assert Horizon(2, 4_000) == 29_500;
    assert Horizon(3, 2_000) == 55_000;
  }

  /** Every host of `avoid` is held for as long as the remaining attempts can last. */
  ghost predicate HeldThroughout(c: Client, avoid: set<string>, span: nat) {
    forall h :: h in avoid ==> h in c.until && c.now + span < c.until[h]
  }

  /** An election that succeeded with some advertised gateway open did not choose a host of `avoid`. */
  ghost predicate Avoids(t: Try, avoid: set<string>) {
    t.elected && !AllHeld(t.until, t.advertised, t.at) ==> HostKey(t.url) !in avoid
  }

  ghost predicate AvoidsFailed(tries: seq<Try>, from: nat) {
    forall i, j :: from <= i < j < |tries| && tries[i].failed ==> Avoids(tries[j], {HostKey(tries[i].url)})
  }

  lemma ElectionAvoidsHeld(c: Client, a: Attempt, avoid: set<string>)
    requires c.history.sessions != [] && HeldThroughout(c, avoid, a.fetchTook)
    ensures var t := Asked(c, a);
            t.ok ==>
              && |t.client.history.tries| == |c.history.tries| + 1
              && Avoids(t.client.history.tries[|c.history.tries|], avoid)
  {
    hide Reaped, HostKey, Advertised, Available, Elected;
    AvailableIsOpen(c.until, Advertised(c, a), c.now + a.fetchTook);
    ElectedIsOffered(RosterResolved(c, a), a);
  }

  /** An election that succeeds chooses a gateway of the resolved roster, under one of its names. */
  lemma ElectedIsOffered(c: Client, a: Attempt)
    ensures var e := Elected(c, a);
            && e.client.history == c.history
            && (e.ok ==>
                  && e.client.cfg.region in c.cfg.regions
                  && e.client.cfg.url == c.cfg.regions[e.client.cfg.region])
  {
  }

  lemma AskedTakesItsTime(c: Client, a: Attempt)
    requires c.history.sessions != []
    ensures var t := Asked(c, a).client;
            && t.until == Reaped(c.until, Advertised(c, a), c.now + a.fetchTook)
            && c.now + a.fetchTook <= t.now <= c.now + a.fetchTook + a.probeTook + a.registration.took
  {
    hide Measure, Fastest, Available, Reaped;
  }

  lemma AskedKeepsHolds(c: Client, a: Attempt, avoid: set<string>, span: nat)
    requires c.history.sessions != [] && Timely([a])
    requires HeldThroughout(c, avoid, FETCH_TIMEOUT + PROBE_TIMEOUT + REGISTER_TIMEOUT + span)
    ensures HeldThroughout(Asked(c, a).client, avoid, span)
  {
    hide Asked;
    assert a in [a];
    AskedTakesItsTime(c, a);
  }

  lemma HeldOutIsHeld(c: Client, avoid: set<string>, pause: nat, span: nat)
    requires c.cfg.url.text != "" && HeldThroughout(c, avoid, pause + span) && pause + span < REGION_FAILOVER_COOLDOWN
    ensures HeldThroughout(HeldOut(c, pause), avoid + {HostKey(c.cfg.url)}, span)
  {
  }

  /** The tries added to `was` avoid the hosts of `avoid`, and each avoids those that failed before it. */
  ghost predicate AddedAvoiding(was: seq<Try>, tries: seq<Try>, avoid: set<string>) {
    && was <= tries
    && AvoidsFailed(tries, |was|)
    && forall j :: |was| <= j < |tries| ==> Avoids(tries[j], avoid)
  }

  lemma AddingOne(was: seq<Try>, t: Try, avoid: set<string>)
    requires Avoids(t, avoid)
    ensures AddedAvoiding(was, was + [t], avoid)
  {
  }

  lemma AddingMore(was: seq<Try>, t: Try, tries: seq<Try>, avoid: set<string>)
    requires Avoids(t, avoid) && AddedAvoiding(was + [t], tries, avoid + {HostKey(t.url)})
    ensures AddedAvoiding(was, tries, avoid)
  {
    assert (was + [t])[|was|] == t && tries[|was|] == t;
    forall j | |was| < j < |tries| ensures Avoids(tries[j], avoid) && Avoids(tries[j], {HostKey(t.url)}) {
      assert Avoids(tries[j], avoid + {HostKey(t.url)});
    }
  }

  lemma {:induction false} ReregisterAvoids(c: Client, attempts: seq<Attempt>, backoff: nat, avoid: set<string>)
    requires c.history.sessions != [] && Timely(attempts)
    requires HeldThroughout(c, avoid, Horizon(|attempts|, backoff))
    requires Horizon(|attempts|, backoff) < REGION_FAILOVER_COOLDOWN
    ensures AddedAvoiding(c.history.tries, Reregister(c, attempts, backoff).client.history.tries, avoid)
    decreases |attempts|
  {
    if attempts != [] {
      hide Asked, Avoids, HeldThroughout, HeldOut, AddedAvoiding, Excluded, Timely, Horizon;
      var a, rest, was := attempts[0], attempts[1..], c.history.tries;
      HorizonCovers(c, avoid, |attempts|, backoff, a, attempts);
      AttemptAvoids(c, a, avoid);
      var asked := Asked(c, a);
      if !asked.ok {
        NothingAdded(was, avoid);
      } else if !a.registration.outcome.Retryable? {
        AddingOne(was, asked.client.history.tries[|was|], avoid);
      } else {
        var t := asked.client.history.tries[|was|];
        AddingOne(was, t, avoid);
        var pause := if |attempts| > 1 then backoff else 0;
        var held := HeldOut(asked.client, pause);
        HeldOutKeepsTries(asked.client, pause);
        if |attempts| > 1 {
          AskedKeepsHolds(c, a, avoid, pause + Horizon(|rest|, 2 * backoff));
          HeldOutIsHeld(asked.client, avoid, pause, Horizon(|rest|, 2 * backoff));
          ReregisterAvoids(held, rest, 2 * backoff, avoid + {HostKey(t.url)});
          AddingMore(was, t, Reregister(held, rest, 2 * backoff).client.history.tries, avoid);
        } else {
          assert rest == [];
        }
      }
    }
  }

  lemma AttemptAvoids(c: Client, a: Attempt, avoid: set<string>)
    requires c.history.sessions != [] && HeldThroughout(c, avoid, a.fetchTook)
    ensures var asked, was := Asked(c, a), c.history.tries;
            && asked.client.history.sessions == c.history.sessions
            && (!asked.ok ==> asked.client.history.tries == was)
            && (asked.ok ==>
                  && asked.client.cfg.url.text != ""
                  && |asked.client.history.tries| == |was| + 1
                  && var t := asked.client.history.tries[|was|];
                     asked.client.history.tries == was + [t] && Avoids(t, avoid) && t.url == asked.client.cfg.url)
  {
    hide Asked, Avoids, HeldThroughout;
    ElectionAvoidsHeld(c, a, avoid);
    AskedLogsOneTry(c, a);
    AskedFrame(c, a);
  }

  lemma HeldOutKeepsTries(c: Client, pause: nat)
    ensures HeldOut(c, pause).history == c.history
  {
  }

  lemma NothingAdded(was: seq<Try>, avoid: set<string>)
    ensures AddedAvoiding(was, was, avoid)
  {
  }

  lemma HorizonCovers(c: Client, avoid: set<string>, k: nat, backoff: nat, a: Attempt, attempts: seq<Attempt>)
    requires |attempts| == k && k > 0 && a == attempts[0] && Timely(attempts)
    requires HeldThroughout(c, avoid, Horizon(k, backoff))
    ensures Timely([a]) && Timely(attempts[1..])
    ensures HeldThroughout(c, avoid, a.fetchTook)
    ensures k > 1 ==>
              HeldThroughout(c, avoid, FETCH_TIMEOUT + PROBE_TIMEOUT + REGISTER_TIMEOUT
                                       + (backoff + Horizon(k - 1, 2 * backoff)))
  {
    assert a in attempts;
  }

  lemma AskedLogsOneTry(c: Client, a: Attempt)
    requires c.history.sessions != []
    ensures var t, was := Asked(c, a), c.history.tries;
            && was <= t.client.history.tries
            && (!t.ok ==> t.client.history.tries == was)
            && (t.ok ==> |t.client.history.tries| == |was| + 1 && t.client.history.tries[|was|].url == t.client.cfg.url)
  {
  }

  /** Within one failover, an attempt whose election succeeded never goes to a gateway that already failed in it,
      nor to the one the failover itself excluded (it excludes none when it keeps its region), unless every
      advertised gateway is cooling; however often the roster is fetched again. */
  lemma FailoverAvoidsFailedGateways(c: Client, keep: bool, planned: bool, input: Input)
    requires c.history.sessions != [] && |c.cfg.regions| > 0 && Timely(input.attempts)
    ensures AddedAvoiding(c.history.tries, FailedOver(c, keep, planned, input).client.history.tries,
                          if keep || c.cfg.url.text == "" then {} else {HostKey(c.cfg.url)})
  {
    hide Reregister, Avoids, AddedAvoiding;
    FailoverFitsItsCooldown();
    var away := if keep then c else FailedRegionExcluded(c, planned, input.discovery);
    var avoid := if keep || c.cfg.url.text == "" then {} else {HostKey(c.cfg.url)};
    ReregisterAvoids(away, input.attempts, FAILOVER_RETRY_BACKOFF, avoid);
  }
}
