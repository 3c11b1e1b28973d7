/** How soon a failback can follow the loss of a session that a failback established. */
module SessionHoldOff {
  import opened Prelude
  import opened Gateways
  import opened Cooldowns
  import opened SessionLoop
  import opened SessionInvariants
  import opened SessionFailback
  import opened SessionRuns
  import SessionMoves
  import Engine
  import Reelection

  // ----- runs whose workers keep their periods -----

  /** The tickers of the heartbeat and of the prober: each first ticks a period after its session started. */
  datatype Periods = Periods(heartbeat: nat, prober: nat)

  const AT_ONCE := Periods(0, 0)

  /** In a session that started at an instant, no beat and no probe comes before its period is over. */
  ghost predicate TicksWait(s: Session, ticks: seq<Tick>, start: int, p: Periods)
    requires s.client.history.sessions != []
    decreases ticks
  {
    ticks == [] ||
    (InTime(ticks[0], s.client.now, start, p) && TicksWait(OnTick(s, ticks[0]), ticks[1..], start, p))
  }

  predicate InTime(tick: Tick, now: int, start: int, p: Periods) {
    && (tick.Beat? ==> now + tick.wait >= start + p.heartbeat)
    && (tick.Probe? ==> now + tick.wait >= start + p.prober)
  }

  /** In every session of the run the workers keep their periods. */
  ghost predicate Timed(c: Client, inputs: seq<Input>, p: Periods)
    decreases |inputs|
  {
    if inputs == [] then true
    else
      && TicksWait(Session(Opened(c), {}), inputs[0].ticks, c.now, p)
      && match Iterate(c, inputs[0])
         case Exit(_) => true
         case Continue(next) => Timed(next, inputs[1..], p)
  }

  /** No hook runs longer than a bound. */
  ghost predicate HooksWithin(inputs: seq<Input>, bound: nat) {
    forall i :: 0 <= i < |inputs| ==>
      && inputs[i].late + inputs[i].stoppingTook <= bound && inputs[i].stoppedTook <= bound
      && inputs[i].startingTook <= bound && inputs[i].startedTook <= bound
  }

  lemma {:induction false} AnyTicksWait(s: Session, ticks: seq<Tick>, start: int)
    requires s.client.history.sessions != [] && start <= s.client.now
    ensures TicksWait(s, ticks, start, AT_ONCE)
    decreases ticks
  {
    if ticks != [] {
      hide OnTick;
      TickFrame(s, ticks[0]);
      AnyTicksWait(OnTick(s, ticks[0]), ticks[1..], start);
    }
  }

  /** Periods of zero ask nothing of a run. */
  lemma {:induction false} EveryRunIsTimed(c: Client, inputs: seq<Input>)
    ensures Timed(c, inputs, AT_ONCE)
    decreases |inputs|
  {
    if inputs != [] {
      hide Iterate, TicksWait;
      AnyTicksWait(Session(Opened(c), {}), inputs[0].ticks, c.now);
      match Iterate(c, inputs[0])
      case Exit(_) =>
      case Continue(next) => EveryRunIsTimed(next, inputs[1..]);
    }
  }

  /** A failback is asked for no earlier than the first probe. */
  lemma {:induction false} AskedNoEarlier(s: Session, ticks: seq<Tick>, start: int, p: Periods)
    requires s.client.history.sessions != [] && TicksWait(s, ticks, start, p)
    requires s.client.engine.isFailback ==> s.client.now >= start + p.prober
    ensures RunTicks(s, ticks).client.engine.isFailback ==> RunTicks(s, ticks).client.now >= start + p.prober
    decreases ticks
  {
    if ticks != [] {
      hide OnTick;
      TickFrame(s, ticks[0]);
      OnlyProbesAsk(s, ticks[0]);
      AskedNoEarlier(OnTick(s, ticks[0]), ticks[1..], start, p);
    }
  }

  lemma OnlyProbesAsk(s: Session, tick: Tick)
    requires s.client.history.sessions != []
    ensures var end := OnTick(s, tick).client;
            end.engine.isFailback && !s.client.engine.isFailback ==> tick.Probe? && end.now >= s.client.now + tick.wait
  {
    hide Engine.Heartbeat, Reconsidered;
    if tick.Beat? {
      var c := Advance(s.client, tick.wait);
      HeartbeatKeepsRequest(c.engine, c.cfg.url, tick.replies);
    }
    if tick.Watch? {
      var c := Advance(s.client, tick.wait);
      ReconsideringKeepsRequest(Session(NodeSetTaken(c), s.finished), tick);
    }
  }

  lemma HeartbeatKeepsRequest(e: Engine.State, server: Url, replies: seq<Engine.Reply>)
    ensures Engine.Heartbeat(e, server, replies).engine.isFailback == e.isFailback
  {
    Engine.BeatAllIsSound(e, server, StatusReportTargets(server, e.central), replies);
  }

  lemma ReconsideringKeepsRequest(s: Session, tick: Tick)
    requires s.client.history.sessions != [] && tick.Watch?
    ensures Reconsidered(s, tick.roster, tick.fetchTook, tick.table, tick.probeTook).client.engine == s.client.engine
  {
    hide Reelection.Choose, Reaped;
  }

  // ----- attempts keep their distance -----

  /** No failback is attempted within a period of the judgement of a session that a failback established. */
  ghost predicate Spread(fs: seq<FailbackEvent>, period: nat) {
    forall i: nat, j: nat, l: nat :: EstablishedBefore(fs, j, i) && j < l < |fs| && fs[l].Attempted? ==>
                                       fs[l].at >= fs[j].judged + period
  }

  /** A session about to start that a failback established is on the primary. */
  ghost predicate AtHome(c: Client) {
    forall i :: 0 <= i < |c.history.failbacks| && c.history.failbacks[i].Established?
                && c.history.failbacks[i].session == |c.history.sessions| ==>
                  c.cfg.region == c.primary.region
  }

  lemma SpreadGrows(fs: seq<FailbackEvent>, e: FailbackEvent, period: nat)
    requires Spread(fs, period)
    requires e.Attempted? ==> forall i: nat, j: nat :: EstablishedBefore(fs, j, i) ==> e.at >= fs[j].judged + period
    ensures Spread(fs + [e], period)
  {
    var more := fs + [e];
    forall i: nat, j: nat, l: nat | EstablishedBefore(more, j, i) && j < l < |more| && more[l].Attempted?
      ensures more[l].at >= more[j].judged + period
    {
      assert EstablishedBefore(fs, j, i);
    }
  }

  lemma MovedOrFailedOverAttemptsNothing(c: Client, keep: bool, planned: bool, input: Input)
    requires c.history.sessions != []
    ensures var end := MovedOrFailedOver(c, keep, planned, input).client;
            end.history.failbacks == c.history.failbacks && end.history.sessions == c.history.sessions
  {
    hide FailedOver, TryMove;
    if c.reelection.pending.None? {
      FailedOverAttemptsNothing(c, keep, planned, input);
    } else {
      TryFrame(c, c.reelection.pending.value, input.move, input.startedTook);
      var moved := TryMove(c, c.reelection.pending.value, input.move, input.startedTook).client;
      FailedOverAttemptsNothing(moved, true, planned, input);
    }
  }

  lemma FailedOverAttemptsNothing(c: Client, keep: bool, planned: bool, input: Input)
    requires c.history.sessions != []
    ensures var end := FailedOver(c, keep, planned, input).client;
            end.history.failbacks == c.history.failbacks && end.history.sessions == c.history.sessions
  {
    hide Reregister;
    var away := if keep then c else FailedRegionExcluded(c, planned, input.discovery);
    ReregisterFrame(away, input.attempts, FAILOVER_RETRY_BACKOFF);
  }

  /** What a session that ended knows: a failback asked for was asked for a period after every judgement so far,
      and not on the primary. */
  ghost predicate AsksLate(c: Client, period: nat) {
    var fs := c.history.failbacks;
    c.engine.isFailback ==>
      forall i :: 0 <= i < |fs| ==>
        && (fs[i].Ended? ==> c.now >= fs[i].judged + period)
        && (fs[i].Established? ==> fs[i].session != |c.history.sessions| - 1)
  }

  lemma NotingKeepsSpread(c: Client, returned: int, judged: int, period: nat)
    requires c.history.sessions != [] && Spread(c.history.failbacks, period) && AsksLate(c, period) && c.now <= judged
    ensures var noted := c.history.failbacks + [Ended(SessionNumber(c), returned, judged)];
            && Spread(noted, period)
            && (c.engine.isFailback ==> Spread(noted + [Attempted(judged)], period))
  {
    var fs := c.history.failbacks;
    var noted := fs + [Ended(SessionNumber(c), returned, judged)];
    SpreadGrows(fs, Ended(SessionNumber(c), returned, judged), period);
    if c.engine.isFailback {
      forall i: nat, j: nat | EstablishedBefore(noted, j, i) ensures judged >= noted[j].judged + period {
        assert noted[i] == fs[i];
        assert j < |fs|;
      }
      SpreadGrows(noted, Attempted(judged), period);
    }
  }

  lemma RecoverySpreads(c: Client, returned: int, input: Input, period: nat)
    requires c.history.sessions != [] && Spread(c.history.failbacks, period) && AsksLate(c, period)
    requires NoneFrom(c.history.failbacks, |c.history.sessions|)
    ensures var step := Recovered(c, returned, input);
            Spread(step.client.history.failbacks, period) && (step.Continue? ==> AtHome(step.client))
  {
    hide MovedOrFailedOver, Taken, Spread, AsksLate, TryFailback, EstablishedBefore;
    TakenFrame(c, returned, input);
    var judged := Taken(c, returned, input);
    NotingKeepsSpread(c, returned, judged.now, period);
    var taken := FailbackTaken(judged);
    var leaseLost, planned := c.engine.leaseLost, c.engine.migrateAt != 0;
    if !FailbackReady(judged) {
      MovedOrFailedOverAttemptsNothing(taken, leaseLost, planned, input);
    } else {
      var f := TryFailback(taken, input.failback, input.startedTook);
      TryingNotes(taken, input.failback, input.startedTook);
      var attempted := taken.history.failbacks + [Attempted(taken.now)];
      if f.ok {
        SpreadGrows(attempted, Established(|c.history.sessions|, f.client.now), period);
      } else {
        MovedOrFailedOverAttemptsNothing(f.client, true, planned, input);
      }
    }
  }

  lemma TryingNotes(c: Client, registration: Registration, startedTook: nat)
    ensures var t, attempted := TryFailback(c, registration, startedTook), c.history.failbacks + [Attempted(c.now)];
            && t.client.history.sessions == c.history.sessions
            && t.client.history.failbacks ==
               (if t.ok then attempted + [Established(|c.history.sessions|, t.client.now)] else attempted)
            && (t.ok ==> t.client.cfg.region == t.client.primary.region)
  {
  }

  // ----- every run -----

  lemma ServedAsksLate(c: Client, input: Input, p: Periods)
    requires Head(c) && AtHome(c) && TicksWait(Session(Opened(c), {}), input.ticks, c.now, p)
    ensures AsksLate(Served(c, input), p.prober)
  {
    hide RunTicks, TicksWait;
    ServedFrame(c, input);
    AskedNoEarlier(Session(Opened(c), {}), input.ticks, c.now, p);
  }

  lemma IterationSpreads(c: Client, input: Input, p: Periods)
    requires Head(c) && AtHome(c) && Spread(c.history.failbacks, p.prober)
    requires TicksWait(Session(Opened(c), {}), input.ticks, c.now, p)
    ensures var step := Iterate(c, input);
            Spread(step.client.history.failbacks, p.prober) && (step.Continue? ==> AtHome(step.client))
  {
    hide Recovered, Reconnected, Served, Head, TicksWait, Spread;
    ServedFrame(c, input);
    ServedAsksLate(c, input, p);
    HeadKnows(c);
    var served := Served(c, input);
    if c.pinned {
      IterationKeepsAll(c, input);
      PinnedNeverFailBack(c, input);
    } else {
      var told := Fire(served, Stopping, input.stoppingTook);
      RecoverySpreads(told, served.now - input.late, input, p.prober);
    }
  }

  lemma HeadKnows(c: Client)
    requires Head(c)
    ensures NoneFrom(c.history.failbacks, |c.history.sessions| + 1) && (c.pinned ==> c.history.failbacks == [])
  {
  }

  lemma PinnedNeverFailBack(c: Client, input: Input)
    requires Head(c) && c.pinned
    ensures Iterate(c, input).client.history.failbacks == []
  {
    hide Iterate;
    IterationKeepsFailback(c, input);
  }

  lemma {:induction false} RunSpreads(c: Client, inputs: seq<Input>, p: Periods)
    requires Head(c) && AtHome(c) && Spread(c.history.failbacks, p.prober) && Timed(c, inputs, p)
    ensures Spread(Run(c, inputs).client.history.failbacks, p.prober)
    decreases |inputs|
  {
    hide Iterate, Head, AtHome, Spread, TicksWait;
    if inputs != [] {
      IterationSpreads(c, inputs[0], p);
      IterationReachesAHead(c, inputs[0]);
      match Iterate(c, inputs[0])
      case Exit(_) =>
      case Continue(next) => RunSpreads(next, inputs[1..], p);
    }
  }

  lemma IterationReachesAHead(c: Client, input: Input)
    requires Head(c)
    ensures Iterate(c, input).Continue? ==> Head(Iterate(c, input).client)
  {
    hide Iterate, Head;
    IterationKeepsAll(c, input);
  }

  /** In every run whose prober keeps its period, no failback is attempted within that period of the judgement of
      a session that a failback established. */
  lemma AttemptsKeepTheirDistance(pinned: bool, requested: string, cfg: Config, now: int, inputs: seq<Input>,
                                  p: Periods)
    requires cfg.url.text != "" && Timed(Start(pinned, requested, cfg, now), inputs, p)
    ensures Spread(Run(Start(pinned, requested, cfg, now), inputs).client.history.failbacks, p.prober)
  {
    hide Run, Timed, Head;
    StartIsHead(pinned, requested, cfg, now);
    RunSpreads(Start(pinned, requested, cfg, now), inputs, p);
  }

  // ----- an ordinary loss -----

  /** Where a gateway stays held until an instant. */
  ghost predicate HeldUntil(c: Client, host: string, end: int) {
    forall later :: c.now <= later < end ==> Held(c.until, host, later)
  }

  lemma {:induction false} ReregisteringKeepsHolds(c: Client, attempts: seq<Attempt>, backoff: nat, host: string,
      end: int)
    requires c.history.sessions != [] && HeldUntil(c, host, end) && end <= c.now + REGION_FAILOVER_COOLDOWN
    ensures HeldUntil(Reregister(c, attempts, backoff).client, host, end)
    decreases |attempts|
  {
    if attempts != [] {
      hide Asked, HeldUntil, HeldOut;
      AskingKeepsHolds(c, attempts[0], host, end);
      AskedFrame(c, attempts[0]);
      var asked := Asked(c, attempts[0]).client;
      var pause := if |attempts| > 1 then backoff else 0;
      HoldingOutKeepsHolds(asked, pause, host, end);
      if Asked(c, attempts[0]).ok && attempts[0].registration.outcome.Retryable? {
        ReregisteringKeepsHolds(HeldOut(asked, pause), attempts[1..], 2 * backoff, host, end);
      }
    }
  }

  lemma AskingKeepsHolds(c: Client, a: Attempt, host: string, end: int)
    requires c.history.sessions != [] && HeldUntil(c, host, end)
    ensures HeldUntil(Asked(c, a).client, host, end)
  {
    hide Asked, Reaped;
    SessionMoves.AskedTakesItsTime(c, a);
    var at := c.now + a.fetchTook;
    forall later | Asked(c, a).client.now <= later < end ensures Held(Asked(c, a).client.until, host, later) {
      ReapingKeepsHolds(c.until, Advertised(c, a), at, host, later);
    }
  }

  lemma HoldingOutKeepsHolds(c: Client, pause: nat, host: string, end: int)
    requires HeldUntil(c, host, end) && end <= c.now + REGION_FAILOVER_COOLDOWN
    ensures HeldUntil(HeldOut(c, pause), host, end) && HeldOut(c, pause).now >= c.now
    ensures HeldOut(c, pause).history == c.history
  {
  }

  lemma ApplyingKeepsHolds(c: Client, startedTook: nat, host: string, end: int)
    requires HeldUntil(c, host, end) && HostKey(c.cfg.url) != host
    ensures HeldUntil(Applied(c, startedTook), host, end) && Applied(c, startedTook).cfg == c.cfg
  {
    hide HostKey;
    var after := Applied(c, startedTook);
    forall later | after.now <= later < end ensures Held(after.until, host, later) {
      assert Held(c.until, host, later);
    }
  }

  /** When a session ends and nothing says that its gateway is still good (no lease lost, no move or failback tried
      and failed), the failover holds that gateway out for 90 s from the judgement, and the prober asks nothing of
      a gateway held out: unless the failover had to register with that gateway again. So a failback within 45 s of
      an end judged late follows only an end that leaves the gateway a candidate, or such a registration. */
  lemma OrdinaryLossHoldsTheGatewayOut(c: Client, planned: bool, input: Input)
    requires c.history.sessions != [] && |c.cfg.regions| > 0 && HostKey(c.cfg.url) != ""
    ensures var end := FailedOver(c, false, planned, input).client;
            HostKey(end.cfg.url) == HostKey(c.cfg.url)
            || forall later :: end.now <= later < c.now + REGION_FAILOVER_COOLDOWN ==>
                CoolingDown(end.until, c.cfg.url, later)
  {
    hide Reregister;
    var away := FailedRegionExcluded(c, planned, input.discovery);
    var host, end := HostKey(c.cfg.url), c.now + REGION_FAILOVER_COOLDOWN;
    assert HeldUntil(away, host, end);
    ReregisteringKeepsHolds(away, input.attempts, FAILOVER_RETRY_BACKOFF, host, end);
    ReregisterFrame(away, input.attempts, FAILOVER_RETRY_BACKOFF);
    var f := Reregister(away, input.attempts, FAILOVER_RETRY_BACKOFF);
    if f.outcome.Registered? && HostKey(f.client.cfg.url) != host {
      ApplyingKeepsHolds(f.client, input.startedTook, host, end);
    }
  }

  // ----- an announced stop -----

  /** Some attempt after the first `from` went to this host. */
  ghost predicate WentTo(tries: seq<Try>, from: nat, host: string) {
    exists j: nat :: from <= j < |tries| && HostKey(tries[j].url) == host
  }

  lemma {:induction false} UntriedStaysHeld(c: Client, attempts: seq<Attempt>, backoff: nat, host: string, end: int)
    requires c.history.sessions != [] && HeldUntil(c, host, end)
    ensures var f := Reregister(c, attempts, backoff).client;
            && c.history.tries <= f.history.tries
            && (WentTo(f.history.tries, |c.history.tries|, host) || HeldUntil(f, host, end))
    ensures var f := Reregister(c, attempts, backoff);
            f.outcome.Registered? ==> WentTo(f.client.history.tries, |c.history.tries|, HostKey(f.client.cfg.url))
    decreases |attempts|
  {
    if attempts != [] {
      hide Asked, HeldUntil, HeldOut, HostKey;
      AskingKeepsHolds(c, attempts[0], host, end);
      AskedFrame(c, attempts[0]);
      SessionMoves.AskedLogsOneTry(c, attempts[0]);
      var asked := Asked(c, attempts[0]).client;
      if Asked(c, attempts[0]).ok && attempts[0].registration.outcome.Retryable? {
        var next := HeldOut(asked, if |attempts| > 1 then backoff else 0);
        HoldingOutSpares(asked, if |attempts| > 1 then backoff else 0, host, end);
        if HostKey(asked.cfg.url) != host {
          UntriedStaysHeld(next, attempts[1..], 2 * backoff, host, end);
        } else {
          UntriedStaysHeld(next, attempts[1..], 2 * backoff, host, next.now);
        }
      }
    }
  }

  lemma HoldingOutSpares(c: Client, pause: nat, host: string, end: int)
    requires HeldUntil(c, host, end)
    ensures HostKey(c.cfg.url) != host ==> HeldUntil(HeldOut(c, pause), host, end)
    ensures HeldUntil(HeldOut(c, pause), host, HeldOut(c, pause).now)
    ensures HeldOut(c, pause).history == c.history
  {
    hide HostKey;
    var next := HeldOut(c, pause);
    if HostKey(c.cfg.url) != host {
      forall later | next.now <= later < end ensures Held(next.until, host, later) {
        assert Held(c.until, host, later);
      }
    }
  }

  /** A gateway that announced its stop is held out for an hour from the judgement, and one that did not for 90 s, for
      all that the failover asks of the others: unless an attempt goes to it all the same. */
  lemma AStopHoldsForAnHour(c: Client, planned: bool, input: Input)
    requires c.history.sessions != [] && |c.cfg.regions| > 0 && HostKey(c.cfg.url) != ""
    ensures var end := FailedOver(c, false, planned, input).client;
            WentTo(end.history.tries, |c.history.tries|, HostKey(c.cfg.url))
            || forall later :: end.now <= later < c.now + (if planned then 3_600_000 else 90_000) ==>
                CoolingDown(end.until, c.cfg.url, later)
  {
    hide Reregister;
    var away := FailedRegionExcluded(c, planned, input.discovery);
    var host, end := HostKey(c.cfg.url), c.now + if planned then 3_600_000 else 90_000;
    assert HeldUntil(away, host, end);
    UntriedStaysHeld(away, input.attempts, FAILOVER_RETRY_BACKOFF, host, end);
    var f := Reregister(away, input.attempts, FAILOVER_RETRY_BACKOFF);
    if f.outcome.Registered? && !WentTo(f.client.history.tries, |c.history.tries|, host) {
      ApplyingKeepsHolds(f.client, input.startedTook, host, end);
    }
  }
}
