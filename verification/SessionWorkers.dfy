/** Why a worker ends its session, and where a failback comes from. */
module SessionWorkers {
  import opened Prelude
  import opened Gateways
  import opened Cooldowns
  import opened Election
  import opened SessionLoop
  import opened SessionInvariants
  import opened SessionFailback
  import opened SessionHoldOff
  import opened SessionRuns
  import Engine
  import Reelection

  // ----- one tick -----

  /** What the serving gateway answers a report of a region that is gone, or of a tunnel it holds no lease for. */
  predicate Dismisses(reply: Engine.Reply) {
    reply.Gone? || (reply.Body? && reply.ok && reply.noLease)
  }

  /** A prober past its guards finds the primary usable: there is one, it is not where the client is, no suppression
      is in force and no cooldown holds it out. */
  predicate FindsPrimary(c: Client, usable: bool, at: int) {
    && usable
    && c.primary.url.text != "" && c.primary.region != "" && !EqualFold(c.engine.region, c.primary.region)
    && at >= c.engine.suppressedUntil
    && (HostKey(c.primary.url) in c.until ==> at >= c.until[HostKey(c.primary.url)])
  }

  /** A watcher that may move sees another roster, ten minutes after the last move was proposed, and finds a target. */
  ghost predicate FindsTarget(c: Client, roster: Regions, fetchTook: nat, table: Latencies, at: int) {
    && !c.pinned && c.cfg.regions != map[] && c.engine.nodeSetChanged
    && (c.reelection.lastAt.Some? ==> at >= c.reelection.lastAt.value + 600_000)
    && Reelection.Choose(c.until, at + fetchTook, c.cfg.url, c.requested, roster, table).Some?
  }

  /** What a worker ends its session for. */
  ghost predicate Reason(c: Client, tick: Tick) {
    var at := c.now + tick.wait;
    match tick
    case Beat(_, replies) => replies != [] && Dismisses(replies[0])
    case Probe(_, usable, _) => FindsPrimary(c, usable, at)
    case Migrate(_, _) => !c.pinned && c.engine.migrateAt != 0
    case Watch(_, roster, fetchTook, table, _) => FindsTarget(c, roster, fetchTook, table, at)
  }

  /** The worker whose tick this is. */
  predicate TickOf(tick: Tick, w: Worker) {
    match w
    case Heart => tick.Beat?
    case Prober => tick.Probe?
    case Migrator => tick.Migrate?
    case Watcher => tick.Watch?
  }

  /** A worker ends its session at a tick of its own, for its reason, once. */
  ghost predicate Ends(s: Session, tick: Tick, w: Worker) {
    w !in s.finished && TickOf(tick, w) && Reason(s.client, tick)
  }

  lemma TickEndsExactly(s: Session, tick: Tick, w: Worker)
    requires s.client.history.sessions != [] && s.client.cfg.url.text != ""
    ensures w in OnTick(s, tick).finished <==> w in s.finished || Ends(s, tick, w)
    ensures OnTick(s, tick).client.engine.isFailback <==> s.client.engine.isFailback || Ends(s, tick, Prober)
  {
    match tick
    case Beat(_, _) => BeatTicksEnd(s, tick, w);
    case Watch(_, _, _, _, _) => WatchTicksEnd(s, tick, w);
    case Probe(_, _, _) => hide OnBeat, OnWatch, HostKey, Lower;
    case Migrate(_, _) => hide OnBeat, OnWatch;
  }

  lemma BeatTicksEnd(s: Session, tick: Tick, w: Worker)
    requires s.client.history.sessions != [] && s.client.cfg.url.text != "" && tick.Beat?
    ensures w in OnTick(s, tick).finished <==> w in s.finished || Ends(s, tick, w)
    ensures OnTick(s, tick).client.engine.isFailback <==> s.client.engine.isFailback
  {
    hide Engine.Heartbeat, OnWatch, OnProbe, OnMigrate;
    var c := Advance(s.client, tick.wait);
    BeatEndsExactly(c.engine, c.cfg.url, tick.replies);
  }

  lemma WatchTicksEnd(s: Session, tick: Tick, w: Worker)
    requires s.client.history.sessions != [] && tick.Watch?
    ensures w in OnTick(s, tick).finished <==> w in s.finished || Ends(s, tick, w)
    ensures OnTick(s, tick).client.engine.isFailback <==> s.client.engine.isFailback
  {
    hide Reelection.Choose, OnBeat, OnProbe, OnMigrate, HostKey, Reaped;
    assert |s.client.cfg.regions| == 0 <==> s.client.cfg.regions == map[];
  }

  lemma BeatEndsExactly(e: Engine.State, server: Url, replies: seq<Engine.Reply>)
    requires server.text != ""
    ensures var b := Engine.Heartbeat(e, server, replies);
            b.ended == (replies != [] && Dismisses(replies[0])) && b.engine.isFailback == e.isFailback
  {
    Engine.CentralsReplyIsIgnored(e, server, replies);
  }

  /** Beside that, a prober takes the time of the question it asks, and a migrator that of the requests it lets finish;
      neither touches anything else, so the move that ends a session is still pending when the session is judged. */
  lemma ProbersAndMigratorsOnlyTakeTime(s: Session, tick: Tick)
    requires s.client.history.sessions != [] && (tick.Probe? || tick.Migrate?)
    ensures var c, end := s.client, OnTick(s, tick).client;
            && end == c.(now := end.now, engine := c.engine.(isFailback := end.engine.isFailback))
            && end.now == c.now + tick.wait
                          + (if tick.Migrate? && Ends(s, tick, Migrator) then tick.drain
                             else if tick.Probe? && Ends(s, Probe(tick.wait, true, tick.took), Prober) then tick.took
                             else 0)
  {
    hide HostKey, Lower, OnBeat, OnWatch, Reelection.Choose;
  }

  /** A watcher that finds a target leaves it pending, decided when its probes were answered; one that was not
      throttled takes the time of the roster and of the probes either way, and one that saw a change has consumed it. */
  lemma WhatAWatcherLeaves(s: Session, tick: Tick)
    requires s.client.history.sessions != [] && tick.Watch? && Watcher !in s.finished
    ensures var c, end, at := s.client, OnTick(s, tick).client, s.client.now + tick.wait;
            var sees := !c.pinned && c.cfg.regions != map[] && c.engine.nodeSetChanged;
            var looks := sees && (c.reelection.lastAt.Some? ==> at >= c.reelection.lastAt.value + 600_000);
            && end.now == at + (if looks then tick.fetchTook + tick.probeTook else 0)
            && end.engine == (if sees then c.engine.(nodeSetChanged := false) else c.engine)
            && end.reelection ==
               (if Ends(s, tick, Watcher)
                then Reelection.State(Reelection.Choose(c.until, at + tick.fetchTook, c.cfg.url, c.requested,
                                                        tick.roster, tick.table), Some(end.now))
                else c.reelection)
            && end.history.signals == c.history.signals
                 + (if sees then [Consumed(Engine.NodeSetChange, SessionNumber(c))] else [])
            && end.until == (if looks then Reaped(c.until, tick.roster, at + tick.fetchTook) else c.until)
  {
    hide Reelection.Choose, Reaped, HostKey;
    assert |s.client.cfg.regions| == 0 <==> s.client.cfg.regions == map[];
    assert s.client.history.signals + [] == s.client.history.signals;
  }

  // ----- all ticks of a session -----

  /** A worker ends the session at its i-th tick. */
  ghost predicate EndsAt(s: Session, ticks: seq<Tick>, i: nat, w: Worker)
    requires s.client.history.sessions != [] && i < |ticks|
  {
    Ends(RunTicks(s, ticks[..i]), ticks[i], w)
  }

  ghost predicate EndsSometime(s: Session, ticks: seq<Tick>, w: Worker)
    requires s.client.history.sessions != []
  {
    exists i: nat :: i < |ticks| && EndsAt(s, ticks, i, w)
  }

  lemma EndsNowOrLater(s: Session, ticks: seq<Tick>, w: Worker)
    requires s.client.history.sessions != [] && ticks != []
    ensures EndsSometime(s, ticks, w) <==>
            Ends(s, ticks[0], w) || EndsSometime(OnTick(s, ticks[0]), ticks[1..], w)
  {
    hide OnTick, Ends;
    TickFrame(s, ticks[0]);
    var next, rest := OnTick(s, ticks[0]), ticks[1..];
    assert ticks[..0] == [];
    assert EndsAt(s, ticks, 0, w) == Ends(s, ticks[0], w);
    forall i: nat | i < |rest| ensures EndsAt(next, rest, i, w) == EndsAt(s, ticks, i + 1, w) {
      assert ticks[..i + 1][1..] == rest[..i];
    }
    if i: nat :| i < |ticks| && EndsAt(s, ticks, i, w) {
      assert i == 0 || EndsAt(next, rest, i - 1, w);
    }
    if i: nat :| i < |rest| && EndsAt(next, rest, i, w) {
      assert EndsAt(s, ticks, i + 1, w);
    }
  }

  /** A worker ended the session exactly when some tick of it did so for its reason, and a failback is asked for
      exactly when the prober did: with no usable probe, neither changes. */
  lemma {:induction false} WorkersEndExactly(s: Session, ticks: seq<Tick>, w: Worker)
    requires s.client.history.sessions != [] && s.client.cfg.url.text != ""
    ensures w in RunTicks(s, ticks).finished <==> w in s.finished || EndsSometime(s, ticks, w)
    ensures RunTicks(s, ticks).client.engine.isFailback <==>
            s.client.engine.isFailback || EndsSometime(s, ticks, Prober)
    decreases ticks
  {
    if ticks != [] {
      hide OnTick, Ends, EndsSometime;
      TickFrame(s, ticks[0]);
      TickEndsExactly(s, ticks[0], w);
      EndsNowOrLater(s, ticks, w);
      EndsNowOrLater(s, ticks, Prober);
      WorkersEndExactly(OnTick(s, ticks[0]), ticks[1..], w);
    }
  }

  // ----- what becomes of it -----

  /** A session about to start. */
  function Fresh(c: Client): Session {
    Session(Opened(c), {})
  }

  lemma AskedByTheProber(c: Client, input: Input)
    requires AtHead(c)
    ensures Served(c, input).engine.isFailback <==> EndsSometime(Fresh(c), input.ticks, Prober)
  {
    hide RunTicks, EndsSometime;
    WorkersEndExactly(Fresh(c), input.ticks, Prober);
  }

  /** When the session of an iteration is judged. */
  ghost function JudgedAt(c: Client, input: Input): int {
    Served(c, input).now + input.stoppingTook + input.stoppedTook + input.startingTook
  }

  /** Whether an iteration tries to fail back: its prober ended the session, and the primary is not held out when
      the session is judged. */
  ghost predicate FailsBack(c: Client, input: Input) {
    var served := Served(c, input);
    EndsSometime(Fresh(c), input.ticks, Prober) && !Held(served.until, HostKey(served.primary.url), JudgedAt(c, input))
  }

  /** What an iteration adds to the history of failbacks: the end of its session if it recovers from that, then the
      failback if it tries one, then the session that this establishes. */
  ghost function FailbacksAdded(c: Client, input: Input): seq<FailbackEvent> {
    var n, at := |c.history.sessions|, JudgedAt(c, input);
    if c.pinned || input.stoppedInSession || input.stopped then []
    else
      [Ended(n, Served(c, input).now - input.late, at)]
      + (if !FailsBack(c, input) then []
         else if !input.failback.outcome.Registered? then [Attempted(at)]
         else [Attempted(at), Established(n + 1, at + input.failback.took + input.startedTook)])
  }

  /** An iteration fails back exactly when its prober ended the session and nothing holds the primary out by then. */
  lemma FailbacksAreExact(c: Client, input: Input)
    requires Head(c)
    ensures Iterate(c, input).client.history.failbacks == c.history.failbacks + FailbacksAdded(c, input)
  {
    hide Served, Recovered, Reconnected, EndsSometime, FailbackHead;
    ServedFrame(c, input);
    AskedByTheProber(c, input);
    ServedIsUnjudged(c, input);
    var served := Served(c, input);
    var told := Fire(served, Stopping, input.stoppingTook);
    if c.pinned {
      ReconnectedFrame(served, input);
    } else {
      LaterIsUnjudged(served, told);
      RecoveredFailsBack(told, served.now - input.late, input);
    }
  }

  lemma RecoveredFailsBack(c: Client, returned: int, input: Input)
    requires c.history.sessions != [] && Unjudged(c) && c.primary.url.text != ""
    ensures var at := c.now + input.stoppedTook + input.startingTook;
            var n := |c.history.sessions|;
            Recovered(c, returned, input).client.history.failbacks ==
            c.history.failbacks + [Ended(n - 1, returned, at)]
            + if !c.engine.isFailback || Held(c.until, HostKey(c.primary.url), at) then []
              else if !input.failback.outcome.Registered? then [Attempted(at)]
              else [Attempted(at), Established(n, at + input.failback.took + input.startedTook)]
  {
    hide MovedOrFailedOver, Taken, TryFailback, Unjudged;
    TakenFrame(c, returned, input);
    RequestsAreNotJudged(c, returned, input);
    var judged := Taken(c, returned, input);
    var taken := FailbackTaken(judged);
    var leaseLost, planned := c.engine.leaseLost, c.engine.migrateAt != 0;
    if !FailbackReady(judged) {
      MovedOrFailedOverAttemptsNothing(taken, leaseLost, planned, input);
    } else {
      TriedIsNoted(taken, input.failback, input.startedTook);
      var f := TryFailback(taken, input.failback, input.startedTook);
      if !f.ok {
        MovedOrFailedOverAttemptsNothing(f.client, true, planned, input);
      }
    }
  }

  /** A session that asks for a failback was not on the primary, so it is no eviction, and judging it holds nothing
      out. */
  lemma RequestsAreNotJudged(c: Client, returned: int, input: Input)
    requires Unjudged(c)
    ensures var t := Taken(c, returned, input);
            && t.now == c.now + input.stoppedTook + input.startingTook
            && (c.engine.isFailback ==> t.until == c.until)
  {
    hide Sound, Remembered, Judged, MigrationTaken, LeaseLostTaken, HostKey;
    var hooked := Fire(Fire(c, Stopped, input.stoppedTook), Starting, input.startingTook);
    SignalsTakenFrame(hooked);
    var taken := MigrationTaken(LeaseLostTaken(hooked));
    LaterIsUnjudged(c, taken);
    JudgingHoldsThePrimaryOnly(taken, returned);
  }

  lemma JudgingHoldsThePrimaryOnly(c: Client, returned: int)
    requires Unjudged(c)
    ensures Judged(c, returned).now == c.now
    ensures c.cfg.region != c.primary.region ==> Judged(c, returned).until == c.until
  {
    hide Sound, Remembered;
    EvictionIsThePrimarys(c, returned);
  }

  lemma TriedIsNoted(c: Client, registration: Registration, startedTook: nat)
    ensures var t := TryFailback(c, registration, startedTook);
            && t.ok == registration.outcome.Registered?
            && t.client.history.sessions == c.history.sessions
            && t.client.history.failbacks == c.history.failbacks +
               if t.ok then [Attempted(c.now),
                             Established(|c.history.sessions|, c.now + registration.took + startedTook)]
               else [Attempted(c.now)]
  {
  }

  // ----- in every run -----

  predicate FoundUsable(ticks: seq<Tick>) {
    exists i :: 0 <= i < |ticks| && ticks[i].Probe? && ticks[i].usable
  }

  /** The l-th event is no attempt, or follows the end of a session in which a probe found the primary usable; the
      first of the inputs served the session numbered `first`. */
  ghost predicate ComesFromAProbe(fs: seq<FailbackEvent>, l: nat, inputs: seq<Input>, first: nat)
    requires l < |fs|
  {
    fs[l].Attempted? ==>
      && l > 0 && fs[l - 1].Ended? && first <= fs[l - 1].session < first + |inputs|
      && FoundUsable(inputs[fs[l - 1].session - first].ticks)
  }

  ghost predicate AllComeFromProbes(fs: seq<FailbackEvent>, from: nat, inputs: seq<Input>, first: nat) {
    forall l: nat :: from <= l < |fs| ==> ComesFromAProbe(fs, l, inputs, first)
  }

  lemma AskingTakesAProbe(s: Session, ticks: seq<Tick>)
    requires s.client.history.sessions != []
    ensures EndsSometime(s, ticks, Prober) ==> FoundUsable(ticks)
  {
    if EndsSometime(s, ticks, Prober) {
      var i: nat :| i < |ticks| && EndsAt(s, ticks, i, Prober);
      assert ticks[i].Probe? && ticks[i].usable;
    }
  }

  lemma {:induction false} RunsFailBackAfterProbes(c: Client, inputs: seq<Input>)
    requires Head(c)
    ensures var fs := Run(c, inputs).client.history.failbacks;
            c.history.failbacks <= fs && AllComeFromProbes(fs, |c.history.failbacks|, inputs, |c.history.sessions|)
    decreases |inputs|
  {
    NothingComesFromProbes(c.history.failbacks, inputs, |c.history.sessions|);
    if inputs != [] {
      hide Iterate, Head, ComesFromAProbe, AllComeFromProbes;
      IterationComesFromAProbe(c, inputs);
      IterationReachesAHead(c, inputs[0]);
      IterationOpensOneSession(c, inputs[0]);
      match Iterate(c, inputs[0])
      case Exit(_) =>
      case Continue(next) =>
        RunsFailBackAfterProbes(next, inputs[1..]);
        ProbesAddUp(Run(c, inputs).client.history.failbacks, c, next, inputs);
    }
  }

  lemma NothingComesFromProbes(fs: seq<FailbackEvent>, inputs: seq<Input>, first: nat)
    ensures AllComeFromProbes(fs, |fs|, inputs, first)
  {
  }

  lemma IterationComesFromAProbe(c: Client, inputs: seq<Input>)
    requires Head(c) && inputs != []
    ensures var fs := Iterate(c, inputs[0]).client.history.failbacks;
            c.history.failbacks <= fs && AllComeFromProbes(fs, |c.history.failbacks|, inputs, |c.history.sessions|)
  {
    hide Iterate, Head, EndsSometime, FoundUsable, Held, HostKey, JudgedAt, Served;
    FailbacksAreExact(c, inputs[0]);
    AskingTakesAProbe(Fresh(c), inputs[0].ticks);
  }

  lemma ProbesAddUp(fs: seq<FailbackEvent>, c: Client, next: Client, inputs: seq<Input>)
    requires inputs != [] && |next.history.sessions| == |c.history.sessions| + 1
    requires c.history.failbacks <= next.history.failbacks <= fs
    requires AllComeFromProbes(next.history.failbacks, |c.history.failbacks|, inputs, |c.history.sessions|)
    requires AllComeFromProbes(fs, |next.history.failbacks|, inputs[1..], |next.history.sessions|)
    ensures AllComeFromProbes(fs, |c.history.failbacks|, inputs, |c.history.sessions|)
  {
    hide FoundUsable;
    forall l: nat | |c.history.failbacks| <= l < |fs| ensures ComesFromAProbe(fs, l, inputs, |c.history.sessions|) {
      if l < |next.history.failbacks| {
        assert ComesFromAProbe(next.history.failbacks, l, inputs, |c.history.sessions|);
      } else {
        assert ComesFromAProbe(fs, l, inputs[1..], |next.history.sessions|);
      }
    }
  }

  lemma IterationOpensOneSession(c: Client, input: Input)
    requires Head(c)
    ensures |Iterate(c, input).client.history.sessions| == |c.history.sessions| + 1
  {
    hide Served, Recovered, Reconnected, Head;
    ServedFrame(c, input);
    var served := Served(c, input);
    if served.pinned {
      ReconnectedFrame(served, input);
    } else {
      RecoveringOpensNoSession(Fire(served, Stopping, input.stoppingTook), served.now - input.late, input);
    }
  }

  lemma RecoveringOpensNoSession(c: Client, returned: int, input: Input)
    requires c.history.sessions != []
    ensures Recovered(c, returned, input).client.history.sessions == c.history.sessions
  {
    hide MovedOrFailedOver, Taken, TryFailback;
    TakenFrame(c, returned, input);
    var taken := FailbackTaken(Taken(c, returned, input));
    var leaseLost, planned := c.engine.leaseLost, c.engine.migrateAt != 0;
    TriedIsNoted(taken, input.failback, input.startedTook);
    MovedOrFailedOverAttemptsNothing(taken, leaseLost, planned, input);
    var tried := TryFailback(taken, input.failback, input.startedTook).client;
    MovedOrFailedOverAttemptsNothing(tried, true, planned, input);
  }

  /** In every run each failback attempted follows the end of a session in which the prober found the primary
      usable. */
  lemma EveryFailbackWasAskedFor(pinned: bool, requested: string, cfg: Config, now: int, inputs: seq<Input>)
    requires cfg.url.text != ""
    ensures var fs := Run(Start(pinned, requested, cfg, now), inputs).client.history.failbacks;
            forall l: nat :: l < |fs| && fs[l].Attempted? ==>
              && l > 0 && fs[l - 1].Ended? && fs[l - 1].session < |inputs|
              && FoundUsable(inputs[fs[l - 1].session].ticks)
  {
    hide Run, Head;
    StartIsHead(pinned, requested, cfg, now);
    RunsFailBackAfterProbes(Start(pinned, requested, cfg, now), inputs);
    var fs := Run(Start(pinned, requested, cfg, now), inputs).client.history.failbacks;
    forall l: nat | l < |fs| && fs[l].Attempted?
      ensures l > 0 && fs[l - 1].Ended? && fs[l - 1].session < |inputs| && FoundUsable(inputs[fs[l - 1].session].ticks)
    {
      assert ComesFromAProbe(fs, l, inputs, 0);
    }
  }
}
