/** Signals are believed only from the gateway serving the session, and each raise is acted on once. */
module SessionSignals {
  import opened Prelude
  import opened Gateways
  import opened SessionLoop
  import opened SessionInvariants
  import Engine
  import Reelection

  /** The last event of a kind. */
  function LastOf(signals: seq<SignalEvent>, kind: Engine.SignalKind): Option<SignalEvent> {
    if signals == [] then None
    else
      var e := signals[|signals| - 1];
      if e.kind == kind then Some(e) else LastOf(signals[..|signals| - 1], kind)
  }

  /** A raise names the gateway of its session; a consumption follows such a raise of the same session
      with nothing of its kind in between. */
  ghost predicate Fits(e: SignalEvent, before: seq<SignalEvent>, sessions: seq<Url>) {
    && e.session < |sessions|
    && (e.Raised? ==> e.from == sessions[e.session])
    && (e.Consumed? ==> LastOf(before, e.kind) == Some(Raised(e.kind, e.session, sessions[e.session])))
  }

  ghost predicate Honest(signals: seq<SignalEvent>, sessions: seq<Url>) {
    signals != [] ==>
      && Honest(signals[..|signals| - 1], sessions)
      && Fits(signals[|signals| - 1], signals[..|signals| - 1], sessions)
  }

  /** Adding one event. */
  lemma Snoc(signals: seq<SignalEvent>, e: SignalEvent, sessions: seq<Url>)
    requires Honest(signals, sessions) && Fits(e, signals, sessions)
    ensures Honest(signals + [e], sessions)
    ensures forall k :: LastOf(signals + [e], k) == if k == e.kind then Some(e) else LastOf(signals, k)
  {
    assert (signals + [e])[..|signals|] == signals && (signals + [e])[|signals|] == e;
  }

  lemma {:induction false} LaterSessionsKeepHonesty(signals: seq<SignalEvent>, sessions: seq<Url>, url: Url)
    requires Honest(signals, sessions)
    ensures Honest(signals, sessions + [url])
  {
    if signals != [] {
      LaterSessionsKeepHonesty(signals[..|signals| - 1], sessions, url);
    }
  }

  lemma {:induction false} RaisingKeepsHonesty(signals: seq<SignalEvent>, sessions: seq<Url>, n: nat,
      raised: seq<Engine.Signal>)
    requires Honest(signals, sessions) && n < |sessions|
    requires forall s :: s in raised ==> s.from == sessions[n]
    ensures Honest(signals + RaisedEvents(n, raised), sessions)
    ensures forall k :: LastOf(signals + RaisedEvents(n, raised), k) ==
                        if Engine.Signal(k, sessions[n]) in raised
                        then Some(Raised(k, n, sessions[n]))
                        else LastOf(signals, k)
  {
    hide Honest, LastOf;
    if raised == [] {
      assert signals + [] == signals;
    } else {
      var last, before := raised[|raised| - 1], raised[..|raised| - 1];
      assert raised == before + [last];
      assert last in raised;
      RaisingKeepsHonesty(signals, sessions, n, before);
      var e := Raised(last.kind, n, last.from);
      assert signals + RaisedEvents(n, raised) == (signals + RaisedEvents(n, before)) + [e];
      Snoc(signals + RaisedEvents(n, before), e, sessions);
    }
  }

  /** During a session: the history is honest and every pending signal is a raise of this session. */
  ghost predicate Signalled(c: Client) {
    c.history.sessions != [] &&
    var n, sessions, signals := SessionNumber(c), c.history.sessions, c.history.signals;
    && Honest(signals, sessions)
    && (c.engine.leaseLost ==> LastOf(signals, Engine.LeaseLost) == Some(Raised(Engine.LeaseLost, n, sessions[n])))
    && (c.engine.migrateAt != 0 ==>
          LastOf(signals, Engine.ShutdownMigration) == Some(Raised(Engine.ShutdownMigration, n, sessions[n])))
  }

  ghost predicate NodeSetSignalled(c: Client)
    requires c.history.sessions != []
  {
    var n, sessions := SessionNumber(c), c.history.sessions;
    c.engine.nodeSetChanged ==>
      LastOf(c.history.signals, Engine.NodeSetChange) == Some(Raised(Engine.NodeSetChange, n, sessions[n]))
  }

  ghost predicate Serving(c: Client) {
    Signalled(c) && NodeSetSignalled(c) && c.cfg.url == c.history.sessions[SessionNumber(c)]
  }

  lemma BeatKeepsServing(s: Session, replies: seq<Engine.Reply>)
    requires Serving(s.client)
    ensures Serving(OnBeat(s, replies).client)
  {
    hide Engine.Heartbeat, Engine.BeatAll;
    var c := s.client;
    var beat := Engine.Heartbeat(c.engine, c.cfg.url, replies);
    HeartbeatIsSound(c.engine, c.cfg.url, replies);
    RaisingKeepsHonesty(c.history.signals, c.history.sessions, SessionNumber(c), beat.raised);
  }

  lemma HeartbeatIsSound(e: Engine.State, server: Url, replies: seq<Engine.Reply>)
    ensures Engine.BeatIsSound(e, server, Engine.Heartbeat(e, server, replies))
  {
    Engine.BeatAllIsSound(e, server, StatusReportTargets(server, e.central), replies);
  }

  lemma ConsumingKeepsHonesty(c: Client, kind: Engine.SignalKind)
    requires c.history.sessions != []
    requires var n, sessions := SessionNumber(c), c.history.sessions;
             && Honest(c.history.signals, sessions)
             && LastOf(c.history.signals, kind) == Some(Raised(kind, n, sessions[n]))
    ensures var signals := c.history.signals + [Consumed(kind, SessionNumber(c))];
            && Honest(signals, c.history.sessions)
            && forall k :: k != kind ==> LastOf(signals, k) == LastOf(c.history.signals, k)
  {
    Snoc(c.history.signals, Consumed(kind, SessionNumber(c)), c.history.sessions);
  }

  lemma WatchKeepsServing(s: Session, tick: Tick)
    requires tick.Watch? && Serving(s.client)
    ensures Serving(OnWatch(s, tick.roster, tick.fetchTook, tick.table, tick.probeTook).client)
  {
    hide Reelection.Choose;
    if s.client.engine.nodeSetChanged {
      ConsumingKeepsHonesty(s.client, Engine.NodeSetChange);
    }
  }

  lemma TickKeepsServing(s: Session, tick: Tick)
    requires Serving(s.client)
    ensures Serving(OnTick(s, tick).client)
  {
    hide OnWatch, OnBeat;
    var waited := Session(Advance(s.client, tick.wait), s.finished);
    match tick
    case Beat(_, replies) => BeatKeepsServing(waited, replies);
    case Watch(_, _, _, _, _) => WatchKeepsServing(waited, tick);
    case _ =>
  }

  lemma {:induction false} TicksKeepServing(s: Session, ticks: seq<Tick>)
    requires Serving(s.client)
    ensures Serving(RunTicks(s, ticks).client)
    decreases ticks
  {
    hide OnTick;
    if ticks != [] {
      TickKeepsServing(s, ticks[0]);
      TicksKeepServing(OnTick(s, ticks[0]), ticks[1..]);
    }
  }

  lemma ServedIsSignalled(c: Client, input: Input)
    requires AtHead(c) && Honest(c.history.signals, c.history.sessions)
    ensures Signalled(Served(c, input))
  {
    LaterSessionsKeepHonesty(c.history.signals, c.history.sessions, c.cfg.url);
    TicksKeepServing(Session(Opened(c), {}), input.ticks);
  }

  // ----- recovery -----

  ghost predicate HonestStep(step: Step) {
    Honest(step.client.history.signals, step.client.history.sessions)
  }

  lemma TakingKeepsSignalled(c: Client)
    requires Signalled(c)
    ensures Signalled(LeaseLostTaken(c)) && Signalled(MigrationTaken(c))
  {
    hide Honest, LastOf;
    if c.engine.leaseLost {
      ConsumingKeepsHonesty(c, Engine.LeaseLost);
    }
    if c.engine.migrateAt != 0 {
      ConsumingKeepsHonesty(c, Engine.ShutdownMigration);
    }
  }

  lemma ReconnectedIsHonest(c: Client, input: Input)
    requires Signalled(c)
    ensures HonestStep(Reconnected(c, input))
  {
    var hooked := if c.pinned then Fire(Fire(c, Stopped, input.stoppedTook), Starting, input.startingTook) else c;
    TakingKeepsSignalled(hooked);
  }

  lemma FailedOverIsHonest(c: Client, keep: bool, planned: bool, input: Input)
    requires Signalled(c)
    ensures HonestStep(FailedOver(c, keep, planned, input))
  {
    hide Reregister, Reconnected, Honest;
    if |c.cfg.regions| == 0 {
      ReconnectedIsHonest(c, input);
    } else {
      var away := if keep then c else FailedRegionExcluded(c, planned, input.discovery);
      ReregisterFrame(away, input.attempts, FAILOVER_RETRY_BACKOFF);
    }
  }

  lemma MovedOrFailedOverIsHonest(c: Client, keep: bool, planned: bool, input: Input)
    requires Signalled(c)
    ensures HonestStep(MovedOrFailedOver(c, keep, planned, input))
  {
    hide FailedOver, TryMove, Honest;
    if c.reelection.pending.None? {
      FailedOverIsHonest(c, keep, planned, input);
    } else {
      TryFrame(c, c.reelection.pending.value, input.move, input.startedTook);
      var m := TryMove(c, c.reelection.pending.value, input.move, input.startedTook);
      if !m.ok {
        FailedOverIsHonest(m.client, true, planned, input);
      }
    }
  }

  lemma TakenIsSignalled(c: Client, returned: int, input: Input)
    requires Signalled(c)
    ensures Signalled(Taken(c, returned, input))
  {
    var hooked := Fire(Fire(c, Stopped, input.stoppedTook), Starting, input.startingTook);
    hide Honest, LastOf, LeaseLostTaken, MigrationTaken;
    TakingKeepsSignalled(hooked);
    TakingKeepsSignalled(LeaseLostTaken(hooked));
  }

  lemma RecoveredIsHonest(c: Client, returned: int, input: Input)
    requires Signalled(c)
    ensures HonestStep(Recovered(c, returned, input))
  {
    hide MovedOrFailedOver, Taken, TryFailback, Honest;
    TakenFrame(c, returned, input);
    TakenIsSignalled(c, returned, input);
    var leaseLost, planned := c.engine.leaseLost, c.engine.migrateAt != 0;
    var judged := Taken(c, returned, input);
    var taken := FailbackTaken(judged);
    if !FailbackReady(judged) {
      MovedOrFailedOverIsHonest(taken, leaseLost, planned, input);
    } else {
      TryFrame(taken, Reelection.Target("", c.cfg.url, c.cfg.regions), input.failback, input.startedTook);
      var f := TryFailback(taken, input.failback, input.startedTook);
      if !f.ok {
        MovedOrFailedOverIsHonest(f.client, true, planned, input);
      }
    }
  }

  lemma IterationIsHonest(c: Client, input: Input)
    requires AtHead(c) && Honest(c.history.signals, c.history.sessions)
    ensures HonestStep(Iterate(c, input))
  {
    hide Recovered, Reconnected, Served, Honest;
    ServedIsSignalled(c, input);
    var served := Served(c, input);
    var told := if served.pinned then served else Fire(served, Stopping, input.stoppingTook);
    if told.pinned {
      ReconnectedIsHonest(told, input);
    } else {
      RecoveredIsHonest(told, served.now - input.late, input);
    }
  }

  // ----- what honesty means -----

  /** The event at j acts on the raise at i. */
  ghost predicate ActsOn(signals: seq<SignalEvent>, j: nat, i: nat) {
    && i < j < |signals|
    && signals[j].Consumed? && signals[i].Raised?
    && signals[i].kind == signals[j].kind && signals[i].session == signals[j].session
    && forall m :: i < m < j ==> signals[m].kind != signals[j].kind
  }

  lemma {:induction false} LastOfIsLast(signals: seq<SignalEvent>, kind: Engine.SignalKind) returns (i: nat)
    requires LastOf(signals, kind).Some?
    ensures i < |signals| && LastOf(signals, kind) == Some(signals[i])
    ensures forall m :: i < m < |signals| ==> signals[m].kind != kind
  {
    if signals[|signals| - 1].kind == kind {
      i := |signals| - 1;
    } else {
      i := LastOfIsLast(signals[..|signals| - 1], kind);
    }
  }

  /** In an honest history every raise is the serving gateway's own, and every consumption acts on a
      raise of its own session by that session's gateway. */
  lemma {:induction false} HonestMeaning(signals: seq<SignalEvent>, sessions: seq<Url>, j: nat)
    requires Honest(signals, sessions) && j < |signals|
    ensures signals[j].session < |sessions|
    ensures signals[j].Raised? ==> signals[j].from == sessions[signals[j].session]
    ensures signals[j].Consumed? ==>
              exists i: nat :: ActsOn(signals, j, i) && signals[i].from == sessions[signals[j].session]
  {
    var before := signals[..|signals| - 1];
    if j < |before| {
      HonestMeaning(before, sessions, j);
      if signals[j].Consumed? {
        var i: nat :| ActsOn(before, j, i) && before[i].from == sessions[before[j].session];
        assert ActsOn(signals, j, i);
      }
    } else if signals[j].Consumed? {
      var i := LastOfIsLast(before, signals[j].kind);
      assert ActsOn(signals, j, i);
    }
  }

  /** No raise is acted on twice. */
  lemma RaisedOnceConsumedOnce(signals: seq<SignalEvent>, i: nat, j: nat, k: nat)
    requires ActsOn(signals, j, i) && ActsOn(signals, k, i)
    ensures j == k
  {
  }
}
