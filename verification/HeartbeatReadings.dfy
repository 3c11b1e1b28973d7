/** What a client reads out of the replies of a session's heartbeats. */
module HeartbeatReadings {
  import opened Prelude
  import opened Gateways
  import opened SessionLoop
  import opened SessionInvariants
  import Engine

  // ----- one heartbeat -----

  /** What the serving gateway's reply is to a heartbeat: the first. */
  predicate Answers(replies: seq<Engine.Reply>, reply: Engine.Reply) {
    replies != [] && replies[0] == reply
  }

  /** Field by field, what a heartbeat leaves of the serving gateway's reply: an announced stop other than the last is
      a pending move; a roster hash other than the last of the session is a change; a report taken with no lease held
      ends the session. Anything but a body changes nothing, whatever central answers. */
  lemma WhatAHeartbeatReads(e: Engine.State, server: Url, replies: seq<Engine.Reply>)
    requires server.text != ""
    ensures replies == [] || !replies[0].Body? ==>
              Engine.Heartbeat(e, server, replies) == Engine.Beat(e, replies != [] && replies[0].Gone?, [])
    ensures forall ok, at, nodes, noLease :: Answers(replies, Engine.Body(ok, at, nodes, noLease)) ==>
              var b := Engine.Heartbeat(e, server, replies);
              var moves := at != 0 && at != e.warnedAt;
              var changes := nodes != "" && e.fingerprint != "" && nodes != e.fingerprint;
              && b.engine == e.(warnedAt := if at == 0 then e.warnedAt else at,
                                migrateAt := if moves then at else e.migrateAt,
                                fingerprint := if nodes == "" then e.fingerprint else nodes,
                                nodeSetChanged := e.nodeSetChanged || changes,
                                leaseLost := e.leaseLost || (ok && noLease))
              && b.ended == (ok && noLease)
              && b.raised == (if moves then [Engine.Signal(Engine.ShutdownMigration, server)] else [])
                             + (if changes then [Engine.Signal(Engine.NodeSetChange, server)] else [])
                             + (if ok && noLease then [Engine.Signal(Engine.LeaseLost, server)] else [])
  {
    Engine.CentralsReplyIsIgnored(e, server, replies);
  }

  // ----- all heartbeats of a session -----

  /** Every body of a session announces this stop or none. */
  predicate AnnounceOnly(ticks: seq<Tick>, at: int) {
    forall i, k :: 0 <= i < |ticks| && ticks[i].Beat? && 0 <= k < |ticks[i].replies| && ticks[i].replies[k].Body? ==>
                     (ticks[i].replies[k].shutdownAt == 0 || ticks[i].replies[k].shutdownAt == at)
  }

  /** Every body of a session carries this roster hash or none. */
  predicate HashOnly(ticks: seq<Tick>, nodes: string) {
    forall i, k :: 0 <= i < |ticks| && ticks[i].Beat? && 0 <= k < |ticks[i].replies| && ticks[i].replies[k].Body? ==>
                     (ticks[i].replies[k].nodes == "" || ticks[i].replies[k].nodes == nodes)
  }

  /** The signals added raise nothing of this kind. */
  ghost predicate RaisesNo(was: seq<SignalEvent>, signals: seq<SignalEvent>, kind: Engine.SignalKind) {
    was <= signals && forall k :: |was| <= k < |signals| && signals[k].Raised? ==> signals[k].kind != kind
  }

  lemma RaisesNoMore(a: seq<SignalEvent>, b: seq<SignalEvent>, c: seq<SignalEvent>, kind: Engine.SignalKind)
    requires RaisesNo(a, b, kind) && RaisesNo(b, c, kind)
    ensures RaisesNo(a, c, kind)
  {
    forall k | |a| <= k < |c| && c[k].Raised? ensures c[k].kind != kind {
      if k < |b| {
        assert c[k] == b[k];
      }
    }
  }

  lemma {:induction false} EventsKeepTheirKinds(session: nat, raised: seq<Engine.Signal>, kind: Engine.SignalKind)
    requires forall k :: 0 <= k < |raised| ==> raised[k].kind != kind
    ensures forall k :: 0 <= k < |RaisedEvents(session, raised)| ==> RaisedEvents(session, raised)[k].kind != kind
  {
    if raised != [] {
      EventsKeepTheirKinds(session, raised[..|raised| - 1], kind);
    }
  }

  /** What a beat of such a session does not raise. */
  lemma BeatRaisesNo(s: Session, tick: Tick, kind: Engine.SignalKind)
    requires s.client.history.sessions != [] && tick.Beat?
    requires forall k :: 0 <= k < |Engine.Heartbeat(s.client.engine, s.client.cfg.url, tick.replies).raised| ==>
                           Engine.Heartbeat(s.client.engine, s.client.cfg.url, tick.replies).raised[k].kind != kind
    ensures RaisesNo(s.client.history.signals, OnTick(s, tick).client.history.signals, kind)
  {
    var beat := Engine.Heartbeat(s.client.engine, s.client.cfg.url, tick.replies);
    EventsKeepTheirKinds(SessionNumber(s.client), beat.raised, kind);
  }

  lemma OtherTicksRaiseNothing(s: Session, tick: Tick, kind: Engine.SignalKind)
    requires s.client.history.sessions != [] && !tick.Beat?
    ensures RaisesNo(s.client.history.signals, OnTick(s, tick).client.history.signals, kind)
    ensures var e, end := s.client.engine, OnTick(s, tick).client.engine;
            end.warnedAt == e.warnedAt && end.migrateAt == e.migrateAt && end.fingerprint == e.fingerprint
            && (end.nodeSetChanged ==> e.nodeSetChanged)
  {
  }

  lemma KnownStopTick(s: Session, tick: Tick, at: int)
    requires s.client.history.sessions != [] && s.client.cfg.url.text != ""
    requires s.client.engine.warnedAt == at && AnnounceOnly([tick], at)
    ensures var end := OnTick(s, tick).client;
            && end.engine.warnedAt == at && end.engine.migrateAt == s.client.engine.migrateAt
            && RaisesNo(s.client.history.signals, end.history.signals, Engine.ShutdownMigration)
  {
    hide Engine.Heartbeat;
    assert [tick][0] == tick;
    if tick.Beat? {
      WhatAHeartbeatReads(s.client.engine, s.client.cfg.url, tick.replies);
      if tick.replies != [] && tick.replies[0].Body? {
        var r := tick.replies[0];
        assert Answers(tick.replies, Engine.Body(r.ok, r.shutdownAt, r.nodes, r.noLease));
      }
      BeatRaisesNo(s, tick, Engine.ShutdownMigration);
    } else {
      OtherTicksRaiseNothing(s, tick, Engine.ShutdownMigration);
    }
  }

  /** A stop that was announced before is not announced again: however often the gateway repeats it, the session
      raises no further move. */
  lemma {:induction false} AStopIsAnnouncedOnce(s: Session, ticks: seq<Tick>, at: int)
    requires s.client.history.sessions != [] && s.client.cfg.url.text != ""
    requires s.client.engine.warnedAt == at && AnnounceOnly(ticks, at)
    ensures var end := RunTicks(s, ticks).client;
            && end.engine.warnedAt == at && end.engine.migrateAt == s.client.engine.migrateAt
            && RaisesNo(s.client.history.signals, end.history.signals, Engine.ShutdownMigration)
    decreases ticks
  {
    if ticks != [] {
      hide OnTick, RaisesNo;
      assert ticks == [ticks[0]] + ticks[1..];
      TickFrame(s, ticks[0]);
      KnownStopTick(s, ticks[0], at);
      var next := OnTick(s, ticks[0]);
      AStopIsAnnouncedOnce(next, ticks[1..], at);
      RaisesNoMore(s.client.history.signals, next.client.history.signals,
                   RunTicks(s, ticks).client.history.signals, Engine.ShutdownMigration);
    } else {
      NothingRaised(s.client.history.signals, Engine.ShutdownMigration);
    }
  }

  lemma NothingRaised(signals: seq<SignalEvent>, kind: Engine.SignalKind)
    ensures RaisesNo(signals, signals, kind)
  {
  }

  lemma KnownHashTick(s: Session, tick: Tick, nodes: string)
    requires s.client.history.sessions != [] && s.client.cfg.url.text != ""
    requires (s.client.engine.fingerprint == "" || s.client.engine.fingerprint == nodes) && HashOnly([tick], nodes)
    ensures var end := OnTick(s, tick).client;
            && (end.engine.fingerprint == "" || end.engine.fingerprint == nodes)
            && (end.engine.nodeSetChanged ==> s.client.engine.nodeSetChanged)
            && RaisesNo(s.client.history.signals, end.history.signals, Engine.NodeSetChange)
  {
    hide Engine.Heartbeat;
    assert [tick][0] == tick;
    if tick.Beat? {
      WhatAHeartbeatReads(s.client.engine, s.client.cfg.url, tick.replies);
      if tick.replies != [] && tick.replies[0].Body? {
        var r := tick.replies[0];
        assert Answers(tick.replies, Engine.Body(r.ok, r.shutdownAt, r.nodes, r.noLease));
      }
      BeatRaisesNo(s, tick, Engine.NodeSetChange);
    } else {
      OtherTicksRaiseNothing(s, tick, Engine.NodeSetChange);
    }
  }

  /** A roster that stays the same changes nothing: no session raises a change while all its replies carry one hash,
      or none. */
  lemma {:induction false} SteadyRostersRaiseNothing(s: Session, ticks: seq<Tick>, nodes: string)
    requires s.client.history.sessions != [] && s.client.cfg.url.text != ""
    requires (s.client.engine.fingerprint == "" || s.client.engine.fingerprint == nodes) && HashOnly(ticks, nodes)
    ensures var end := RunTicks(s, ticks).client;
            && (end.engine.nodeSetChanged ==> s.client.engine.nodeSetChanged)
            && RaisesNo(s.client.history.signals, end.history.signals, Engine.NodeSetChange)
    decreases ticks
  {
    if ticks != [] {
      hide OnTick, RaisesNo;
      assert ticks == [ticks[0]] + ticks[1..];
      TickFrame(s, ticks[0]);
      KnownHashTick(s, ticks[0], nodes);
      var next := OnTick(s, ticks[0]);
      SteadyRostersRaiseNothing(next, ticks[1..], nodes);
      RaisesNoMore(s.client.history.signals, next.client.history.signals,
                   RunTicks(s, ticks).client.history.signals, Engine.NodeSetChange);
    } else {
      NothingRaised(s.client.history.signals, Engine.NodeSetChange);
    }
  }
}
