/** A failback whose session is lost at once is not tried again for 45 seconds. */
module SessionFailback {
  import opened Prelude
  import opened Gateways
  import opened Cooldowns
  import opened SessionLoop
  import opened SessionInvariants
  import Engine
  import Reelection

  ghost predicate EstablishedBefore(fs: seq<FailbackEvent>, j: nat, i: nat) {
    i < j < |fs| && fs[j].Ended? && fs[i].Established? && fs[i].session == fs[j].session
  }

  /** The j-th event ends a session that a failback established, judged within 20 s of that failback. */
  ghost predicate QuickEnd(fs: seq<FailbackEvent>, j: nat) {
    exists i: nat :: EstablishedBefore(fs, j, i) && fs[j].judged - fs[i].at < FAILBACK_EVICTION_WINDOW
  }

  /** After a quick end no failback is attempted for 45 s. */
  ghost predicate HoldsOff(fs: seq<FailbackEvent>) {
    forall j: nat, l: nat :: j < l < |fs| && QuickEnd(fs, j) && fs[l].Attempted? ==>
                               fs[l].at >= fs[j].judged + Engine.FAILBACK_SUPPRESSION
  }

  ghost predicate Ordered(c: Client) {
    forall j :: 0 <= j < |c.history.failbacks| && c.history.failbacks[j].Ended? ==>
                  c.history.failbacks[j].returned <= c.history.failbacks[j].judged <= c.now
  }

  ghost predicate Guarded(c: Client) {
    forall j: nat :: QuickEnd(c.history.failbacks, j) ==>
                       c.history.failbacks[j].judged + Engine.FAILBACK_SUPPRESSION <= c.engine.suppressedUntil
  }

  ghost predicate Sound(c: Client) {
    HoldsOff(c.history.failbacks) && Ordered(c) && Guarded(c)
  }

  /** Failbacks have established no session numbered n or later. */
  ghost predicate NoneFrom(fs: seq<FailbackEvent>, n: nat) {
    forall i :: 0 <= i < |fs| && fs[i].Established? ==> fs[i].session < n
  }

  /** The memory of the last failback agrees with whether session n is the one it established. */
  ghost predicate Remembered(c: Client, n: nat) {
    var fs := c.history.failbacks;
    && NoneFrom(fs, n + 1)
    && (forall i :: 0 <= i < |fs| && fs[i].Established? && fs[i].session == n ==> c.lastFailbackAt == Some(fs[i].at))
    && (c.lastFailbackAt.Some? ==>
          || c.now - c.lastFailbackAt.value >= FAILBACK_EVICTION_WINDOW
          || (c.cfg.region == c.primary.region && c.cfg.url == c.primary.url
              && Established(n, c.lastFailbackAt.value) in fs))
  }

  /** Once a session has been judged: nothing is remembered that still matters, and a failback asked for
      is asked for after every suppression. */
  ghost predicate Settled(c: Client) {
    && Sound(c)
    && NoneFrom(c.history.failbacks, |c.history.sessions|)
    && (c.lastFailbackAt.Some? ==> c.now - c.lastFailbackAt.value >= FAILBACK_EVICTION_WINDOW)
    && (c.engine.isFailback ==> c.now >= c.engine.suppressedUntil)
  }

  ghost predicate FailbackHead(c: Client) {
    Sound(c) && Remembered(c, |c.history.sessions|)
  }

  ghost predicate FailbackKept(step: Step) {
    && HoldsOff(step.client.history.failbacks) && Ordered(step.client)
    && (step.Continue? ==> FailbackHead(step.client))
  }

  lemma AppendKeepsQuickEnds(fs: seq<FailbackEvent>, e: FailbackEvent)
    ensures forall j: nat :: j < |fs| ==> (QuickEnd(fs + [e], j) <==> QuickEnd(fs, j))
    ensures !e.Ended? ==> !QuickEnd(fs + [e], |fs|)
  {
    var more := fs + [e];
    forall j: nat | j < |fs| ensures QuickEnd(more, j) <==> QuickEnd(fs, j) {
      if QuickEnd(more, j) {
        var i: nat :| EstablishedBefore(more, j, i) && more[j].judged - more[i].at < FAILBACK_EVICTION_WINDOW;
        assert EstablishedBefore(fs, j, i);
      }
      if QuickEnd(fs, j) {
        var i: nat :| EstablishedBefore(fs, j, i) && fs[j].judged - fs[i].at < FAILBACK_EVICTION_WINDOW;
        assert EstablishedBefore(more, j, i);
      }
    }
  }

  /** Just before judging: what a session that ran to its end knows. */
  ghost predicate Unjudged(c: Client) {
    && c.history.sessions != []
    && Sound(c) && Remembered(c, SessionNumber(c))
    && c.engine.region == c.cfg.region
    && (c.engine.isFailback ==> c.now >= c.engine.suppressedUntil && !EqualFold(c.engine.region, c.primary.region))
  }

  /** The loop takes a session for an eviction exactly when that session was established by a failback
      less than 20 s before the judgement; the gateway it then holds out is the primary. */
  lemma EvictionIsThePrimarys(c: Client, returned: int)
    requires Unjudged(c)
    ensures EvictedAfterFailback(c) <==> QuickEnd(Judged(c, returned).history.failbacks, |c.history.failbacks|)
    ensures EvictedAfterFailback(c) ==> c.cfg.url == c.primary.url && c.cfg.region == c.primary.region
  {
    var fs, n := c.history.failbacks, SessionNumber(c);
    var more := fs + [Ended(n, returned, c.now)];
    assert Judged(c, returned).history.failbacks == more;
    if EvictedAfterFailback(c) {
      var i :| 0 <= i < |fs| && fs[i] == Established(n, c.lastFailbackAt.value);
      assert EstablishedBefore(more, |fs|, i);
    }
  }

  lemma JudgedIsSettled(c: Client, returned: int)
    requires Unjudged(c) && returned <= c.now
    ensures Settled(Judged(c, returned))
  {
    hide Excluded, Sound;
    EvictionIsThePrimarys(c, returned);
    JudgedIsSound(c, returned);
  }

  lemma JudgedIsSound(c: Client, returned: int)
    requires Unjudged(c) && returned <= c.now
    ensures Sound(Judged(c, returned))
  {
    hide Excluded, EvictedAfterFailback, Remembered;
    var fs := c.history.failbacks;
    var e := Ended(SessionNumber(c), returned, c.now);
    AppendKeepsQuickEnds(fs, e);
    EvictionIsThePrimarys(c, returned);
    var judged := Judged(c, returned);
    forall j: nat | QuickEnd(fs + [e], j)
      ensures (fs + [e])[j].judged + Engine.FAILBACK_SUPPRESSION <= judged.engine.suppressedUntil
    {
      if j < |fs| {
        assert QuickEnd(fs, j);
        assert fs[j].judged <= c.now;
      }
    }
  }

  /** Nothing but the clock, the cooldowns and the place moves between judgement and the next head. */
  lemma SettledReachesHead(a: Client, b: Client)
    requires Settled(a)
    requires b.history.failbacks == a.history.failbacks && b.history.sessions == a.history.sessions
    requires b.lastFailbackAt == a.lastFailbackAt && b.engine.suppressedUntil == a.engine.suppressedUntil
    requires b.now >= a.now
    ensures FailbackHead(b)
    ensures (b.engine.isFailback ==> a.engine.isFailback) ==> Settled(b)
  {
  }

  lemma AttemptKeepsSettled(c: Client)
    requires Settled(c) && c.now >= c.engine.suppressedUntil
    ensures Settled(WithFailback(c, Attempted(c.now)))
  {
    AppendKeepsQuickEnds(c.history.failbacks, Attempted(c.now));
  }

  lemma EstablishingReachesHead(c: Client)
    requires Settled(c)
    requires c.cfg.region == c.primary.region && c.cfg.url == c.primary.url
    ensures FailbackHead(WithFailback(c.(lastFailbackAt := Some(c.now)), Established(|c.history.sessions|, c.now)))
  {
    var fs, e := c.history.failbacks, Established(|c.history.sessions|, c.now);
    AppendKeepsQuickEnds(fs, e);
    assert (fs + [e])[|fs|] == e;
  }

  lemma TryFailbackKeeps(c: Client, registration: Registration, startedTook: nat)
    requires Settled(c) && c.now >= c.engine.suppressedUntil && !c.engine.isFailback
    ensures var t := TryFailback(c, registration, startedTook);
            if t.ok then FailbackHead(t.client) else Settled(t.client)
  {
    hide Settled, FailbackHead;
    AttemptKeepsSettled(c);
    var attempted := WithFailback(c, Attempted(c.now));
    var gone := attempted.(cfg := Config(c.primary.region, c.primary.url, c.primary.regions));
    var asked := Advance(gone, registration.took);
    var t := TryFailback(c, registration, startedTook);
    if t.ok {
      var applied := Applied(asked, startedTook);
      SettledReachesHead(attempted, applied);
      EstablishingReachesHead(applied);
    } else {
      SettledReachesHead(attempted, t.client);
    }
  }

  /** Pinned clients never fail back at all. */
  ghost predicate NeverFailedBack(c: Client) {
    c.lastFailbackAt.None? && c.history.failbacks == []
  }

  lemma ReconnectedKeepsFailback(c: Client, input: Input)
    requires c.history.sessions != []
    requires Settled(c) || NeverFailedBack(c)
    ensures FailbackKept(Reconnected(c, input))
    ensures NeverFailedBack(c) ==> NeverFailedBack(Reconnected(c, input).client)
  {
    hide Settled, FailbackHead, FailbackKept, Reconnected;
    ReconnectedFrame(c, input);
    var step := Reconnected(c, input);
    if NeverFailedBack(c) {
      NeverIsKept(step.client);
    } else {
      SettledReachesHead(c, step.client);
      HeadIsKept(step.client);
    }
  }

  lemma ReconnectedFrame(c: Client, input: Input)
    requires c.history.sessions != []
    ensures var end := Reconnected(c, input).client;
            && end.history.failbacks == c.history.failbacks && end.history.sessions == c.history.sessions
            && end.lastFailbackAt == c.lastFailbackAt && end.now >= c.now
            && end.engine.suppressedUntil == c.engine.suppressedUntil
  {
    hide Cleared, CentralOf;
  }

  lemma NeverIsKept(c: Client)
    requires NeverFailedBack(c)
    ensures FailbackKept(Continue(c)) && FailbackKept(Exit(c))
  {
  }

  lemma FailedOverKeepsFailback(c: Client, keep: bool, planned: bool, input: Input)
    requires c.history.sessions != [] && Settled(c)
    ensures FailbackKept(FailedOver(c, keep, planned, input))
  {
    hide Reregister, Reconnected, Settled, FailbackHead, HoldsOff, Ordered;
    if |c.cfg.regions| == 0 {
      ReconnectedKeepsFailback(c, input);
    } else {
      var away := if keep then c else FailedRegionExcluded(c, planned, input.discovery);
      ReregisterFrame(away, input.attempts, FAILOVER_RETRY_BACKOFF);
      var f := Reregister(away, input.attempts, FAILOVER_RETRY_BACKOFF);
      SettledReachesHead(c, f.client);
      SettledReachesHead(c, Applied(f.client, input.startedTook));
      HeadIsKept(f.client);
      HeadIsKept(Applied(f.client, input.startedTook));
    }
  }

  lemma HeadIsKept(c: Client)
    requires FailbackHead(c)
    ensures FailbackKept(Continue(c)) && FailbackKept(Exit(c))
  {
  }

  lemma MovedOrFailedOverKeepsFailback(c: Client, keep: bool, planned: bool, input: Input)
    requires c.history.sessions != [] && Settled(c)
    ensures FailbackKept(MovedOrFailedOver(c, keep, planned, input))
  {
    hide FailedOver, Settled, FailbackHead, TryMove, FailbackKept;
    if c.reelection.pending.None? {
      FailedOverKeepsFailback(c, keep, planned, input);
    } else {
      var target := c.reelection.pending.value;
      var m := TryMove(c, target, input.move, input.startedTook);
      TryFrame(c, target, input.move, input.startedTook);
      SettledReachesHead(c, m.client);
      HeadIsKept(m.client);
      if !m.ok {
        FailedOverKeepsFailback(m.client, true, planned, input);
      }
    }
  }

  lemma TakenIsSettled(c: Client, returned: int, input: Input)
    requires Unjudged(c) && returned <= c.now
    ensures Settled(Taken(c, returned, input))
  {
    hide Settled, Sound, Remembered, Judged;
    var hooked := Fire(Fire(c, Stopped, input.stoppedTook), Starting, input.startingTook);
    var taken := MigrationTaken(LeaseLostTaken(hooked));
    LaterIsUnjudged(c, taken);
    JudgedIsSettled(taken, returned);
  }

  lemma LaterIsUnjudged(a: Client, b: Client)
    requires Unjudged(a)
    requires b.history.failbacks == a.history.failbacks && b.history.sessions == a.history.sessions
    requires b.lastFailbackAt == a.lastFailbackAt && b.primary == a.primary && b.cfg == a.cfg && b.now >= a.now
    requires b.engine.suppressedUntil == a.engine.suppressedUntil && b.engine.region == a.engine.region
    requires b.engine.isFailback ==> a.engine.isFailback
    ensures Unjudged(b)
  {
  }

  lemma RecoveredKeepsFailback(c: Client, returned: int, input: Input)
    requires Unjudged(c) && returned <= c.now
    ensures FailbackKept(Recovered(c, returned, input))
  {
    hide MovedOrFailedOver, Taken, TryFailback, FailbackKept;
    TakenFrame(c, returned, input);
    TakenIsSettled(c, returned, input);
    var leaseLost, planned := c.engine.leaseLost, c.engine.migrateAt != 0;
    var judged := Taken(c, returned, input);
    var taken := FailbackTaken(judged);
    SettledReachesHead(judged, taken);
    if !FailbackReady(judged) {
      MovedOrFailedOverKeepsFailback(taken, leaseLost, planned, input);
    } else {
      TryFrame(taken, Reelection.Target("", c.cfg.url, c.cfg.regions), input.failback, input.startedTook);
      TryFailbackKeeps(taken, input.failback, input.startedTook);
      var f := TryFailback(taken, input.failback, input.startedTook);
      if f.ok {
        HeadIsKept(f.client);
      } else {
        MovedOrFailedOverKeepsFailback(f.client, true, planned, input);
      }
    }
  }

  lemma ServedIsUnjudged(c: Client, input: Input)
    requires AtHead(c) && FailbackHead(c)
    ensures Unjudged(Served(c, input))
  {
    hide RunTicks;
    ServedFrame(c, input);
    var end := Served(c, input);
    assert end.history.failbacks == c.history.failbacks;
  }

  lemma IterationKeepsFailback(c: Client, input: Input)
    requires AtHead(c) && Addressed(c) && FailbackHead(c) && (c.pinned ==> NeverFailedBack(c))
    ensures FailbackKept(Iterate(c, input))
    ensures c.pinned ==> NeverFailedBack(Iterate(c, input).client)
  {
    hide Recovered, Reconnected, Served, FailbackHead, Unjudged, FailbackKept;
    ServedFrame(c, input);
    ServedIsUnjudged(c, input);
    var served := Served(c, input);
    var told := if served.pinned then served else Fire(served, Stopping, input.stoppingTook);
    LaterIsUnjudged(served, told);
    UnjudgedIsKept(served);
    UnjudgedIsKept(told);
    if told.pinned {
      ReconnectedKeepsFailback(told, input);
    } else {
      RecoveredKeepsFailback(told, served.now - input.late, input);
    }
  }

  lemma UnjudgedIsKept(c: Client)
    requires Unjudged(c)
    ensures FailbackKept(Exit(c))
  {
  }
}
