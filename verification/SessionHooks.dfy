/** The lifecycle hooks fire in a fixed cycle, in every run. */
module SessionHooks {
  import opened SessionLoop
  import opened SessionInvariants
  import Engine
  import Reelection

  /** The i-th hook of a client that keeps cycling. */
  function CycleHook(pinned: bool, i: nat): Hook {
    if pinned then [Stopped, Starting, Started][i % 3] else [Stopping, Stopped, Starting, Started][i % 4]
  }

  function CycleLength(pinned: bool): nat {
    if pinned then 3 else 4
  }

  /** The hooks fired so far are a prefix of the endless cycle. */
  ghost predicate HooksCycle(c: Client) {
    forall i :: 0 <= i < |c.history.hooks| ==> c.history.hooks[i] == CycleHook(c.pinned, i)
  }

  ghost predicate HooksAt(c: Client, phase: nat) {
    HooksCycle(c) && |c.history.hooks| % CycleLength(c.pinned) == phase
  }

  ghost predicate HooksKept(step: Step, pinned: bool) {
    && step.client.pinned == pinned
    && HooksCycle(step.client)
    && (step.Continue? ==> HooksAt(step.client, 0))
  }

  lemma FireTurnsTheCycle(c: Client, hook: Hook, took: nat)
    requires HooksCycle(c) && hook == CycleHook(c.pinned, |c.history.hooks|)
    ensures HooksCycle(Fire(c, hook, took))
    ensures |Fire(c, hook, took).history.hooks| == |c.history.hooks| + 1
  {
  }

  lemma AppliedEndsTheCycle(c: Client, startedTook: nat)
    requires HooksAt(c, CycleLength(c.pinned) - 1)
    ensures HooksAt(Applied(c, startedTook), 0) && Applied(c, startedTook).pinned == c.pinned
  {
    var committed := Engine.Committed(c.engine, c.cfg.region, c.cfg.url);
    FireTurnsTheCycle(c, Started, startedTook);
  }

  lemma ReconnectedCycles(c: Client, input: Input)
    requires c.history.sessions != []
    requires HooksAt(c, if c.pinned then 0 else 3)
    ensures HooksKept(Reconnected(c, input), c.pinned)
  {
    hide Applied;
    if !input.fault {
      var hooked := if c.pinned then Fire(Fire(c, Stopped, input.stoppedTook), Starting, input.startingTook) else c;
      if c.pinned {
        FireTurnsTheCycle(c, Stopped, input.stoppedTook);
        FireTurnsTheCycle(Fire(c, Stopped, input.stoppedTook), Starting, input.startingTook);
      }
      assert HooksAt(hooked, CycleLength(c.pinned) - 1);
      var r := Retried(LeaseLostTaken(hooked), input.same, SAME_GATEWAY_RETRY_BACKOFF);
      assert HooksAt(r.client, CycleLength(c.pinned) - 1);
      AppliedEndsTheCycle(r.client, input.startedTook);
    }
  }

  lemma FailedOverCycles(c: Client, keep: bool, planned: bool, input: Input)
    requires !c.pinned && c.history.sessions != [] && HooksAt(c, 3)
    ensures HooksKept(FailedOver(c, keep, planned, input), c.pinned)
  {
    hide Applied, Reregister, Reconnected;
    if |c.cfg.regions| == 0 {
      ReconnectedCycles(c, input);
    } else {
      var away := if keep then c else FailedRegionExcluded(c, planned, input.discovery);
      ReregisterFrame(away, input.attempts, FAILOVER_RETRY_BACKOFF);
      var f := Reregister(away, input.attempts, FAILOVER_RETRY_BACKOFF);
      assert HooksAt(f.client, 3);
      AppliedEndsTheCycle(f.client, input.startedTook);
    }
  }

  lemma TriesCycle(c: Client, target: Reelection.Target, registration: Registration, startedTook: nat)
    requires HooksAt(c, CycleLength(c.pinned) - 1)
    ensures var t := TryMove(c, target, registration, startedTook);
            HooksAt(t.client, if t.ok then 0 else CycleLength(c.pinned) - 1)
    ensures var t := TryFailback(c, registration, startedTook);
            HooksAt(t.client, if t.ok then 0 else CycleLength(c.pinned) - 1)
  {
    assert Started == CycleHook(c.pinned, |c.history.hooks|);
    forall d: Client | d.pinned == c.pinned && d.history.hooks == c.history.hooks
      ensures HooksAt(Applied(d, startedTook), 0)
    {
      AppliedEndsTheCycle(d, startedTook);
    }
  }

  lemma MovedOrFailedOverCycles(c: Client, keep: bool, planned: bool, input: Input)
    requires !c.pinned && c.history.sessions != [] && HooksAt(c, 3)
    ensures HooksKept(MovedOrFailedOver(c, keep, planned, input), c.pinned)
  {
    hide FailedOver, TryMove;
    if c.reelection.pending.None? {
      FailedOverCycles(c, keep, planned, input);
    } else {
      var target := c.reelection.pending.value;
      TriesCycle(c, target, input.move, input.startedTook);
      TryFrame(c, target, input.move, input.startedTook);
      var m := TryMove(c, target, input.move, input.startedTook);
      if !m.ok {
        FailedOverCycles(m.client, true, planned, input);
      }
    }
  }

  lemma TakenCycles(c: Client, returned: int, input: Input)
    requires !c.pinned && c.history.sessions != [] && HooksAt(c, 1)
    ensures HooksAt(Taken(c, returned, input), 3)
  {
    FireTurnsTheCycle(c, Stopped, input.stoppedTook);
    FireTurnsTheCycle(Fire(c, Stopped, input.stoppedTook), Starting, input.startingTook);
  }

  lemma RecoveredCycles(c: Client, returned: int, input: Input)
    requires !c.pinned && c.history.sessions != [] && HooksAt(c, 1)
    ensures HooksKept(Recovered(c, returned, input), c.pinned)
  {
    hide MovedOrFailedOver, Taken, TryFailback;
    TakenFrame(c, returned, input);
    TakenCycles(c, returned, input);
    var leaseLost, planned := c.engine.leaseLost, c.engine.migrateAt != 0;
    var judged := Taken(c, returned, input);
    var taken := FailbackTaken(judged);
    if !FailbackReady(judged) {
      MovedOrFailedOverCycles(taken, leaseLost, planned, input);
    } else {
      var any := Reelection.Target("", c.cfg.url, c.cfg.regions);
      TriesCycle(taken, any, input.failback, input.startedTook);
      TryFrame(taken, any, input.failback, input.startedTook);
      var f := TryFailback(taken, input.failback, input.startedTook);
      if !f.ok {
        MovedOrFailedOverCycles(f.client, true, planned, input);
      }
    }
  }

  /** One iteration turns the cycle once round, or stops part of the way. */
  lemma IterationCycles(c: Client, input: Input)
    requires HooksAt(c, 0)
    ensures HooksKept(Iterate(c, input), c.pinned)
  {
    hide Recovered, Reconnected, Served;
    ServedFrame(c, input);
    var served := Served(c, input);
    assert HooksAt(served, 0);
    if !served.pinned {
      FireTurnsTheCycle(served, Stopping, input.stoppingTook);
    }
    var told := if served.pinned then served else Fire(served, Stopping, input.stoppingTook);
    if told.pinned {
      ReconnectedCycles(told, input);
    } else {
      RecoveredCycles(told, served.now - input.late, input);
    }
  }
}
