/** The 45 s hold-off counts from the moment the loop judges a session, after the hooks for its end: a slow hook
    lets a session that ended within 20 s of a failback pass for a lasting one. When exactly that matters. */
module SessionEvictionGap {
  import opened Prelude
  import opened Gateways
  import opened Cooldowns
  import opened Election
  import opened EvictionRounds
  import opened ExampleGateways
  import opened SessionLoop
  import opened SessionFailback
  import opened SessionHoldOff
  import Engine
  import Reelection
  import SessionRuns

  // ----- the promise -----

  /** A session that a failback established ends d after it, is judged k later, and a failback is attempted
      within 45 s of that end. */
  ghost predicate RetriedTooSoon(fs: seq<FailbackEvent>, d: nat, k: nat) {
    exists i: nat, j: nat, l: nat :: TooSoon(fs, d, k, i, j, l)
  }

  ghost predicate TooSoon(fs: seq<FailbackEvent>, d: nat, k: nat, i: nat, j: nat, l: nat) {
    && EstablishedBefore(fs, j, i) && fs[j].returned - fs[i].at == d && fs[j].judged - fs[j].returned == k
    && j < l < |fs| && fs[l].Attempted? && fs[l].at < fs[j].returned + 45_000
  }

  ghost function FailbacksOf(pinned: bool, requested: string, cfg: Config, now: int, inputs: seq<Input>)
    : seq<FailbackEvent>
  {
    Run(Start(pinned, requested, cfg, now), inputs).client.history.failbacks
  }

  /** Whether the hold-off works for sessions that end d after a failback and are judged k later: in every run
      whose workers keep their periods and whose hooks stay within a bound. */
  ghost predicate HoldsOffAlways(d: nat, k: nat, p: Periods, bound: nat) {
    forall pinned, requested, cfg: Config, now, inputs ::
      cfg.url.text != "" && Timed(Start(pinned, requested, cfg, now), inputs, p) && HooksWithin(inputs, bound) ==>
        !RetriedTooSoon(FailbacksOf(pinned, requested, cfg, now, inputs), d, k)
  }

  // ----- where it works -----

  lemma QuickOrLateEndsHoldOff(d: nat, k: nat, p: Periods, pinned: bool, requested: string, cfg: Config, now: int,
                               inputs: seq<Input>)
    requires cfg.url.text != "" && Timed(Start(pinned, requested, cfg, now), inputs, p)
    requires d + k < FAILBACK_EVICTION_WINDOW || k + p.prober >= 45_000
    ensures !RetriedTooSoon(FailbacksOf(pinned, requested, cfg, now, inputs), d, k)
  {
    hide Run, Timed;
    SessionRuns.NoFailbackSoonAfterAnEviction(pinned, requested, cfg, now, inputs);
    AttemptsKeepTheirDistance(pinned, requested, cfg, now, inputs, p);
    var fs := FailbacksOf(pinned, requested, cfg, now, inputs);
    forall i: nat, j: nat, l: nat ensures !TooSoon(fs, d, k, i, j, l) {
    }
  }

  // ----- where it fails -----

  /** For every length of session and of hooks that the promise covers and the code does not: a run with hooks
      within their timeout in which a failback is attempted a prober's period after the judgement, too soon. */
  lemma SlowHooksDefeatTheHoldOff(d: nat, k: nat, p: Periods) returns (inputs: seq<Input>)
    requires d < FAILBACK_EVICTION_WINDOW <= d + k && k + p.prober < 45_000
    ensures Timed(Start(false, "", Config("eu", EU, Three()), 0), inputs, p) && HooksWithin(inputs, HOOK_TIMEOUT)
    ensures TooSoon(FailbacksOf(false, "", Config("eu", EU, Three()), 0, inputs), d, k, 3, 4, 6)
  {
    hide Leads, TooSoon, Round, On, Iterate, Run, Timed, HooksWithin, BusySession, Without, Three;
    var wait := 90_000 + p.prober;
    var start := 2 * p.heartbeat + wait;
    var judged, again := start + d + k, start + d + k + p.prober;
    var stoppingTook := if k < HOOK_TIMEOUT then k else HOOK_TIMEOUT;
    var stoppedTook := if k - stoppingTook < HOOK_TIMEOUT then k - stoppingTook else HOOK_TIMEOUT;
    var startingTook := k - stoppingTook - stoppedTook;
    var h1 := FirstRound(p);
    var h2 := SecondRound(h1, wait, p);
    var h3 := ThirdRound(h2, start, d, stoppingTook, stoppedTook, startingTook, p);
    var h4 := FourthRound(h3, judged, start, p);
    var moved, held := Refused(Some(start)), map["ap" := judged + 90_000];
    var s1 := On("us", US, Without("eu"), map["eu" := 90_000], NO_MOVES, None, "", 0, h1);
    var s2 := On("eu", EU, Three(), map[], Proposed(start), Some(start), "two", start, h2);
    var s3 := On("us", US, Without("ap"), held, moved, Some(start), "", judged, h3);
    var s4 := On("eu", EU, Three(), held, moved, Some(again), "", again, h4);
    NoRound(s4, p);
    inputs := OneRound(s3, Round([Probe(p.prober, true, 0)], 0, 0, 0, 0), s4, [], p);
    inputs := OneRound(s2, Round([], d, stoppingTook, stoppedTook, startingTook), s3, inputs, p);
    inputs := OneRound(s1, Round(BusySession(p.heartbeat, wait), 0, 0, 0, 0), s2, inputs, p);
    inputs := OneRound(Start(false, "", Config("eu", EU, Three()), 0), Round([], 0, 0, 0, 0), s1, inputs, p);
    HistoryOf(held, moved, Some(again), again, h4);
    TheRecord(h1.failbacks, h2.failbacks, h3.failbacks, h4.failbacks, start, d, k, p.prober);
  }

  lemma TheRecord(f1: seq<FailbackEvent>, f2: seq<FailbackEvent>, f3: seq<FailbackEvent>, f4: seq<FailbackEvent>,
                  start: int, d: nat, k: nat, period: nat)
    requires f1 == [Ended(0, 0, 0)]
    requires f2 == f1 + [Ended(1, start, start), Attempted(start), Established(2, start)]
    requires f3 == f2 + [Ended(2, start + d, start + d + k)]
    requires var again := start + d + k + period; f3 + [Ended(3, again, again), Attempted(again)] <= f4
    requires k + period < 45_000
    ensures TooSoon(f4, d, k, 3, 4, 6)
  {
    var again := start + d + k + period;
    assert f3[3] == Established(2, start) && f3[4] == Ended(2, start + d, start + d + k) && |f3| == 5;
    assert (f3 + [Ended(3, again, again), Attempted(again)])[6] == Attempted(again);
  }

  // ----- the exact condition -----

  /** For every session length that the promise covers: the hold-off works in every run exactly when the session is
      judged within 20 s of the failback, or so late after its end that the prober's first question, a period
      later, comes 45 s after it anyway. Hooks may be held to any bound that admits their 15 s timeout, and the
      periods of heartbeat and prober may be any. */
  lemma HoldOffIsExact(d: nat, k: nat, p: Periods, bound: nat)
    requires d < FAILBACK_EVICTION_WINDOW && bound >= HOOK_TIMEOUT
    ensures HoldsOffAlways(d, k, p, bound) <==> d + k < FAILBACK_EVICTION_WINDOW || k + p.prober >= 45_000
  {
    hide Timed, FailbacksOf, RetriedTooSoon, TooSoon, HooksWithin;
    if d + k < FAILBACK_EVICTION_WINDOW || k + p.prober >= 45_000 {
      forall pinned, requested, cfg: Config, now, inputs |
        cfg.url.text != "" && Timed(Start(pinned, requested, cfg, now), inputs, p)
        ensures !RetriedTooSoon(FailbacksOf(pinned, requested, cfg, now, inputs), d, k)
      {
        QuickOrLateEndsHoldOff(d, k, p, pinned, requested, cfg, now, inputs);
      }
    } else {
      var inputs := SlowHooksDefeatTheHoldOff(d, k, p);
      ARetryCounts(FailbacksOf(false, "", Config("eu", EU, Three()), 0, inputs), d, k);
      BoundsGrow(inputs, HOOK_TIMEOUT, bound);
    }
  }

  lemma ARetryCounts(fs: seq<FailbackEvent>, d: nat, k: nat)
    requires TooSoon(fs, d, k, 3, 4, 6)
    ensures RetriedTooSoon(fs, d, k)
  {
  }

  lemma BoundsGrow(inputs: seq<Input>, bound: nat, larger: nat)
    requires HooksWithin(inputs, bound) && bound <= larger
    ensures HooksWithin(inputs, larger)
  {
  }

  /** Of every run whatsoever, whenever its ticks come: for a session that ends within 20 s of the failback that
      established it, no failback is attempted for 45 s after that end exactly when it is judged within 20 s of
      the failback or 45 s after its end. */
  lemma HoldOffIsExactAtAnyTimes(d: nat, k: nat)
    requires d < FAILBACK_EVICTION_WINDOW
    ensures (forall pinned, requested, cfg: Config, now, inputs :: cfg.url.text != "" ==>
               !RetriedTooSoon(FailbacksOf(pinned, requested, cfg, now, inputs), d, k))
            <==> d + k < FAILBACK_EVICTION_WINDOW || k >= 45_000
  {
    hide Timed, FailbacksOf, RetriedTooSoon, TooSoon, HooksWithin;
    if d + k < FAILBACK_EVICTION_WINDOW || k >= 45_000 {
      forall pinned, requested, cfg: Config, now, inputs | cfg.url.text != ""
        ensures !RetriedTooSoon(FailbacksOf(pinned, requested, cfg, now, inputs), d, k)
      {
        EveryRunIsTimed(Start(pinned, requested, cfg, now), inputs);
        QuickOrLateEndsHoldOff(d, k, AT_ONCE, pinned, requested, cfg, now, inputs);
      }
    } else {
      var inputs := SlowHooksDefeatTheHoldOff(d, k, AT_ONCE);
      ARetryCounts(FailbacksOf(false, "", Config("eu", EU, Three()), 0, inputs), d, k);
    }
  }
}
