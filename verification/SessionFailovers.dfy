/** A failover respects the cooldowns it starts with, as far as they reach. */
module SessionFailovers {
  import opened Prelude
  import opened Gateways
  import opened Cooldowns
  import opened Election
  import opened ExampleGateways
  import opened SessionLoop
  import opened SessionInvariants
  import opened SessionMoves
  import Engine
  import Reelection

  /** The longest time from the start of a failover to its last filtering of a roster. */
  const LAST_FILTER := 79_500

  /** An election that succeeded with some advertised gateway open chose none that the cooldowns `first` hold at
      that moment. */
  ghost predicate Respects(t: Try, first: Until) {
    t.elected && !AllHeld(t.until, t.advertised, t.at) ==> !Held(first, HostKey(t.url), t.at)
  }

  /** The tries added to `was` lie between two instants and respect `first`. */
  ghost predicate AddedRespecting(was: seq<Try>, tries: seq<Try>, first: Until, from: int, end: int) {
    && was <= tries
    && forall j :: |was| <= j < |tries| ==> from <= tries[j].at <= end && Respects(tries[j], first)
  }

  /** Whatever `first` holds up to an instant, the present cooldowns hold too. */
  ghost predicate Carries(c: Client, first: Until, end: int) {
    forall h, later :: c.now <= later <= end && Held(first, h, later) ==> Held(c.until, h, later)
  }

  // ----- one attempt -----

  /** An election that succeeded with some advertised gateway open chose an open one. */
  lemma ElectedIsOpen(c: Client, a: Attempt)
    requires c.history.sessions != [] && Asked(c, a).ok
    ensures var tries, was := Asked(c, a).client.history.tries, c.history.tries;
            && |tries| == |was| + 1 && tries == was + [tries[|was|]]
            && tries[|was|].at == c.now + a.fetchTook && tries[|was|].until == c.until
            && Respects(tries[|was|], c.until)
  {
    hide Reaped, HostKey, Advertised, Available, Elected;
    AvailableIsOpen(c.until, Advertised(c, a), c.now + a.fetchTook);
    ElectedIsOffered(RosterResolved(c, a), a);
  }

  lemma AskedCarries(c: Client, a: Attempt, first: Until, end: int)
    requires c.history.sessions != [] && Carries(c, first, end)
    ensures Carries(Asked(c, a).client, first, end) && Asked(c, a).client.now >= c.now
  {
    hide Asked, Reaped;
    AskedTakesItsTime(c, a);
    var asked := Asked(c, a).client;
    forall h, later | asked.now <= later <= end && Held(first, h, later) ensures Held(asked.until, h, later) {
      ReapingKeepsHolds(c.until, Advertised(c, a), c.now + a.fetchTook, h, later);
    }
  }

  lemma HeldOutCarries(c: Client, pause: nat, first: Until, end: int)
    requires Carries(c, first, end) && end < c.now + REGION_FAILOVER_COOLDOWN
    ensures Carries(HeldOut(c, pause), first, end)
    ensures HeldOut(c, pause).now == c.now + pause && HeldOut(c, pause).history == c.history
  {
    hide HostKey;
  }

  lemma OpenIsRespectful(c: Client, t: Try, first: Until, end: int)
    requires Carries(c, first, end) && c.now <= t.at <= end && t.until == c.until && Respects(t, c.until)
    ensures Respects(t, first)
  {
    hide AllHeld, HostKey;
  }

  lemma NoneAdded(was: seq<Try>, first: Until, from: int, end: int)
    ensures AddedRespecting(was, was, first, from, end)
  {
  }

  lemma OneAdded(was: seq<Try>, t: Try, tries: seq<Try>, first: Until, from: int, since: int, end: int)
    requires from <= t.at <= end && from <= since && Respects(t, first)
    requires AddedRespecting(was + [t], tries, first, since, end)
    ensures AddedRespecting(was, tries, first, from, end)
  {
    hide Respects;
    assert (was + [t])[|was|] == t && tries[|was|] == t;
  }

  // ----- a whole failover -----

  lemma {:induction false} ReregisteringRespects(c: Client, attempts: seq<Attempt>, backoff: nat, first: Until,
                                                 end: int)
    requires c.history.sessions != [] && Timely(attempts) && Carries(c, first, end)
    requires c.now + Horizon(|attempts|, backoff) <= end < c.now + REGION_FAILOVER_COOLDOWN
    ensures AddedRespecting(c.history.tries, Reregister(c, attempts, backoff).client.history.tries, first, c.now, end)
    decreases |attempts|
  {
    var was := c.history.tries;
    NoneAdded(was, first, c.now, end);
    if attempts != [] {
      hide Asked, Carries, Respects, AddedRespecting, HeldOut, Timely;
      var a, rest := attempts[0], attempts[1..];
      TimelyParts(attempts);
      AskedFrame(c, a);
      AskedTakesItsTime(c, a);
      AskedCarries(c, a, first, end);
      var asked := Asked(c, a).client;
      if !Asked(c, a).ok {
        AskedLogsOneTry(c, a);
      } else {
        ElectedIsOpen(c, a);
        var t := asked.history.tries[|was|];
        OpenIsRespectful(c, t, first, end);
        NoneAdded(asked.history.tries, first, asked.now, end);
        OneAdded(was, t, asked.history.tries, first, c.now, asked.now, end);
        if a.registration.outcome.Retryable? {
          var pause := if |attempts| > 1 then backoff else 0;
          var held := HeldOut(asked, pause);
          HeldOutCarries(asked, pause, first, end);
          if rest == [] {
            assert Reregister(held, rest, 2 * backoff).client == held;
          } else {
            ReregisteringRespects(held, rest, 2 * backoff, first, end);
            OneAdded(was, t, Reregister(held, rest, 2 * backoff).client.history.tries, first, c.now, held.now, end);
          }
        }
      }
    }
  }

  lemma TimelyParts(attempts: seq<Attempt>)
    requires Timely(attempts) && attempts != []
    ensures attempts[0].fetchTook <= FETCH_TIMEOUT && attempts[0].probeTook <= PROBE_TIMEOUT
    ensures attempts[0].registration.took <= REGISTER_TIMEOUT
    ensures Timely(attempts[1..])
  {
    assert attempts[0] in attempts;
  }

  /** The cooldowns a failover starts with: those at hand, and the gateway it excludes itself unless it keeps it. */
  function FirstHeld(c: Client, keep: bool, planned: bool): Until {
    if keep || |c.cfg.regions| == 0 then c.until
    else Excluded(c.until, c.cfg.url, c.now, if planned then PLANNED_SHUTDOWN_COOLDOWN else REGION_FAILOVER_COOLDOWN)
  }

  /** No attempt of a failover whose election succeeded goes to a gateway that a cooldown in force at its start,
      whoever imposed it, still holds when the attempt filters its roster, unless every advertised gateway is
      cooling; and every attempt does so within 79.5 s. */
  lemma FailoverRespectsCooldowns(c: Client, keep: bool, planned: bool, input: Input)
    requires c.history.sessions != [] && Timely(input.attempts)
    ensures AddedRespecting(c.history.tries, FailedOver(c, keep, planned, input).client.history.tries,
                            FirstHeld(c, keep, planned), c.now, c.now + LAST_FILTER)
  {
    hide Reregister, Respects, AddedRespecting, Reconnected;
    var first, end := FirstHeld(c, keep, planned), c.now + LAST_FILTER;
    NoneAdded(c.history.tries, first, c.now, end);
    if |c.cfg.regions| == 0 {
      ReconnectedTriesNothing(c, input);
    } else {
      FailoverFitsItsCooldown();
      var away := if keep then c else FailedRegionExcluded(c, planned, input.discovery);
      assert away.until == first && away.now == c.now && away.history == c.history;
      ReregisteringRespects(away, input.attempts, FAILOVER_RETRY_BACKOFF, first, end);
    }
  }

  lemma ReconnectedTriesNothing(c: Client, input: Input)
    requires c.history.sessions != []
    ensures Reconnected(c, input).client.history.tries == c.history.tries
  {
  }

  // ----- the gateway excluded just before -----

  /** A failover that keeps its region avoids a gateway held for longer than it can last. */
  lemma LongHoldsOutlastIt(c: Client, planned: bool, input: Input, host: string)
    requires c.history.sessions != [] && Timely(input.attempts)
    requires host in c.until && c.until[host] > c.now + LAST_FILTER
    ensures AddedAvoiding(c.history.tries, FailedOver(c, true, planned, input).client.history.tries, {host})
  {
    hide Reregister, Avoids, AddedAvoiding, Reconnected;
    if |c.cfg.regions| == 0 {
      ReconnectedTriesNothing(c, input);
      NothingAdded(c.history.tries, {host});
    } else {
      FailoverFitsItsCooldown();
      ReregisterAvoids(c, input.attempts, FAILOVER_RETRY_BACKOFF, {host});
    }
  }

  /** How soon a move pending with a refused failback has to be refused for the primary's 90 s to outlast the
      failover after both. */
  const MOVE_IN_TIME := 10_500

  /** After a refused failback the failover does not go back to the primary it just tried, also when a pending move
      is tried in between, as long as that is refused within 10.5 s. */
  lemma RefusedFailbackIsAvoided(c: Client, registration: Registration, startedTook: nat, planned: bool, input: Input)
    requires c.history.sessions != [] && Timely(input.attempts) && HostKey(c.primary.url) != ""
    requires !TryFailback(c, registration, startedTook).ok
    requires c.reelection.pending.None? || input.move.outcome.Registered? || input.move.took < MOVE_IN_TIME
    ensures var refused := TryFailback(c, registration, startedTook).client;
            AddedAvoiding(c.history.tries, MovedOrFailedOver(refused, true, planned, input).client.history.tries,
                          {HostKey(c.primary.url)})
  {
    hide FailedOver, AddedAvoiding, HostKey, TryMove;
    var refused, host := TryFailback(c, registration, startedTook).client, HostKey(c.primary.url);
    if c.reelection.pending.None? {
      LongHoldsOutlastIt(refused, planned, input, host);
    } else {
      var target := c.reelection.pending.value;
      RefusedMoveHolds(refused, target, input.move, input.startedTook, host);
      var moved := TryMove(refused, target, input.move, input.startedTook);
      TryFrame(refused, target, input.move, input.startedTook);
      if moved.ok {
        NothingAdded(c.history.tries, {host});
      } else {
        LongHoldsOutlastIt(moved.client, planned, input, host);
      }
    }
  }

  /** A refused move takes its time and holds its target out, no gateway for shorter than before. */
  lemma RefusedMoveHolds(c: Client, target: Reelection.Target, registration: Registration, startedTook: nat,
                         host: string)
    requires host in c.until && c.until[host] <= c.now + REGION_FAILOVER_COOLDOWN
    ensures var m := TryMove(c, target, registration, startedTook);
            && m.ok == registration.outcome.Registered?
            && (!m.ok ==>
                  && m.client.now == c.now + registration.took
                  && host in m.client.until && m.client.until[host] >= c.until[host])
  {
    hide HostKey;
  }

  /** After a refused move the failover does not go to the gateway that refused it. */
  lemma RefusedMoveIsAvoided(c: Client, keep: bool, planned: bool, input: Input)
    requires c.history.sessions != [] && Timely(input.attempts) && c.reelection.pending.Some?
    requires var target := c.reelection.pending.value;
             HostKey(target.url) != "" && !TryMove(c, target, input.move, input.startedTook).ok
    ensures AddedAvoiding(c.history.tries, MovedOrFailedOver(c, keep, planned, input).client.history.tries,
                          {HostKey(c.reelection.pending.value.url)})
  {
    hide FailedOver, AddedAvoiding, HostKey;
    var target := c.reelection.pending.value;
    var refused := TryMove(c, target, input.move, input.startedTook).client;
    LongHoldsOutlastIt(refused, planned, input, HostKey(target.url));
  }

  // ----- how long an exclusion has to be -----

  /** An attempt that takes as long as it may; only one gateway answers it, and refuses, but for the last. */
  function Slow(name: string, outcome: Outcome): Attempt {
    Attempt(Four(), FETCH_TIMEOUT, "", map[name := 1], PROBE_TIMEOUT, Registration(outcome, REGISTER_TIMEOUT))
  }

  /** Us, ap and sa refuse, each after the full time, and then eu is asked. */
  function LongWay(): Attempts {
    [Slow("us", Retryable), Slow("ap", Retryable), Slow("sa", Retryable), Slow("eu", Registered)]
  }

  lemma LongWayIsTimely()
    ensures Timely(LongWay())
  {
  }

  /** One slow attempt at a gateway that is open when its roster is filtered. */
  lemma SlowlyAsked(c: Client, name: string, outcome: Outcome)
    requires c.history.sessions != [] && name in Four() && !Held(c.until, name, c.now + FETCH_TIMEOUT)
    ensures var asked, was := Asked(c, Slow(name, outcome)), c.history.tries;
            && asked.ok && asked.client.cfg.url == Four()[name] && HostKey(Four()[name]) == name
            && asked.client.now == c.now + FETCH_TIMEOUT + PROBE_TIMEOUT + REGISTER_TIMEOUT
            && asked.client.until == Reaped(c.until, Four(), c.now + FETCH_TIMEOUT)
            && asked.client.history.sessions == c.history.sessions
            && asked.client.history.tries ==
               was + [Try(SessionNumber(c), Four(), c.until, c.now + FETCH_TIMEOUT, true, Four()[name],
                          outcome.Retryable?)]
  {
    hide HostKey, Reaped, Available, Elected, Asked, Four;
    var a := Slow(name, outcome);
    FourHasNames();
    NamesAreHosts(Four());
    OfferedWhenOpen(c.until, c.now + FETCH_TIMEOUT, name);
    var roster := RosterResolved(c, a);
    assert Advertised(c, a) == Four();
    SlowlyElected(roster, name, outcome);
    AskedOf(c, a, Elected(roster, a).client);
  }

  lemma FourHasNames()
    ensures Among(Four()) && Four() != map[]
    ensures forall n :: n in Four() ==> Four()[n].text != ""
  {
    assert "eu" in Four();
  }

  lemma AskedOf(c: Client, a: Attempt, elected: Client)
    requires c.history.sessions != [] && Elected(RosterResolved(c, a), a) == Tried(elected, true)
    requires elected.cfg.url.text != ""
    ensures Asked(c, a) ==
            Tried(WithTry(Advance(elected, a.registration.took),
                          Try(SessionNumber(c), Advertised(c, a), c.until, c.now + a.fetchTook, true, elected.cfg.url,
                              a.registration.outcome.Retryable?)), true)
  {
    hide Elected, Available, Reaped;
  }

  lemma SlowlyElected(roster: Client, name: string, outcome: Outcome)
    requires Among(roster.cfg.regions) && name in roster.cfg.regions && roster.cfg.regions[name] == Four()[name]
    ensures Elected(roster, Slow(name, outcome)) ==
            Tried(Advance(roster, PROBE_TIMEOUT).(cfg := roster.cfg.(region := name, url := Four()[name])), true)
  {
    hide Fastest, Measure;
    OnlyAnswerWins(roster.cfg.regions, name);
  }

  lemma OfferedWhenOpen(until: Until, at: int, name: string)
    requires name in Four() && !Held(until, name, at)
    ensures var regions := Available(until, Four(), at);
            Among(regions) && name in regions && regions[name] == Four()[name]
  {
    hide HostKey;
    NamesAreHosts(Four());
    assert name in Cooldowns.Open(until, Four(), at);
  }

  /** Us, ap and sa, which the long way asks before eu. */
  predicate OnTheWay(host: string) {
    host in ["us", "ap", "sa"]
  }

  /** Some gateways on the way are held, and beside it only what was held at first. */
  ghost predicate OnlyThese(c: Client, first: Client, names: set<string>) {
    forall h, later :: later >= c.now && Held(c.until, h, later) ==>
                         h in names || (!OnTheWay(h) && Held(first.until, h, later))
  }

  /** A slow attempt at an open gateway is refused, and that gateway held out. */
  lemma OneRefusal(first: Client, c: Client, name: string, pause: nat, names: set<string>)
    returns (asked: Client, next: Client)
    requires c.history.sessions != [] && OnlyThese(c, first, names)
    requires name in Four() && name !in names && OnTheWay(name) && name != ""
    ensures Asked(c, Slow(name, Retryable)) == Tried(asked, true) && next == HeldOut(asked, pause)
    ensures next.now == c.now + FETCH_TIMEOUT + PROBE_TIMEOUT + REGISTER_TIMEOUT + pause
    ensures next.history.sessions == c.history.sessions && c.history.tries <= next.history.tries
    ensures |next.history.tries| == |c.history.tries| + 1
    ensures OnlyThese(next, first, names + {name})
  {
    hide Asked, HostKey, Reaped, Four;
    SlowlyAsked(c, name, Retryable);
    asked := Asked(c, Slow(name, Retryable)).client;
    next := HeldOut(asked, pause);
    RefusedStep(c, asked, next, name, pause);
  }

  lemma NothingElseHeld(c: Client)
    requires forall h :: Held(c.until, h, c.now) ==> !OnTheWay(h)
    ensures OnlyThese(c, c, {})
  {
    forall h, later | later >= c.now && Held(c.until, h, later) ensures !OnTheWay(h) {
      assert Held(c.until, h, c.now);
    }
  }

  /** A gateway not held 79.5 s on is asked by the last of four slow attempts, although others are open. */
  lemma LongWayEndsAtEu(c: Client)
    requires c.history.sessions != [] && forall h :: Held(c.until, h, c.now) ==> !OnTheWay(h)
    requires !Held(c.until, "eu", c.now + LAST_FILTER)
    ensures var was, tries := c.history.tries, Reregister(c, LongWay(), FAILOVER_RETRY_BACKOFF).client.history.tries;
            && was <= tries && |tries| == |was| + 4
            && tries[|was| + 3].elected && tries[|was| + 3].url == EU
            && !AllHeld(tries[|was| + 3].until, tries[|was| + 3].advertised, tries[|was| + 3].at)
  {
    hide Asked, HostKey, HeldOut, Reregister, Slow, LongWay, Reaped;
    Keys();
    NothingElseHeld(c);
    var s1, c2 := OneRefusal(c, c, "us", 1_000, {});
    var s2, c3 := OneRefusal(c, c2, "ap", 2_000, {} + {"us"});
    var s3, c4 := OneRefusal(c, c3, "sa", 4_000, {} + {"us"} + {"ap"});
    assert c4.now + FETCH_TIMEOUT == c.now + LAST_FILTER;
    assert !Held(c4.until, "eu", c4.now + FETCH_TIMEOUT);
    SlowlyAsked(c4, "eu", Registered);
    FourAttempts(c, s1, c2, s2, c3, s3, c4, Asked(c4, Slow("eu", Registered)).client);
    assert "eu" in Four() && HostKey(Four()["eu"]) == "eu";
  }

  /** After a refused slow attempt at a gateway, nothing else is held that was not before. */
  lemma RefusedStep(c: Client, asked: Client, next: Client, name: string, pause: nat)
    requires asked.until == Reaped(c.until, Four(), c.now + FETCH_TIMEOUT) && asked.now >= c.now + FETCH_TIMEOUT
    requires HostKey(asked.cfg.url) == name && name != "" && next == HeldOut(asked, pause)
    ensures next.now == asked.now + pause && next.history == asked.history
    ensures forall h, later :: h != name && asked.now <= later && Held(next.until, h, later) ==> Held(c.until, h, later)
  {
    hide HostKey, Reaped;
    forall h, later | h != name && asked.now <= later && Held(next.until, h, later) ensures Held(c.until, h, later) {
      ReapingKeepsHolds(c.until, Four(), c.now + FETCH_TIMEOUT, h, later);
    }
  }

  lemma FourAttempts(c: Client, s1: Client, c2: Client, s2: Client, c3: Client, s3: Client, c4: Client, s4: Client)
    requires c.history.sessions != [] && c2.history.sessions != [] && c3.history.sessions != []
    requires c4.history.sessions != []
    requires Asked(c, Slow("us", Retryable)) == Tried(s1, true) && c2 == HeldOut(s1, 1_000)
    requires Asked(c2, Slow("ap", Retryable)) == Tried(s2, true) && c3 == HeldOut(s2, 2_000)
    requires Asked(c3, Slow("sa", Retryable)) == Tried(s3, true) && c4 == HeldOut(s3, 4_000)
    requires Asked(c4, Slow("eu", Registered)) == Tried(s4, true)
    ensures Reregister(c, LongWay(), FAILOVER_RETRY_BACKOFF).client == s4
  {
    hide Asked, HeldOut, Slow, Reregister;
    var attempts := LongWay();
    var three, two, one := attempts[1..], attempts[2..], attempts[3..];
    SlowOutcome("us", Retryable);
    SlowOutcome("ap", Retryable);
    SlowOutcome("sa", Retryable);
    SlowOutcome("eu", Registered);
    assert three[1..] == two && two[1..] == one;
    TheLast(c4, one, 8_000, s4);
    MovesOn(c3, two, 4_000, s3, c4);
    MovesOn(c2, three, 2_000, s2, c3);
    MovesOn(c, attempts, 1_000, s1, c2);
  }

  lemma TheLast(c: Client, attempts: seq<Attempt>, backoff: nat, asked: Client)
    requires c.history.sessions != [] && attempts != [] && attempts[0].registration.outcome.Registered?
    requires Asked(c, attempts[0]) == Tried(asked, true)
    ensures Reregister(c, attempts, backoff).client == asked
  {
    hide Asked;
  }

  lemma MovesOn(c: Client, attempts: seq<Attempt>, backoff: nat, asked: Client, next: Client)
    requires c.history.sessions != [] && next.history.sessions != [] && |attempts| > 1
    requires attempts[0].registration.outcome.Retryable?
    requires Asked(c, attempts[0]) == Tried(asked, true) && next == HeldOut(asked, backoff)
    ensures Reregister(c, attempts, backoff) == Reregister(next, attempts[1..], 2 * backoff)
  {
    hide Asked, HeldOut;
  }

  lemma SlowOutcome(name: string, outcome: Outcome)
    ensures Slow(name, outcome).registration.outcome == outcome
  {
  }

  /** Whether an exclusion of this length, imposed just before, is long enough for every timely failover that keeps
      its region. */
  ghost predicate LongEnough(cooldown: nat) {
    forall c: Client, planned, input: Input, host ::
      c.history.sessions != [] && Timely(input.attempts) && host in c.until && c.until[host] == c.now + cooldown ==>
        AddedAvoiding(c.history.tries, FailedOver(c, true, planned, input).client.history.tries, {host})
  }

  /** An exclusion imposed just before a failover keeps it from the gateway exactly when it is longer than 79.5 s:
      the 90 s of a failure are, the 45 s of an eviction are not. */
  lemma ExclusionsLongEnough(cooldown: nat)
    ensures LongEnough(cooldown) <==> cooldown > LAST_FILTER
    ensures LongEnough(REGION_FAILOVER_COOLDOWN) && LongEnough(PLANNED_SHUTDOWN_COOLDOWN)
    ensures !LongEnough(Engine.FAILBACK_SUPPRESSION)
  {
    hide LongEnough;
    LongEnoughExactly(cooldown);
    LongEnoughExactly(REGION_FAILOVER_COOLDOWN);
    LongEnoughExactly(PLANNED_SHUTDOWN_COOLDOWN);
    LongEnoughExactly(Engine.FAILBACK_SUPPRESSION);
  }

  lemma LongEnoughExactly(cooldown: nat)
    ensures LongEnough(cooldown) <==> cooldown > LAST_FILTER
  {
    hide FailedOver, AddedAvoiding, Timely;
    if cooldown > LAST_FILTER {
      forall c: Client, planned, input: Input, host |
        c.history.sessions != [] && Timely(input.attempts) && host in c.until && c.until[host] == c.now + cooldown
        ensures AddedAvoiding(c.history.tries, FailedOver(c, true, planned, input).client.history.tries, {host})
      {
        LongHoldsOutlastIt(c, planned, input, host);
      }
    } else {
      MxHasAHost();
      var c := OnUs(cooldown);
      var input := Taking(LongWay());
      LongWayIsTimely();
      EuIsAskedAgain(c, false, input);
    }
  }

  ghost function OnUs(cooldown: nat): Client {
    var start := Start(false, "", Config("us", US, Four()), 0);
    start.(until := map["eu" := cooldown], history := start.history.(sessions := [US]))
  }

  ghost function Taking(attempts: Attempts): Input {
    Input([], 0, 0, false, false, 0, false, 0, 0, 0, Registration(Registered, 0), Registration(Registered, 0), None,
          attempts, [])
  }

  /** A failover that keeps its region asks eu again once eu's cooldown is over, if the gateways on the way to it
      are under none. */
  lemma EuIsAskedAgain(c: Client, planned: bool, input: Input)
    requires c.history.sessions != [] && |c.cfg.regions| > 0 && input.attempts == LongWay()
    requires "eu" in c.until && c.until["eu"] <= c.now + LAST_FILTER
    requires forall h :: Held(c.until, h, c.now) ==> !OnTheWay(h)
    ensures !AddedAvoiding(c.history.tries, FailedOver(c, true, planned, input).client.history.tries, {"eu"})
  {
    hide Reregister, HostKey, Reconnected;
    Keys();
    LongWayEndsAtEu(c);
    var was, tries := c.history.tries, Reregister(c, LongWay(), FAILOVER_RETRY_BACKOFF).client.history.tries;
    assert FailedOver(c, true, planned, input).client.history.tries == tries;
    assert !Avoids(tries[|was| + 3], {"eu"});
  }

  /** Whether the primary is avoided after a refused failback and a refused move that took this long. */
  ghost predicate AvoidedAfterBoth(took: nat) {
    forall c: Client, registration, startedTook, planned, input: Input ::
      && c.history.sessions != [] && Timely(input.attempts) && HostKey(c.primary.url) != ""
      && !TryFailback(c, registration, startedTook).ok && c.reelection.pending.Some?
      && !input.move.outcome.Registered? && input.move.took == took ==>
        var refused := TryFailback(c, registration, startedTook).client;
        AddedAvoiding(c.history.tries, MovedOrFailedOver(refused, true, planned, input).client.history.tries,
                      {HostKey(c.primary.url)})
  }

  /** The primary is avoided after both exactly when the move was refused within 10.5 s. */
  lemma RefusedBothInTime(took: nat)
    ensures AvoidedAfterBoth(took) <==> took < MOVE_IN_TIME
  {
    hide MovedOrFailedOver, AddedAvoiding, Timely, HostKey;
    if took < MOVE_IN_TIME {
      forall c: Client, registration, startedTook, planned, input: Input |
        && c.history.sessions != [] && Timely(input.attempts) && HostKey(c.primary.url) != ""
        && !TryFailback(c, registration, startedTook).ok && c.reelection.pending.Some?
        && !input.move.outcome.Registered? && input.move.took == took
        ensures var refused := TryFailback(c, registration, startedTook).client;
                AddedAvoiding(c.history.tries, MovedOrFailedOver(refused, true, planned, input).client.history.tries,
                              {HostKey(c.primary.url)})
      {
        RefusedFailbackIsAvoided(c, registration, startedTook, planned, input);
      }
    } else {
      LongWayIsTimely();
      LateRefusal(took);
    }
  }

  const MX := Url("https://mx", Some(UrlParts("https", "mx", "")))

  /** On us, with eu for a primary and a move to a fifth gateway pending. */
  ghost function Torn(): Client {
    var start := Start(false, "", Config("us", US, Four()), 0);
    start.(primary := Primary("eu", EU, Four()), history := start.history.(sessions := [US]),
           reelection := Reelection.State(Some(Reelection.Target("mx", MX, Four())), Some(0)))
  }

  lemma LateRefusal(took: nat)
    requires took >= MOVE_IN_TIME
    ensures var c, input := Torn(), Taking(LongWay()).(move := Registration(Retryable, took));
            var f := TryFailback(c, Registration(Retryable, 0), 0);
            var tries := MovedOrFailedOver(f.client, true, false, input).client.history.tries;
            && c.history.sessions != [] && c.reelection.pending.Some? && HostKey(c.primary.url) == "eu" && !f.ok
            && !AddedAvoiding(c.history.tries, tries, {"eu"})
  {
    hide FailedOver, AddedAvoiding, HostKey;
    Keys();
    MxHasAHost();
    var c, input := Torn(), Taking(LongWay()).(move := Registration(Retryable, took));
    var f := TryFailback(c, Registration(Retryable, 0), 0).client;
    assert f.until == map["eu" := 90_000];
    var m := TryMove(f, c.reelection.pending.value, input.move, input.startedTook).client;
    assert m.until == map["eu" := 90_000, "mx" := took + 90_000] && m.now == took;
    assert "eu" in Four();
    EuIsAskedAgain(m, false, input);
  }

  lemma MxHasAHost()
    ensures HostKey(MX) == "mx" && !OnTheWay("mx") && !OnTheWay("eu") && "mx" != "eu"
  {
    assert Lower("mx") == "mx";
    assert "mx"[0] == 'm' && "eu"[0] == 'e' && "us"[0] == 'u' && "ap"[0] == 'a' && "sa"[0] == 's';
  }

  /** So it goes after an eviction: a session on eu, established by failback and lost with its lease within 20 s,
      has eu held out for 45 s, and the failover that follows, of timely attempts, asks eu again. */
  lemma AnEvictedGatewayIsAskedAgain(c: Client, input: Input)
    requires c.history.sessions != [] && c.cfg.url == EU && |c.cfg.regions| > 0 && c.until == map[]
    requires EvictedAfterFailback(c) && c.engine.leaseLost && !c.engine.isFailback && c.reelection.pending.None?
    requires input.attempts == LongWay() && input.stoppedTook == 0 && input.startingTook == 0
    ensures Timely(input.attempts)
    ensures Taken(c, c.now, input).until == map["eu" := c.now + Engine.FAILBACK_SUPPRESSION]
    ensures !AddedAvoiding(c.history.tries, Recovered(c, c.now, input).client.history.tries, {"eu"})
  {
    hide FailedOver, AddedAvoiding, HostKey, Taken;
    Keys();
    MxHasAHost();
    LongWayIsTimely();
    TakenFrame(c, c.now, input);
    EvictedIsHeldOut(c, input);
    var taken := FailbackTaken(Taken(c, c.now, input));
    assert Recovered(c, c.now, input) == FailedOver(taken, true, c.engine.migrateAt != 0, input);
    EuIsAskedAgain(taken, c.engine.migrateAt != 0, input);
  }

  lemma EvictedIsHeldOut(c: Client, input: Input)
    requires c.history.sessions != [] && HostKey(c.cfg.url) != "" && EvictedAfterFailback(c)
    requires input.stoppedTook == 0 && input.startingTook == 0
    ensures Taken(c, c.now, input).now == c.now
    ensures Taken(c, c.now, input).until == c.until[HostKey(c.cfg.url) := c.now + Engine.FAILBACK_SUPPRESSION]
    ensures Taken(c, c.now, input).history.tries == c.history.tries
  {
    hide HostKey;
  }
}
