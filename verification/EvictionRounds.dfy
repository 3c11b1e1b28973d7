/** Four rounds of a run in which a session that a failback established is lost while a pending move is refused. */
module EvictionRounds {
  import opened Prelude
  import opened Gateways
  import opened Cooldowns
  import opened Election
  import opened ExampleGateways
  import opened SessionLoop
  import opened SessionFailback
  import opened SessionHoldOff
  import Engine
  import Reelection

  /** How long a hook may run. */
  const HOOK_TIMEOUT := 15_000

  // ----- three gateways -----

  /** The region list without one of its names. */
  function Without(name: string): Regions {
    Three() - {name}
  }

  /** An attempt for which nothing is cached, the roster cannot be fetched, only us answers a probe, and
      registering there succeeds at once. */
  function ToUs(): Attempt {
    Attempt(map[], 0, "", map["us" := 1], 0, Registration(Registered, 0))
  }

  /** One iteration, with hooks of these lengths for the end of its session: a failback and a failover succeed, a
      move is refused. */
  ghost function Round(ticks: seq<Tick>, idle: nat, stoppingTook: nat, stoppedTook: nat, startingTook: nat): Input {
    Input(ticks, idle, 0, false, false, stoppingTook, false, stoppedTook, startingTook, 0, Registration(Registered, 0),
          Registration(Retryable, 0), Some(US), [ToUs(), ToUs(), ToUs(), ToUs()], [])
  }

  /** A client whose primary is eu, on a gateway, with the roster hash its last session saw. */
  ghost function On(region: string, url: Url, regions: Regions, until: Until, moves: Reelection.State,
                    lastFailbackAt: Option<int>, hash: string, now: int, h: History): Client
  {
    Client(false, "", Config(region, url, regions), Engine.Initial(region, url, NO_URL).(fingerprint := hash),
           Endpoint(region, url), until, moves, Primary("eu", EU, Three()), lastFailbackAt, now, h)
  }

  const NO_MOVES := Reelection.State(None, None)

  /** The move to ap that the watcher proposes, and that will be refused. */
  function ToAp(): Reelection.Target {
    Reelection.Target("ap", AP, Three())
  }

  function Proposed(at: int): Reelection.State {
    Reelection.State(Some(ToAp()), Some(at))
  }

  function Refused(lastAt: Option<int>): Reelection.State {
    Reelection.State(None, lastAt)
  }

  /** The engine on us while a failback is asked for. */
  function Asking(hash: string): Engine.State {
    Engine.Initial("us", US, NO_URL).(isFailback := true, fingerprint := hash)
  }

  /** Whatever is offered, us is the only gateway to answer, so the election goes there and succeeds. */
  lemma GoesToUs(c: Client, input: Input)
    requires c.history.sessions != [] && input.attempts[0] == ToUs()
    requires Available(c.until, c.cfg.regions, c.now) in [Without("eu"), Without("ap")]
    ensures var f := Reregister(c, input.attempts, FAILOVER_RETRY_BACKOFF);
            && f.outcome.Registered?
            && f.client == c.(cfg := Config("us", US, Available(c.until, c.cfg.regions, c.now)),
                              until := Reaped(c.until, c.cfg.regions, c.now),
                              history := c.history.(tries := f.client.history.tries))
  {
    hide Fastest, Measure, Available, Reaped;
    var regions := Available(c.until, c.cfg.regions, c.now);
    OnlyAnswerWins(regions, "us");
    var roster := RosterResolved(c, ToUs());
    assert roster.cfg.regions == regions;
    assert "us" in regions && regions["us"] == US && "" !in regions;
    assert Elected(roster, ToUs()) == Tried(roster.(cfg := roster.cfg.(region := "us", url := US)), true);
    assert Asked(c, ToUs()).ok;
  }

  /** A failover from eu, with one other gateway held out for 90 s. */
  lemma FailsOver(c: Client, held: string, input: Input)
    requires c.history.sessions != [] && c.cfg.regions == Three() && held in ["eu", "ap"]
    requires c.until == map[held := c.now + 90_000] && input.attempts[0] == ToUs() && input.startedTook == 0
    ensures var f := Reregister(c, input.attempts, FAILOVER_RETRY_BACKOFF);
            && f.outcome.Registered?
            && f.client == c.(cfg := Config("us", US, Without(held)),
                              history := c.history.(tries := f.client.history.tries))
  {
    hide Reregister, HostKey, Available, Reaped;
    OthersAreOffered(held, c.now);
    GoesToUs(c, input);
  }

  lemma OthersAreOffered(held: string, now: int)
    requires held in ["eu", "ap"]
    ensures var until: Until := map[held := now + 90_000];
            Available(until, Three(), now) == Without(held) && Reaped(until, Three(), now) == until
  {
    hide HostKey;
    Keys();
    var until: Until, regions := map[held := now + 90_000], Three();
    assert forall n :: n in regions ==> (Held(until, HostKey(regions[n]), now) <==> n == held);
    assert "us" in Cooldowns.Open(until, regions, now);
    assert Cooldowns.Open(until, regions, now) == Without(held);
  }

  // ----- the run, round by round -----

  /** One iteration of a timed run, with hooks within their timeout. */
  ghost predicate Leads(s: Client, r: Input, next: Client, p: Periods) {
    && Iterate(s, r) == Continue(next)
    && TicksWait(Session(Opened(s), {}), r.ticks, s.now, p)
    && HooksWithin([r], HOOK_TIMEOUT)
  }

  /** Losing eu: the client fails over to us. */
  lemma FirstRound(p: Periods) returns (h: History)
    ensures Leads(Start(false, "", Config("eu", EU, Three()), 0), Round([], 0, 0, 0, 0),
                  On("us", US, Without("eu"), map["eu" := 90_000], NO_MOVES, None, "", 0, h), p)
    ensures h.failbacks == [Ended(0, 0, 0)] && |h.sessions| == 1
  {
    hide Reregister, HostKey, MovedOrFailedOver, Cleared;
    Keys();
    var c, input := Start(false, "", Config("eu", EU, Three()), 0), Round([], 0, 0, 0, 0);
    var served := Served(c, input);
    assert served == c.(history := c.history.(sessions := [EU]));
    var told := Fire(served, Stopping, 0);
    var taken := FailbackTaken(Taken(told, 0, input));
    assert Iterate(c, input) == MovedOrFailedOver(taken, false, false, input);
    h := LeavesEu(taken, input);
  }

  lemma LeavesEu(c: Client, input: Input) returns (h: History)
    requires c.history.sessions != [] && input.attempts[0] == ToUs()
    requires input.discovery == Some(US) && input.startedTook == 0
    requires c == On("eu", EU, Three(), map[], NO_MOVES, None, "", 0, c.history)
    ensures MovedOrFailedOver(c, false, false, input) ==
            Continue(On("us", US, Without("eu"), map["eu" := 90_000], NO_MOVES, None, "", 0, h))
    ensures h.failbacks == c.history.failbacks && h.sessions == c.history.sessions
  {
    hide Reregister, HostKey;
    Keys();
    var away := FailedRegionExcluded(c, false, Some(US));
    FailsOver(away, "eu", input);
    h := MovedOrFailedOver(c, false, false, input).client.history;
    assert Cleared(map["eu" := 90_000], US) == map["eu" := 90_000];
  }

  // ----- round two: a proposed move and a failback at once -----

  function Beating(wait: nat, hash: string): Tick {
    Beat(wait, [Engine.Body(true, 0, hash, false)])
  }

  function Watching(): Tick {
    Watch(0, Three(), 0, map["us" := 100_000_000, "ap" := 10_000_000], 0)
  }

  /** The heartbeat sees the roster change, the prober finds eu usable, and the watcher, which was measuring by
      then, proposes ap. */
  function BusySession(heartbeat: nat, wait: nat): seq<Tick> {
    [Beating(heartbeat, "one"), Beating(heartbeat, "two"), Probe(wait, true, 0), Watching()]
  }

  lemma HashNoted(s: Session, wait: nat, hash: string)
    requires s.client.history.sessions != [] && s.finished == {} && s.client.cfg.url == US
    requires hash != "" && s.client.engine.central == NO_URL
    requires s.client.engine == Engine.Initial("us", US, NO_URL).(fingerprint := s.client.engine.fingerprint)
    ensures var c, end := s.client, OnTick(s, Beating(wait, hash));
            && end.finished == {}
            && end.client == c.(engine := Engine.FingerprintNoted(c.engine, hash), now := c.now + wait,
                                history := end.client.history)
            && end.client.history == c.history.(signals := end.client.history.signals)
  {
    hide Engine.Heartbeat;
    var c := Advance(s.client, wait);
    var replies := [Engine.Body(true, 0, hash, false)];
    Engine.CentralsReplyIsIgnored(c.engine, US, replies);
    assert OnTick(s, Beating(wait, hash)) == OnBeat(Session(c, {}), replies);
  }

  lemma ApIsChosen(until: Until, now: int)
    requires until == map["eu" := 90_000] && now >= 90_000
    ensures Reelection.Choose(until, now, US, "", Three(), Watching().table) == Some(ToAp())
    ensures Reaped(until, Three(), now) == map[]
  {
    hide HostKey, Fastest, Measure, Dedupe;
    Keys();
    var roster, table := Three(), Watching().table;
    NamesAreHosts(roster);
    assert Available(until, roster, now) == roster by {
      assert "eu" in Cooldowns.Open(until, roster, now);
      assert Cooldowns.Open(until, roster, now) == roster;
    }
    assert Reaped(until, roster, now) == map[] by {
      assert "eu" in roster && HostKey(roster["eu"]) == "eu";
    }
    assert "us" in NamesOf(Dedupe(roster), "us");
    ApWins();
  }

  lemma ApWins()
    ensures Fastest(Measure(Three(), Watching().table)) == "ap"
    ensures var rtts := Measure(Three(), Watching().table); "ap" in rtts && rtts["ap"] == 10_000_000
  {
    hide HostKey, Fastest, Measure;
    Keys();
    var rtts := Measure(Three(), Watching().table);
    MeasuresAnswers(Three(), Watching().table);
    assert rtts.Keys == {"us", "ap"};
    assert Beats(rtts, "ap", "us");
    assert Wins(rtts, rtts.Keys, "ap");
    FastestIsUnique(rtts, "ap");
  }

  lemma BusyUntilBoth(c: Client, heartbeat: nat, wait: nat, p: Periods)
    requires c == On("us", US, Without("eu"), map["eu" := 90_000], NO_MOVES, None, "", 0, c.history)
    requires wait >= 90_000 && p.heartbeat <= heartbeat && p.prober <= wait
    ensures var end := RunTicks(Session(Opened(c), {}), BusySession(heartbeat, wait)).client;
            var now := 2 * heartbeat + wait;
            && end == On("us", US, Without("eu"), map[], Proposed(now), None, "two", now,
                         end.history).(engine := Asking("two"))
            && end.history.sessions == c.history.sessions + [US] && end.history.failbacks == c.history.failbacks
    ensures TicksWait(Session(Opened(c), {}), BusySession(heartbeat, wait), 0, p)
  {
    hide OnTick, OnBeat, OnProbe, OnWatch, HostKey;
    Keys();
    var ticks, now := BusySession(heartbeat, wait), 2 * heartbeat + wait;
    var s0 := Session(Opened(c), {});
    var s1 := OnTick(s0, ticks[0]);
    HashNoted(s0, heartbeat, "one");
    var s2 := OnTick(s1, ticks[1]);
    HashNoted(s1, heartbeat, "two");
    assert "one"[0] != "two"[0];
    var s3 := OnTick(s2, ticks[2]);
    UsableAgain(s2, wait);
    var s4 := OnTick(s3, ticks[3]);
    MoveProposed(s3);
    RunsFour(s0, s1, s2, s3, s4, ticks, p);
  }

  lemma UsableAgain(s: Session, wait: nat)
    requires s.finished == {} && s.client.history.sessions != []
    requires !s.client.pinned && s.client.primary == Primary("eu", EU, Three()) && s.client.engine.region == "us"
    requires s.client.engine.suppressedUntil <= s.client.now + wait
    requires "eu" in s.client.until ==> s.client.until["eu"] <= s.client.now + wait
    ensures OnTick(s, Probe(wait, true, 0)) ==
            Session(Advance(s.client, wait).(engine := s.client.engine.(isFailback := true)), {Prober})
  {
    hide EqualFold;
    Keys();
    assert ProberMayAsk(Advance(s.client, wait));
    assert {} + {Prober} == {Prober};
  }

  lemma MoveProposed(s: Session)
    requires s.finished == {Prober} && s.client.history.sessions != [] && s.client.now >= 90_000
    requires s.client.cfg == Config("us", US, Without("eu")) && !s.client.pinned && s.client.requested == ""
    requires s.client.until == map["eu" := 90_000] && s.client.reelection == NO_MOVES && s.client.engine.nodeSetChanged
    ensures var c, end := s.client, OnTick(s, Watching());
            && end.client == c.(engine := c.engine.(nodeSetChanged := false), until := map[],
                                reelection := Proposed(c.now), history := end.client.history)
            && end.client.history.sessions == c.history.sessions
            && end.client.history.failbacks == c.history.failbacks
  {
    hide Reelection.Choose, Reaped, HostKey;
    ApIsChosen(s.client.until, s.client.now);
    assert "us" in Without("eu");
    assert |Without("eu")| > 0;
  }

  lemma RunsFour(s0: Session, s1: Session, s2: Session, s3: Session, s4: Session, ticks: seq<Tick>, p: Periods)
    requires |ticks| == 4 && s0.client.history.sessions != []
    requires s1 == OnTick(s0, ticks[0]) && s1.client.history.sessions != []
    requires s2 == OnTick(s1, ticks[1]) && s2.client.history.sessions != []
    requires s3 == OnTick(s2, ticks[2]) && s3.client.history.sessions != []
    requires s4 == OnTick(s3, ticks[3]) && s4.client.history.sessions != []
    requires InTime(ticks[0], s0.client.now, 0, p) && InTime(ticks[1], s1.client.now, 0, p)
    requires InTime(ticks[2], s2.client.now, 0, p) && InTime(ticks[3], s3.client.now, 0, p)
    ensures RunTicks(s0, ticks) == s4 && TicksWait(s0, ticks, 0, p)
  {
    hide OnTick, InTime;
    var rest := ticks[1..];
    assert rest[0] == ticks[1] && rest[1..][0] == ticks[2] && rest[1..][1..][0] == ticks[3];
    assert rest[1..][1..][1..] == [];
    assert RunTicks(s3, rest[1..][1..]) == s4 && TicksWait(s3, rest[1..][1..], 0, p);
    assert RunTicks(s2, rest[1..]) == s4 && TicksWait(s2, rest[1..], 0, p);
    assert RunTicks(s1, rest) == s4 && TicksWait(s1, rest, 0, p);
  }

  /** What an asked-for failback to eu comes to, from us; a pending move stays pending. */
  lemma FailsBack(c: Client, input: Input) returns (g: History)
    requires c.history.sessions != [] && input.startedTook == 0 && input.failback == Registration(Registered, 0)
    requires input.stoppedTook == 0 && input.startingTook == 0
    requires c == On("us", US, c.cfg.regions, c.until, c.reelection, c.lastFailbackAt, "", c.now,
                     c.history).(engine := c.engine)
    requires c.engine == Asking(c.engine.fingerprint)
    requires "eu" !in c.until
    requires c.lastFailbackAt.Some? ==> c.now - c.lastFailbackAt.value >= FAILBACK_EVICTION_WINDOW
    ensures Recovered(c, c.now, input) ==
            Continue(On("eu", EU, Three(), c.until, c.reelection, Some(c.now), c.engine.fingerprint, c.now, g))
    ensures g.sessions == c.history.sessions
    ensures g.failbacks == c.history.failbacks
                           + [Ended(|c.history.sessions| - 1, c.now, c.now), Attempted(c.now),
                              Established(|c.history.sessions|, c.now)]
  {
    hide MovedOrFailedOver;
    Keys();
    var judged := Taken(c, c.now, input);
    assert FailbackReady(judged);
    var end := Recovered(c, c.now, input);
    g := end.client.history;
    assert Cleared(c.until, EU) == c.until;
    assert g.failbacks == c.history.failbacks
                          + [Ended(|c.history.sessions| - 1, c.now, c.now), Attempted(c.now),
                             Established(|c.history.sessions|, c.now)];
  }

  /** Back on us until eu's cooldown is over: the client fails back, and keeps the move to ap in mind. */
  lemma SecondRound(h: History, wait: nat, p: Periods) returns (g: History)
    requires h.failbacks == [Ended(0, 0, 0)] && |h.sessions| == 1 && wait >= 90_000 && p.prober <= wait
    ensures var now := 2 * p.heartbeat + wait;
            && Leads(On("us", US, Without("eu"), map["eu" := 90_000], NO_MOVES, None, "", 0, h),
                     Round(BusySession(p.heartbeat, wait), 0, 0, 0, 0),
                     On("eu", EU, Three(), map[], Proposed(now), Some(now), "two", now, g), p)
            && g.failbacks == h.failbacks + [Ended(1, now, now), Attempted(now), Established(2, now)]
    ensures |g.sessions| == 2
  {
    hide RunTicks, TicksWait, Recovered, BusySession;
    var c := On("us", US, Without("eu"), map["eu" := 90_000], NO_MOVES, None, "", 0, h);
    var input := Round(BusySession(p.heartbeat, wait), 0, 0, 0, 0);
    BusyUntilBoth(c, p.heartbeat, wait, p);
    g := FailsBack(Fire(Served(c, input), Stopping, 0), input);
  }

  // ----- rounds three and four: the session is lost, the move refused, the failback tried again -----

  /** After d the session on eu is lost, and the hooks for its end take k. Judged 20 s after the failback or later,
      it holds nothing off; and as the pending move is refused, eu is taken for a gateway never left. */
  lemma ThirdRound(h: History, start: int, d: nat, stoppingTook: nat, stoppedTook: nat, startingTook: nat, p: Periods)
    returns (g: History)
    requires |h.sessions| == 2 && d + stoppingTook + stoppedTook + startingTook >= FAILBACK_EVICTION_WINDOW
    requires stoppingTook <= HOOK_TIMEOUT && stoppedTook <= HOOK_TIMEOUT && startingTook <= HOOK_TIMEOUT
    ensures var judged := start + d + stoppingTook + stoppedTook + startingTook;
            && Leads(On("eu", EU, Three(), map[], Proposed(start), Some(start), "two", start, h),
                     Round([], d, stoppingTook, stoppedTook, startingTook),
                     On("us", US, Without("ap"), map["ap" := judged + 90_000], Refused(Some(start)), Some(start), "",
                        judged, g), p)
            && g.failbacks == h.failbacks + [Ended(2, start + d, judged)]
    ensures |g.sessions| == 3
  {
    hide MovedOrFailedOver, HostKey, Excluded;
    var c := On("eu", EU, Three(), map[], Proposed(start), Some(start), "two", start, h);
    var input := Round([], d, stoppingTook, stoppedTook, startingTook);
    var served := Served(c, input);
    var told := Fire(served, Stopping, stoppingTook);
    var hooked := Fire(Fire(told, Stopped, stoppedTook), Starting, startingTook);
    assert !EvictedAfterFailback(MigrationTaken(LeaseLostTaken(hooked)));
    var taken := FailbackTaken(Taken(told, start + d, input));
    assert Iterate(c, input) == MovedOrFailedOver(taken, false, false, input);
    g := MoveIsRefused(taken, input);
  }

  lemma MoveIsRefused(c: Client, input: Input) returns (g: History)
    requires c.history.sessions != [] && c.reelection.lastAt.Some?
    requires input.attempts[0] == ToUs() && input.startedTook == 0 && input.move == Registration(Retryable, 0)
    requires c == On("eu", EU, Three(), map[], Proposed(c.reelection.lastAt.value), c.lastFailbackAt, "", c.now,
                     c.history)
    ensures MovedOrFailedOver(c, false, false, input) ==
            Continue(On("us", US, Without("ap"), map["ap" := c.now + 90_000],
                        Refused(c.reelection.lastAt), c.lastFailbackAt, "", c.now, g))
    ensures g.failbacks == c.history.failbacks && g.sessions == c.history.sessions
  {
    hide FailedOver, HostKey;
    Keys();
    var m := TryMove(c, ToAp(), input.move, input.startedTook);
    assert m == Tried(c.(reelection := Refused(c.reelection.lastAt),
                         until := map["ap" := c.now + 90_000]), false);
    assert MovedOrFailedOver(c, false, false, input) == FailedOver(m.client, true, false, input);
    g := StaysACandidate(m.client, input);
  }

  /** Eu was not left for any fault of its own, but us is elected. */
  lemma StaysACandidate(c: Client, input: Input) returns (g: History)
    requires c.history.sessions != [] && input.attempts[0] == ToUs() && input.startedTook == 0
    requires c == On("eu", EU, Three(), map["ap" := c.now + 90_000], Refused(c.reelection.lastAt),
                     c.lastFailbackAt, "", c.now, c.history)
    ensures FailedOver(c, true, false, input) ==
            Continue(On("us", US, Without("ap"), map["ap" := c.now + 90_000],
                        Refused(c.reelection.lastAt), c.lastFailbackAt, "", c.now, g))
    ensures g.failbacks == c.history.failbacks && g.sessions == c.history.sessions
  {
    hide Reregister, HostKey, Reconnected;
    Keys();
    FailsOver(c, "ap", input);
    assert |Three()| > 0 by {
      assert "eu" in Three();
    }
    g := FailedOver(c, true, false, input).client.history;
    assert Cleared(map["ap" := c.now + 90_000], US) == map["ap" := c.now + 90_000];
  }

  /** A prober's period after that, it asks again, and the client tries another failback. */
  lemma FourthRound(h: History, judged: int, start: int, p: Periods) returns (g: History)
    requires |h.sessions| == 3 && judged >= 90_000 && judged - start >= FAILBACK_EVICTION_WINDOW
    ensures var again, until := judged + p.prober, map["ap" := judged + 90_000];
            && Leads(On("us", US, Without("ap"), until, Refused(Some(start)), Some(start), "", judged, h),
                     Round([Probe(p.prober, true, 0)], 0, 0, 0, 0),
                     On("eu", EU, Three(), until, Refused(Some(start)), Some(again), "", again, g), p)
            && h.failbacks + [Ended(3, again, again), Attempted(again)] <= g.failbacks
  {
    hide Recovered, OnTick, HostKey;
    Keys();
    var until: Until := map["ap" := judged + 90_000];
    var c := On("us", US, Without("ap"), until, Refused(Some(start)), Some(start), "", judged, h);
    var input := Round([Probe(p.prober, true, 0)], 0, 0, 0, 0);
    var s0 := Session(Opened(c), {});
    UsableAgain(s0, p.prober);
    var s1 := OnTick(s0, input.ticks[0]);
    assert input.ticks[1..] == [];
    assert RunTicks(s1, []) == s1 && TicksWait(s1, [], judged, p);
    assert RunTicks(s0, input.ticks) == s1;
    assert InTime(input.ticks[0], judged, judged, p);
    assert TicksWait(s0, input.ticks, judged, p);
    g := FailsBack(Fire(Served(c, input), Stopping, 0), input);
  }

  lemma HistoryOf(until: Until, moves: Reelection.State, lastFailbackAt: Option<int>, now: int, h: History)
    ensures On("eu", EU, Three(), until, moves, lastFailbackAt, "", now, h).history == h
  {
  }

  lemma NoRound(s: Client, p: Periods)
    ensures Run(s, []) == Continue(s) && Timed(s, [], p) && HooksWithin([], HOOK_TIMEOUT)
  {
  }

  lemma OneRound(s: Client, r: Input, next: Client, rest: seq<Input>, p: Periods) returns (inputs: seq<Input>)
    requires Leads(s, r, next, p) && Timed(next, rest, p) && HooksWithin(rest, HOOK_TIMEOUT)
    ensures Run(s, inputs) == Run(next, rest) && Timed(s, inputs, p) && HooksWithin(inputs, HOOK_TIMEOUT)
  {
    hide Iterate, TicksWait;
    inputs := [r] + rest;
    assert inputs[1..] == rest && [r][0] == r;
  }
}
