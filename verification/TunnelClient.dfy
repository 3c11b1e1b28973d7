/** The session loop as the client runs it: one object whose fields the loop reassigns, proved to make
    exactly the steps that SessionLoop describes. */
module TunnelClient {
  import opened Prelude
  import opened Gateways
  import opened Cooldowns
  import opened Election
  import opened SessionLoop
  import Engine
  import Reelection

  // ----- where to look the region list up -----

  predicate Usable(regions: Regions, name: string, failed: Url) {
    name in regions && regions[name].text != "" && HostKey(regions[name]) != HostKey(failed)
  }

  ghost predicate AnyUsable(regions: Regions, failed: Url) {
    exists n :: Usable(regions, n, failed)
  }

  ghost predicate IsUsable(regions: Regions, failed: Url, url: Url) {
    exists n :: Usable(regions, n, failed) && regions[n] == url
  }

  /** The places discovery may point to: central if it is usable, in the present list before the primary's,
      then any usable gateway in the same order, and nowhere exactly when none is usable. */
  ghost predicate Discovers(regions: Regions, primary: Regions, failed: Url, r: Option<Url>) {
    if Usable(regions, "central", failed) then r == Some(regions["central"])
    else if Usable(primary, "central", failed) then r == Some(primary["central"])
    else if AnyUsable(regions, failed) then r.Some? && IsUsable(regions, failed, r.value)
    else if AnyUsable(primary, failed) then r.Some? && IsUsable(primary, failed, r.value)
    else r.None?
  }

  /** Discovery never points back at the gateway that failed, under any of its names. */
  lemma DiscoveryLeavesTheFailedGateway(regions: Regions, primary: Regions, failed: Url, r: Option<Url>)
    requires Discovers(regions, primary, failed, r)
    ensures r.Some? ==> HostKey(r.value) != HostKey(failed) && r.value.text != ""
    ensures r.None? <==> !AnyUsable(regions, failed) && !AnyUsable(primary, failed)
  {
  }

  /** Central is asked before any gateway, and the present list before the primary's; never a blank URL, and never
      the failed gateway's host under another name. */
  lemma DiscoveryPrefersCentral(regions: Regions, primary: Regions, failed: Url, r: Option<Url>)
    requires Discovers(regions, primary, failed, r)
    ensures "central" in regions && regions["central"].text != "" && HostKey(regions["central"]) != HostKey(failed) ==>
              r == Some(regions["central"])
    ensures r.Some? ==> r.value in regions.Values + primary.Values
    ensures ("central" !in regions || regions["central"].text == "" || HostKey(regions["central"]) == HostKey(failed))
            && "central" in primary && primary["central"].text != ""
            && HostKey(primary["central"]) != HostKey(failed) ==>
              r == Some(primary["central"])
  {
    hide HostKey;
  }

  method FirstUsable(regions: Regions, failed: Url) returns (r: Option<Url>)
    ensures if AnyUsable(regions, failed) then r.Some? && IsUsable(regions, failed, r.value) else r.None?
  {
    var todo := regions.Keys;
    while todo != {}
      invariant todo <= regions.Keys
      invariant forall n :: n in regions.Keys - todo ==> !Usable(regions, n, failed)
      decreases |todo|
    {
      var name :| name in todo;
      if Usable(regions, name, failed) {
        return Some(regions[name]);
      }
      todo := todo - {name};
    }
    return None;
  }

  method RegionDiscoveryUrl(regions: Regions, primary: Regions, failed: Url) returns (r: Option<Url>)
    ensures Discovers(regions, primary, failed, r)
  {
    if Usable(regions, "central", failed) {
      return Some(regions["central"]);
    }
    if Usable(primary, "central", failed) {
      return Some(primary["central"]);
    }
    r := FirstUsable(regions, failed);
    if r.None? {
      r := FirstUsable(primary, failed);
    }
  }

  // ----- the client -----

  class TunnelClient {
    const pinned: bool
    const requested: string
    const engine: Engine.InterceptorEngine
    const cooldowns: RegionCooldowns
    const reelection: Reelection.ReelectionState
    var cfg: Config
    var record: Endpoint
    var primary: Primary
    var lastFailbackAt: Option<int>
    var now: int
    ghost var history: History

    ghost function View(): Client
      reads this, engine, cooldowns, reelection
    {
      Client(pinned, requested, cfg, engine.View(), record, cooldowns.until, reelection.View(), primary,
             lastFailbackAt, now, history)
    }

    constructor (pinned: bool, requested: string, cfg: Config, now: int)
      ensures View() == Start(pinned, requested, cfg, now)
      ensures fresh(engine) && fresh(cooldowns) && fresh(reelection)
    {
      var e := new Engine.InterceptorEngine(cfg.region, cfg.url, CentralOf(cfg.regions));
      var c := new RegionCooldowns();
      var r := new Reelection.ReelectionState();
      this.pinned, this.requested, this.cfg, this.now := pinned, requested, cfg, now;
      engine, cooldowns, reelection := e, c, r;
      record := Endpoint(cfg.region, cfg.url);
      primary := Primary(cfg.region, cfg.url, cfg.regions);
      lastFailbackAt := None;
      history := History([], [], [], [], [], []);
    }

    method RunHook(ghost hook: Hook, took: nat)
      modifies this
      ensures View() == Fire(old(View()), hook, took)
    {
      now := now + took;
      history := history.(hooks := history.hooks + [hook]);
    }

    /** Commits a successful re-registration to every place the endpoint is recorded. */
    method ApplySession(startedTook: nat)
      modifies this, engine, cooldowns
      ensures View() == Applied(old(View()), startedTook)
    {
      engine.SetRegionEndpoint(cfg.region, cfg.url);
      engine.SetCentralUrl(CentralOf(cfg.regions));
      record := Endpoint(cfg.region, cfg.url);
      cooldowns.Clear(cfg.url);
      RunHook(Started, startedTook);
    }

    // ----- the workers of a session -----

    method HeartbeatTick(replies: seq<Engine.Reply>, ghost finished: set<Worker>) returns (ended: bool)
      requires history.sessions != []
      modifies this, engine
      ensures OnBeat(Session(old(View()), finished), replies) ==
              Session(View(), if ended then finished + {Heart} else finished)
    {
      ghost var raised;
      ended, raised := engine.HeartbeatTick(cfg.url, replies);
      history := history.(signals := history.signals + RaisedEvents(|history.sessions| - 1, raised));
    }

    method ProberTick(usable: bool, took: nat, ghost finished: set<Worker>) returns (ended: bool)
      modifies this, engine
      ensures OnProbe(Session(old(View()), finished), usable, took) ==
              Session(View(), if ended then finished + {Prober} else finished)
    {
      if primary.url.text == "" || primary.region == "" {
        return false;
      }
      if EqualFold(engine.selectedRegion, primary.region) {
        return false;
      }
      if now < engine.failbackSuppressedUntil {
        return false;
      }
      var cooling := cooldowns.IsCoolingDown(primary.url, now);
      if cooling {
        return false;
      }
      now := now + took;
      if usable {
        engine.RaiseFailback();
      }
      return usable;
    }

    method MigratorTick(drain: nat, ghost finished: set<Worker>) returns (ended: bool)
      modifies this
      ensures OnMigrate(Session(old(View()), finished), drain) ==
              Session(View(), if ended then finished + {Migrator} else finished)
    {
      if pinned || engine.migrateOnShutdownAt == 0 {
        return false;
      }
      now := now + drain;
      return true;
    }

    method WatcherTick(roster: Regions, fetchTook: nat, table: Latencies, probeTook: nat,
                       ghost finished: set<Worker>)
      returns (ended: bool)
      requires history.sessions != []
      modifies this, engine, cooldowns, reelection
      ensures OnWatch(Session(old(View()), finished), roster, fetchTook, table, probeTook) ==
              Session(View(), if ended then finished + {Watcher} else finished)
    {
      hide Reconsidered;
      if pinned || |cfg.regions| == 0 {
        return false;
      }
      var changed := engine.ConsumeNodeSetChange();
      if !changed {
        return false;
      }
      history := history.(signals := history.signals + [Consumed(Engine.NodeSetChange, |history.sessions| - 1)]);
      ended := Reconsider(roster, fetchTook, table, probeTook, finished);
    }

    method Reconsider(roster: Regions, fetchTook: nat, table: Latencies, probeTook: nat, ghost finished: set<Worker>)
      returns (ended: bool)
      requires history.sessions != []
      modifies this, cooldowns, reelection
      ensures Reconsidered(Session(old(View()), finished), roster, fetchTook, table, probeTook) ==
              Session(View(), if ended then finished + {Watcher} else finished)
    {
      hide Reelection.Choose;
      var throttled := reelection.IsThrottled(now);
      if throttled {
        return false;
      }
      now := now + fetchTook;
      ghost var fetched := View();
      var target := Reelection.ChooseReelectionTarget(cooldowns, now, cfg.url, requested, roster, table);
      now := now + probeTook;
      if target.None? {
        return false;
      }
      ghost var done := View();
      reelection.Propose(target.value, now);
      history := history.(proposals := history.proposals
        + [Proposal(|history.sessions| - 1, fetched.now, now, fetched.until, roster, target.value)]);
      assert View() == Proposing(done, fetched, roster, target.value);
      return true;
    }

    method TickOnce(tick: Tick, finished: set<Worker>) returns (after: set<Worker>)
      requires history.sessions != []
      modifies this, engine, cooldowns, reelection
      ensures OnTick(Session(old(View()), finished), tick) == Session(View(), after)
    {
      hide OnBeat, OnProbe, OnMigrate, OnWatch;
      now := now + tick.wait;
      if WorkerOf(tick) in finished {
        return finished;
      }
      var ended: bool;
      match tick {
        case Beat(_, replies) => ended := HeartbeatTick(replies, finished);
        case Probe(_, usable, took) => ended := ProberTick(usable, took, finished);
        case Migrate(_, drain) => ended := MigratorTick(drain, finished);
        case Watch(_, roster, fetchTook, table, probeTook) =>
          ended := WatcherTick(roster, fetchTook, table, probeTook, finished);
      }
      return if ended then finished + {WorkerOf(tick)} else finished;
    }

    /** One session, from the start of its workers until it returns. */
    method Serve(ticks: seq<Tick>, idle: nat, ghost input: Input)
      requires input.ticks == ticks && input.idle == idle
      modifies this, engine, cooldowns, reelection
      ensures View() == Served(old(View()), input)
    {
      engine.ResetNodeSet();
      history := history.(sessions := history.sessions + [cfg.url]);
      var finished: set<Worker> := {};
      ghost var end := RunTicks(Session(View(), {}), ticks);
      var i := 0;
      while i < |ticks|
        invariant 0 <= i <= |ticks|
        invariant history.sessions != []
        invariant RunTicks(Session(View(), finished), ticks[i..]) == end
      {
        ghost var before := Session(View(), finished);
        finished := TickOnce(ticks[i], finished);
        assert ticks[i..][0] == ticks[i] && ticks[i..][1..] == ticks[i + 1..];
        i := i + 1;
      }
      now := now + idle;
    }

    // ----- registering again -----

    /** Refreshes the roster, drops what is cooling and elects a gateway; the region is cleared first,
        so the election is always made afresh. */
    method ResolveServerUrl(a: Attempt) returns (elected: bool)
      modifies this, cooldowns
      ensures Elected(RosterResolved(old(View()), a), a) == Tried(View(), elected)
    {
      hide Fastest, Measure, Available, Reaped;
      cfg := cfg.(region := "");
      now := now + a.fetchTook;
      var advertised := if |a.fetched| == 0 then cfg.regions else a.fetched;
      assert |a.fetched| == 0 <==> a.fetched == map[];
      var open := cooldowns.Filter(advertised, now);
      cfg := cfg.(regions := open);
      assert View() == RosterResolved(old(View()), a);
      if |open| == 0 {
        assert open == map[];
        return false;
      }
      if a.cached in open {
        cfg := cfg.(region := a.cached, url := open[a.cached]);
        return true;
      }
      now := now + a.probeTook;
      var rtts := Reelection.ProbeRegionLatencies(open, a.table);
      assert rtts.Keys <= open.Keys by { MeasuredNamesAreOffered(open, a.table); }
      var best := FastestRegion(rtts);
      if best == "" {
        return false;
      }
      cfg := cfg.(region := best, url := open[best]);
      return true;
    }

    method AttemptRegistration(a: Attempt) returns (asked: bool)
      requires history.sessions != []
      modifies this, cooldowns
      ensures Asked(old(View()), a) == Tried(View(), asked)
    {
      hide Elected, RosterResolved;
      ghost var before := View();
      var elected := ResolveServerUrl(a);
      ResolvedFrame(before, a);
      if cfg.url.text == "" {
        return false;
      }
      now := now + a.registration.took;
      history := history.(tries := history.tries
        + [Try(|history.sessions| - 1, Advertised(before, a), before.until, before.now + a.fetchTook,
               elected, cfg.url, a.registration.outcome.Retryable?)]);
      return true;
    }

    /** Tries up to four gateways, holding out each that refuses and pausing twice as long each time. */
    method ReregisterAcrossRegions(attempts: Attempts) returns (outcome: Outcome)
      requires history.sessions != []
      modifies this, cooldowns
      ensures Reregister(old(View()), attempts, FAILOVER_RETRY_BACKOFF) == Failover(View(), outcome)
    {
      hide Asked;
      var backoff := FAILOVER_RETRY_BACKOFF;
      ghost var end := Reregister(View(), attempts, backoff);
      var attempt := 0;
      while attempt < MAX_FAILOVER_ATTEMPTS
        invariant 0 <= attempt <= MAX_FAILOVER_ATTEMPTS && history.sessions != []
        invariant backoff > 0
        invariant Reregister(View(), attempts[attempt..], backoff) == end
      {
        var a := attempts[attempt];
        ghost var before := View();
        assert attempts[attempt..][0] == a && attempts[attempt..][1..] == attempts[attempt + 1..];
        var asked := AttemptRegistration(a);
        if !asked {
          return Retryable;
        }
        if !a.registration.outcome.Retryable? {
          return a.registration.outcome;
        }
        attempt := attempt + 1;
        ghost var refused := View();
        cooldowns.Exclude(cfg.url, now, REGION_FAILOVER_COOLDOWN);
        if attempt < MAX_FAILOVER_ATTEMPTS {
          now := now + backoff;
        }
        assert View() == HeldOut(refused, if attempt < MAX_FAILOVER_ATTEMPTS then backoff else 0);
        backoff := 2 * backoff;
      }
      return Retryable;
    }

    method ReregisterSameGateway(tries: seq<Registration>) returns (outcome: Outcome)
      modifies this
      ensures Retried(old(View()), tries, SAME_GATEWAY_RETRY_BACKOFF) == Failover(View(), outcome)
    {
      var backoff := SAME_GATEWAY_RETRY_BACKOFF;
      ghost var end := Retried(View(), tries, backoff);
      var i := 0;
      while i < |tries|
        invariant 0 <= i <= |tries| && backoff > 0
        invariant Retried(View(), tries[i..], backoff) == end
      {
        assert tries[i..][0] == tries[i] && tries[i..][1..] == tries[i + 1..];
        now := now + tries[i].took;
        if !tries[i].outcome.Retryable? {
          return tries[i].outcome;
        }
        now := now + backoff;
        if backoff < SAME_GATEWAY_RETRY_CAP {
          backoff := 2 * backoff;
          if backoff > SAME_GATEWAY_RETRY_CAP {
            backoff := SAME_GATEWAY_RETRY_CAP;
          }
        }
        i := i + 1;
      }
      return Retryable;
    }

    // ----- one iteration -----

    method TakeLeaseLost() returns (lost: bool)
      requires history.sessions != []
      modifies this, engine
      ensures lost == old(engine.leaseLost) && View() == LeaseLostTaken(old(View()))
    {
      lost := engine.ConsumeLeaseLost();
      if lost {
        history := history.(signals := history.signals + [Consumed(Engine.LeaseLost, |history.sessions| - 1)]);
      }
    }

    method TakeShutdownMigration() returns (planned: bool)
      requires history.sessions != []
      modifies this, engine
      ensures planned == (old(engine.migrateOnShutdownAt) != 0) && View() == MigrationTaken(old(View()))
    {
      var at;
      at, planned := engine.ConsumeShutdownMigration();
      if planned {
        history := history.(signals := history.signals + [Consumed(Engine.ShutdownMigration, |history.sessions| - 1)]);
      }
    }

    method JudgeSession(ghost returned: int)
      requires history.sessions != []
      modifies this, engine, cooldowns
      ensures View() == Judged(old(View()), returned) && history.sessions == old(history.sessions)
    {
      history := history.(failbacks := history.failbacks + [Ended(|history.sessions| - 1, returned, now)]);
      if lastFailbackAt.Some? && now - lastFailbackAt.value < FAILBACK_EVICTION_WINDOW {
        engine.SuppressFailback(now, Engine.FAILBACK_SUPPRESSION);
        cooldowns.Exclude(cfg.url, now, Engine.FAILBACK_SUPPRESSION);
        lastFailbackAt := None;
      }
    }

    method FailBack(registration: Registration, startedTook: nat) returns (ok: bool)
      modifies this, engine, cooldowns
      ensures TryFailback(old(View()), registration, startedTook) == Tried(View(), ok)
    {
      var fallback := cfg;
      cfg := Config(primary.region, primary.url, primary.regions);
      history := history.(failbacks := history.failbacks + [Attempted(now)]);
      now := now + registration.took;
      if registration.outcome.Registered? {
        ApplySession(startedTook);
        lastFailbackAt := Some(now);
        history := history.(failbacks := history.failbacks + [Established(|history.sessions|, now)]);
        return true;
      }
      cooldowns.Exclude(primary.url, now, REGION_FAILOVER_COOLDOWN);
      cfg := cfg.(region := fallback.region, url := fallback.url);
      return false;
    }

    method Move(target: Reelection.Target, registration: Registration, startedTook: nat, ghost before: Client)
      returns (ok: bool)
      requires View() == before.(reelection := before.reelection.(pending := None))
      modifies this, engine, cooldowns
      ensures TryMove(before, target, registration, startedTook) == Tried(View(), ok)
    {
      hide Applied, Excluded;
      var fallback := cfg;
      cfg := cfg.(region := target.region, url := target.url);
      if |target.regions| > 0 {
        cfg := cfg.(regions := target.regions);
      }
      now := now + registration.took;
      if registration.outcome.Registered? {
        cooldowns.Exclude(fallback.url, now, REGION_FAILOVER_COOLDOWN);
        primary := Primary(cfg.region, cfg.url, cfg.regions);
        ApplySession(startedTook);
        return true;
      }
      cooldowns.Exclude(target.url, now, REGION_FAILOVER_COOLDOWN);
      cfg := cfg.(region := fallback.region, url := fallback.url);
      return false;
    }

    method Reconnect(input: Input) returns (more: bool)
      requires history.sessions != []
      modifies this, engine, cooldowns
      ensures Reconnected(old(View()), input) == Stepped(more, View())
    {
      hide Applied, Retried;
      if input.fault {
        return false;
      }
      if pinned {
        RunHook(Stopped, input.stoppedTook);
        RunHook(Starting, input.startingTook);
      }
      var leaseLost := TakeLeaseLost();
      var outcome := ReregisterSameGateway(input.same);
      if !outcome.Registered? {
        return false;
      }
      ApplySession(input.startedTook);
      return true;
    }

    /** Holds the gateway that failed out and points the client where the region list can be looked up. */
    method ExcludeFailedRegion(planned: bool) returns (ghost found: Option<Url>)
      modifies this, cooldowns
      ensures View() == FailedRegionExcluded(old(View()), planned, found) && history == old(history)
      ensures Discovers(old(cfg.regions), old(primary.regions), old(cfg.url), found)
    {
      hide Discovers, HostKey;
      var failed := cfg.url;
      cooldowns.Exclude(failed, now, if planned then PLANNED_SHUTDOWN_COOLDOWN else REGION_FAILOVER_COOLDOWN);
      var discovery := RegionDiscoveryUrl(cfg.regions, primary.regions, failed);
      found := discovery;
      if discovery.Some? {
        cfg := cfg.(url := discovery.value);
      }
    }

    method FailOver(keep: bool, planned: bool, input: Input) returns (more: bool, ghost found: Option<Url>)
      requires history.sessions != []
      modifies this, engine, cooldowns
      ensures FailedOver(old(View()), keep, planned, input.(discovery := found)) == Stepped(more, View())
      ensures |old(cfg.regions)| > 0 && !keep ==> Discovers(old(cfg.regions), old(primary.regions), old(cfg.url), found)
    {
      hide Reconnected, Reregister, Applied, Discovers, FailedRegionExcluded;
      found := None;
      if |cfg.regions| == 0 {
        more := Reconnect(input);
        ReconnectingIgnoresDiscovery(old(View()), input, found);
        return more, found;
      }
      if !keep {
        found := ExcludeFailedRegion(planned);
      }
      var outcome := ReregisterAcrossRegions(input.attempts);
      if !outcome.Registered? {
        return false, found;
      }
      ApplySession(input.startedTook);
      return true, found;
    }

    method MoveOrFailOver(keep: bool, planned: bool, input: Input) returns (more: bool, ghost found: Option<Url>)
      requires history.sessions != []
      modifies this, engine, cooldowns, reelection
      ensures MovedOrFailedOver(old(View()), keep, planned, input.(discovery := found)) == Stepped(more, View())
    {
      hide FailedOver, TryMove;
      var target := reelection.Consume();
      if target.None? {
        more, found := FailOver(keep, planned, input);
        return more, found;
      }
      var ok := Move(target.value, input.move, input.startedTook, old(View()));
      if ok {
        return true, None;
      }
      TryKeepsSessions(old(View()), target.value, input.move, input.startedTook);
      more, found := FailOver(true, planned, input);
    }

    /** Runs the hooks for a lost session and takes every one-shot signal, each exactly once. */
    method TakeSignals(ghost returned: int, input: Input) returns (leaseLost: bool, planned: bool)
      requires history.sessions != []
      modifies this, engine, cooldowns
      ensures leaseLost == old(engine.leaseLost) && planned == (old(engine.migrateOnShutdownAt) != 0)
      ensures View() == Taken(old(View()), returned, input) && history.sessions == old(history.sessions)
    {
      hide Judged;
      RunHook(Stopped, input.stoppedTook);
      RunHook(Starting, input.startingTook);
      leaseLost := TakeLeaseLost();
      planned := TakeShutdownMigration();
      JudgeSession(returned);
    }

    /** A failback asked for is taken only while the primary is not cooling. */
    method TakeFailback() returns (ready: bool)
      modifies this, engine
      ensures ready == FailbackReady(old(View())) && View() == FailbackTaken(old(View()))
    {
      ready := engine.ConsumeFailback();
      if ready {
        var cooling := cooldowns.IsCoolingDown(primary.url, now);
        if cooling {
          ready := false;
        }
      }
    }

    method Recover(ghost returned: int, input: Input) returns (more: bool, ghost found: Option<Url>)
      requires history.sessions != []
      modifies this, engine, cooldowns, reelection
      ensures Recovered(old(View()), returned, input.(discovery := found)) == Stepped(more, View())
    {
      hide MovedOrFailedOver, TryFailback, Taken, FailbackReady;
      var leaseLost, planned := TakeSignals(returned, input);
      ghost var judged := View();
      TakingIgnoresDiscovery(old(View()), returned, input);
      var ready := TakeFailback();
      if ready {
        var ok := FailBack(input.failback, input.startedTook);
        if ok {
          return true, None;
        }
        var nowhere := Reelection.Target("", cfg.url, cfg.regions);
        TryKeepsSessions(FailbackTaken(judged), nowhere, input.failback, input.startedTook);
        more, found := MoveOrFailOver(true, planned, input);
        return more, found;
      }
      more, found := MoveOrFailOver(leaseLost, planned, input);
    }

    /** One round of the loop: serve a session, then recover from its end. */
    method Iterate(input: Input) returns (more: bool, ghost found: Option<Url>)
      modifies this, engine, cooldowns, reelection
      ensures SessionLoop.Iterate(old(View()), input.(discovery := found)) == Stepped(more, View())
    {
      hide Served, Recovered, Reconnected;
      found := None;
      Serve(input.ticks, input.idle, input);
      ServingIgnoresDiscovery(old(View()), input);
      ghost var returned := now - input.late;
      if input.stoppedInSession {
        return false, None;
      }
      if !pinned {
        RunHook(Stopping, input.stoppingTook);
      }
      if input.stopped {
        return false, None;
      }
      if pinned {
        ghost var told := View();
        more := Reconnect(input);
        ReconnectingIgnoresDiscovery(told, input, None);
        return more, None;
      }
      more, found := Recover(returned, input);
    }

    /** The loop: it makes a run of SessionLoop, with discovery answering as the rosters at hand allow. */
    method Loop(inputs: seq<Input>) returns (more: bool, ghost made: seq<Input>)
      modifies this, engine, cooldowns, reelection
      ensures SessionLoop.Run(old(View()), made) == Stepped(more, View())
      ensures |made| == |inputs|
      ensures forall i :: 0 <= i < |made| ==> made[i] == inputs[i].(discovery := made[i].discovery)
    {
      hide SessionLoop.Iterate;
      more, made := true, inputs;
      var i := 0;
      while i < |inputs| && more
        invariant 0 <= i <= |inputs| && |made| == |inputs|
        invariant forall j :: 0 <= j < |made| ==> made[j] == inputs[j].(discovery := made[j].discovery)
        invariant forall j :: i <= j < |made| ==> made[j] == inputs[j]
        invariant Run(old(View()), made[..i]) == Stepped(more, View())
      {
        ghost var found;
        ghost var before := View();
        more, found := Iterate(inputs[i]);
        ghost var done := made[..i];
        made := made[i := inputs[i].(discovery := found)];
        assert made[..i] == done && made[..i + 1] == done + [made[i]];
        RunSnoc(old(View()), done, made[i]);
        i := i + 1;
      }
      ghost var done := made[..i];
      assert made == done + made[i..];
      if more {
        assert made == done;
      } else {
        LeavingIsFinal(old(View()), done, made[i..]);
      }
    }
  }

  // ----- how the methods' results fit together -----

  ghost function Stepped(more: bool, c: Client): Step {
    if more then Continue(c) else Exit(c)
  }

  lemma MeasuredNamesAreOffered(regions: Regions, table: Latencies)
    ensures Measure(regions, table).Keys <= regions.Keys
  {
  }

  lemma ResolvedFrame(c: Client, a: Attempt)
    ensures RosterResolved(c, a).now == c.now + a.fetchTook
    ensures Elected(RosterResolved(c, a), a).client.history == c.history
  {
    hide Fastest, Measure, Available, Reaped;
  }

  lemma TryKeepsSessions(c: Client, target: Reelection.Target, registration: Registration, startedTook: nat)
    ensures TryMove(c, target, registration, startedTook).client.history.sessions == c.history.sessions
    ensures TryFailback(c, registration, startedTook).client.history.sessions == c.history.sessions
  {
  }

  lemma ReconnectingIgnoresDiscovery(c: Client, input: Input, found: Option<Url>)
    requires c.history.sessions != []
    ensures Reconnected(c, input.(discovery := found)) == Reconnected(c, input)
  {
    hide Retried, Applied;
  }

  lemma ServingIgnoresDiscovery(c: Client, input: Input)
    ensures forall found :: Served(c, input.(discovery := found)) == Served(c, input)
  {
    hide RunTicks;
  }

  lemma TakingIgnoresDiscovery(c: Client, returned: int, input: Input)
    requires c.history.sessions != []
    ensures forall found :: Taken(c, returned, input.(discovery := found)) == Taken(c, returned, input)
  {
  }

  lemma {:induction false} RunSnoc(c: Client, inputs: seq<Input>, last: Input)
    ensures Run(c, inputs + [last]) ==
            match Run(c, inputs)
            case Exit(end) => Exit(end)
            case Continue(next) => SessionLoop.Iterate(next, last)
    decreases |inputs|
  {
    hide SessionLoop.Iterate;
    var all := inputs + [last];
    if inputs == [] {
      assert all[1..] == [];
    } else {
      assert all[1..] == inputs[1..] + [last] && all[0] == inputs[0];
      match SessionLoop.Iterate(c, inputs[0])
      case Exit(_) =>
      case Continue(next) => RunSnoc(next, inputs[1..], last);
    }
  }

  lemma {:induction false} LeavingIsFinal(c: Client, inputs: seq<Input>, rest: seq<Input>)
    requires Run(c, inputs).Exit?
    ensures Run(c, inputs + rest) == Run(c, inputs)
    decreases |inputs|
  {
    hide SessionLoop.Iterate;
    if inputs != [] {
      var all := inputs + rest;
      assert all[1..] == inputs[1..] + rest && all[0] == inputs[0];
      match SessionLoop.Iterate(c, inputs[0])
      case Exit(_) =>
      case Continue(next) => LeavingIsFinal(next, inputs[1..], rest);
    }
  }
}
