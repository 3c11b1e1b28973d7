/** The client's session loop as a function of everything the outside world decides: what gateways
    answer, how long things take, when the user stops the client. Times are milliseconds. */
module SessionLoop {
  import opened Prelude
  import opened Gateways
  import opened Cooldowns
  import opened Election
  import Engine
  import Reelection

  const FAILBACK_EVICTION_WINDOW := 20_000
  const FAILOVER_RETRY_BACKOFF := 1_000
  const SAME_GATEWAY_RETRY_BACKOFF := 1_000
  const SAME_GATEWAY_RETRY_CAP := 30_000
  const MAX_FAILOVER_ATTEMPTS := 4

  // ----- the client -----

  datatype Config = Config(region: string, url: Url, regions: Regions)

  /** What the state file records about where the client is. */
  datatype Endpoint = Endpoint(region: string, url: Url)

  datatype Primary = Primary(region: string, url: Url, regions: Regions)

  datatype Client = Client(
    pinned: bool,                  // named with -server: never moves
    requested: string,             // the region the user named, "" when none
    cfg: Config,
    engine: Engine.State,
    record: Endpoint,
    until: Until,
    reelection: Reelection.State,
    primary: Primary,
    lastFailbackAt: Option<int>,
    now: int,
    history: History)

  // ----- what happened, in order -----

  datatype Hook = Stopping | Stopped | Starting | Started

  datatype SignalEvent =
    | Raised(kind: Engine.SignalKind, session: nat, from: Url)
    | Consumed(kind: Engine.SignalKind, session: nat)

  /** Ended gives the instant the session returned and the later one at which the loop judged it,
      after the hooks for the end of a session had run. */
  datatype FailbackEvent =
    | Established(session: nat, at: int)
    | Ended(session: nat, returned: int, judged: int)
    | Attempted(at: int)

  /** A proposed move: when the roster was filtered, against which cooldowns, and when it was recorded. */
  datatype Proposal = Proposal(session: nat, decided: int, at: int, until: Until, roster: Regions,
      target: Reelection.Target)

  /** One attempt of a failover: what was advertised, the cooldowns it was filtered with and when,
      whether the election found a gateway, and where the attempt went. */
  datatype Try = Try(session: nat, advertised: Regions, until: Until, at: int, elected: bool, url: Url, failed: bool)

  datatype History = History(
    sessions: seq<Url>,            // the gateway of each session, by session number
    hooks: seq<Hook>,
    signals: seq<SignalEvent>,
    failbacks: seq<FailbackEvent>,
    proposals: seq<Proposal>,
    tries: seq<Try>)

  function SessionNumber(c: Client): nat
    requires c.history.sessions != []
  {
    |c.history.sessions| - 1
  }

  /** A client that has just registered for the first time. */
  function Start(pinned: bool, requested: string, cfg: Config, now: int): Client {
    Client(pinned, requested, cfg, Engine.Initial(cfg.region, cfg.url, CentralOf(cfg.regions)),
           Endpoint(cfg.region, cfg.url), map[], Reelection.State(None, None),
           Primary(cfg.region, cfg.url, cfg.regions), None, now, History([], [], [], [], [], []))
  }

  // ----- one session: the workers that run while it stands -----

  datatype Worker = Heart | Prober | Migrator | Watcher

  datatype Tick =
    | Beat(wait: nat, replies: seq<Engine.Reply>)
    | Probe(wait: nat, usable: bool, took: nat)
    | Migrate(wait: nat, drain: nat)
    | Watch(wait: nat, roster: Regions, fetchTook: nat, table: Latencies, probeTook: nat)

  /** A session in progress. A worker that has ended the session ticks no more; the others may still tick until
      the session returns and, as the loop cancels them only afterwards, while the stopping hook runs. */
  datatype Session = Session(client: Client, finished: set<Worker>)

  function Advance(c: Client, d: nat): Client {
    c.(now := c.now + d)
  }

  function RaisedEvents(session: nat, raised: seq<Engine.Signal>): seq<SignalEvent> {
    if raised == [] then []
    else RaisedEvents(session, raised[..|raised| - 1])
         + [Raised(raised[|raised| - 1].kind, session, raised[|raised| - 1].from)]
  }

  function WithSignals(c: Client, more: seq<SignalEvent>): Client {
    c.(history := c.history.(signals := c.history.signals + more))
  }

  function OnBeat(s: Session, replies: seq<Engine.Reply>): Session
    requires s.client.history.sessions != []
  {
    var c := s.client;
    var beat := Engine.Heartbeat(c.engine, c.cfg.url, replies);
    Session(WithSignals(c.(engine := beat.engine), RaisedEvents(SessionNumber(c), beat.raised)),
            if beat.ended then s.finished + {Heart} else s.finished)
  }

  /** Guards of the failback prober, in its order. */
  predicate ProberMayAsk(c: Client) {
    && c.primary.url.text != "" && c.primary.region != ""
    && !EqualFold(c.engine.region, c.primary.region)
    && c.now >= c.engine.suppressedUntil
    && !CoolingDown(c.until, c.primary.url, c.now)
  }

  function OnProbe(s: Session, usable: bool, took: nat): Session {
    if !ProberMayAsk(s.client) then s
    else
      var c := Advance(s.client, took);
      if usable then Session(c.(engine := c.engine.(isFailback := true)), s.finished + {Prober})
      else Session(c, s.finished)
  }

  function OnMigrate(s: Session, drain: nat): Session {
    if s.client.pinned || s.client.engine.migrateAt == 0 then s
    else Session(Advance(s.client, drain), s.finished + {Migrator})
  }

  function NodeSetTaken(c: Client): Client
    requires c.history.sessions != []
  {
    WithSignals(c.(engine := c.engine.(nodeSetChanged := false)), [Consumed(Engine.NodeSetChange, SessionNumber(c))])
  }

  ghost function OnWatch(s: Session, roster: Regions, fetchTook: nat, table: Latencies, probeTook: nat): Session
    requires s.client.history.sessions != []
  {
    if s.client.pinned || |s.client.cfg.regions| == 0 || !s.client.engine.nodeSetChanged then s
    else Reconsidered(Session(NodeSetTaken(s.client), s.finished), roster, fetchTook, table, probeTook)
  }

  /** The roster has changed: decide whether to move, and record the decision. */
  ghost function Reconsidered(s: Session, roster: Regions, fetchTook: nat, table: Latencies, probeTook: nat): Session
    requires s.client.history.sessions != []
  {
    var c := s.client;
    if Reelection.Throttled(c.reelection, c.now) then s
    else
      var fetched := Advance(c, fetchTook);
      var target := Reelection.Choose(fetched.until, fetched.now, fetched.cfg.url, fetched.requested, roster, table);
      var done := Advance(fetched.(until := Reaped(fetched.until, roster, fetched.now)), probeTook);
      if target.None? then Session(done, s.finished)
      else Session(Proposing(done, fetched, roster, target.value), s.finished + {Watcher})
  }

  function Proposing(c: Client, fetched: Client, roster: Regions, target: Reelection.Target): Client
    requires c.history.sessions != []
  {
    c.(reelection := Reelection.State(Some(target), Some(c.now)),
       history := c.history.(proposals := c.history.proposals
                               + [Proposal(SessionNumber(c), fetched.now, c.now, fetched.until, roster, target)]))
  }

  function WorkerOf(tick: Tick): Worker {
    match tick
    case Beat(_, _) => Heart
    case Probe(_, _, _) => Prober
    case Migrate(_, _) => Migrator
    case Watch(_, _, _, _, _) => Watcher
  }

  ghost function OnTick(s: Session, tick: Tick): Session
    requires s.client.history.sessions != []
  {
    var waited := Session(Advance(s.client, tick.wait), s.finished);
    if WorkerOf(tick) in s.finished then waited
    else
      match tick
      case Beat(_, replies) => OnBeat(waited, replies)
      case Probe(_, usable, took) => OnProbe(waited, usable, took)
      case Migrate(_, drain) => OnMigrate(waited, drain)
      case Watch(_, roster, fetchTook, table, probeTook) => OnWatch(waited, roster, fetchTook, table, probeTook)
  }

  ghost function RunTicks(s: Session, ticks: seq<Tick>): (end: Session)
    requires s.client.history.sessions != []
    ensures end.client.history.sessions == s.client.history.sessions
    decreases ticks
  {
    if ticks == [] then s else RunTicks(OnTick(s, ticks[0]), ticks[1..])
  }

  /** Starting a session: a new publisher of the roster hash, so the baseline starts empty. */
  function Opened(c: Client): Client {
    c.(engine := Engine.NodeSetReset(c.engine),
       history := c.history.(sessions := c.history.sessions + [c.cfg.url]))
  }

  // ----- registering -----

  datatype Outcome = Registered | Retryable | Terminal

  datatype Registration = Registration(outcome: Outcome, took: nat)

  /** One round of a failover: the roster fetched (empty when the fetch failed), the cached election if
      one is valid, the latencies a probe would find, and what registering there comes to. */
  datatype Attempt = Attempt(fetched: Regions, fetchTook: nat, cached: string, table: Latencies, probeTook: nat,
                             registration: Registration)

  type Attempts = a: seq<Attempt> | |a| == MAX_FAILOVER_ATTEMPTS ghost witness seq(MAX_FAILOVER_ATTEMPTS, _ =>
    Attempt(map[], 0, "", map[], 0, Registration(Terminal, 0)))

  /** What the world does during one iteration of the loop. */
  datatype Input = Input(
    ticks: seq<Tick>,
    idle: nat,                     // from the last tick until the session returned, or until its last worker stopped
    late: nat,                     // how long the workers outlasted the session, while its stopping hook ran
    fault: bool,                   // it returned a local error
    stoppedInSession: bool,        // the user stopped the client before it returned
    stoppingTook: nat,             // the rest of the stopping hook
    stopped: bool,                 // ... or by the time the stopping hook was done
    stoppedTook: nat,
    startingTook: nat,
    startedTook: nat,
    failback: Registration,
    move: Registration,
    discovery: Option<Url>,        // where the region list is looked up once a gateway has failed
    attempts: Attempts,
    same: seq<Registration>)       // registrations with the same gateway; the user stops after the last

  function Fire(c: Client, hook: Hook, took: nat): Client {
    c.(now := c.now + took, history := c.history.(hooks := c.history.hooks + [hook]))
  }

  /** Commits a successful registration to every place the endpoint is recorded. */
  function Applied(c: Client, startedTook: nat): Client {
    var committed := Engine.Committed(c.engine, c.cfg.region, c.cfg.url);
    Fire(c.(engine := committed.(central := CentralOf(c.cfg.regions)),
            record := Endpoint(c.cfg.region, c.cfg.url),
            until := Cleared(c.until, c.cfg.url)),
         Started, startedTook)
  }

  function LeaseLostTaken(c: Client): Client
    requires c.history.sessions != []
  {
    var taken := c.(engine := c.engine.(leaseLost := false));
    if c.engine.leaseLost then WithSignals(taken, [Consumed(Engine.LeaseLost, SessionNumber(c))]) else taken
  }

  function MigrationTaken(c: Client): Client
    requires c.history.sessions != []
  {
    var taken := c.(engine := c.engine.(migrateAt := 0));
    if c.engine.migrateAt != 0
    then WithSignals(taken, [Consumed(Engine.ShutdownMigration, SessionNumber(c))])
    else taken
  }

  function WithFailback(c: Client, event: FailbackEvent): Client {
    c.(history := c.history.(failbacks := c.history.failbacks + [event]))
  }

  predicate EvictedAfterFailback(c: Client) {
    c.lastFailbackAt.Some? && c.now - c.lastFailbackAt.value < FAILBACK_EVICTION_WINDOW
  }

  /** A session lost soon after a failback holds further failbacks off. */
  function Judged(c: Client, returned: int): Client
    requires c.history.sessions != []
  {
    var noted := WithFailback(c, Ended(SessionNumber(c), returned, c.now));
    if EvictedAfterFailback(c)
    then noted.(engine := noted.engine.(suppressedUntil := c.now + Engine.FAILBACK_SUPPRESSION),
                until := Excluded(noted.until, c.cfg.url, c.now, Engine.FAILBACK_SUPPRESSION),
                lastFailbackAt := None)
    else noted
  }

  predicate FailbackReady(c: Client) {
    c.engine.isFailback && !CoolingDown(c.until, c.primary.url, c.now)
  }

  function FailbackTaken(c: Client): Client {
    c.(engine := c.engine.(isFailback := false))
  }

  datatype Tried = Tried(client: Client, ok: bool)

  /** Registers with the primary; a failure puts the client back where it was, but keeps the roster. */
  function TryFailback(c: Client, registration: Registration, startedTook: nat): Tried {
    var gone := WithFailback(c.(cfg := Config(c.primary.region, c.primary.url, c.primary.regions)), Attempted(c.now));
    var asked := Advance(gone, registration.took);
    if registration.outcome.Registered?
    then
      var applied := Applied(asked, startedTook);
      Tried(WithFailback(applied.(lastFailbackAt := Some(applied.now)),
                         Established(|applied.history.sessions|, applied.now)), true)
    else
      Tried(asked.(until := Excluded(asked.until, c.primary.url, asked.now, REGION_FAILOVER_COOLDOWN),
                   cfg := asked.cfg.(region := c.cfg.region, url := c.cfg.url)), false)
  }

  /** Moves to the gateway the watcher chose, which becomes the primary. */
  function TryMove(c: Client, target: Reelection.Target, registration: Registration, startedTook: nat): Tried {
    var gone := c.(reelection := c.reelection.(pending := None),
                   cfg := Config(target.region, target.url,
                                 if |target.regions| > 0 then target.regions else c.cfg.regions));
    var asked := Advance(gone, registration.took);
    if registration.outcome.Registered?
    then
      Tried(Applied(asked.(until := Excluded(asked.until, c.cfg.url, asked.now, REGION_FAILOVER_COOLDOWN),
                           primary := Primary(asked.cfg.region, asked.cfg.url, asked.cfg.regions)), startedTook), true)
    else
      Tried(asked.(until := Excluded(asked.until, target.url, asked.now, REGION_FAILOVER_COOLDOWN),
                   cfg := asked.cfg.(region := c.cfg.region, url := c.cfg.url)), false)
  }

  /** Holds the gateway that failed out, and looks for the region list elsewhere. */
  function FailedRegionExcluded(c: Client, planned: bool, discovery: Option<Url>): Client {
    var cooldown := if planned then PLANNED_SHUTDOWN_COOLDOWN else REGION_FAILOVER_COOLDOWN;
    c.(until := Excluded(c.until, c.cfg.url, c.now, cooldown),
       cfg := if discovery.Some? then c.cfg.(url := discovery.value) else c.cfg)
  }

  function Advertised(c: Client, a: Attempt): Regions {
    if a.fetched == map[] then c.cfg.regions else a.fetched
  }

  /** Fetching the roster and dropping the gateways in cooldown. */
  function RosterResolved(c: Client, a: Attempt): Client {
    var fetched := Advance(c, a.fetchTook);
    var advertised := Advertised(c, a);
    fetched.(until := Reaped(fetched.until, advertised, fetched.now),
             cfg := fetched.cfg.(region := "", regions := Available(fetched.until, advertised, fetched.now)))
  }

  /** Electing a gateway from the resolved roster: the cached one while it is still offered, else the
      fastest to answer; no change when nothing answers. */
  ghost function Elected(c: Client, a: Attempt): Tried {
    var regions := c.cfg.regions;
    if regions == map[] then Tried(c, false)
    else if a.cached in regions then Tried(c.(cfg := c.cfg.(region := a.cached, url := regions[a.cached])), true)
    else
      var probed := Advance(c, a.probeTook);
      var best := Fastest(Measure(regions, a.table));
      if best == "" then Tried(probed, false)
      else Tried(probed.(cfg := c.cfg.(region := best, url := regions[best])), true)
  }

  function WithTry(c: Client, t: Try): Client {
    c.(history := c.history.(tries := c.history.tries + [t]))
  }

  datatype Failover = Failover(client: Client, outcome: Outcome)

  /** One round of a failover up to the answer of the gateway it elected. */
  ghost function Asked(c: Client, a: Attempt): (t: Tried)
    requires c.history.sessions != []
    ensures t.client.history.sessions == c.history.sessions
  {
    var roster := RosterResolved(c, a);
    var elected := Elected(roster, a);
    if elected.client.cfg.url.text == "" then Tried(elected.client, false)
    else
      Tried(WithTry(Advance(elected.client, a.registration.took),
                    Try(SessionNumber(c), Advertised(c, a), c.until, roster.now,
                        elected.ok, elected.client.cfg.url, a.registration.outcome.Retryable?)), true)
  }

  /** Takes the gateway that refused out of the running and pauses. */
  function HeldOut(c: Client, pause: nat): Client {
    Advance(c.(until := Excluded(c.until, c.cfg.url, c.now, REGION_FAILOVER_COOLDOWN)), pause)
  }

  /** Re-elects and registers, moving on to another gateway when a registration fails for a reason
      another one could satisfy. */
  ghost function Reregister(c: Client, attempts: seq<Attempt>, backoff: nat): (f: Failover)
    requires c.history.sessions != []
    ensures f.client.history.sessions == c.history.sessions
    decreases |attempts|
  {
    if attempts == [] then Failover(c, Retryable)
    else
      var asked := Asked(c, attempts[0]);
      var outcome := attempts[0].registration.outcome;
      if !asked.ok then Failover(asked.client, Retryable)
      else if !outcome.Retryable? then Failover(asked.client, outcome)
      else Reregister(HeldOut(asked.client, if |attempts| > 1 then backoff else 0), attempts[1..], 2 * backoff)
  }

  /** Registers with the same gateway until that succeeds, cannot succeed, or the user stops it. */
  function Retried(c: Client, tries: seq<Registration>, backoff: nat): (r: Failover)
    ensures r.client == c.(now := r.client.now) && r.client.now >= c.now
    decreases |tries|
  {
    if tries == [] then Failover(c, Retryable)
    else
      var asked := Advance(c, tries[0].took);
      if !tries[0].outcome.Retryable? then Failover(asked, tries[0].outcome)
      else
        Retried(Advance(asked, backoff), tries[1..],
                if backoff < SAME_GATEWAY_RETRY_CAP
                then if 2 * backoff > SAME_GATEWAY_RETRY_CAP then SAME_GATEWAY_RETRY_CAP else 2 * backoff
                else backoff)
  }

  // ----- one iteration -----

  datatype Step = Continue(client: Client) | Exit(client: Client)

  ghost function Served(c: Client, input: Input): (end: Client)
    ensures end.history.sessions == c.history.sessions + [c.cfg.url]
  {
    Advance(RunTicks(Session(Opened(c), {}), input.ticks).client, input.idle)
  }

  function Reconnected(c: Client, input: Input): Step
    requires c.history.sessions != []
  {
    if input.fault then Exit(c)
    else
      var hooked := if c.pinned then Fire(Fire(c, Stopped, input.stoppedTook), Starting, input.startingTook) else c;
      var r := Retried(LeaseLostTaken(hooked), input.same, SAME_GATEWAY_RETRY_BACKOFF);
      if r.outcome.Registered? then Continue(Applied(r.client, input.startedTook)) else Exit(r.client)
  }

  ghost function FailedOver(c: Client, keep: bool, planned: bool, input: Input): Step
    requires c.history.sessions != []
  {
    if |c.cfg.regions| == 0 then Reconnected(c, input)
    else
      var away := if keep then c else FailedRegionExcluded(c, planned, input.discovery);
      var f := Reregister(away, input.attempts, FAILOVER_RETRY_BACKOFF);
      if f.outcome.Registered? then Continue(Applied(f.client, input.startedTook)) else Exit(f.client)
  }

  ghost function MovedOrFailedOver(c: Client, keep: bool, planned: bool, input: Input): Step
    requires c.history.sessions != []
  {
    match c.reelection.pending
    case None => FailedOver(c, keep, planned, input)
    case Some(target) =>
      var m := TryMove(c, target, input.move, input.startedTook);
      if m.ok then Continue(m.client) else FailedOver(m.client, true, planned, input)
  }

  /** Where the recovery of a lost session stands once every one-shot signal has been taken. */
  function Taken(c: Client, returned: int, input: Input): Client
    requires c.history.sessions != []
  {
    var hooked := Fire(Fire(c, Stopped, input.stoppedTook), Starting, input.startingTook);
    Judged(MigrationTaken(LeaseLostTaken(hooked)), returned)
  }

  ghost function Recovered(c: Client, returned: int, input: Input): Step
    requires c.history.sessions != []
  {
    var leaseLost, planned := c.engine.leaseLost, c.engine.migrateAt != 0;
    var judged := Taken(c, returned, input);
    var ready := FailbackReady(judged);
    var taken := FailbackTaken(judged);
    if !ready then MovedOrFailedOver(taken, leaseLost, planned, input)
    else
      var f := TryFailback(taken, input.failback, input.startedTook);
      if f.ok then Continue(f.client) else MovedOrFailedOver(f.client, true, planned, input)
  }

  ghost function Iterate(c: Client, input: Input): Step {
    var served := Served(c, input);
    if input.stoppedInSession then Exit(served)
    else
      var told := if served.pinned then served else Fire(served, Stopping, input.stoppingTook);
      if input.stopped then Exit(told)
      else if told.pinned then Reconnected(told, input)
      else Recovered(told, served.now - input.late, input)
  }

  /** A run: the loop goes round until it leaves or the inputs end. */
  ghost function Run(c: Client, inputs: seq<Input>): Step
    decreases |inputs|
  {
    if inputs == [] then Continue(c)
    else
      match Iterate(c, inputs[0])
      case Exit(end) => Exit(end)
      case Continue(next) => Run(next, inputs[1..])
  }
}
