/** Where each way out of a lost session leaves the client, field by field and in numbers. */
module SessionResults {
  import opened Prelude
  import opened Gateways
  import opened Cooldowns
  import opened Election
  import opened SessionLoop
  import opened SessionInvariants
  import opened SessionRetries
  import Engine
  import Reelection

  // ----- standing on a gateway -----

  /** The client stands on a gateway wherever that is recorded; its control plane is the roster's, it is not held out,
      and what an earlier gateway announced is gone. */
  ghost predicate StandsOn(c: Client, region: string, url: Url, regions: Regions) {
    && c.cfg == Config(region, url, regions) && c.record == Endpoint(region, url)
    && c.engine.region == region && c.engine.url == url
    && c.engine.central == (if "central" in regions then regions["central"] else Url("", None))
    && HostKey(url) !in c.until
    && c.engine.warnedAt == 0 && c.engine.migrateAt == 0
  }

  /** All hosts but some are held out as before. */
  ghost predicate OthersHeldAlike(a: Until, b: Until, hosts: set<string>) {
    forall h :: h !in hosts ==> (h in a <==> h in b) && (h in a ==> a[h] == b[h])
  }

  lemma ApplyingStands(c: Client, startedTook: nat)
    requires c.cfg.url.text != ""
    ensures var end := Applied(c, startedTook);
            && (HostKey(c.cfg.url) != "" ==> StandsOn(end, c.cfg.region, c.cfg.url, c.cfg.regions))
            && OthersHeldAlike(end.until, c.until, {HostKey(c.cfg.url)})
            && end == c.(engine := end.engine, record := end.record, until := end.until, now := c.now + startedTook,
                         history := c.history.(hooks := c.history.hooks + [Started]))
            && end.engine == c.engine.(region := end.engine.region, url := end.engine.url,
                                       central := end.engine.central, warnedAt := 0, migrateAt := 0)
  {
    hide HostKey;
  }

  // ----- the one-shot signals and the judgement -----

  /** A session is an eviction if a failback was established less than 20 s before it is judged. */
  predicate Evicted(c: Client, at: int) {
    c.lastFailbackAt.Some? && at - c.lastFailbackAt.value < 20_000
  }

  /** The one-shot signals are taken, each noted if it was pending; an eviction suppresses failbacks and holds the
      gateway out for 45 s, and is forgotten. */
  lemma WhatIsTaken(c: Client, returned: int, input: Input)
    requires c.history.sessions != []
    ensures var t, at, n := Taken(c, returned, input), c.now + input.stoppedTook + input.startingTook, SessionNumber(c);
            && t.now == at && t.cfg == c.cfg && t.primary == c.primary && t.reelection == c.reelection
            && t.engine == c.engine.(leaseLost := false, migrateAt := 0,
                                     suppressedUntil := if Evicted(c, at) then at + 45_000
                                                        else c.engine.suppressedUntil)
            && t.until == (if Evicted(c, at) && HostKey(c.cfg.url) != "" then c.until[HostKey(c.cfg.url) := at + 45_000]
                           else c.until)
            && t.lastFailbackAt == (if Evicted(c, at) then None else c.lastFailbackAt)
            && t.history == c.history.(hooks := c.history.hooks + [Stopped, Starting],
                                       signals := c.history.signals
                                         + (if c.engine.leaseLost then [Consumed(Engine.LeaseLost, n)] else [])
                                         + (if c.engine.migrateAt != 0 then [Consumed(Engine.ShutdownMigration, n)]
                                            else []),
                                       failbacks := c.history.failbacks + [Ended(n, returned, at)])
  {
    hide Judged, LeaseLostTaken, MigrationTaken, HostKey;
    assert c.history.hooks + [Stopped] + [Starting] == c.history.hooks + [Stopped, Starting];
    var hooked := Fire(Fire(c, Stopped, input.stoppedTook), Starting, input.startingTook);
    SignalsAreTaken(hooked);
    Judging(MigrationTaken(LeaseLostTaken(hooked)), returned);
  }

  lemma SignalsAreTaken(c: Client)
    requires c.history.sessions != []
    ensures LeaseLostTaken(c).history.sessions != []
    ensures MigrationTaken(LeaseLostTaken(c)) ==
            c.(engine := c.engine.(leaseLost := false, migrateAt := 0),
               history := c.history.(signals := c.history.signals
                 + (if c.engine.leaseLost then [Consumed(Engine.LeaseLost, SessionNumber(c))] else [])
                 + (if c.engine.migrateAt != 0 then [Consumed(Engine.ShutdownMigration, SessionNumber(c))] else [])))
  {
    assert c.history.signals + [] == c.history.signals;
  }

  lemma Judging(c: Client, returned: int)
    requires c.history.sessions != []
    ensures Judged(c, returned) ==
            c.(engine := if Evicted(c, c.now) then c.engine.(suppressedUntil := c.now + 45_000) else c.engine,
               until := if Evicted(c, c.now) && HostKey(c.cfg.url) != ""
                        then c.until[HostKey(c.cfg.url) := c.now + 45_000] else c.until,
               lastFailbackAt := if Evicted(c, c.now) then None else c.lastFailbackAt,
               history := c.history.(failbacks := c.history.failbacks + [Ended(SessionNumber(c), returned, c.now)]))
  {
    hide HostKey;
  }

  // ----- failing back -----

  /** What recovery does next when it does not fail back: the pending move or a failover, keeping the region if the
      lease was lost. */
  lemma WithoutAFailback(c: Client, returned: int, input: Input)
    requires c.history.sessions != []
    requires var t := Taken(c, returned, input);
             !c.engine.isFailback || (HostKey(c.primary.url) != "" && Held(t.until, HostKey(c.primary.url), t.now))
    ensures var t := Taken(c, returned, input);
            Recovered(c, returned, input) ==
            MovedOrFailedOver(t.(engine := t.engine.(isFailback := false)), c.engine.leaseLost, c.engine.migrateAt != 0,
                              input)
  {
    hide MovedOrFailedOver, Taken, HostKey;
    WhatIsTaken(c, returned, input);
  }

  /** A failback that registers puts the client on its primary, with the primary's roster, and is remembered from when
      the client is up again; a pending move stays pending. */
  lemma AFailbackLands(c: Client, returned: int, input: Input)
    requires c.history.sessions != [] && HostKey(c.primary.url) != ""
    requires var t := Taken(c, returned, input);
             c.engine.isFailback && !Held(t.until, HostKey(c.primary.url), t.now)
    requires input.failback.outcome.Registered?
    ensures var t, step := Taken(c, returned, input), Recovered(c, returned, input);
            && step.Continue?
            && var end := step.client;
               && StandsOn(end, c.primary.region, c.primary.url, c.primary.regions)
               && end.now == t.now + input.failback.took + input.startedTook && end.lastFailbackAt == Some(end.now)
               && end.primary == c.primary && end.reelection == c.reelection && !end.engine.isFailback
               && OthersHeldAlike(end.until, t.until, {HostKey(c.primary.url)})
  {
    hide MovedOrFailedOver, Taken, HostKey, Applied, StandsOn, OthersHeldAlike;
    WhatIsTaken(c, returned, input);
    var taken := FailbackTaken(Taken(c, returned, input));
    var gone := WithFailback(taken.(cfg := Config(c.primary.region, c.primary.url, c.primary.regions)),
                             Attempted(taken.now));
    ApplyingStands(Advance(gone, input.failback.took), input.startedTook);
    OnlyNoted(Applied(Advance(gone, input.failback.took), input.startedTook), c.primary.region, c.primary.url,
              c.primary.regions);
  }

  lemma OnlyNoted(c: Client, region: string, url: Url, regions: Regions)
    requires StandsOn(c, region, url, regions)
    ensures forall at, event ::
              StandsOn(WithFailback(c.(lastFailbackAt := at), event), region, url, regions)
              && WithFailback(c.(lastFailbackAt := at), event).until == c.until
  {
    hide HostKey;
  }

  /** One that is refused holds the primary out for 90 s from the refusal and goes on from where the client was, with
      the primary's roster, keeping the region. */
  lemma AFailbackIsRefused(c: Client, returned: int, input: Input)
    requires c.history.sessions != [] && HostKey(c.primary.url) != ""
    requires var t := Taken(c, returned, input);
             c.engine.isFailback && !Held(t.until, HostKey(c.primary.url), t.now)
    requires !input.failback.outcome.Registered?
    ensures var t := Taken(c, returned, input);
            var at := t.now + input.failback.took;
            Recovered(c, returned, input) ==
            MovedOrFailedOver(
              t.(engine := t.engine.(isFailback := false), cfg := Config(c.cfg.region, c.cfg.url, c.primary.regions),
                 now := at, until := t.until[HostKey(c.primary.url) := at + 90_000],
                 history := t.history.(failbacks := t.history.failbacks + [Attempted(t.now)])),
              true, c.engine.migrateAt != 0, input)
  {
    hide MovedOrFailedOver, Taken, HostKey, Applied;
    WhatIsTaken(c, returned, input);
  }

  // ----- moving -----

  /** What a move takes along: the target's roster, or the present one if the target has none. */
  function RosterOf(c: Client, target: Reelection.Target): Regions {
    if target.regions == map[] then c.cfg.regions else target.regions
  }

  /** A move that registers makes its target the primary and holds the gateway left for 90 s. */
  lemma AMoveLands(c: Client, keep: bool, planned: bool, input: Input)
    requires c.history.sessions != [] && c.reelection.pending.Some? && input.move.outcome.Registered?
    requires HostKey(c.reelection.pending.value.url) != ""
    ensures var target, step := c.reelection.pending.value, MovedOrFailedOver(c, keep, planned, input);
            && step.Continue?
            && var end := step.client;
               && StandsOn(end, target.region, target.url, RosterOf(c, target))
               && end.primary == Primary(target.region, target.url, RosterOf(c, target))
               && end.reelection == c.reelection.(pending := None)
               && end.lastFailbackAt == c.lastFailbackAt
               && end.now == c.now + input.move.took + input.startedTook
               && (HostKey(c.cfg.url) != "" && HostKey(c.cfg.url) != HostKey(target.url) ==>
                     HostKey(c.cfg.url) in end.until
                     && end.until[HostKey(c.cfg.url)] == c.now + input.move.took + 90_000)
               && OthersHeldAlike(end.until, c.until, {HostKey(target.url), HostKey(c.cfg.url)})
  {
    hide FailedOver, HostKey, Applied, StandsOn;
    var target := c.reelection.pending.value;
    assert |target.regions| > 0 <==> target.regions != map[];
    var gone := c.(reelection := c.reelection.(pending := None),
                   cfg := Config(target.region, target.url, RosterOf(c, target)));
    var asked := Advance(gone, input.move.took);
    ApplyingStands(asked.(until := Excluded(asked.until, c.cfg.url, asked.now, REGION_FAILOVER_COOLDOWN),
                          primary := Primary(target.region, target.url, RosterOf(c, target))), input.startedTook);
  }

  /** One that is refused holds the target out for 90 s and goes on from where the client was, with the roster of the
      move, keeping the region; the primary stays what it was. */
  lemma AMoveIsRefused(c: Client, keep: bool, planned: bool, input: Input)
    requires c.history.sessions != [] && c.reelection.pending.Some? && !input.move.outcome.Registered?
    requires HostKey(c.reelection.pending.value.url) != ""
    ensures var target, at := c.reelection.pending.value, c.now + input.move.took;
            MovedOrFailedOver(c, keep, planned, input) ==
            FailedOver(c.(reelection := c.reelection.(pending := None), now := at,
                          cfg := Config(c.cfg.region, c.cfg.url, RosterOf(c, target)),
                          until := c.until[HostKey(target.url) := at + 90_000]), true, planned, input)
  {
    hide FailedOver, HostKey, Applied;
    var target := c.reelection.pending.value;
    assert |target.regions| > 0 <==> target.regions != map[];
  }

  lemma WithoutAMove(c: Client, keep: bool, planned: bool, input: Input)
    requires c.history.sessions != [] && c.reelection.pending.None?
    ensures MovedOrFailedOver(c, keep, planned, input) == FailedOver(c, keep, planned, input)
  {
  }

  // ----- failing over -----

  /** Where the attempts of a failover start: from the client as it is if the region is kept, else with its gateway
      held out, for an hour if it announced its stop and for 90 s if not, and discovery asked elsewhere. */
  ghost function FailoverStart(c: Client, keep: bool, planned: bool, discovery: Option<Url>): Client {
    if keep then c
    else
      c.(until := if HostKey(c.cfg.url) == "" then c.until
                  else c.until[HostKey(c.cfg.url) := c.now + (if planned then 3_600_000 else 90_000)],
         cfg := if discovery.None? then c.cfg else Config(c.cfg.region, discovery.value, c.cfg.regions))
  }

  /** A client with a roster re-elects, four times at most with a pause of a second that doubles; it goes on from the
      gateway that took it, and otherwise leaves. One without a roster comes back to the gateway it has. */
  lemma AFailoverLands(c: Client, keep: bool, planned: bool, input: Input)
    requires c.history.sessions != []
    ensures var step := FailedOver(c, keep, planned, input);
            if c.cfg.regions == map[] then step == Reconnected(c, input)
            else
              var f := Reregister(FailoverStart(c, keep, planned, input.discovery), input.attempts, 1_000);
              && |input.attempts| == 4
              && (f.outcome.Registered? <==> step.Continue?)
              && (step.Exit? ==> step.client == f.client)
              && (step.Continue? && HostKey(f.client.cfg.url) != "" ==>
                    && StandsOn(step.client, f.client.cfg.region, f.client.cfg.url, f.client.cfg.regions)
                    && step.client.now == f.client.now + input.startedTook
                    && OthersHeldAlike(step.client.until, f.client.until, {HostKey(f.client.cfg.url)}))
  {
    hide Reregister, Reconnected, HostKey, Applied, StandsOn;
    assert |c.cfg.regions| == 0 <==> c.cfg.regions == map[];
    var f := Reregister(FailoverStart(c, keep, planned, input.discovery), input.attempts, 1_000);
    if f.outcome.Registered? && HostKey(f.client.cfg.url) != "" {
      KeyedUrlsHaveText(f.client.cfg.url);
      ApplyingStands(f.client, input.startedTook);
    }
  }

  lemma KeyedUrlsHaveText(url: Url)
    ensures HostKey(url) != "" ==> url.text != ""
  {
  }

  /** The roster an attempt elects from: what was advertised last and is not held out, or all of it. */
  ghost function Offered(c: Client, a: Attempt): Regions {
    Available(c.until, if a.fetched == map[] then c.cfg.regions else a.fetched, c.now + a.fetchTook)
  }

  /** The gateway an attempt elects: the cached one while it is on offer, else the fastest to answer, else none. */
  ghost function ElectedBy(c: Client, a: Attempt): string {
    if a.cached in Offered(c, a) then a.cached else Fastest(Measure(Offered(c, a), a.table))
  }

  /** An attempt asks the gateway it elected, and the one the client had if it elected none and there is one. It takes
      the time of the fetch, of the probe unless the cache decided or nothing is on offer, and of the answer. */
  lemma AnAttemptAsks(c: Client, a: Attempt)
    requires c.history.sessions != []
    ensures var t, offered, name := Asked(c, a), Offered(c, a), ElectedBy(c, a);
            var probed := if offered == map[] || a.cached in offered then 0 else a.probeTook;
            && t.client.cfg == (if name == "" then Config("", c.cfg.url, offered)
                                else Config(name, offered[name], offered))
            && t.ok == (t.client.cfg.url.text != "")
            && t.client.now == c.now + a.fetchTook + probed + (if t.ok then a.registration.took else 0)
            && t.client.history.tries == c.history.tries
               + (if t.ok then [Try(SessionNumber(c), if a.fetched == map[] then c.cfg.regions else a.fetched, c.until,
                                    c.now + a.fetchTook, name != "", t.client.cfg.url,
                                    a.registration.outcome.Retryable?)]
                  else [])
  {
    hide Measure, Available, Reaped;
    NamesOnOffer(Offered(c, a), a.table);
    assert c.history.tries + [] == c.history.tries;
  }

  lemma NamesOnOffer(regions: Regions, table: Latencies)
    ensures var best := Fastest(Measure(regions, table));
            (best != "" ==> best in regions) && (regions == map[] ==> best == "") && (best == "" || best in regions)
  {
  }

  /** A failover goes on after a refusal that another gateway may not repeat, with the one that refused held out for
      90 s and a pause unless it was the last; any other answer decides at once, and so does having no gateway to
      ask. */
  lemma AttemptsFollowRefusals(c: Client, attempts: seq<Attempt>, backoff: nat)
    requires c.history.sessions != [] && attempts != []
    ensures var asked, outcome := Asked(c, attempts[0]), attempts[0].registration.outcome;
            var f := Reregister(c, attempts, backoff);
            && (!asked.ok ==> f == Failover(asked.client, Retryable))
            && (asked.ok && !outcome.Retryable? ==> f == Failover(asked.client, outcome))
            && (asked.ok && outcome.Retryable? && HostKey(asked.client.cfg.url) != "" ==>
                  var pause := if |attempts| == 1 then 0 else backoff;
                  var next := asked.client.(now := asked.client.now + pause,
                                            until := asked.client.until[HostKey(asked.client.cfg.url) :=
                                                                          asked.client.now + 90_000]);
                  f == if |attempts| == 1 then Failover(next, Retryable)
                       else Reregister(next, attempts[1..], 2 * backoff))
  {
    hide Asked, HostKey;
    if |attempts| == 1 {
      assert attempts[1..] == [];
    }
  }

  // ----- coming back to the same gateway -----

  /** A client whose session failed on this machine leaves. Any other registers with the gateway it has, a pinned one
      after its hooks, until an answer settles it: it stands there again if that took it, and leaves otherwise. */
  lemma ComingBack(c: Client, input: Input)
    requires c.history.sessions != [] && c.cfg.url.text != "" && HostKey(c.cfg.url) != ""
    ensures var step := Reconnected(c, input);
            var start := c.now + if c.pinned then input.stoppedTook + input.startingTook else 0;
            && (input.fault ==> step == Exit(c))
            && (step.Continue? <==> !input.fault && exists k: nat :: Settles(input.same, k)
                                                                     && input.same[k].outcome.Registered?)
            && (!input.fault ==> forall k: nat :: Settles(input.same, k) ==>
                  step.client.now == AnsweredAt(start, input.same, k)
                                     + (if input.same[k].outcome.Registered? then input.startedTook else 0))
            && (step.Continue? ==> StandsOn(step.client, c.cfg.region, c.cfg.url, c.cfg.regions)
                                   && OthersHeldAlike(step.client.until, c.until, {HostKey(c.cfg.url)}))
            && (!input.fault ==> !step.client.engine.leaseLost)
  {
    hide Retried, Applied, HostKey, StandsOn, Settles;
    if !input.fault {
      var hooked := if c.pinned then Fire(Fire(c, Stopped, input.stoppedTook), Starting, input.startingTook) else c;
      var taken := LeaseLostTaken(hooked);
      RetriesPauseAndSettle(taken, input.same);
      OneSettles(input.same);
      var r := Retried(taken, input.same, SAME_GATEWAY_RETRY_BACKOFF);
      ApplyingStands(r.client, input.startedTook);
    }
  }

  /** A pinned client never goes elsewhere: unless it is stopped, or its session failed on this machine, it comes back
      to its gateway as soon as that takes it. */
  lemma APinnedClientComesBack(c: Client, input: Input)
    requires c.pinned && HostKey(c.cfg.url) != "" && !input.stoppedInSession && !input.stopped
    ensures var step := Iterate(c, input);
            && (step.Continue? <==> !input.fault && exists k: nat :: Settles(input.same, k)
                                                                     && input.same[k].outcome.Registered?)
            && (step.Continue? ==> StandsOn(step.client, c.cfg.region, c.cfg.url, c.cfg.regions))
            && (input.fault ==> step == Exit(Served(c, input)))
  {
    hide Served, Reconnected, HostKey, StandsOn, Settles;
    KeyedUrlsHaveText(c.cfg.url);
    ServedFrame(c, input);
    ComingBack(Served(c, input), input);
  }

  /** At most one registration settles a list of them. */
  lemma OneSettles(tries: seq<Registration>)
    ensures forall k: nat, l: nat :: Settles(tries, k) && Settles(tries, l) ==> k == l
    ensures forall k: nat :: Settles(tries, k) ==> k < |tries|
  {
  }
}
