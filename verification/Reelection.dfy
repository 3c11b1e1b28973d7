/** Moving a running session to a materially closer gateway when the roster changes. */
module Reelection {
  import opened Prelude
  import opened Gateways
  import opened Cooldowns
  import opened Election

  const MIN_GAIN := 40_000_000         // nanoseconds
  const MIN_INTERVAL := 600_000        // milliseconds between two proposals

  /** A move decided while the old session still stands, with the roster it was decided against. */
  datatype Target = Target(region: string, url: Url, regions: Regions)

  /** The pending move and when the last one was proposed. */
  datatype State = State(pending: Option<Target>, lastAt: Option<int>)

  predicate Throttled(r: State, now: int) {
    r.lastAt.Some? && now - r.lastAt.value < MIN_INTERVAL
  }

  /** Enough closer to justify an interruption: 40 ms, and three tenths of the present latency. */
  predicate MateriallyCloser(current: int, candidate: int) {
    var gain := current - candidate;
    gain >= MIN_GAIN && 10 * gain >= 3 * current
  }

  /** The measurement of the gateway at a host, whatever name it was probed under. */
  ghost predicate MeasuredAt(rtts: Latencies, regions: Regions, host: string, rtt: nat) {
    exists n :: n in rtts && n in regions && HostKey(regions[n]) == host && rtts[n] == rtt
  }

  /** Where, if anywhere, a client on `current` should move; `requested` is the region its user named.
      `until` and `now` are those of the moment the roster is filtered. */
  ghost function Choose(until: Until, now: int, current: Url, requested: string, roster: Regions, table: Latencies)
    : Option<Target>
  {
    var candidates := Available(until, roster, now);
    var here := HostKey(current);
    if roster == map[] then None
    else if requested != "" then
      if requested !in candidates || candidates[requested].text == "" || HostKey(candidates[requested]) == here
      then None
      else Some(Target(requested, candidates[requested], roster))
    else
      var rtts := Measure(candidates, table);
      var best := Fastest(rtts);
      if best == "" || HostKey(candidates[best]) == here then None
      else if here == "" || NamesOf(Dedupe(candidates), here) == {} || here !in table then None
      else if !MateriallyCloser(table[here], rtts[best]) then None
      else Some(Target(best, candidates[best], roster))
  }

  /** The choice is never the gateway in use under another name, and it is in cooldown only if every gateway of
      the roster is. So while the gateway in use is not in cooldown, neither is the choice if the roster lists
      the gateway in use; and a latency-driven choice requires that it does. */
  lemma ChoiceIsOpenAndElsewhere(until: Until, now: int, current: Url, requested: string, roster: Regions,
                                 table: Latencies)
    ensures var t := Choose(until, now, current, requested, roster, table);
            t.Some? ==>
              && HostKey(t.value.url) != HostKey(current)
              && (Held(until, HostKey(t.value.url), now) ==> AllHeld(until, roster, now))
              && (requested == "" ==> Advertises(roster, HostKey(current)))
  {
    AvailableIsOpen(until, roster, now);
    var t := Choose(until, now, current, requested, roster, table);
    if t.Some? {
      var candidates := Available(until, roster, now);
      assert t.value.region in candidates;
      if requested == "" {
        var n :| n in NamesOf(Dedupe(candidates), HostKey(current));
        assert n in roster && HostKey(roster[n]) == HostKey(current);
      }
    }
  }

  /** A latency-driven choice is a gateway of the roster, materially closer by the same table. */
  lemma ChoiceIsCloser(until: Until, now: int, current: Url, roster: Regions, table: Latencies)
    ensures var t := Choose(until, now, current, "", roster, table);
            t.Some? ==>
              && HostKey(current) in table && HostKey(t.value.url) in table
              && MateriallyCloser(table[HostKey(current)], table[HostKey(t.value.url)])
  {
  }

  // ----- chains of moves -----

  /** A chain of latency-driven moves over a fixed table: each gateway chosen from the one before it,
      against any rosters and cooldowns. */
  ghost predicate Chain(stops: seq<Url>, table: Latencies) {
    forall i :: 0 <= i < |stops| - 1 ==> Moves(stops[i], stops[i + 1], table)
  }

  ghost predicate Moves(from: Url, to: Url, table: Latencies) {
    exists until, now, roster ::
      var t := Choose(until, now, from, "", roster, table);
      t.Some? && t.value.url == to
  }

  lemma MoveCutsLatency(from: Url, to: Url, table: Latencies)
    requires Moves(from, to, table)
    ensures HostKey(from) in table && HostKey(to) in table
    ensures table[HostKey(to)] + MIN_GAIN <= table[HostKey(from)]
    ensures 10 * table[HostKey(to)] <= 7 * table[HostKey(from)]
  {
    var until, now, roster :|
      var t := Choose(until, now, from, "", roster, table);
      t.Some? && t.value.url == to;
    ChoiceIsCloser(until, now, from, roster, table);
  }

  /** Every chain of latency-driven moves ends: after k moves at least k * 40 ms are gone, so there are
      at most floor(start / 40 ms) of them. */
  lemma {:induction false} ChainsTerminate(stops: seq<Url>, table: Latencies)
    requires |stops| > 1 && Chain(stops, table)
    ensures HostKey(stops[0]) in table && HostKey(stops[|stops| - 1]) in table
    ensures table[HostKey(stops[|stops| - 1])] + (|stops| - 1) * MIN_GAIN <= table[HostKey(stops[0])]
    ensures |stops| - 1 <= table[HostKey(stops[0])] / MIN_GAIN
  {
    MoveCutsLatency(stops[0], stops[1], table);
    if |stops| > 2 {
      assert Moves(stops[0], stops[1], table);
      forall i | 0 <= i < |stops[1..]| - 1 ensures Moves(stops[1..][i], stops[1..][i + 1], table) {
        assert Moves(stops[i + 1], stops[i + 2], table);
      }
      ChainsTerminate(stops[1..], table);
    }
  }

  // ----- the state and the decision as the client runs them -----

  class ReelectionState {
    var pending: Option<Target>
    var lastAt: Option<int>

    ghost function View(): State
      reads this
    {
      State(pending, lastAt)
    }

    constructor ()
      ensures View() == State(None, None)
    {
      pending, lastAt := None, None;
    }

    method IsThrottled(now: int) returns (throttled: bool)
      ensures throttled == Throttled(View(), now)
    {
      if lastAt.None? {
        return false;
      }
      var remaining := MIN_INTERVAL - (now - lastAt.value);
      return remaining > 0;
    }

    /** The throttle starts when the move is decided, not when it succeeds. */
    method Propose(target: Target, now: int)
      modifies this
      ensures View() == State(Some(target), Some(now))
    {
      pending, lastAt := Some(target), Some(now);
    }

    method Consume() returns (target: Option<Target>)
      modifies this
      ensures target == old(pending)
      ensures View() == old(View()).(pending := None)
    {
      target := pending;
      pending := None;
    }
  }

  method RttForHost(rtts: Latencies, regions: Regions, host: string) returns (rtt: nat, measured: bool)
    requires rtts.Keys <= regions.Keys
    ensures measured ==> host != "" && MeasuredAt(rtts, regions, host, rtt)
    ensures !measured ==> host == "" || forall n :: n in rtts ==> HostKey(regions[n]) != host
  {
    if host == "" {
      return 0, false;
    }
    var todo := rtts.Keys;
    while todo != {}
      invariant todo <= rtts.Keys
      invariant forall n :: n in rtts.Keys - todo ==> HostKey(regions[n]) != host
      decreases |todo|
    {
      var region :| region in todo;
      if HostKey(regions[region]) == host {
        return rtts[region], true;
      }
      todo := todo - {region};
    }
    return 0, false;
  }

  /** Probing: one question per host, answered from the table of latencies. */
  method ProbeRegionLatencies(regions: Regions, table: Latencies) returns (rtts: Latencies)
    ensures rtts == Measure(regions, table)
  {
    var unique := DedupeRegionsByHost(regions);
    assert forall n :: n in unique ==> n in regions && unique[n] == regions[n];
    rtts := map n | n in unique && HostKey(unique[n]) != "" && HostKey(unique[n]) in table :: table[HostKey(unique[n])];
  }

  /** The decision, with the fetched roster and the latencies as inputs. */
  method ChooseReelectionTarget(cooldowns: RegionCooldowns, now: int, current: Url, requested: string,
                                roster: Regions, table: Latencies)
    returns (target: Option<Target>)
    modifies cooldowns
    ensures target == Choose(old(cooldowns.until), now, current, requested, roster, table)
    ensures cooldowns.until == Reaped(old(cooldowns.until), roster, now)
  {
    if |roster| == 0 {
      assert roster == map[];
      return None;
    }
    var candidates := cooldowns.Filter(roster, now);
    var here := HostKey(current);
    if requested != "" {
      if requested !in candidates || candidates[requested].text == "" || HostKey(candidates[requested]) == here {
        return None;
      }
      return Some(Target(requested, candidates[requested], roster));
    }
    var rtts := ProbeRegionLatencies(candidates, table);
    var best := FastestRegion(rtts);
    if best == "" {
      return None;
    }
    var bestUrl := candidates[best];
    if HostKey(bestUrl) == here {
      return None;
    }
    assert here != "" && here in table && NamesOf(Dedupe(candidates), here) != {} ==>
        exists n :: n in rtts && HostKey(candidates[n]) == here by {
      if here != "" && here in table && NamesOf(Dedupe(candidates), here) != {} {
        var n :| n in NamesOf(Dedupe(candidates), here);
        assert n in rtts;
      }
    }
    var currentRtt, measured := RttForHost(rtts, candidates, here);
    if !measured {
      return None;
    }
    ghost var n :| n in rtts && n in candidates && HostKey(candidates[n]) == here && rtts[n] == currentRtt;
    assert n in NamesOf(Dedupe(candidates), here);
    if !MateriallyCloser(currentRtt, rtts[best]) {
      return None;
    }
    return Some(Target(best, bestUrl, roster));
  }
}
