/** Gateways held out of the candidate set, keyed by host. */
module Cooldowns {
  import opened Prelude
  import opened Gateways

  /** Host to the instant, in milliseconds, until which it is held out. */
  type Until = map<string, int>

  const REGION_FAILOVER_COOLDOWN := 90_000
  const PLANNED_SHUTDOWN_COOLDOWN := 3_600_000

  predicate Held(until: Until, host: string, now: int) {
    host in until && now < until[host]
  }

  predicate CoolingDown(until: Until, url: Url, now: int) {
    HostKey(url) != "" && Held(until, HostKey(url), now)
  }

  function Excluded(until: Until, url: Url, now: int, d: int): Until {
    if HostKey(url) == "" then until else until[HostKey(url) := now + d]
  }

  function Cleared(until: Until, url: Url): Until {
    if HostKey(url) == "" then until else until - {HostKey(url)}
  }

  predicate Advertises(regions: Regions, host: string) {
    exists n :: n in regions && HostKey(regions[n]) == host
  }

  predicate AllHeld(until: Until, regions: Regions, now: int) {
    forall n :: n in regions ==> Held(until, HostKey(regions[n]), now)
  }

  /** The advertised regions whose gateway is not held. */
  function Open(until: Until, regions: Regions, now: int): Regions {
    map n | n in regions && !Held(until, HostKey(regions[n]), now) :: regions[n]
  }

  /** The regions a client may choose from: the open ones, or everything when that leaves nothing. */
  function Available(until: Until, regions: Regions, now: int): Regions {
    var open := Open(until, regions, now);
    if open == map[] then regions else open
  }

  /** Filtering forgets the expired deadlines it meets, and no others. */
  function Reaped(until: Until, regions: Regions, now: int): Until {
    map h | h in until && (now < until[h] || !Advertises(regions, h)) :: until[h]
  }

  /** Only gateways not held are offered exactly when some advertised gateway is not held. */
  lemma AvailableIsOpen(until: Until, regions: Regions, now: int)
    ensures Available(until, regions, now).Keys <= regions.Keys
    ensures forall n :: n in Available(until, regions, now) ==> Available(until, regions, now)[n] == regions[n]
    ensures regions != map[] ==>
              ((forall n :: n in Available(until, regions, now) ==> !Held(until, HostKey(regions[n]), now))
               <==> !AllHeld(until, regions, now))
  {
    var open := Open(until, regions, now);
    if open == map[] {
      forall n | n in regions ensures Held(until, HostKey(regions[n]), now) {
        assert n !in open;
      }
      if regions != map[] {
        var n :| n in regions;
        assert n in Available(until, regions, now);
      }
    } else {
      var n :| n in open;
      assert !Held(until, HostKey(regions[n]), now);
    }
  }

  /** Reaping never changes what is held, now or later, and forgets nothing of a host that is not advertised. */
  lemma ReapingKeepsHolds(until: Until, regions: Regions, now: int, host: string, later: int)
    requires now <= later
    ensures Held(Reaped(until, regions, now), host, later) <==> Held(until, host, later)
    ensures !Advertises(regions, host) ==> (host in Reaped(until, regions, now) <==> host in until)
  {
  }

  class RegionCooldowns {
    var until: Until

    constructor ()
      ensures until == map[]
    {
      until := map[];
    }

    method Exclude(url: Url, now: int, d: int)
      modifies this
      ensures until == Excluded(old(until), url, now, d)
    {
      var host := HostKey(url);
      if host == "" {
        return;
      }
      until := until[host := now + d];
    }

    method IsCoolingDown(url: Url, now: int) returns (cooling: bool)
      ensures cooling == CoolingDown(until, url, now)
    {
      var host := HostKey(url);
      if host == "" || host !in until {
        return false;
      }
      var remaining := until[host] - now;
      return remaining > 0;
    }

    method Clear(url: Url)
      modifies this
      ensures until == Cleared(old(until), url)
    {
      var host := HostKey(url);
      if host == "" {
        return;
      }
      until := until - {host};
    }

    /** One pass over the map in any order, deleting expired deadlines as it goes. */
    method Filter(regions: Regions, now: int) returns (out: Regions)
      modifies this
      ensures out == Available(old(until), regions, now)
      ensures until == Reaped(old(until), regions, now)
    {
      if |regions| == 0 {
        assert regions == map[];
        return regions;
      }
      ghost var was := until;
      ghost var seen: Regions := map[];
      var rest := regions;
      out := map[];
      while rest != map[]
        invariant Parted(regions, rest, seen)
        invariant until == Reaped(was, seen, now)
        invariant out == Open(was, seen, now)
        decreases |rest|
      {
        var name :| name in rest;
        var url := rest[name];
        var host := HostKey(url);
        FilterOneMore(was, seen, name, url, now);
        PartOneMore(regions, rest, seen, name);
        seen := seen[name := url];
        rest := rest - {name};
        if host !in until || now >= until[host] {
          until := until - {host};
          out := out[name := url];
        }
      }
      assert seen == regions;
      if out == map[] {
        out := regions;
      }
    }
  }

  lemma FilterOneMore(until: Until, seen: Regions, name: string, url: Url, now: int)
    requires name != "" && name !in seen
    ensures var held := Held(until, HostKey(url), now);
            && held == Held(Reaped(until, seen, now), HostKey(url), now)
            && Reaped(until, seen[name := url], now) ==
               Reaped(until, seen, now) - (if held then {} else {HostKey(url)})
            && Open(until, seen[name := url], now) ==
               if held then Open(until, seen, now) else Open(until, seen, now)[name := url]
  {
    hide HostKey;
    var more: Regions := seen[name := url];
    forall h
      ensures Advertises(more, h) <==> Advertises(seen, h) || h == HostKey(url)
    {
      if Advertises(seen, h) {
        var n :| n in seen && HostKey(seen[n]) == h;
        assert n in more && HostKey(more[n]) == h;
      }
      if h == HostKey(url) {
        assert name in more && HostKey(more[name]) == h;
      }
    }
  }
}
