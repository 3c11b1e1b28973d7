/** What elections and moves come to, in names, latencies and numbers. */
module ElectionResults {
  import opened Prelude
  import opened Gateways
  import opened Cooldowns
  import opened Election
  import opened Reelection

  // ----- names -----

  /** Alphabetical order: at the first difference the lesser character, or the end. */
  ghost predicate Alphabetical(a: string, b: string) {
    exists k: nat :: DiffersAt(a, b, k) && (k == |a| || (k < |b| && a[k] < b[k]))
  }

  /** The strings agree before k and not at k, where one of them may end. */
  predicate DiffersAt(a: string, b: string, k: nat) {
    k <= |a| && k <= |b| && a[..k] == b[..k] && (k < |a| || k < |b|) && (k < |a| && k < |b| ==> a[k] != b[k])
  }

  lemma {:induction false} LexIsAlphabetical(a: string, b: string)
    ensures LexLess(a, b) <==> Alphabetical(a, b)
  {
    if a != [] && b != [] && a[0] == b[0] {
      var x, y := a[1..], b[1..];
      LexIsAlphabetical(x, y);
      assert a == [a[0]] + x && b == [a[0]] + y;
      forall k: nat | DiffersAt(x, y, k) ensures DiffersAt(a, b, k + 1) {
        assert a[..k + 1] == [a[0]] + x[..k] && b[..k + 1] == [a[0]] + y[..k];
      }
      forall k: nat | DiffersAt(a, b, k) ensures k > 0 && DiffersAt(x, y, k - 1) {
        assert k > 0;
        assert x[..k - 1] == a[..k][1..] && y[..k - 1] == b[..k][1..];
      }
    } else {
      assert a != b ==> DiffersAt(a, b, 0);
      forall k: nat | DiffersAt(a, b, k) ensures k == 0 {
        if k > 0 {
          AgreeAtTheStart(a, b, k);
        }
      }
    }
  }

  lemma AgreeAtTheStart(a: string, b: string, k: nat)
    requires DiffersAt(a, b, k) && k > 0
    ensures a != [] && b != [] && a[0] == b[0]
  {
    assert a[..k][0] == b[..k][0];
  }

  /** Of a gateway's names the one kept is the shortest, and the alphabetically first of those. */
  lemma TheKeptNameIsShortest(regions: Regions, n: string, other: string)
    requires n in Dedupe(regions) && other in regions && other != n && HostKey(regions[other]) == HostKey(regions[n])
    ensures |n| < |other| || (|n| == |other| && Alphabetical(n, other))
  {
    LexIsAlphabetical(n, other);
    if |regions| < 2 {
      assert |{n, other}| == 2;
      SubsetSize({n, other}, regions.Keys);
    }
  }

  /** The winner answered at least as fast as any, and is the alphabetically first to have done so. */
  lemma TheWinnerIsFastest(rtts: Latencies, other: string)
    requires other in rtts
    ensures var best := Fastest(rtts);
            best in rtts
            && (rtts[best] < rtts[other] || best == other || (rtts[best] == rtts[other] && Alphabetical(best, other)))
  {
    LexIsAlphabetical(Fastest(rtts), other);
  }

  /** A gateway is elected under the name kept for it. */
  lemma TheElectedNameIsKept(regions: Regions, table: Latencies)
    requires Measure(regions, table) != map[]
    ensures Fastest(Measure(regions, table)) in Dedupe(regions)
  {
  }

  // ----- moves -----

  /** At least 40 ms less, and at least three tenths less. */
  predicate MuchLess(present: int, other: int) {
    present - other >= 40_000_000 && 10 * (present - other) >= 3 * present
  }

  /** A gateway on offer that is much nearer than the present one. */
  ghost predicate OffersMuchLess(offered: Regions, table: Latencies, here: string) {
    here in table && exists h :: h in table && h != "" && Advertises(offered, h) && MuchLess(table[here], table[h])
  }

  /** A client whose user named a region moves to it exactly when it is on offer and elsewhere. */
  lemma NamedRegionsAreHonoured(until: Until, now: int, current: Url, requested: string, roster: Regions,
                                table: Latencies)
    requires requested != ""
    ensures Choose(until, now, current, requested, roster, table) ==
            if requested in Available(until, roster, now) && roster[requested].text != ""
               && HostKey(roster[requested]) != HostKey(current)
            then Some(Target(requested, roster[requested], roster)) else None
  {
    AvailableIsOpen(until, roster, now);
  }

  /** Any other moves exactly when its own gateway is on offer and measured, and some gateway on offer is much nearer;
      it moves to the nearest, under a name of it on offer, taking the whole roster along. */
  lemma OthersMoveForMuchLess(until: Until, now: int, current: Url, roster: Regions, table: Latencies)
    ensures var offered, here := Available(until, roster, now), HostKey(current);
            var t := Choose(until, now, current, "", roster, table);
            && (t.Some? <==> here != "" && Advertises(offered, here) && OffersMuchLess(offered, table, here))
            && (t.Some? ==>
                  && t.value.regions == roster
                  && t.value.region in offered && t.value.url == offered[t.value.region]
                  && HostKey(t.value.url) in table
                  && forall h :: h in table && h != "" && Advertises(offered, h) ==>
                                   table[HostKey(t.value.url)] <= table[h])
  {
    hide HostKey, Dedupe, Available, Fastest;
    var offered, here := Available(until, roster, now), HostKey(current);
    AvailableIsOpen(until, roster, now);
    WinnerIsNearestHost(offered, table);
    NamesAreAdvertised(offered);
    KeptNamesOf(offered, here);
    ElectedNames(offered, table);
  }

  lemma NamesAreAdvertised(regions: Regions)
    ensures forall h :: Advertises(regions, h) <==> NamesOf(regions, h) != {}
  {
    forall h ensures Advertises(regions, h) <==> NamesOf(regions, h) != {} {
      if Advertises(regions, h) {
        var n :| n in regions && HostKey(regions[n]) == h;
        assert n in NamesOf(regions, h);
      }
    }
  }

  lemma KeptNamesOf(regions: Regions, host: string)
    ensures host != "" ==> (NamesOf(Dedupe(regions), host) == {} <==> NamesOf(regions, host) == {})
  {
    if host != "" {
      DedupeKeepsHosts(regions, host);
    }
  }

  /** What an election over measured latencies returns: a name on offer, with its gateway's latency. */
  lemma ElectedNames(regions: Regions, table: Latencies)
    ensures var rtts := Measure(regions, table);
            var best := Fastest(rtts);
            && (best == "" <==> rtts == map[])
            && (best != "" ==>
                  best in regions && HostKey(regions[best]) != "" && HostKey(regions[best]) in table
                  && best in rtts && rtts[best] == table[HostKey(regions[best])])
  {
    hide HostKey, Dedupe;
    MeasuredNames(regions, table);
  }

  lemma MeasuredNames(regions: Regions, table: Latencies)
    ensures forall n :: n in Measure(regions, table) ==>
              n in regions && HostKey(regions[n]) != "" && HostKey(regions[n]) in table
              && Measure(regions, table)[n] == table[HostKey(regions[n])] && n != ""
  {
  }
}
