/** Choosing a gateway: one name per host, one probe per name, the fastest answer wins. */
module Election {
  import opened Prelude
  import opened Gateways

  /** Round trips in nanoseconds; a table gives one per host, a host missing from it did not answer. */
  type Latencies = map<string, nat>

  predicate LexLess(a: string, b: string) {
    if b == [] then false
    else if a == [] then true
    else if a[0] != b[0] then a[0] < b[0]
    else LexLess(a[1..], b[1..])
  }

  /** The name that survives when two denote one gateway: shorter first, then alphabetical. */
  predicate Preferred(a: string, b: string) {
    |a| < |b| || (|a| == |b| && LexLess(a, b))
  }

  function Rank(rtts: Latencies, name: string): nat {
    if name in rtts then rtts[name] else 0
  }

  predicate Beats(rtts: Latencies, a: string, b: string) {
    Rank(rtts, a) < Rank(rtts, b) || (Rank(rtts, a) == Rank(rtts, b) && LexLess(a, b))
  }

  // ----- both orders are strict and total -----

  lemma {:induction false} LexTotal(a: string, b: string)
    ensures !LexLess(a, a)
    ensures a != b ==> (LexLess(a, b) <==> !LexLess(b, a))
  {
    if a != [] {
      LexTotal(a[1..], a[1..]);
    }
    if a != [] && b != [] && a[0] == b[0] {
      assert a == [a[0]] + a[1..] && b == [b[0]] + b[1..];
      LexTotal(a[1..], b[1..]);
    }
  }

  lemma {:induction false} LexTransitive(a: string, b: string, c: string)
    requires LexLess(a, b) && LexLess(b, c)
    ensures LexLess(a, c)
  {
    if a != [] && a[0] == b[0] && b[0] == c[0] {
      LexTransitive(a[1..], b[1..], c[1..]);
    }
  }

  ghost predicate StrictlyTotal(less: (string, string) -> bool) {
    && (forall a, b :: a != b ==> (less(a, b) <==> !less(b, a)))
    && (forall a, b, c :: less(a, b) && less(b, c) ==> less(a, c))
  }

  lemma PreferredIsStrictlyTotal()
    ensures StrictlyTotal(Preferred)
  {
    forall a, b | a != b ensures Preferred(a, b) <==> !Preferred(b, a) {
      LexTotal(a, b);
    }
    forall a, b, c | Preferred(a, b) && Preferred(b, c) ensures Preferred(a, c) {
      if |a| == |b| == |c| {
        LexTransitive(a, b, c);
      }
    }
  }

  lemma BeatsIsStrictlyTotal(rtts: Latencies)
    ensures forall a, b :: a != b ==> (Beats(rtts, a, b) <==> !Beats(rtts, b, a))
    ensures forall a, b, c :: Beats(rtts, a, b) && Beats(rtts, b, c) ==> Beats(rtts, a, c)
  {
    forall a, b | a != b ensures Beats(rtts, a, b) <==> !Beats(rtts, b, a) {
      LexTotal(a, b);
    }
    forall a, b, c | Beats(rtts, a, b) && Beats(rtts, b, c) ensures Beats(rtts, a, c) {
      if Rank(rtts, a) == Rank(rtts, b) == Rank(rtts, c) {
        LexTransitive(a, b, c);
      }
    }
  }

  ghost predicate IsLeast(less: (string, string) -> bool, names: set<string>, n: string) {
    n in names && forall m :: m in names && m != n ==> less(n, m)
  }

  lemma {:induction false} LeastExists(less: (string, string) -> bool, names: set<string>) returns (n: string)
    requires names != {} && StrictlyTotal(less)
    ensures IsLeast(less, names, n)
    decreases |names|
  {
    n :| n in names;
    if names != {n} {
      var m := LeastExists(less, names - {n});
      if !less(n, m) {
        n := m;
      }
    }
  }

  // ----- one name per gateway -----

  predicate Represents(regions: Regions, n: string) {
    && n in regions && HostKey(regions[n]) != ""
    && forall m :: m in regions && HostKey(regions[m]) == HostKey(regions[n]) && m != n ==> Preferred(n, m)
  }

  function Dedupe(regions: Regions): Regions {
    if |regions| < 2 then regions
    else map n | n in regions && Represents(regions, n) :: regions[n]
  }

  ghost predicate NamedHosts(regions: Regions) {
    forall n :: n in regions ==> HostKey(regions[n]) != ""
  }

  ghost function NamesOf(regions: Regions, host: string): set<string> {
    set n | n in regions && HostKey(regions[n]) == host
  }

  /** De-duplication keeps, for every advertised gateway, exactly its least name. */
  lemma DedupeKeepsLeastName(regions: Regions, host: string)
    requires NamedHosts(regions)
    ensures forall n :: n in Dedupe(regions) && HostKey(regions[n]) == host <==>
                        IsLeast(Preferred, NamesOf(regions, host), n)
    ensures host != "" && NamesOf(regions, host) != {} ==> |NamesOf(Dedupe(regions), host)| == 1
  {
    PreferredIsStrictlyTotal();
    if |regions| < 2 {
      forall n, m | n in regions && m in regions ensures n == m {
        SubsetSize({n, m}, regions.Keys);
        assert n != m ==> |{n, m}| == 2;
      }
    }
    forall n
      ensures n in Dedupe(regions) && HostKey(regions[n]) == host <==>
              IsLeast(Preferred, NamesOf(regions, host), n)
    {
    }
    if NamesOf(regions, host) != {} {
      var n := LeastExists(Preferred, NamesOf(regions, host));
      assert NamesOf(Dedupe(regions), host) == {n};
    }
  }

  lemma {:induction false} SubsetSize(a: set<string>, b: set<string>)
    requires a <= b
    ensures |a| <= |b|
  {
    if a != {} {
      var x :| x in a;
      SubsetSize(a - {x}, b - {x});
    }
  }

  /** De-duplication loses no gateway. */
  lemma DedupeKeepsHosts(regions: Regions, host: string)
    requires host != ""
    ensures NamesOf(Dedupe(regions), host) != {} <==> NamesOf(regions, host) != {}
    ensures forall n :: n in Dedupe(regions) ==> n in regions && Dedupe(regions)[n] == regions[n]
  {
    if |regions| >= 2 && NamesOf(regions, host) != {} {
      PreferredIsStrictlyTotal();
      var n := LeastExists(Preferred, NamesOf(regions, host));
      assert Represents(regions, n);
      assert n in NamesOf(Dedupe(regions), host);
    }
    if NamesOf(Dedupe(regions), host) != {} {
      var n :| n in NamesOf(Dedupe(regions), host);
      assert n in NamesOf(regions, host);
    }
  }

  // ----- the election -----

  /** What probing every gateway of a roster once measures, given the latency of each host. */
  function Measure(regions: Regions, table: Latencies): Latencies {
    map n | n in Dedupe(regions) && HostKey(regions[n]) != "" && HostKey(regions[n]) in table
      :: table[HostKey(regions[n])]
  }

  /** The winner of an election: least latency, and the alphabetically first name among equals. */
  ghost function Fastest(rtts: Latencies): (best: string)
    ensures if rtts == map[] then best == "" else Wins(rtts, rtts.Keys, best)
  {
    if rtts == map[] then ""
    else
      WinnerExists(rtts);
      var n :| Wins(rtts, rtts.Keys, n);
      n
  }

  ghost predicate Wins(rtts: Latencies, names: set<string>, n: string) {
    n in names && forall m :: m in names && m != n ==> Beats(rtts, n, m)
  }

  lemma WinnerExists(rtts: Latencies)
    requires rtts != map[]
    ensures exists n :: Wins(rtts, rtts.Keys, n)
  {
    BeatsIsStrictlyTotal(rtts);
    var less := (a, b) => Beats(rtts, a, b);
    var n := LeastExists(less, rtts.Keys);
    assert Wins(rtts, rtts.Keys, n);
  }

  /** Whatever order the measurements are met in, at most one name can win. */
  lemma FastestIsUnique(rtts: Latencies, n: string)
    requires Wins(rtts, rtts.Keys, n)
    ensures n == Fastest(rtts)
  {
    BeatsIsStrictlyTotal(rtts);
  }

  ghost function WinningLatency(regions: Regions, table: Latencies): Option<nat> {
    var rtts := Measure(regions, table);
    if rtts == map[] then None else Some(rtts[Fastest(rtts)])
  }

  /** The winning latency is the least latency of any advertised gateway that answers. */
  lemma WinnerIsNearestHost(regions: Regions, table: Latencies)
    ensures match WinningLatency(regions, table)
      case None => forall h :: h in table && h != "" ==> NamesOf(regions, h) == {}
      case Some(t) =>
        && (exists h :: h in table && h != "" && NamesOf(regions, h) != {} && table[h] == t)
        && (forall h :: h in table && h != "" && NamesOf(regions, h) != {} ==> t <= table[h])
  {
    var rtts := Measure(regions, table);
    forall h | h in table && h != "" && NamesOf(regions, h) != {}
      ensures exists n :: n in rtts && rtts[n] == table[h]
    {
      DedupeKeepsHosts(regions, h);
      var n :| n in NamesOf(Dedupe(regions), h);
      assert n in rtts;
    }
    if rtts != map[] {
      var best := Fastest(rtts);
      DedupeKeepsHosts(regions, HostKey(regions[best]));
      assert best in NamesOf(regions, HostKey(regions[best]));
      forall h | h in table && h != "" && NamesOf(regions, h) != {}
        ensures rtts[best] <= table[h]
      {
        var n :| n in rtts && rtts[n] == table[h];
        assert n == best || Beats(rtts, best, n);
      }
    }
  }

  ghost predicate SameGateways(a: Regions, b: Regions) {
    forall h :: h != "" ==> (NamesOf(a, h) != {} <==> NamesOf(b, h) != {})
  }

  /** Advertising a gateway under more names, or fewer, never changes the latency that wins. */
  lemma AliasesDoNotChangeTheWinner(regions: Regions, aliased: Regions, table: Latencies)
    requires SameGateways(regions, aliased)
    ensures WinningLatency(regions, table) == WinningLatency(aliased, table)
  {
    WinnerIsNearestHost(regions, table);
    WinnerIsNearestHost(aliased, table);
  }

  // ----- the loops that compute it, over maps in any order -----

  method DedupeRegionsByHost(regions: Regions) returns (out: Regions)
    ensures out == Dedupe(regions)
  {
    if |regions| < 2 {
      return regions;
    }
    PreferredIsStrictlyTotal();
    var best: map<string, string> := map[];
    var rest := regions;
    ghost var seen: Regions := map[];
    while rest != map[]
      invariant Parted(regions, rest, seen)
      invariant ChosenSoFar(best, seen)
      decreases |rest|
    {
      var name :| name in rest;
      var host := HostKey(rest[name]);
      PartOneMore(regions, rest, seen, name);
      ChooseOneMore(best, seen, name, rest[name]);
      seen := seen[name := rest[name]];
      if host != "" && (host !in best || Preferred(name, best[host])) {
        best := best[host := name];
      }
      rest := rest - {name};
    }
    assert seen == regions;
    out := ChosenNames(regions, best);
    forall n | n in regions
      ensures HostKey(regions[n]) in best && best[HostKey(regions[n])] == n <==> Represents(regions, n)
    {
      assert n in NamesOf(regions, HostKey(regions[n]));
    }
  }

  method ChosenNames(regions: Regions, best: map<string, string>) returns (out: Regions)
    requires forall h :: h in best ==> best[h] in regions && HostKey(regions[best[h]]) == h
    ensures out == map n | n in regions && HostKey(regions[n]) in best && best[HostKey(regions[n])] == n :: regions[n]
  {
    out := map[];
    var hosts := best.Keys;
    while hosts != {}
      invariant hosts <= best.Keys
      invariant forall n :: n in out ==> n in regions && out[n] == regions[n]
      invariant forall n :: n in regions ==>
                  (n in out <==> HostKey(regions[n]) in best.Keys - hosts && best[HostKey(regions[n])] == n)
      decreases |hosts|
    {
      var host :| host in hosts;
      out := out[best[host] := regions[best[host]]];
      hosts := hosts - {host};
    }
  }

  /** Each host met so far maps to the least of its names met so far. */
  ghost predicate ChosenSoFar(best: map<string, string>, seen: Regions) {
    && (forall h :: h in best ==> h != "" && IsLeast(Preferred, NamesOf(seen, h), best[h]))
    && (forall n :: n in seen && HostKey(seen[n]) != "" ==> HostKey(seen[n]) in best)
  }

  lemma ChooseOneMore(best: map<string, string>, seen: Regions, name: string, url: Url)
    requires name != "" && name !in seen && ChosenSoFar(best, seen)
    ensures var host := HostKey(url);
            var better := host != "" && (host !in best || Preferred(name, best[host]));
            ChosenSoFar(if better then best[host := name] else best, seen[name := url])
  {
    hide HostKey, Preferred;
    PreferredIsStrictlyTotal();
    var host := HostKey(url);
    var more: Regions := seen[name := url];
    forall h | h != host ensures NamesOf(more, h) == NamesOf(seen, h) {
    }
    assert NamesOf(more, host) == NamesOf(seen, host) + {name};
    if host != "" && host !in best {
      assert NamesOf(seen, host) == {};
    }
  }

  method FastestRegion(rtts: Latencies) returns (best: string)
    requires "" !in rtts
    ensures best == Fastest(rtts)
  {
    best := "";
    var todo := rtts.Keys;
    while todo != {}
      invariant todo <= rtts.Keys
      invariant LeadsSoFar(rtts, rtts.Keys - todo, best)
      decreases |todo|
    {
      var name :| name in todo;
      LeadOneMore(rtts, rtts.Keys - todo, best, name);
      assert rtts.Keys - (todo - {name}) == rtts.Keys - todo + {name};
      todo := todo - {name};
      if best == "" || rtts[name] < rtts[best] || (rtts[name] == rtts[best] && LexLess(name, best)) {
        best := name;
      }
    }
    assert rtts.Keys - todo == rtts.Keys;
    LeaderIsFastest(rtts, best);
  }

  /** What the election loop knows: nothing met and no leader, or a leader that beats all it met. */
  ghost predicate LeadsSoFar(rtts: Latencies, met: set<string>, best: string) {
    if best == "" then met == {} else best in rtts && Wins(rtts, met, best)
  }

  lemma LeadOneMore(rtts: Latencies, met: set<string>, best: string, name: string)
    requires "" !in rtts && name in rtts && name !in met && LeadsSoFar(rtts, met, best)
    ensures var next := if best == "" || rtts[name] < rtts[best] || (rtts[name] == rtts[best] && LexLess(name, best))
                        then name else best;
            LeadsSoFar(rtts, met + {name}, next)
  {
    BeatsIsStrictlyTotal(rtts);
  }

  lemma LeaderIsFastest(rtts: Latencies, best: string)
    requires "" !in rtts && LeadsSoFar(rtts, rtts.Keys, best)
    ensures best == Fastest(rtts)
  {
    if best != "" {
      FastestIsUnique(rtts, best);
    }
  }
}
