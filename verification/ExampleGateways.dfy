/** Four gateways under one name each, for the runs that show where a promise ends. */
module ExampleGateways {
  import opened Prelude
  import opened Gateways
  import opened Election

  const EU := Url("https://eu", Some(UrlParts("https", "eu", "")))
  const US := Url("https://us", Some(UrlParts("https", "us", "")))
  const AP := Url("https://ap", Some(UrlParts("https", "ap", "")))
  const SA := Url("https://sa", Some(UrlParts("https", "sa", "")))

  function Four(): Regions {
    map["eu" := EU, "us" := US, "ap" := AP, "sa" := SA]
  }

  function Three(): Regions {
    map["eu" := EU, "us" := US, "ap" := AP]
  }

  /** Some of the four gateways, under their own names. */
  predicate Among(regions: Regions) {
    forall n :: n in regions ==> n in ["eu", "us", "ap", "sa"] && regions[n] == Four()[n]
  }

  lemma Keys()
    ensures HostKey(EU) == "eu" && HostKey(US) == "us" && HostKey(AP) == "ap" && HostKey(SA) == "sa"
    ensures "eu" != "us" && "us" != "ap" && "ap" != "eu" && "sa" != "eu" && "sa" != "us" && "sa" != "ap"
    ensures !EqualFold("us", "eu")
  {
    assert Lower("eu") == "eu" && Lower("us") == "us" && Lower("ap") == "ap" && Lower("sa") == "sa";
    assert "eu"[0] != "us"[0] && "us"[0] != "ap"[0] && "ap"[0] != "eu"[0];
    assert "sa"[0] == 's' && "eu"[0] == 'e' && "us"[0] == 'u' && "ap"[0] == 'a';
  }

  /** A name each, so probing them measures whatever answers. */
  lemma NamesAreHosts(regions: Regions)
    requires Among(regions)
    ensures forall n :: n in regions ==> HostKey(regions[n]) == n
    ensures Dedupe(regions) == regions
  {
    hide HostKey, Preferred;
    Keys();
    forall n | n in regions ensures HostKey(regions[n]) == n {
    }
    forall n | n in regions ensures Represents(regions, n) {
    }
  }

  lemma MeasuresAnswers(regions: Regions, table: Latencies)
    requires Among(regions)
    ensures Measure(regions, table).Keys == regions.Keys * table.Keys
    ensures forall n :: n in Measure(regions, table) ==> Measure(regions, table)[n] == table[n]
  {
    hide HostKey, Dedupe;
    NamesAreHosts(regions);
  }

  /** The only gateway to answer wins. */
  lemma OnlyAnswerWins(regions: Regions, name: string)
    requires Among(regions) && name in regions
    ensures Fastest(Measure(regions, map[name := 1])) == name
  {
    hide HostKey, Fastest, Beats, Measure, Among;
    var rtts := Measure(regions, map[name := 1]);
    MeasuresAnswers(regions, map[name := 1]);
    assert rtts.Keys == {name};
    assert Wins(rtts, rtts.Keys, name);
    FastestIsUnique(rtts, name);
  }
}
