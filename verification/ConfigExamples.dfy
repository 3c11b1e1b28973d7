/** That the assumption about the YAML library can be met, and a file state on which a save loses the token. */
module ConfigExamples {
  import opened Prelude
  import opened ClientConfig

  // ----- a codec that reads back what it wrote -----

  /** A string that says itself where it ends. */
  function Item(s: string): (item: string)
    ensures item != ""
  {
    if s == "" then "." else "+" + [s[0]] + Item(s[1..])
  }

  function Pack(items: seq<string>): string {
    if items == [] then "" else Item(items[0]) + Pack(items[1..])
  }

  function Tally(n: nat): string {
    seq(n, i => '1')
  }

  function Number(n: int): string {
    if n < 0 then "-" + Tally(-n) else Tally(n)
  }

  function Numbers(ns: seq<int>): seq<string> {
    seq(|ns|, i requires 0 <= i < |ns| => Number(ns[i]))
  }

  function Fields(cfg: Config): seq<string> {
    [cfg.serverUrl, cfg.authToken, cfg.tokenFile, cfg.subdomain, cfg.customDomain, Pack(Numbers(cfg.ports)),
     cfg.targetHost, cfg.passcode, cfg.whitelistIps, cfg.region, Number(cfg.latency), cfg.bandwidth,
     if cfg.autoUpgrade then "on" else "", cfg.rest]
  }

  function Encoded(cfg: Config): string {
    Pack(Fields(cfg))
  }

  /** The configuration a text stands for, if it stands for one. */
  ghost function Decoded(text: string): Option<Config> {
    if cfg: Config :| Encoded(cfg) == text then Some(cfg.(tokenSource := "")) else None
  }

  lemma {:induction false} ItemsEndThemselves(s: string, t: string, u: string, v: string)
    requires Item(s) + u == Item(t) + v
    ensures s == t && u == v
  {
    var left, right := Item(s) + u, Item(t) + v;
    assert left[0] == Item(s)[0] && right[0] == Item(t)[0];
    if s == "" {
      assert left[1..] == u && right[1..] == v;
    } else {
      assert left[1] == s[0] && right[1] == t[0];
      assert left[2..] == Item(s[1..]) + u && right[2..] == Item(t[1..]) + v;
      ItemsEndThemselves(s[1..], t[1..], u, v);
      assert s == [s[0]] + s[1..] && t == [t[0]] + t[1..];
    }
  }

  lemma {:induction false} PackingLosesNothing(a: seq<string>, b: seq<string>)
    requires Pack(a) == Pack(b)
    ensures a == b
  {
    if a != [] {
      ItemsEndThemselves(a[0], b[0], Pack(a[1..]), Pack(b[1..]));
      PackingLosesNothing(a[1..], b[1..]);
      assert a == [a[0]] + a[1..] && b == [b[0]] + b[1..];
    }
  }

  lemma NumbersDiffer(m: int, n: int)
    requires Number(m) == Number(n)
    ensures m == n
  {
    assert |Number(m)| == |Number(n)|;
    if m < 0 {
      assert Number(m)[0] == '-';
    }
    if n < 0 {
      assert Number(n)[0] == '-';
    }
  }

  lemma EncodingLosesNothing(a: Config, b: Config)
    requires Encoded(a) == Encoded(b)
    ensures a.(tokenSource := "") == b.(tokenSource := "")
  {
    hide Pack, Number, Numbers;
    PackingLosesNothing(Fields(a), Fields(b));
    var f, g := Fields(a), Fields(b);
    assert f[0] == g[0] && f[1] == g[1] && f[2] == g[2] && f[3] == g[3] && f[4] == g[4] && f[5] == g[5] && f[6] == g[6];
    assert f[7] == g[7] && f[8] == g[8] && f[9] == g[9] && f[10] == g[10] && f[11] == g[11] && f[12] == g[12];
    assert f[13] == g[13];
    NumbersDiffer(a.latency, b.latency);
    PackingLosesNothing(Numbers(a.ports), Numbers(b.ports));
    SamePorts(a.ports, b.ports);
  }

  lemma SamePorts(a: seq<int>, b: seq<int>)
    requires Numbers(a) == Numbers(b)
    ensures a == b
  {
    assert |a| == |Numbers(a)| == |Numbers(b)| == |b|;
    forall i | 0 <= i < |a| ensures a[i] == b[i] {
      assert Numbers(a)[i] == Number(a[i]) && Numbers(b)[i] == Number(b[i]);
      NumbersDiffer(a[i], b[i]);
    }
  }

  /** A library around that codec; a token file's text is the token, whatever it looks like. */
  ghost function PlainLibrary(): Library {
    Library("", None, (s: string) => s, (s: string) => s, (s: string) => Some(s), (s: string) => s, (s: string) => s,
            (s: string) => [], (s: string) => None, (s: string) => None,
            (base: Config, text: string) => Decoded(text), (cfg: Config) => Encoded(cfg))
  }

  /** The assumption about the library can be met. */
  lemma RoundTripsCanBeMet()
    ensures RoundTrips(PlainLibrary())
  {
    hide Encoded;
    forall cfg: Config
      ensures Decoded(Encoded(cfg)).Some? && Decoded(Encoded(cfg)).value.(tokenSource := "") == cfg.(tokenSource := "")
    {
      var other: Config :| Encoded(other) == Encoded(cfg) && Decoded(Encoded(cfg)) == Some(other.(tokenSource := ""));
      EncodingLosesNothing(other, cfg);
    }
  }

  // ----- a save that loses the token -----

  /** A config file whose token_file: names its own backup, and a token in that backup. */
  function Own(): Config {
    Config("", "", "config.bak", "", "", "", [], "", "", "", "", 0, "", false, "")
  }

  function State(): Files {
    map["config" := Text(Encoded(Own())), "config.bak" := Text("secret")]
  }

  /** The first load finds the token; after a save the backup holds the old config file, and the next load takes
      its text for the token. */
  lemma ASaveCanLoseTheToken()
    ensures var lib := PlainLibrary();
            var first := Loaded(State(), "config", map[], lib);
            && RoundTrips(lib)
            && first.Some? && first.value.authToken == "secret"
            && Loaded(Saved(State(), "config", first.value, lib), "config", map[], lib) != first
  {
    hide RoundTrips, Encoded, Overridden, Contains;
    var lib := PlainLibrary();
    RoundTripsCanBeMet();
    var files := State();
    assert "config" + ".bak" == "config.bak" && "config" != "config.bak";
    var own := FromFile(files, "config", lib);
    assert own == Some(Own()) by {
      assert Read(files, "config") == Some(Encoded(Own()));
      ReadsBack(lib, Own());
    }
    assert NamedToken(files, "config.bak", map[], lib) == Some("secret");
    var resolved := Own().(authToken := "secret", tokenSource := Sourced("token_file", "config.bak"));
    OverridingKeepsTheToken(resolved, map[], lib);
    BackupAsTokenFile(files, "config", map[], lib);
    TextIsNoSecret(Own());
  }

  lemma ReadsBack(lib: Library, cfg: Config)
    requires RoundTrips(lib)
    ensures lib.decode(DefaultConfig(lib), lib.encode(cfg)).Some?
    ensures lib.decode(DefaultConfig(lib), lib.encode(cfg)).value.(tokenSource := "") == cfg.(tokenSource := "")
  {
  }

  lemma TextIsNoSecret(cfg: Config)
    ensures Encoded(cfg) != "secret" && Encoded(cfg) != ""
  {
    var first := Item(Fields(cfg)[0]);
    assert Encoded(cfg)[0] == first[0] != 's';
    assert "secret"[0] == 's';
  }
}
