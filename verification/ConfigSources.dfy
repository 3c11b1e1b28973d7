/** Where each value of a loaded configuration comes from, by the names of variables and files. */
module ConfigSources {
  import opened Prelude
  import opened ClientConfig

  // ----- variables -----

  /** The value of the first of some variables that is set, if one is. */
  ghost predicate Gives(env: Env, names: seq<string>, value: string) {
    exists k: nat :: FirstGiven(env, names, k) && value == env[names[k]]
  }

  /** The k-th of some variables is set, and none before it. */
  predicate FirstGiven(env: Env, names: seq<string>, k: nat) {
    k < |names| && IsSet(env, names[k]) && forall j :: 0 <= j < k ==> !IsSet(env, names[j])
  }

  predicate IsSet(env: Env, name: string) {
    name in env && env[name] != ""
  }

  predicate NoneSet(env: Env, names: seq<string>) {
    forall k :: 0 <= k < |names| ==> !IsSet(env, names[k])
  }

  lemma {:induction false} FirstSetGives(env: Env, names: seq<string>)
    ensures NoneSet(env, names) ==> FirstSet(env, names) == ""
    ensures !NoneSet(env, names) ==> Gives(env, names, FirstSet(env, names)) && FirstSet(env, names) != ""
    ensures forall value :: Gives(env, names, value) ==> value == FirstSet(env, names) && value != ""
  {
    if names != [] && !IsSet(env, names[0]) {
      var rest := names[1..];
      FirstSetGives(env, rest);
      forall k: nat | FirstGiven(env, rest, k) ensures FirstGiven(env, names, k + 1) {
      }
      forall k: nat | FirstGiven(env, names, k) ensures k > 0 && FirstGiven(env, rest, k - 1) {
      }
    } else if names != [] {
      assert FirstGiven(env, names, 0);
    }
  }

  /** A key with variables: the first that is set decides it, through what the client makes of its text; with none
      set it stays as it is. */
  ghost predicate Follows<T>(env: Env, names: seq<string>, read: string -> T, own: T, value: T) {
    && (NoneSet(env, names) ==> value == own)
    && (forall text :: Gives(env, names, text) ==> value == read(text))
  }

  lemma FollowsTheFirst<T>(env: Env, names: seq<string>, read: string -> T, own: T, value: T)
    requires value == if FirstSet(env, names) != "" then read(FirstSet(env, names)) else own
    ensures Follows(env, names, read, own, value)
  {
    FirstSetGives(env, names);
  }

  function AsIs(): string -> string {
    s => s
  }

  function AsPorts(lib: Library, own: seq<int>): string -> seq<int> {
    s => if lib.parsePorts(s) != [] then lib.parsePorts(s) else own
  }

  function AsDuration(lib: Library, own: int): string -> int {
    s => if lib.parseDuration(s).Some? then lib.parseDuration(s).value else own
  }

  function AsSwitch(lib: Library, own: bool): string -> bool {
    s => if lib.parseSwitch(s).Some? then lib.parseSwitch(s).value else own
  }

  lemma PlaceFollows(own: Config, env: Env, lib: Library)
    ensures var cfg := PlaceOverridden(own, env, lib);
            && Follows(env, ["LFT_CLIENT_SERVER", "LFT_SERVER_URL", "LFT_SERVER"], AsIs(), own.serverUrl, cfg.serverUrl)
            && Follows(env, ["LFT_CLIENT_SUBDOMAIN", "LFT_SUBDOMAIN"], lib.cleanSubdomain, own.subdomain, cfg.subdomain)
            && Follows(env, ["LFT_CLIENT_PORTS"], AsPorts(lib, own.ports), own.ports, cfg.ports)
            && Follows(env, ["LFT_TARGET_HOST"], lib.cleanTargetHost, own.targetHost, cfg.targetHost)
            && cfg == own.(serverUrl := cfg.serverUrl, subdomain := cfg.subdomain, ports := cfg.ports,
                           targetHost := cfg.targetHost)
  {
    var cfg := PlaceOverridden(own, env, lib);
    OneSet(env, "LFT_CLIENT_PORTS");
    OneSet(env, "LFT_TARGET_HOST");
    hide FirstSet, Follows, Getenv;
    FollowsTheFirst(env, ["LFT_CLIENT_SERVER", "LFT_SERVER_URL", "LFT_SERVER"], AsIs(), own.serverUrl, cfg.serverUrl);
    FollowsTheFirst(env, ["LFT_CLIENT_SUBDOMAIN", "LFT_SUBDOMAIN"], lib.cleanSubdomain, own.subdomain, cfg.subdomain);
    FollowsTheFirst(env, ["LFT_CLIENT_PORTS"], AsPorts(lib, own.ports), own.ports, cfg.ports);
    FollowsTheFirst(env, ["LFT_TARGET_HOST"], lib.cleanTargetHost, own.targetHost, cfg.targetHost);
  }

  lemma AccessFollows(own: Config, env: Env)
    ensures var cfg := AccessOverridden(own, env);
            && Follows(env, ["LFT_CLIENT_PASSCODE", "LFT_PASSCODE"], AsIs(), own.passcode, cfg.passcode)
            && Follows(env, ["LFT_CLIENT_WHITELIST_IPS", "LFT_WHITELIST_IPS"], AsIs(), own.whitelistIps,
                       cfg.whitelistIps)
            && Follows(env, ["LFT_CLIENT_REGION", "LFT_REGION"], AsIs(), own.region, cfg.region)
            && Follows(env, ["LFT_CLIENT_CUSTOM_DOMAIN", "LFT_CUSTOM_DOMAIN"], AsIs(), own.customDomain,
                       cfg.customDomain)
            && cfg == own.(passcode := cfg.passcode, whitelistIps := cfg.whitelistIps, region := cfg.region,
                           customDomain := cfg.customDomain)
  {
    var cfg := AccessOverridden(own, env);
    hide FirstSet, Follows, Getenv;
    FollowsTheFirst(env, ["LFT_CLIENT_PASSCODE", "LFT_PASSCODE"], AsIs(), own.passcode, cfg.passcode);
    FollowsTheFirst(env, ["LFT_CLIENT_WHITELIST_IPS", "LFT_WHITELIST_IPS"], AsIs(), own.whitelistIps, cfg.whitelistIps);
    FollowsTheFirst(env, ["LFT_CLIENT_REGION", "LFT_REGION"], AsIs(), own.region, cfg.region);
    FollowsTheFirst(env, ["LFT_CLIENT_CUSTOM_DOMAIN", "LFT_CUSTOM_DOMAIN"], AsIs(), own.customDomain, cfg.customDomain);
  }

  lemma TuningFollows(own: Config, env: Env, lib: Library)
    ensures var cfg := TuningOverridden(own, env, lib);
            && Follows(env, ["LFT_CLIENT_LATENCY", "LFT_LATENCY"], AsDuration(lib, own.latency), own.latency,
                       cfg.latency)
            && Follows(env, ["LFT_CLIENT_BANDWIDTH", "LFT_BANDWIDTH"], AsIs(), own.bandwidth, cfg.bandwidth)
            && Follows(env, ["LFT_AUTO_UPGRADE"], AsSwitch(lib, own.autoUpgrade), own.autoUpgrade, cfg.autoUpgrade)
            && cfg == own.(latency := cfg.latency, bandwidth := cfg.bandwidth, autoUpgrade := cfg.autoUpgrade)
  {
    var cfg := TuningOverridden(own, env, lib);
    OneSet(env, "LFT_AUTO_UPGRADE");
    hide FirstSet, Follows, Getenv;
    FollowsTheFirst(env, ["LFT_CLIENT_LATENCY", "LFT_LATENCY"], AsDuration(lib, own.latency), own.latency, cfg.latency);
    FollowsTheFirst(env, ["LFT_CLIENT_BANDWIDTH", "LFT_BANDWIDTH"], AsIs(), own.bandwidth, cfg.bandwidth);
    FollowsTheFirst(env, ["LFT_AUTO_UPGRADE"], AsSwitch(lib, own.autoUpgrade), own.autoUpgrade, cfg.autoUpgrade);
  }

  lemma OneSet(env: Env, name: string)
    ensures FirstSet(env, [name]) == Getenv(env, name)
  {
    assert [name][1..] == [];
  }

  /** Every key that a variable can replace is replaced by the first of its own variables that is set, and by no
      other; ports, a duration or a switch only if the text reads as one. No other key changes. */
  lemma KeysFollowTheirVariables(own: Config, env: Env, lib: Library)
    ensures var cfg := Overridden(own, env, lib);
            && Follows(env, ["LFT_CLIENT_SERVER", "LFT_SERVER_URL", "LFT_SERVER"], AsIs(), own.serverUrl, cfg.serverUrl)
            && Follows(env, ["LFT_CLIENT_SUBDOMAIN", "LFT_SUBDOMAIN"], lib.cleanSubdomain, own.subdomain, cfg.subdomain)
            && Follows(env, ["LFT_CLIENT_PORTS"], AsPorts(lib, own.ports), own.ports, cfg.ports)
            && Follows(env, ["LFT_TARGET_HOST"], lib.cleanTargetHost, own.targetHost, cfg.targetHost)
    ensures var cfg := Overridden(own, env, lib);
            && Follows(env, ["LFT_CLIENT_PASSCODE", "LFT_PASSCODE"], AsIs(), own.passcode, cfg.passcode)
            && Follows(env, ["LFT_CLIENT_WHITELIST_IPS", "LFT_WHITELIST_IPS"], AsIs(), own.whitelistIps,
                       cfg.whitelistIps)
            && Follows(env, ["LFT_CLIENT_REGION", "LFT_REGION"], AsIs(), own.region, cfg.region)
            && Follows(env, ["LFT_CLIENT_CUSTOM_DOMAIN", "LFT_CUSTOM_DOMAIN"], AsIs(), own.customDomain,
                       cfg.customDomain)
    ensures var cfg := Overridden(own, env, lib);
            && Follows(env, ["LFT_CLIENT_LATENCY", "LFT_LATENCY"], AsDuration(lib, own.latency), own.latency,
                       cfg.latency)
            && Follows(env, ["LFT_CLIENT_BANDWIDTH", "LFT_BANDWIDTH"], AsIs(), own.bandwidth, cfg.bandwidth)
            && Follows(env, ["LFT_AUTO_UPGRADE"], AsSwitch(lib, own.autoUpgrade), own.autoUpgrade, cfg.autoUpgrade)
            && cfg.authToken == own.authToken && cfg.tokenSource == own.tokenSource && cfg.tokenFile == own.tokenFile
            && cfg.rest == own.rest
  {
    hide Follows, PlaceOverridden, AccessOverridden, TuningOverridden;
    var placed := PlaceOverridden(own, env, lib);
    PlaceFollows(own, env, lib);
    AccessFollows(placed, env);
    TuningFollows(AccessOverridden(placed, env), env, lib);
  }

  // ----- the token -----

  ghost predicate Holds(text: string, part: string) {
    exists before, after :: text == before + part + after
  }

  lemma {:induction false} ContainingIsHolding(text: string, part: string)
    ensures Contains(text, part) <==> Holds(text, part)
  {
    if |text| >= |part| {
      if part <= text {
        assert text == [] + part + text[|part|..];
      } else {
        ContainingIsHolding(text[1..], part);
        if Holds(text[1..], part) {
          var before, after :| text[1..] == before + part + after;
          assert text == ([text[0]] + before) + part + after;
        }
        if Holds(text, part) {
          var before, after :| text == before + part + after;
          assert before != [] by {
            assert [] + part + after == part + after;
          }
          assert text[1..] == before[1..] + part + after;
        }
      }
    }
  }

  function NotBlank(token: Option<string>): Option<string> {
    if token == Some("") then None else token
  }

  /** The token in the text of a token file: what an assignment gives if the text holds the name of one, else the
      text itself without white space round it; a blank one is none. */
  ghost function TokenOf(text: Option<string>, lib: Library): Option<string> {
    if text.None? then None
    else if Holds(text.value, "LFT_CLIENT_TOKEN") || Holds(text.value, "LFT_TOKEN")
    then NotBlank(lib.secretOf(text.value))
    else NotBlank(Some(lib.trim(text.value)))
  }

  lemma TextsAreReadAlike(text: Option<string>, lib: Library)
    ensures TokenOfText(text, lib) == TokenOf(text, lib)
    ensures GuessedIn(text, lib) == if TokenOf(text, lib).Some? then TokenOf(text, lib).value else ""
  {
    hide Contains, Holds;
    if text.Some? {
      ContainingIsHolding(text.value, "LFT_CLIENT_TOKEN");
      ContainingIsHolding(text.value, "LFT_TOKEN");
    }
  }

  function Value(env: Env, name: string): string {
    if name in env then env[name] else ""
  }

  function From(source: string, path: string, token: Option<string>): Option<Token> {
    if token.None? then None else Some(Token(token.value, source + " (" + path + ")"))
  }

  function FromVariable(env: Env, name: string): Option<Token> {
    if IsSet(env, name) then Some(Token(env[name], name + " environment variable")) else None
  }

  /** The token file that a config file names, moved by LFT_TOKEN_FILE where that is not blank. */
  ghost function FromNamedFile(files: Files, env: Env, tokenFile: string, lib: Library): Option<Token> {
    var moved := lib.trim(Value(env, "LFT_TOKEN_FILE"));
    var path := lib.expand(if moved != "" then moved else lib.trim(tokenFile));
    if lib.trim(tokenFile) == "" then None
    else From(if moved != "" then "LFT_TOKEN_FILE" else "token_file", path, TokenOf(Read(files, path), lib))
  }

  /** The file that LFT_TOKEN_FILE names, else the one that login writes below the home directory. */
  ghost function FromGuessedFile(files: Files, env: Env, lib: Library): Option<Token> {
    if IsSet(env, "LFT_TOKEN_FILE")
    then From("LFT_TOKEN_FILE", env["LFT_TOKEN_FILE"], TokenOf(Read(files, env["LFT_TOKEN_FILE"]), lib))
    else if lib.home.None? then None
    else
      var path := lib.home.value + "/.lfr-tunnel/token";
      From("token file", path, TokenOf(Read(files, path), lib))
  }

  function FromSecrets(files: Files, name: string, lib: Library): Option<Token> {
    if lib.home.None? then None
    else
      var path := lib.home.value + name;
      var text := Read(files, path);
      From("LDM credentials file", path, if text.None? then None else NotBlank(lib.secretOf(text.value)))
  }

  /** The rungs a token can come from, highest first. */
  ghost function Rungs(files: Files, env: Env, inline: string, tokenFile: string, lib: Library): seq<Option<Token>> {
    [FromVariable(env, "LFT_CLIENT_TOKEN"),
     FromVariable(env, "LFT_TOKEN"),
     FromNamedFile(files, env, tokenFile, lib),
     if inline != "" then Some(Token(inline, "config file")) else None,
     FromGuessedFile(files, env, lib),
     FromSecrets(files, "/.config/lfr/secrets", lib),
     FromSecrets(files, "/.config/lfr/secrets.ps1", lib)]
  }

  /** The first rung that supplies a token; an empty token without a source if none does. */
  ghost predicate IsHighest(rungs: seq<Option<Token>>, token: Token) {
    && (forall k: nat :: k < |rungs| && rungs[k].Some? && (forall j :: 0 <= j < k ==> rungs[j].None?) ==>
          rungs[k].value == token)
    && ((forall k: nat :: k < |rungs| ==> rungs[k].None?) ==> token == Token("", ""))
  }

  function FirstOf(rungs: seq<Option<Token>>): Token {
    if rungs == [] then Token("", "") else if rungs[0].Some? then rungs[0].value else FirstOf(rungs[1..])
  }

  lemma {:induction false} FirstIsHighest(rungs: seq<Option<Token>>)
    ensures IsHighest(rungs, FirstOf(rungs))
  {
    if rungs != [] && rungs[0].None? {
      var rest := rungs[1..];
      FirstIsHighest(rest);
      forall k: nat | k < |rungs| && rungs[k].Some? && (forall j :: 0 <= j < k ==> rungs[j].None?)
        ensures rungs[k].value == FirstOf(rungs)
      {
        assert rest[k - 1] == rungs[k];
      }
      if forall k: nat :: k < |rungs| ==> rungs[k].None? {
        forall k: nat | k < |rest| ensures rest[k].None? {
          assert rest[k] == rungs[k + 1];
        }
      }
    }
  }

  /** The token a configuration file asks to be read elsewhere is the one the third rung finds. */
  lemma NamedFilesAgree(files: Files, env: Env, tokenFile: string, lib: Library)
    requires lib.trim(tokenFile) != ""
    ensures var named := NamedToken(files, tokenFile, env, lib);
            FromNamedFile(files, env, tokenFile, lib) ==
            if named.None? then None
            else Some(Token(named.value, Sourced(NamedSource(env, lib), NamedPath(tokenFile, env, lib))))
  {
    hide TokenOf, TokenOfText;
    TextsAreReadAlike(Read(files, NamedPath(tokenFile, env, lib)), lib);
  }

  lemma VariablesAgree(env: Env, name: string)
    ensures FromVariable(env, name) ==
            if Getenv(env, name) == "" then None else Some(Token(Getenv(env, name), name + " environment variable"))
  {
  }

  lemma VariablesByName()
    ensures "LFT_CLIENT_TOKEN" + " environment variable" == "LFT_CLIENT_TOKEN environment variable"
    ensures "LFT_TOKEN" + " environment variable" == "LFT_TOKEN environment variable"
  {
  }

  /** The token of a ladder is that of its highest rung with one; only a named token file without one is an error,
      whatever stands above it. */
  lemma LaddersStartAtTheTop(files: Files, env: Env, inline: string, tokenFile: string, lib: Library)
    ensures var token, rungs := Ladder(files, env, inline, tokenFile, lib), Rungs(files, env, inline, tokenFile, lib);
            && (token.None? <==> lib.trim(tokenFile) != "" && rungs[2].None?)
            && (token.Some? ==> IsHighest(rungs, token.value))
  {
    hide FirstOf, IsHighest, NamedToken, FromNamedFile, FromGuessedFile, FromSecrets, FromVariable, GuessedOrSecret;
    hide Sourced, Getenv;
    if lib.trim(tokenFile) != "" {
      NamedFilesAgree(files, env, tokenFile, lib);
    } else {
      NothingNamed(files, env, tokenFile, lib);
    }
    VariablesAgree(env, "LFT_CLIENT_TOKEN");
    VariablesAgree(env, "LFT_TOKEN");
    VariablesByName();
    LowerRungs(files, env, lib);
    var a, b := FromVariable(env, "LFT_CLIENT_TOKEN"), FromVariable(env, "LFT_TOKEN");
    var c := FromNamedFile(files, env, tokenFile, lib);
    var d := if inline != "" then Some(Token(inline, "config file")) else None;
    var rest := [FromGuessedFile(files, env, lib), FromSecrets(files, "/.config/lfr/secrets", lib),
                 FromSecrets(files, "/.config/lfr/secrets.ps1", lib)];
    assert Rungs(files, env, inline, tokenFile, lib) == [a, b, c, d] + rest;
    FirstIsHighest([a, b, c, d] + rest);
    FirstOfFour(a, b, c, d, rest);
  }

  lemma NothingNamed(files: Files, env: Env, tokenFile: string, lib: Library)
    requires lib.trim(tokenFile) == ""
    ensures FromNamedFile(files, env, tokenFile, lib) == None
  {
  }

  /** So it goes for a loaded configuration: the file is where it is asked for, or below the home directory. */
  lemma TheHighestRungWins(files: Files, path: string, env: Env, lib: Library)
    requires FromFile(files, path, lib).Some?
    ensures var own, loaded := FromFile(files, path, lib).value, Loaded(files, path, env, lib);
            var rungs := Rungs(files, env, own.authToken, own.tokenFile, lib);
            && (loaded.None? <==> lib.trim(own.tokenFile) != "" && rungs[2].None?)
            && (loaded.Some? ==> IsHighest(rungs, Token(loaded.value.authToken, loaded.value.tokenSource)))
  {
    hide Rungs, IsHighest, Ladder, Overridden, FromFile;
    var own := FromFile(files, path, lib).value;
    LaddersStartAtTheTop(files, env, own.authToken, own.tokenFile, lib);
    var token := Ladder(files, env, own.authToken, own.tokenFile, lib);
    if token.Some? {
      OverridingKeepsTheToken(own.(authToken := token.value.value, tokenSource := token.value.source), env, lib);
    }
  }

  /** A configuration file asked for by name has to be there and to decode; the one below the home directory, or in
      the working directory where there is no home, may be missing. What it says about the token's source is not
      believed. */
  lemma WhereTheConfigIs(files: Files, path: string, lib: Library)
    ensures var home := if lib.home.Some? then lib.home.value + "/.lfr-tunnel/config.yaml" else "client-config.yaml";
            var at := if path != "" then path else home;
            FromFile(files, path, lib) ==
            if path == "" && home !in files
            then Some(Config(lib.defaultServerUrl, "", "", "", "", "", [], "", "", "", "", 0, "", false, ""))
            else if Read(files, at).None? then None
            else
              var own := lib.decode(DefaultConfig(lib), Read(files, at).value);
              if own.None? then None else Some(own.value.(tokenSource := ""))
    ensures forall cfg ::
              var home := if lib.home.Some? then lib.home.value + "/.lfr-tunnel/config.yaml" else "client-config.yaml";
              var at := if path != "" then path else home;
              Read(Saved(files, path, cfg, lib), at) == Some(lib.encode(Redacted(cfg, lib)))
  {
    assert lib.home.Some? ==> DefaultPath(lib)[|lib.home.value|] == '/';
  }

  /** Of any configuration's token, wherever it came from, a save keeps exactly one called the config file's own
      beside no token file. */
  lemma WhatASaveKeepsOfTheToken(files: Files, path: string, cfg: Config, lib: Library)
    requires RoundTrips(lib)
    ensures var saved := FromFile(Saved(files, path, cfg, lib), path, lib);
            && saved.Some?
            && saved.value.authToken ==
               (if cfg.tokenSource == "config file" && lib.trim(cfg.tokenFile) == "" then cfg.authToken else "")
            && saved.value == cfg.(authToken := saved.value.authToken, tokenSource := "")
  {
    hide Saved, FromFile, RoundTrips;
    SavedIsReadBack(files, path, cfg, lib);
  }

  lemma FirstOfOne(a: Option<Token>, rest: seq<Option<Token>>)
    ensures FirstOf([a] + rest) == if a.Some? then a.value else FirstOf(rest)
  {
    assert ([a] + rest)[1..] == rest;
  }

  lemma FirstOfFour(a: Option<Token>, b: Option<Token>, c: Option<Token>, d: Option<Token>, rest: seq<Option<Token>>)
    ensures FirstOf([a, b, c, d] + rest) ==
            if a.Some? then a.value else if b.Some? then b.value else if c.Some? then c.value
            else if d.Some? then d.value else FirstOf(rest)
  {
    FirstOfOne(a, [b, c, d] + rest);
    FirstOfOne(b, [c, d] + rest);
    FirstOfOne(c, [d] + rest);
    FirstOfOne(d, rest);
    assert [a, b, c, d] + rest == [a] + ([b, c, d] + rest) && [b, c, d] + rest == [b] + ([c, d] + rest);
    assert [c, d] + rest == [c] + ([d] + rest);
  }

  lemma LowerRungs(files: Files, env: Env, lib: Library)
    ensures FirstOf([FromGuessedFile(files, env, lib), FromSecrets(files, "/.config/lfr/secrets", lib),
                     FromSecrets(files, "/.config/lfr/secrets.ps1", lib)]) == GuessedOrSecret(files, env, lib)
  {
    hide TokenOf, GuessedIn, FromGuessedFile;
    GuessesAgree(files, env, lib);
    var a, b := FromGuessedFile(files, env, lib), FromSecrets(files, "/.config/lfr/secrets", lib);
    var c := FromSecrets(files, "/.config/lfr/secrets.ps1", lib);
    FirstOfOne(a, [b, c]);
    FirstOfOne(b, [c]);
    FirstOfOne(c, []);
    assert [a, b, c] == [a] + [b, c] && [b, c] == [b] + [c] && [c] == [c] + [];
  }

  lemma GuessesAgree(files: Files, env: Env, lib: Library)
    ensures var guessed := GuessedIn(Read(files, GuessedPath(env, lib)), lib);
            FromGuessedFile(files, env, lib) ==
            if GuessedPath(env, lib) != "" && guessed != ""
            then Some(Token(guessed, Sourced(GuessedSource(env), GuessedPath(env, lib)))) else None
  {
    hide TokenOf, GuessedIn;
    TextsAreReadAlike(Read(files, GuessedPath(env, lib)), lib);
    NoTokenIsBlank(Read(files, GuessedPath(env, lib)), lib);
  }

  lemma NoTokenIsBlank(text: Option<string>, lib: Library)
    ensures TokenOf(text, lib) != Some("")
  {
  }
}
