/** The client's configuration: what loading resolves, and what saving may write back. */
module ClientConfig {
  import opened Prelude

  /** A configuration; `rest` stands for the keys that neither the environment nor the token rules touch. */
  datatype Config = Config(
    serverUrl: string, authToken: string, tokenFile: string, tokenSource: string, subdomain: string,
    customDomain: string, ports: seq<int>, targetHost: string, passcode: string, whitelistIps: string,
    region: string, latency: int, bandwidth: string, autoUpgrade: bool, rest: string)
  {
    /** A token the user typed for the config file itself. */
    function SetInlineAuthToken(token: string): Config {
      this.(authToken := token, tokenSource := CONFIG_FILE)
    }
  }

  const CONFIG_FILE := "config file"

  datatype FileState = Unreadable | Text(content: string)

  type Files = map<string, FileState>

  type Env = map<string, string>

  /** What comes from libraries and the operating system. Decoding starts from a given configuration. */
  datatype Library = Library(
    defaultServerUrl: string,
    home: Option<string>,
    trim: string -> string,
    expand: string -> string,
    secretOf: string -> Option<string>,
    cleanSubdomain: string -> string,
    cleanTargetHost: string -> string,
    parsePorts: string -> seq<int>,
    parseDuration: string -> Option<int>,
    parseSwitch: string -> Option<bool>,
    decode: (Config, string) -> Option<Config>,
    encode: Config -> string)

  function DefaultConfig(lib: Library): Config {
    Config(lib.defaultServerUrl, "", "", "", "", "", [], "", "", "", "", 0, "", false, "")
  }

  function Read(files: Files, path: string): Option<string> {
    if path in files && files[path].Text? then Some(files[path].content) else None
  }

  function Getenv(env: Env, name: string): string {
    if name in env then env[name] else ""
  }

  function DefaultPath(lib: Library): string {
    if lib.home.Some? then lib.home.value + "/.lfr-tunnel/config.yaml" else "client-config.yaml"
  }

  /** The config file a load reads; none, when the default one is asked for and missing. */
  function LoadPath(files: Files, path: string, lib: Library): string {
    if path == "" && DefaultPath(lib) in files then DefaultPath(lib) else path
  }

  function SavePath(path: string, lib: Library): string {
    if path == "" then DefaultPath(lib) else path
  }

  /** What the config file itself says, over the defaults. The token source is not a key. */
  function FromFile(files: Files, path: string, lib: Library): Option<Config> {
    var at := LoadPath(files, path, lib);
    if at == "" then Some(DefaultConfig(lib))
    else
      match Read(files, at)
      case None => None
      case Some(text) =>
        match lib.decode(DefaultConfig(lib), text)
        case None => None
        case Some(cfg) => Some(cfg.(tokenSource := ""))
  }

  // ----- the token ladder -----

  datatype Token = Token(value: string, source: string)

  predicate Contains(text: string, part: string) {
    if |text| < |part| then false else part <= text || Contains(text[1..], part)
  }

  predicate LooksLikeSecrets(content: string) {
    Contains(content, "LFT_CLIENT_TOKEN") || Contains(content, "LFT_TOKEN")
  }

  /** The token in a token file, bare or as an assignment. */
  function TokenIn(content: string, lib: Library): Option<string> {
    if LooksLikeSecrets(content) then lib.secretOf(content) else Some(lib.trim(content))
  }

  function Sourced(source: string, path: string): string {
    source + " (" + path + ")"
  }

  predicate NamesTokenFile(tokenFile: string, lib: Library) {
    lib.trim(tokenFile) != ""
  }

  /** The token file that token_file: names, unless the environment moves it. */
  function NamedPath(tokenFile: string, env: Env, lib: Library): string {
    var moved := lib.trim(Getenv(env, "LFT_TOKEN_FILE"));
    lib.expand(if moved != "" then moved else lib.trim(tokenFile))
  }

  function NamedSource(env: Env, lib: Library): string {
    if lib.trim(Getenv(env, "LFT_TOKEN_FILE")) != "" then "LFT_TOKEN_FILE" else "token_file"
  }

  /** The token of a named token file; an unreadable or empty one is an error. */
  function NamedToken(files: Files, tokenFile: string, env: Env, lib: Library): Option<string> {
    TokenOfFile(files, NamedPath(tokenFile, env, lib), lib)
  }

  function TokenOfFile(files: Files, path: string, lib: Library): Option<string> {
    TokenOfText(Read(files, path), lib)
  }

  /** The token of a file that has to be there, from its text. */
  function TokenOfText(text: Option<string>, lib: Library): Option<string> {
    match text
    case None => None
    case Some(content) =>
      match TokenIn(content, lib)
      case None => None
      case Some(token) => if token == "" then None else Some(token)
  }

  /** Where a token might be when nothing names a place: LFT_TOKEN_FILE, else the file login writes. */
  function GuessedPath(env: Env, lib: Library): string {
    if Getenv(env, "LFT_TOKEN_FILE") != "" then Getenv(env, "LFT_TOKEN_FILE")
    else if lib.home.Some? then lib.home.value + "/.lfr-tunnel/token"
    else ""
  }

  function GuessedSource(env: Env): string {
    if Getenv(env, "LFT_TOKEN_FILE") != "" then "LFT_TOKEN_FILE" else "token file"
  }

  /** The token of a file that need not be there, from its text. */
  function GuessedIn(text: Option<string>, lib: Library): string {
    if text.None? then ""
    else
      var token := TokenIn(text.value, lib);
      if token.Some? then token.value else ""
  }

  function SecretIn(text: Option<string>, lib: Library): string {
    if text.None? then ""
    else
      var token := lib.secretOf(text.value);
      if token.Some? then token.value else ""
  }

  function SecretsPath(home: string): string {
    home + "/.config/lfr/secrets"
  }

  function PowerShellSecretsPath(home: string): string {
    home + "/.config/lfr/secrets.ps1"
  }

  /** The priority ladder, highest rung first. A named token file that cannot be read is an error whatever
      stands above it. */
  function Ladder(files: Files, env: Env, inline: string, tokenFile: string, lib: Library): Option<Token> {
    var named := NamedToken(files, tokenFile, env, lib);
    if NamesTokenFile(tokenFile, lib) && named.None? then None
    else if Getenv(env, "LFT_CLIENT_TOKEN") != "" then
      Some(Token(Getenv(env, "LFT_CLIENT_TOKEN"), "LFT_CLIENT_TOKEN environment variable"))
    else if Getenv(env, "LFT_TOKEN") != "" then
      Some(Token(Getenv(env, "LFT_TOKEN"), "LFT_TOKEN environment variable"))
    else if NamesTokenFile(tokenFile, lib) then
      Some(Token(named.value, Sourced(NamedSource(env, lib), NamedPath(tokenFile, env, lib))))
    else if inline != "" then Some(Token(inline, CONFIG_FILE))
    else Some(GuessedOrSecret(files, env, lib))
  }

  function GuessedOrSecret(files: Files, env: Env, lib: Library): Token {
    GuessFrom(Read(files, GuessedPath(env, lib)), Read(files, SecretsPath(Home(lib))),
              Read(files, PowerShellSecretsPath(Home(lib))), env, lib)
  }

  function Home(lib: Library): string {
    if lib.home.Some? then lib.home.value else ""
  }

  /** The token of the lower rungs, from the texts of the files they look at. */
  function GuessFrom(guessed: Option<string>, secrets: Option<string>, powerShell: Option<string>,
                     env: Env, lib: Library): Token
  {
    if GuessedPath(env, lib) != "" && GuessedIn(guessed, lib) != "" then
      Token(GuessedIn(guessed, lib), Sourced(GuessedSource(env), GuessedPath(env, lib)))
    else if lib.home.None? then Token("", "")
    else if SecretIn(secrets, lib) != "" then
      Token(SecretIn(secrets, lib), Sourced("LDM credentials file", SecretsPath(Home(lib))))
    else if SecretIn(powerShell, lib) != "" then
      Token(SecretIn(powerShell, lib), Sourced("LDM credentials file", PowerShellSecretsPath(Home(lib))))
    else Token("", "")
  }

  // ----- the other keys -----

  /** The first of some variables that is set. */
  function FirstSet(env: Env, names: seq<string>): string {
    if names == [] then ""
    else if Getenv(env, names[0]) != "" then Getenv(env, names[0])
    else FirstSet(env, names[1..])
  }

  function Or(given: string, otherwise: string): string {
    if given != "" then given else otherwise
  }

  /** Where the client goes, under the environment. */
  function PlaceOverridden(cfg: Config, env: Env, lib: Library): Config {
    var subdomain := FirstSet(env, ["LFT_CLIENT_SUBDOMAIN", "LFT_SUBDOMAIN"]);
    var ports := Getenv(env, "LFT_CLIENT_PORTS");
    var target := Getenv(env, "LFT_TARGET_HOST");
    cfg.(
      serverUrl := Or(FirstSet(env, ["LFT_CLIENT_SERVER", "LFT_SERVER_URL", "LFT_SERVER"]), cfg.serverUrl),
      subdomain := if subdomain != "" then lib.cleanSubdomain(subdomain) else cfg.subdomain,
      ports := if ports != "" && lib.parsePorts(ports) != [] then lib.parsePorts(ports) else cfg.ports,
      targetHost := if target != "" then lib.cleanTargetHost(target) else cfg.targetHost)
  }

  /** How it is reached there, under the environment. */
  function AccessOverridden(cfg: Config, env: Env): Config {
    cfg.(
      passcode := Or(FirstSet(env, ["LFT_CLIENT_PASSCODE", "LFT_PASSCODE"]), cfg.passcode),
      whitelistIps := Or(FirstSet(env, ["LFT_CLIENT_WHITELIST_IPS", "LFT_WHITELIST_IPS"]), cfg.whitelistIps),
      region := Or(FirstSet(env, ["LFT_CLIENT_REGION", "LFT_REGION"]), cfg.region),
      customDomain := Or(FirstSet(env, ["LFT_CLIENT_CUSTOM_DOMAIN", "LFT_CUSTOM_DOMAIN"]), cfg.customDomain))
  }

  /** How it behaves, under the environment. */
  function TuningOverridden(cfg: Config, env: Env, lib: Library): Config {
    var latency := FirstSet(env, ["LFT_CLIENT_LATENCY", "LFT_LATENCY"]);
    var upgrade := Getenv(env, "LFT_AUTO_UPGRADE");
    cfg.(
      latency :=
        if latency != "" && lib.parseDuration(latency).Some? then lib.parseDuration(latency).value else cfg.latency,
      bandwidth := Or(FirstSet(env, ["LFT_CLIENT_BANDWIDTH", "LFT_BANDWIDTH"]), cfg.bandwidth),
      autoUpgrade :=
        if upgrade != "" && lib.parseSwitch(upgrade).Some? then lib.parseSwitch(upgrade).value else cfg.autoUpgrade)
  }

  /** A configuration under the environment: each variable that is set, and parses, replaces its key. */
  function Overridden(cfg: Config, env: Env, lib: Library): Config {
    TuningOverridden(AccessOverridden(PlaceOverridden(cfg, env, lib), env), env, lib)
  }

  function Loaded(files: Files, path: string, env: Env, lib: Library): Option<Config> {
    match FromFile(files, path, lib)
    case None => None
    case Some(cfg) =>
      match Ladder(files, env, cfg.authToken, cfg.tokenFile, lib)
      case None => None
      case Some(token) => Some(Overridden(cfg.(authToken := token.value, tokenSource := token.source), env, lib))
  }

  // ----- saving -----

  /** Only a token from auth_token: itself may go back there, and none beside a token_file:. */
  predicate TokenBelongsInFile(cfg: Config, lib: Library) {
    !NamesTokenFile(cfg.tokenFile, lib) && cfg.tokenSource == CONFIG_FILE
  }

  function Redacted(cfg: Config, lib: Library): Config {
    if cfg.authToken != "" && !TokenBelongsInFile(cfg, lib) then cfg.(authToken := "") else cfg
  }

  /** Saving keeps the previous file as a backup and writes the configuration. */
  function Saved(files: Files, path: string, cfg: Config, lib: Library): Files {
    var at := SavePath(path, lib);
    var backed := match Read(files, at) case Some(text) => files[at + ".bak" := Text(text)] case None => files;
    backed[at := Text(lib.encode(Redacted(cfg, lib)))]
  }

  // ----- the code -----

  class Disk {
    var files: Files

    /** Load the configuration, each source overwriting what the ones below it supplied. */
    method LoadClientConfig(path: string, env: Env, lib: Library) returns (loaded: Option<Config>)
      ensures loaded == Loaded(files, path, env, lib)
    {
      hide Ladder, Overridden;
      var decoded := DecodeFile(path, lib);
      if decoded.None? {
        return None;
      }
      var resolved := ResolveToken(decoded.value, env, lib);
      if resolved.None? {
        return None;
      }
      var overridden := Override(resolved.value, env, lib);
      return Some(overridden);
    }

    /** The defaults under what the config file says. */
    method DecodeFile(path: string, lib: Library) returns (decoded: Option<Config>)
      ensures decoded == FromFile(files, path, lib)
    {
      var cfg := DefaultConfig(lib);
      var at := path;
      if path == "" && DefaultPath(lib) in files {
        at := DefaultPath(lib);
      }
      if at != "" {
        var text := Read(files, at);
        if text.None? {
          return None;
        }
        decoded := lib.decode(cfg, text.value);
        if decoded.None? {
          return None;
        }
        cfg := decoded.value.(tokenSource := cfg.tokenSource);
      }
      return Some(cfg);
    }

    /** The token, rung by rung from the lowest. */
    method ResolveToken(decoded: Config, env: Env, lib: Library) returns (resolved: Option<Config>)
      requires decoded.tokenSource == ""
      ensures resolved == match Ladder(files, env, decoded.authToken, decoded.tokenFile, lib)
                          case None => None
                          case Some(token) => Some(decoded.(authToken := token.value, tokenSource := token.source))
    {
      hide GuessedOrSecret, Getenv, Read, TokenIn, Sourced;
      var cfg := decoded;
      if cfg.authToken != "" {
        cfg := cfg.(tokenSource := CONFIG_FILE);
      }
      if lib.trim(cfg.tokenFile) != "" {
        var tokenPath, source := lib.expand(lib.trim(cfg.tokenFile)), "token_file";
        if lib.trim(Getenv(env, "LFT_TOKEN_FILE")) != "" {
          tokenPath, source := lib.expand(lib.trim(Getenv(env, "LFT_TOKEN_FILE"))), "LFT_TOKEN_FILE";
        }
        var token := ReadClientTokenFile(tokenPath, lib);
        assert token == NamedToken(files, cfg.tokenFile, env, lib);
        if token.None? {
          return None;
        }
        cfg := cfg.(authToken := token.value, tokenSource := Sourced(source, tokenPath));
      }
      if cfg.authToken == "" {
        cfg := FallBack(cfg, env, lib);
      }
      if Getenv(env, "LFT_CLIENT_TOKEN") != "" {
        cfg := cfg.(authToken := Getenv(env, "LFT_CLIENT_TOKEN"),
                    tokenSource := "LFT_CLIENT_TOKEN environment variable");
      } else if Getenv(env, "LFT_TOKEN") != "" {
        cfg := cfg.(authToken := Getenv(env, "LFT_TOKEN"), tokenSource := "LFT_TOKEN environment variable");
      }
      return Some(cfg);
    }

    /** The token of a token file that was asked for by name: neither unreadable nor empty. */
    method ReadClientTokenFile(path: string, lib: Library) returns (token: Option<string>)
      ensures token == TokenOfFile(files, path, lib)
      ensures token.Some? ==> token.value != ""
    {
      hide LooksLikeSecrets;
      var content := Read(files, path);
      if content.None? {
        return None;
      }
      var text := lib.trim(content.value);
      if LooksLikeSecrets(content.value) {
        var secret := lib.secretOf(content.value);
        if secret.None? {
          return None;
        }
        text := secret.value;
      }
      if text == "" {
        return None;
      }
      return Some(text);
    }

    /** The places a token might be when none was given. */
    method FallBack(cfg: Config, env: Env, lib: Library) returns (found: Config)
      requires cfg.authToken == "" && cfg.tokenSource == ""
      ensures found == cfg.(authToken := GuessedOrSecret(files, env, lib).value,
                            tokenSource := GuessedOrSecret(files, env, lib).source)
    {
      hide GuessedIn, SecretIn, GuessedPath, GuessedSource, Sourced;
      found := Guess(cfg, env, lib);
      if found.authToken == "" {
        found := FindSecret(found, lib);
      }
    }

    /** The token file that LFT_TOKEN_FILE names, or the one that login writes. */
    method Guess(cfg: Config, env: Env, lib: Library) returns (found: Config)
      requires cfg.authToken == "" && cfg.tokenSource == ""
      ensures var path := GuessedPath(env, lib);
              var token := if path == "" then "" else GuessedIn(Read(files, path), lib);
              found == if token == "" then cfg
                       else cfg.(authToken := token, tokenSource := Sourced(GuessedSource(env), path))
    {
      hide Contains, Read, Sourced;
      found := cfg;
      var path, source := Getenv(env, "LFT_TOKEN_FILE"), "LFT_TOKEN_FILE";
      if path == "" {
        source := "token file";
        if lib.home.Some? {
          path := lib.home.value + "/.lfr-tunnel/token";
        }
      }
      if path != "" {
        var content := Read(files, path);
        if content.Some? {
          if LooksLikeSecrets(content.value) {
            var secret := lib.secretOf(content.value);
            if secret.Some? && secret.value != "" {
              found := found.(authToken := secret.value);
            }
          } else {
            found := found.(authToken := lib.trim(content.value));
          }
          if found.authToken != "" {
            found := found.(tokenSource := Sourced(source, path));
          }
        }
      }
    }

    /** The first credentials file that holds a token. */
    method FindSecret(cfg: Config, lib: Library) returns (found: Config)
      requires cfg.authToken == "" && cfg.tokenSource == ""
      ensures var first := SecretIn(Read(files, SecretsPath(Home(lib))), lib);
              var second := SecretIn(Read(files, PowerShellSecretsPath(Home(lib))), lib);
              found ==
              if lib.home.None? then cfg
              else if first != "" then
                cfg.(authToken := first, tokenSource := Sourced("LDM credentials file", SecretsPath(Home(lib))))
              else if second != "" then
                cfg.(authToken := second,
                     tokenSource := Sourced("LDM credentials file", PowerShellSecretsPath(Home(lib))))
              else cfg
    {
      hide Read, Sourced;
      found := cfg;
      if lib.home.Some? {
        var paths := [SecretsPath(lib.home.value), PowerShellSecretsPath(lib.home.value)];
        var i := 0;
        while i < |paths|
          invariant 0 <= i <= |paths|
          invariant i >= 1 ==> SecretIn(Read(files, paths[0]), lib) == ""
          invariant i >= 2 ==> SecretIn(Read(files, paths[1]), lib) == ""
          invariant found == cfg
        {
          assert paths[i] == if i == 0 then paths[0] else paths[1];
          var content := Read(files, paths[i]);
          if content.Some? {
            var secret := lib.secretOf(content.value);
            if secret.Some? && secret.value != "" {
              found := found.(authToken := secret.value, tokenSource := Sourced("LDM credentials file", paths[i]));
              break;
            }
          }
          i := i + 1;
        }
      }
    }

    /** Save the configuration, keeping the previous file and every token that is not the file's own out. */
    method SaveClientConfig(path: string, cfg: Config, lib: Library)
      modifies this
      ensures files == Saved(old(files), path, cfg, lib)
    {
      var at := if path == "" then DefaultPath(lib) else path;
      var existing := Read(files, at);
      if existing.Some? {
        files := files[at + ".bak" := Text(existing.value)];
      }
      var written := cfg;
      if cfg.authToken != "" && !TokenBelongsInFile(cfg, lib) {
        written := cfg.(authToken := "");
      }
      files := files[at := Text(lib.encode(written))];
    }
  }

  /** Apply the environment, one key after the other. */
  method Override(cfg: Config, env: Env, lib: Library) returns (out: Config)
    ensures out == Overridden(cfg, env, lib)
  {
    hide PlaceOverridden, AccessOverridden, TuningOverridden;
    out := OverridePlace(cfg, env, lib);
    out := OverrideAccess(out, env);
    out := OverrideTuning(out, env, lib);
  }

  method OverridePlace(cfg: Config, env: Env, lib: Library) returns (out: Config)
    ensures out == PlaceOverridden(cfg, env, lib)
  {
    hide FirstSet, Getenv;
    out := cfg;
    var server := FirstSet(env, ["LFT_CLIENT_SERVER", "LFT_SERVER_URL", "LFT_SERVER"]);
    if server != "" {
      out := out.(serverUrl := server);
    }
    var subdomain := FirstSet(env, ["LFT_CLIENT_SUBDOMAIN", "LFT_SUBDOMAIN"]);
    if subdomain != "" {
      out := out.(subdomain := lib.cleanSubdomain(subdomain));
    }
    if Getenv(env, "LFT_CLIENT_PORTS") != "" {
      var ports := lib.parsePorts(Getenv(env, "LFT_CLIENT_PORTS"));
      if ports != [] {
        out := out.(ports := ports);
      }
    }
    if Getenv(env, "LFT_TARGET_HOST") != "" {
      out := out.(targetHost := lib.cleanTargetHost(Getenv(env, "LFT_TARGET_HOST")));
    }
  }

  method OverrideAccess(cfg: Config, env: Env) returns (out: Config)
    ensures out == AccessOverridden(cfg, env)
  {
    hide FirstSet, Getenv;
    out := cfg;
    var passcode := FirstSet(env, ["LFT_CLIENT_PASSCODE", "LFT_PASSCODE"]);
    if passcode != "" {
      out := out.(passcode := passcode);
    }
    var whitelist := FirstSet(env, ["LFT_CLIENT_WHITELIST_IPS", "LFT_WHITELIST_IPS"]);
    if whitelist != "" {
      out := out.(whitelistIps := whitelist);
    }
    var region := FirstSet(env, ["LFT_CLIENT_REGION", "LFT_REGION"]);
    if region != "" {
      out := out.(region := region);
    }
    var domain := FirstSet(env, ["LFT_CLIENT_CUSTOM_DOMAIN", "LFT_CUSTOM_DOMAIN"]);
    if domain != "" {
      out := out.(customDomain := domain);
    }
  }

  method OverrideTuning(cfg: Config, env: Env, lib: Library) returns (out: Config)
    ensures out == TuningOverridden(cfg, env, lib)
  {
    hide FirstSet, Getenv;
    out := cfg;
    var latency := FirstSet(env, ["LFT_CLIENT_LATENCY", "LFT_LATENCY"]);
    if latency != "" {
      var duration := lib.parseDuration(latency);
      if duration.Some? {
        out := out.(latency := duration.value);
      }
    }
    var bandwidth := FirstSet(env, ["LFT_CLIENT_BANDWIDTH", "LFT_BANDWIDTH"]);
    if bandwidth != "" {
      out := out.(bandwidth := bandwidth);
    }
    if Getenv(env, "LFT_AUTO_UPGRADE") != "" {
      var upgrade := lib.parseSwitch(Getenv(env, "LFT_AUTO_UPGRADE"));
      if upgrade.Some? {
        out := out.(autoUpgrade := upgrade.value);
      }
    }
  }

  // ----- what the sources guarantee -----

  /** Nothing but the file's own key is called the config file. */
  lemma OnlyTheFileIsCalledThat(source: string, path: string)
    ensures Sourced(source, path) != CONFIG_FILE
    ensures "LFT_CLIENT_TOKEN environment variable" != CONFIG_FILE && "LFT_TOKEN environment variable" != CONFIG_FILE
  {
    var whole := Sourced(source, path);
    assert whole[|whole| - 1] == ')' && CONFIG_FILE[|CONFIG_FILE| - 1] == 'e';
    assert "LFT_CLIENT_TOKEN environment variable"[0] == 'L' && "LFT_TOKEN environment variable"[0] == 'L';
    assert CONFIG_FILE[0] == 'c';
  }

  /** A loaded token is called the config file's exactly when it is the file's own, no token file is named and
      no variable replaces it. */
  lemma SourceMatchesToken(files: Files, env: Env, inline: string, tokenFile: string, lib: Library)
    requires Ladder(files, env, inline, tokenFile, lib).Some?
    ensures var token := Ladder(files, env, inline, tokenFile, lib).value;
            && (token.source == CONFIG_FILE <==>
                  inline != "" && !NamesTokenFile(tokenFile, lib)
                  && Getenv(env, "LFT_CLIENT_TOKEN") == "" && Getenv(env, "LFT_TOKEN") == "")
            && (token.source == CONFIG_FILE ==> token.value == inline)
            && (token.source == "" <==> token.value == "")
  {
    hide Contains, TokenIn, SecretIn, GuessedIn;
    OnlyTheFileIsCalledThat(NamedSource(env, lib), NamedPath(tokenFile, env, lib));
    OnlyTheFileIsCalledThat(GuessedSource(env), GuessedPath(env, lib));
    if lib.home.Some? {
      OnlyTheFileIsCalledThat("LDM credentials file", SecretsPath(lib.home.value));
      OnlyTheFileIsCalledThat("LDM credentials file", PowerShellSecretsPath(lib.home.value));
    }
  }

  // ----- saving and loading again -----

  /** What is assumed of the YAML library: what it wrote it reads back, over the defaults, but for the token
      source, which is not a key. */
  ghost predicate RoundTrips(lib: Library) {
    forall cfg: Config :: lib.decode(DefaultConfig(lib), lib.encode(cfg)).Some?
      && lib.decode(DefaultConfig(lib), lib.encode(cfg)).value.(tokenSource := "") == cfg.(tokenSource := "")
  }

  /** The two files a save writes. */
  function Written(path: string, lib: Library): set<string> {
    {SavePath(path, lib), SavePath(path, lib) + ".bak"}
  }

  /** The token files a load depends on are not files a save writes. */
  ghost predicate TokenFilesAreApart(path: string, env: Env, inline: string, tokenFile: string, lib: Library) {
    if NamesTokenFile(tokenFile, lib) then NamedPath(tokenFile, env, lib) !in Written(path, lib)
    else if Getenv(env, "LFT_CLIENT_TOKEN") == "" && Getenv(env, "LFT_TOKEN") == "" && inline == "" then
      && GuessedPath(env, lib) !in Written(path, lib)
      && (lib.home.Some? ==>
            && SecretsPath(lib.home.value) !in Written(path, lib)
            && PowerShellSecretsPath(lib.home.value) !in Written(path, lib))
    else true
  }

  /** Reading back what was saved gives what was saved. */
  lemma SavedIsReadBack(files: Files, path: string, cfg: Config, lib: Library)
    requires RoundTrips(lib)
    ensures FromFile(Saved(files, path, cfg, lib), path, lib) == Some(Redacted(cfg, lib).(tokenSource := ""))
  {
    var after, at := Saved(files, path, cfg, lib), SavePath(path, lib);
    assert Read(after, at) == Some(lib.encode(Redacted(cfg, lib)));
    assert at != "" by {
      if path == "" && lib.home.Some? {
        assert |DefaultPath(lib)| > 0;
      }
    }
    assert LoadPath(after, path, lib) == at;
    assert lib.decode(DefaultConfig(lib), lib.encode(Redacted(cfg, lib))).Some?;
  }

  lemma OverridingKeepsTheToken(cfg: Config, env: Env, lib: Library)
    ensures var out := Overridden(cfg, env, lib);
            && out.authToken == cfg.authToken && out.tokenFile == cfg.tokenFile && out.tokenSource == cfg.tokenSource
  {
    hide FirstSet, Getenv;
  }

  /** The environment decides the same keys whatever it is applied to, so applying it again changes nothing,
      nor does a different token. */
  lemma OverridingAgainChangesNothing(cfg: Config, env: Env, token: Token, lib: Library)
    ensures Overridden(Overridden(cfg, env, lib).(authToken := token.value, tokenSource := token.source), env, lib)
            == Overridden(cfg, env, lib).(authToken := token.value, tokenSource := token.source)
  {
    hide FirstSet, Getenv;
  }

  /** A save never writes into auth_token: a token that came from anywhere else: what it writes there is
      nothing, or the file's own token. */
  lemma NoForeignTokenIsSaved(files: Files, path: string, env: Env, lib: Library)
    requires Loaded(files, path, env, lib).Some? && RoundTrips(lib)
    ensures var cfg, own := Loaded(files, path, env, lib).value, FromFile(files, path, lib).value;
            var saved := FromFile(Saved(files, path, cfg, lib), path, lib).value;
            && (saved.authToken == "" || (saved.authToken == cfg.authToken == own.authToken))
            && (cfg.tokenSource != CONFIG_FILE || NamesTokenFile(cfg.tokenFile, lib) ==> saved.authToken == "")
  {
    hide Overridden, Ladder, RoundTrips, Saved, NamesTokenFile;
    var own := FromFile(files, path, lib).value;
    var token := Ladder(files, env, own.authToken, own.tokenFile, lib).value;
    OverridingKeepsTheToken(own.(authToken := token.value, tokenSource := token.source), env, lib);
    SourceMatchesToken(files, env, own.authToken, own.tokenFile, lib);
    SavedIsReadBack(files, path, Loaded(files, path, env, lib).value, lib);
  }

  /** What a file holds after a save, from what was there before: the config file holds the configuration
      without a foreign token, the backup the config file's previous text, every other file its own. */
  function TextAfter(files: Files, path: string, cfg: Config, lib: Library, file: string): Option<string> {
    var at := SavePath(path, lib);
    if file == at then Some(lib.encode(Redacted(cfg, lib)))
    else if file == at + ".bak" && Read(files, at).Some? then Read(files, at)
    else Read(files, file)
  }

  lemma SavingLeaves(files: Files, path: string, cfg: Config, lib: Library, file: string)
    ensures Read(Saved(files, path, cfg, lib), file) == TextAfter(files, path, cfg, lib, file)
  {
    var at := SavePath(path, lib);
    assert |at + ".bak"| > |at|;
  }

  predicate HasTokenVariable(env: Env) {
    Getenv(env, "LFT_CLIENT_TOKEN") != "" || Getenv(env, "LFT_TOKEN") != ""
  }

  /** Whether the rung that supplied the token of a load still supplies it after the configuration is saved, by
      what the save leaves in the token files. `own` is what the config file said, `cfg` what was loaded. A named
      token file is read again whatever stands above it, so it must still hold a token. */
  predicate SuppliesItAgain(files: Files, path: string, env: Env, own: Config, cfg: Config, lib: Library) {
    if NamesTokenFile(own.tokenFile, lib) then
      var again := TokenOfText(TextAfter(files, path, cfg, lib, NamedPath(own.tokenFile, env, lib)), lib);
      again.Some? && (HasTokenVariable(env) || again.value == cfg.authToken)
    else
      || HasTokenVariable(env) || own.authToken != ""
      || GuessFrom(TextAfter(files, path, cfg, lib, GuessedPath(env, lib)),
                   TextAfter(files, path, cfg, lib, SecretsPath(Home(lib))),
                   TextAfter(files, path, cfg, lib, PowerShellSecretsPath(Home(lib))), env, lib)
         == Token(cfg.authToken, cfg.tokenSource)
  }

  /** The token a second load resolves, by what the save leaves. */
  lemma TokenAgain(files: Files, path: string, env: Env, own: Config, cfg: Config, lib: Library)
    requires Ladder(files, env, own.authToken, own.tokenFile, lib) == Some(Token(cfg.authToken, cfg.tokenSource))
    requires cfg.tokenFile == own.tokenFile
    ensures Ladder(Saved(files, path, cfg, lib), env, Redacted(cfg, lib).authToken, own.tokenFile, lib)
            == Some(Token(cfg.authToken, cfg.tokenSource))
            <==> SuppliesItAgain(files, path, env, own, cfg, lib)
  {
    hide Saved, TextAfter, TokenOfText, GuessFrom, NamedPath, GuessedPath, Sourced;
    SourceMatchesToken(files, env, own.authToken, own.tokenFile, lib);
    SavingLeaves(files, path, cfg, lib, NamedPath(own.tokenFile, env, lib));
    SavingLeaves(files, path, cfg, lib, GuessedPath(env, lib));
    SavingLeaves(files, path, cfg, lib, SecretsPath(Home(lib)));
    SavingLeaves(files, path, cfg, lib, PowerShellSecretsPath(Home(lib)));
  }

  /** Loading, saving and loading again under one environment gives the configuration of the first load exactly
      when the rung that supplied its token still supplies it: for every state of the files and every aliasing
      of the token files with the config file and its backup. */
  lemma LoadSaveLoadExactly(files: Files, path: string, env: Env, lib: Library)
    requires Loaded(files, path, env, lib).Some? && RoundTrips(lib)
    ensures var cfg, own := Loaded(files, path, env, lib).value, FromFile(files, path, lib).value;
            Loaded(Saved(files, path, cfg, lib), path, env, lib) == Some(cfg) <==>
            SuppliesItAgain(files, path, env, own, cfg, lib)
  {
    hide Overridden, Ladder, RoundTrips, Saved, SuppliesItAgain, NamesTokenFile, FromFile;
    var cfg, own := Loaded(files, path, env, lib).value, FromFile(files, path, lib).value;
    var after := Saved(files, path, cfg, lib);
    var token := Ladder(files, env, own.authToken, own.tokenFile, lib).value;
    var resolved := own.(authToken := token.value, tokenSource := token.source);
    assert cfg == Overridden(resolved, env, lib);
    OverridingKeepsTheToken(resolved, env, lib);
    SavedIsReadBack(files, path, cfg, lib);
    TokenAgain(files, path, env, own, cfg, lib);
    var again := Ladder(after, env, Redacted(cfg, lib).authToken, own.tokenFile, lib);
    if again.Some? {
      OverridingAgainChangesNothing(resolved, env, again.value, lib);
    }
  }

  /** In particular it does when no token file that the load depends on is one the save writes. */
  lemma LoadSaveLoadIsStable(files: Files, path: string, env: Env, lib: Library)
    requires Loaded(files, path, env, lib).Some? && RoundTrips(lib)
    requires var own := FromFile(files, path, lib).value;
             TokenFilesAreApart(path, env, own.authToken, own.tokenFile, lib)
    ensures var cfg := Loaded(files, path, env, lib).value;
            Loaded(Saved(files, path, cfg, lib), path, env, lib) == Some(cfg)
  {
    hide Overridden, RoundTrips, NamesTokenFile, FromFile, TokenOfText, GuessedIn, SecretIn, NamedPath, GuessedPath,
        Redacted;
    var own := FromFile(files, path, lib).value;
    var token := Ladder(files, env, own.authToken, own.tokenFile, lib).value;
    OverridingKeepsTheToken(own.(authToken := token.value, tokenSource := token.source), env, lib);
    LoadSaveLoadExactly(files, path, env, lib);
  }

  /** A token a form supplies is saved, and loaded, when nothing above the config file's own supplies one. */
  lemma AuthoredTokenIsLoaded(files: Files, path: string, cfg: Config, token: string, env: Env, lib: Library)
    requires RoundTrips(lib) && token != "" && !NamesTokenFile(cfg.tokenFile, lib)
    requires Getenv(env, "LFT_CLIENT_TOKEN") == "" && Getenv(env, "LFT_TOKEN") == ""
    ensures var loaded := Loaded(Saved(files, path, cfg.SetInlineAuthToken(token), lib), path, env, lib);
            loaded.Some? && loaded.value.authToken == token && loaded.value.tokenSource == CONFIG_FILE
  {
    hide Overridden, Saved, RoundTrips, NamesTokenFile, FromFile;
    var authored := cfg.SetInlineAuthToken(token);
    SavedIsReadBack(files, path, authored, lib);
    OverridingKeepsTheToken(authored, env, lib);
  }

  /** A token_file: that names the backup: saving replaces it by the previous config file, so the next load
      agrees exactly when that file's own text reads as the same token, or, where a variable supplies the token,
      as any token. */
  lemma BackupAsTokenFile(files: Files, path: string, env: Env, lib: Library)
    requires Loaded(files, path, env, lib).Some? && RoundTrips(lib)
    requires var own := FromFile(files, path, lib).value;
             NamesTokenFile(own.tokenFile, lib) && NamedPath(own.tokenFile, env, lib) == SavePath(path, lib) + ".bak"
    ensures var cfg := Loaded(files, path, env, lib).value;
            var at := SavePath(path, lib);
            var again := TokenOfFile(files, if Read(files, at).Some? then at else at + ".bak", lib);
            Loaded(Saved(files, path, cfg, lib), path, env, lib) == Some(cfg) <==>
            again.Some? && (HasTokenVariable(env) || again.value == cfg.authToken)
  {
    hide Overridden, RoundTrips, NamesTokenFile, NamedPath, TokenOfText;
    LoadSaveLoadExactly(files, path, env, lib);
    var at := SavePath(path, lib);
    assert |at + ".bak"| > |at|;
  }

  /** A token_file: that names the config file itself: the next load takes the configuration as it was saved,
      without a token, for the token file's text. */
  lemma ConfigFileAsTokenFile(files: Files, path: string, env: Env, lib: Library)
    requires Loaded(files, path, env, lib).Some? && RoundTrips(lib)
    requires var own := FromFile(files, path, lib).value;
             NamesTokenFile(own.tokenFile, lib) && NamedPath(own.tokenFile, env, lib) == SavePath(path, lib)
    ensures var cfg := Loaded(files, path, env, lib).value;
            var again := TokenOfText(Some(lib.encode(cfg.(authToken := ""))), lib);
            Loaded(Saved(files, path, cfg, lib), path, env, lib) == Some(cfg) <==>
            again.Some? && (HasTokenVariable(env) || again.value == cfg.authToken)
  {
    hide Overridden, RoundTrips, NamesTokenFile, NamedPath, TokenOfText, FromFile;
    var cfg, own := Loaded(files, path, env, lib).value, FromFile(files, path, lib).value;
    var token := Ladder(files, env, own.authToken, own.tokenFile, lib).value;
    OverridingKeepsTheToken(own.(authToken := token.value, tokenSource := token.source), env, lib);
    LoadSaveLoadExactly(files, path, env, lib);
    assert Redacted(cfg, lib) == cfg.(authToken := "");
  }

  /** No token file is named and nothing else supplies a token, but the guessed one is the config file or its
      backup: the next load agrees exactly when the text the save leaves there reads as the same token. */
  lemma GuessedFileIsWritten(files: Files, path: string, env: Env, lib: Library)
    requires Loaded(files, path, env, lib).Some? && RoundTrips(lib)
    requires var own := FromFile(files, path, lib).value; !NamesTokenFile(own.tokenFile, lib) && own.authToken == ""
    requires !HasTokenVariable(env) && GuessedPath(env, lib) in Written(path, lib)
    requires GuessedIn(Read(files, GuessedPath(env, lib)), lib) != ""
    ensures var cfg := Loaded(files, path, env, lib).value;
            Loaded(Saved(files, path, cfg, lib), path, env, lib) == Some(cfg) <==>
            GuessedIn(TextAfter(files, path, cfg, lib, GuessedPath(env, lib)), lib) == cfg.authToken
  {
    hide Overridden, RoundTrips, NamesTokenFile, TextAfter, FromFile, GuessedPath, GuessedIn;
    var cfg, own := Loaded(files, path, env, lib).value, FromFile(files, path, lib).value;
    var token := Ladder(files, env, own.authToken, own.tokenFile, lib).value;
    OverridingKeepsTheToken(own.(authToken := token.value, tokenSource := token.source), env, lib);
    LoadSaveLoadExactly(files, path, env, lib);
    GuessesAreNoSecrets(env, GuessedPath(env, lib), SecretsPath(Home(lib)));
    GuessesAreNoSecrets(env, GuessedPath(env, lib), PowerShellSecretsPath(Home(lib)));
  }

  lemma GuessesAreNoSecrets(env: Env, guessed: string, secrets: string)
    ensures Sourced(GuessedSource(env), guessed) != Sourced("LDM credentials file", secrets)
  {
    assert Sourced("LDM credentials file", secrets)[..2] == "LD";
    assert Sourced(GuessedSource(env), guessed)[..2] == if GuessedSource(env) == "token file" then "to" else "LF";
    assert "LD"[0] == 'L' && "LD"[1] == 'D' && "to"[0] == 't' && "LF"[1] == 'F';
  }
}
