/** What an upgrade starts again: the processes it killed, minus those something else brings back. */
module Relaunch {
  import opened Prelude

  type Args = seq<string>

  const GUI := "gui"
  const BACKGROUND := "background"
  const NO_AUTOCONNECT := "no-autoconnect"
  const BACKGROUND_TOKEN := "-background"
  const NUL := '\0'

  // ----- reading flags -----

  /** The flag an argument spells, without its one or two dashes. */
  function FlagBody(arg: string): Option<string> {
    if "--" <= arg then Some(arg[2..]) else if "-" <= arg then Some(arg[1..]) else None
  }

  function ParseBool(s: string): Option<bool> {
    if s in ["1", "t", "T", "TRUE", "true", "True"] then Some(true)
    else if s in ["0", "f", "F", "FALSE", "false", "False"] then Some(false)
    else None
  }

  /** What one argument says about a boolean flag: nothing, or a value. */
  function Reading(arg: string, name: string): Option<bool> {
    match FlagBody(arg)
    case None => None
    case Some(body) =>
      if body == name then Some(true)
      else if name + "=" <= body then ParseBool(body[|name| + 1..])
      else None
  }

  /** The last argument that says anything decides. */
  function FlagSetting(args: Args, name: string): Option<bool> {
    if args == [] then None
    else
      var last := Reading(args[|args| - 1], name);
      if last.Some? then last else FlagSetting(args[..|args| - 1], name)
  }

  predicate IsFlagToken(arg: string, name: string) {
    match FlagBody(arg)
    case None => false
    case Some(body) => body == name || name + "=" <= body
  }

  method BoolFlagValue(args: Args, name: string) returns (value: bool, present: bool)
    ensures present == FlagSetting(args, name).Some?
    ensures value == (FlagSetting(args, name) == Some(true))
  {
    value, present := false, false;
    var i := 0;
    while i < |args|
      invariant 0 <= i <= |args|
      invariant present == FlagSetting(args[..i], name).Some?
      invariant value == (FlagSetting(args[..i], name) == Some(true))
    {
      assert args[..i + 1][..i] == args[..i];
      var reading := Reading(args[i], name);
      if reading.Some? {
        value, present := reading.value, true;
      }
      i := i + 1;
    }
    assert args[..i] == args;
  }

  // ----- what a command line starts -----

  predicate IsTray(argv: Args) {
    argv != [] && FlagSetting(argv[1..], GUI) == Some(true)
  }

  predicate TrayConnectsOnStart(args: Args) {
    FlagSetting(args, NO_AUTOCONNECT) != Some(true)
  }

  predicate DescribesTray(arg: string) {
    IsFlagToken(arg, GUI) || IsFlagToken(arg, BACKGROUND) || IsFlagToken(arg, NO_AUTOCONNECT)
  }

  predicate IsBareBackground(arg: string) {
    arg == "-background" || arg == "--background"
  }

  /** The arguments a tray passes on, before it adds -background. */
  function TrayForwards(args: Args): Args {
    if args == [] then []
    else TrayForwards(args[..|args| - 1]) + if DescribesTray(args[|args| - 1]) then [] else [args[|args| - 1]]
  }

  function TrayClientArgs(args: Args): Args {
    TrayForwards(args) + [BACKGROUND_TOKEN]
  }

  function WithoutBackgroundFlag(args: Args): Args {
    if args == [] then []
    else
      WithoutBackgroundFlag(args[..|args| - 1])
      + if IsBareBackground(args[|args| - 1]) then [] else [args[|args| - 1]]
  }

  /** The configuration of the tunnel a command line brings up by itself, if it brings one up. */
  function StartedTunnel(argv: Args): Option<Args> {
    if argv == [] then None
    else if IsTray(argv) then
      if TrayConnectsOnStart(argv[1..]) then Some(WithoutBackgroundFlag(TrayClientArgs(argv[1..]))) else None
    else Some(WithoutBackgroundFlag(argv[1..]))
  }

  method ComputeTrayClientArgs(args: Args) returns (out: Args)
    ensures out == TrayClientArgs(args)
  {
    out := [];
    var i := 0;
    while i < |args|
      invariant 0 <= i <= |args|
      invariant out == TrayForwards(args[..i])
    {
      assert args[..i + 1][..i] == args[..i];
      if !IsFlagToken(args[i], GUI) && !IsFlagToken(args[i], BACKGROUND) && !IsFlagToken(args[i], NO_AUTOCONNECT) {
        out := out + [args[i]];
      }
      i := i + 1;
    }
    assert args[..i] == args;
    out := out + [BACKGROUND_TOKEN];
  }

  method ComputeWithoutBackgroundFlag(args: Args) returns (out: Args)
    ensures out == WithoutBackgroundFlag(args)
  {
    out := [];
    var i := 0;
    while i < |args|
      invariant 0 <= i <= |args|
      invariant out == WithoutBackgroundFlag(args[..i])
    {
      assert args[..i + 1][..i] == args[..i];
      if args[i] != "-background" && args[i] != "--background" {
        out := out + [args[i]];
      }
      i := i + 1;
    }
    assert args[..i] == args;
  }

  method ComputeStartedTunnel(argv: Args) returns (tunnel: Option<Args>)
    ensures tunnel == StartedTunnel(argv)
  {
    if |argv| == 0 {
      return None;
    }
    var gui, _ := BoolFlagValue(argv[1..], GUI);
    if gui {
      var off, _ := BoolFlagValue(argv[1..], NO_AUTOCONNECT);
      if off {
        return None;
      }
      var spawned := ComputeTrayClientArgs(argv[1..]);
      var running := ComputeWithoutBackgroundFlag(spawned);
      return Some(running);
    }
    var running := ComputeWithoutBackgroundFlag(argv[1..]);
    return Some(running);
  }

  /** What a reloaded property list runs, by its file name. */
  function StartOf(exe: string, plist: string): seq<Args> {
    if plist == "com.liferay.tunnel.plist" then [[exe, BACKGROUND_TOKEN]]
    else if plist == "com.liferay.tunnel.gui.plist" then [[exe, "-gui"]]
    else []
  }

  /** What the reloaded service definitions run. */
  function ServiceStarts(exe: string, plists: seq<string>, restartSystemd: bool): seq<Args> {
    if plists == [] then if restartSystemd then [[exe, BACKGROUND_TOKEN]] else []
    else StartOf(exe, plists[0]) + ServiceStarts(exe, plists[1..], restartSystemd)
  }

  method ComputeServiceStarts(exe: string, plists: seq<string>, restartSystemd: bool) returns (out: seq<Args>)
    ensures out == ServiceStarts(exe, plists, restartSystemd)
  {
    hide StartOf;
    out := [];
    var i := 0;
    while i < |plists|
      invariant 0 <= i <= |plists|
      invariant out + ServiceStarts(exe, plists[i..], restartSystemd) == ServiceStarts(exe, plists, restartSystemd)
    {
      assert plists[i..][1..] == plists[i + 1..];
      out := out + StartOf(exe, plists[i]);
      i := i + 1;
    }
    if restartSystemd {
      out := out + [[exe, BACKGROUND_TOKEN]];
    }
  }

  // ----- identifying command lines -----

  /** The key of a command line: its flags joined by NUL. */
  function FlagKey(flags: Args): string {
    if flags == [] then ""
    else if |flags| == 1 then flags[0]
    else flags[0] + [NUL] + FlagKey(flags[1..])
  }

  ghost predicate NulFree(flags: Args) {
    forall i :: 0 <= i < |flags| ==> NUL !in flags[i]
  }

  /** The two flag lists that share the empty key. */
  ghost predicate Twins(a: Args, b: Args) {
    (a == [] && b == [""]) || (a == [""] && b == [])
  }

  lemma SplitsAtFirstNul(x: string, y: string, u: string, v: string)
    requires NUL !in x && NUL !in y
    requires x + [NUL] + u == y + [NUL] + v
    ensures x == y && u == v
  {
    var s := x + [NUL] + u;
    assert s[|x|] == NUL && s[|y|] == NUL;
    assert forall i :: 0 <= i < |x| ==> s[i] == x[i];
    assert forall i :: 0 <= i < |y| ==> s[i] == y[i];
    assert x == s[..|x|] && y == s[..|y|];
    assert u == s[|x| + 1..] && v == s[|y| + 1..];
  }

  /** Keys identify NUL-free flag lists but for the twins. */
  lemma {:induction false} KeysIdentify(a: Args, b: Args)
    requires NulFree(a) && NulFree(b)
    ensures FlagKey(a) == FlagKey(b) <==> a == b || Twins(a, b)
  {
    if FlagKey(a) == FlagKey(b) && a != [] && b != [] {
      if |a| > 1 && |b| > 1 {
        SplitsAtFirstNul(a[0], b[0], FlagKey(a[1..]), FlagKey(b[1..]));
        KeysIdentify(a[1..], b[1..]);
        KeyOfMany(a);
        assert a == [a[0]] + a[1..] && b == [b[0]] + b[1..];
      } else if |a| > 1 {
        KeyOfMany(a);
      } else if |b| > 1 {
        KeyOfMany(b);
      }
    } else if FlagKey(a) == FlagKey(b) {
      if |a| > 1 {
        KeyOfMany(a);
      }
      if |b| > 1 {
        KeyOfMany(b);
      }
    }
  }

  lemma KeyOfMany(a: Args)
    requires |a| > 1
    ensures NUL in FlagKey(a)
  {
    assert FlagKey(a)[|a[0]|] == NUL;
  }

  // ----- planning -----

  /** A tunnel is started through -background, so that it gets a pid file; a tray as it was found. */
  function RelaunchArgv(argv: Args): Args {
    if argv == [] || IsTray(argv) || HasBackgroundToken(argv[1..]) then argv
    else argv + [BACKGROUND_TOKEN]
  }

  predicate HasBackgroundToken(args: Args) {
    exists i :: 0 <= i < |args| && IsFlagToken(args[i], BACKGROUND)
  }

  /** The keys of the processes the services start. */
  function ServiceKeys(services: seq<Args>): set<string> {
    set i | 0 <= i < |services| && services[i] != [] :: FlagKey(services[i][1..])
  }

  /** A captured tray that the plan has to start itself. */
  predicate PlannedTray(argv: Args, services: seq<Args>) {
    IsTray(argv) && FlagKey(argv[1..]) !in ServiceKeys(services)
  }

  /** The keys of the tunnels that come up without a planned tunnel: from services and planned trays. */
  function TunnelKeys(relaunch: seq<Args>, services: seq<Args>): set<string> {
    (set i | 0 <= i < |services| && StartedTunnel(services[i]).Some? :: FlagKey(StartedTunnel(services[i]).value))
    + (set i | 0 <= i < |relaunch| && PlannedTray(relaunch[i], services) && StartedTunnel(relaunch[i]).Some?
         :: FlagKey(StartedTunnel(relaunch[i]).value))
  }

  /** Whether something else brings a captured process, or its tunnel, back. */
  predicate Covered(argv: Args, serviceKeys: set<string>, tunnelKeys: set<string>) {
    argv != [] &&
    (FlagKey(argv[1..]) in serviceKeys || (!IsTray(argv) && FlagKey(StartedTunnel(argv).value) in tunnelKeys))
  }

  function Keep(relaunch: seq<Args>, serviceKeys: set<string>, tunnelKeys: set<string>): seq<Args> {
    if relaunch == [] then []
    else
      var last := relaunch[|relaunch| - 1];
      Keep(relaunch[..|relaunch| - 1], serviceKeys, tunnelKeys)
      + if Covered(last, serviceKeys, tunnelKeys) then [] else [RelaunchArgv(last)]
  }

  function Plan(relaunch: seq<Args>, services: seq<Args>): seq<Args> {
    Keep(relaunch, ServiceKeys(services), TunnelKeys(relaunch, services))
  }

  method ComputeRelaunchArgv(argv: Args) returns (out: Args)
    ensures out == RelaunchArgv(argv)
  {
    if |argv| == 0 {
      return argv;
    }
    var gui, _ := BoolFlagValue(argv[1..], GUI);
    if gui {
      return argv;
    }
    var i := 1;
    while i < |argv|
      invariant 1 <= i <= |argv|
      invariant forall j :: 1 <= j < i ==> !IsFlagToken(argv[j], BACKGROUND)
    {
      if IsFlagToken(argv[i], BACKGROUND) {
        assert IsFlagToken(argv[1..][i - 1], BACKGROUND);
        return argv;
      }
      i := i + 1;
    }
    return argv + [BACKGROUND_TOKEN];
  }

  /** The planner: note what the services start, then what the captured trays will, then decide. */
  method PlanRelaunch(relaunch: seq<Args>, services: seq<Args>) returns (out: seq<Args>)
    ensures out == Plan(relaunch, services)
  {
    var startedElsewhere: set<string> := {};
    var tunnelsElsewhere: set<string> := {};
    var i := 0;
    while i < |services|
      invariant 0 <= i <= |services|
      invariant startedElsewhere == ServiceKeys(services[..i])
      invariant tunnelsElsewhere == TunnelKeys([], services[..i])
    {
      var argv := services[i];
      ServicesGrow(services[..i], argv);
      assert services[..i + 1] == services[..i] + [argv];
      if |argv| > 0 {
        startedElsewhere := startedElsewhere + {FlagKey(argv[1..])};
        var tunnel := ComputeStartedTunnel(argv);
        if tunnel.Some? {
          tunnelsElsewhere := tunnelsElsewhere + {FlagKey(tunnel.value)};
        }
      }
      i := i + 1;
    }
    assert services[..i] == services;
    i := 0;
    while i < |relaunch|
      invariant 0 <= i <= |relaunch|
      invariant startedElsewhere == ServiceKeys(services)
      invariant tunnelsElsewhere == TunnelKeys(relaunch[..i], services)
    {
      var argv := relaunch[i];
      TraysGrow(relaunch[..i], argv, services);
      assert relaunch[..i + 1] == relaunch[..i] + [argv];
      if |argv| > 0 {
        var gui, _ := BoolFlagValue(argv[1..], GUI);
        if gui && FlagKey(argv[1..]) !in startedElsewhere {
          var tunnel := ComputeStartedTunnel(argv);
          if tunnel.Some? {
            tunnelsElsewhere := tunnelsElsewhere + {FlagKey(tunnel.value)};
          }
        }
      }
      i := i + 1;
    }
    assert relaunch[..i] == relaunch;
    out := [];
    i := 0;
    while i < |relaunch|
      invariant 0 <= i <= |relaunch|
      invariant out == Keep(relaunch[..i], startedElsewhere, tunnelsElsewhere)
    {
      var argv := relaunch[i];
      assert relaunch[..i + 1][..i] == relaunch[..i];
      i := i + 1;
      if |argv| > 0 {
        if FlagKey(argv[1..]) in startedElsewhere {
          continue;
        }
        var tunnel := ComputeStartedTunnel(argv);
        var gui, _ := BoolFlagValue(argv[1..], GUI);
        if tunnel.Some? && !gui && FlagKey(tunnel.value) in tunnelsElsewhere {
          continue;
        }
      }
      var again := ComputeRelaunchArgv(argv);
      out := out + [again];
    }
    assert relaunch[..i] == relaunch;
  }

  lemma ServicesGrow(services: seq<Args>, argv: Args)
    ensures ServiceKeys(services + [argv]) == ServiceKeys(services) + if argv == [] then {} else {FlagKey(argv[1..])}
    ensures TunnelKeys([], services + [argv]) ==
            TunnelKeys([], services) + if StartedTunnel(argv).None? then {} else {FlagKey(StartedTunnel(argv).value)}
  {
    var more := services + [argv];
    assert forall i :: 0 <= i < |services| ==> more[i] == services[i];
    assert more[|services|] == argv;
  }

  lemma TraysGrow(relaunch: seq<Args>, argv: Args, services: seq<Args>)
    ensures TunnelKeys(relaunch + [argv], services) ==
            TunnelKeys(relaunch, services)
            + if PlannedTray(argv, services) && StartedTunnel(argv).Some?
              then {FlagKey(StartedTunnel(argv).value)}
              else {}
  {
    var more := relaunch + [argv];
    assert forall i :: 0 <= i < |relaunch| ==> more[i] == relaunch[i];
    assert more[|relaunch|] == argv;
  }
}
