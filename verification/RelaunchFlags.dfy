/** What a command line says and starts, in the spelling of its arguments. */
module RelaunchFlags {
  import opened Prelude
  import opened Relaunch
  import opened RelaunchProofs

  // ----- spellings -----

  /** The words Go reads as a boolean. */
  function Words(value: bool): seq<string> {
    if value then ["1", "t", "T", "TRUE", "true", "True"] else ["0", "f", "F", "FALSE", "false", "False"]
  }

  /** An argument that sets a boolean flag to a value: -name, --name, or either with = and a word. */
  predicate Sets(arg: string, name: string, value: bool) {
    || (value && (arg == "-" + name || arg == "--" + name))
    || exists word :: word in Words(value) && (arg == "-" + name + "=" + word || arg == "--" + name + "=" + word)
  }

  /** An argument that spells a flag, set or cleared, readable or not. */
  predicate Mentions(arg: string, name: string) {
    arg == "-" + name || arg == "--" + name || "-" + name + "=" <= arg || "--" + name + "=" <= arg
  }

  predicate IsPlain(name: string) {
    name != "" && name[0] != '-'
  }

  lemma BodyOfSpelling(arg: string, name: string, tail: string)
    requires IsPlain(name)
    ensures FlagBody(arg) == Some(name + tail) <==> arg == "-" + name + tail || arg == "--" + name + tail
  {
    var one, two := "-" + name + tail, "--" + name + tail;
    assert one[1..] == name + tail && two[2..] == name + tail;
    assert one[1] == name[0];
    if FlagBody(arg) == Some(name + tail) {
      assert arg == if "--" <= arg then "--" + arg[2..] else "-" + arg[1..];
    }
  }

  /** A flag is read in an argument exactly when the argument sets it in one of those spellings. */
  lemma ReadingIsSpelling(arg: string, name: string, value: bool)
    requires IsPlain(name)
    ensures Reading(arg, name) == Some(value) <==> Sets(arg, name, value)
  {
    hide FlagBody, ParseBool;
    Bare(arg, name);
    if Reading(arg, name) == Some(value) && FlagBody(arg) != Some(name) {
      var body := FlagBody(arg).value;
      var word := body[|name| + 1..];
      assert body == name + "=" + word;
      SpelledWithWord(arg, name, word);
      WordsAreRead(word, value);
      assert word in Words(value);
    }
    forall word | word in Words(value) && (arg == "-" + name + "=" + word || arg == "--" + name + "=" + word)
      ensures Reading(arg, name) == Some(value)
    {
      SpelledWithWord(arg, name, word);
      WordsAreRead(word, value);
    }
  }

  lemma WordsAreRead(word: string, value: bool)
    ensures ParseBool(word) == Some(value) <==> word in Words(value)
  {
  }

  /** An argument is a token of a flag exactly when it spells it. */
  lemma TokensAreMentions(arg: string, name: string)
    requires IsPlain(name)
    ensures IsFlagToken(arg, name) <==> Mentions(arg, name)
  {
    hide FlagBody;
    Bare(arg, name);
    if FlagBody(arg).Some? && name + "=" <= FlagBody(arg).value {
      var word := FlagBody(arg).value[|name| + 1..];
      assert FlagBody(arg).value == name + "=" + word;
      SpelledWithWord(arg, name, word);
    }
    if "-" + name + "=" <= arg {
      var word := arg[|name| + 2..];
      assert arg == "-" + name + "=" + word;
      SpelledWithWord(arg, name, word);
    }
    if "--" + name + "=" <= arg {
      var word := arg[|name| + 3..];
      assert arg == "--" + name + "=" + word;
      SpelledWithWord(arg, name, word);
    }
  }

  lemma Bare(arg: string, name: string)
    requires IsPlain(name)
    ensures FlagBody(arg) == Some(name) <==> arg == "-" + name || arg == "--" + name
  {
    BodyOfSpelling(arg, name, "");
    assert name + "" == name && "-" + name + "" == "-" + name && "--" + name + "" == "--" + name;
  }

  lemma SpelledWithWord(arg: string, name: string, word: string)
    requires IsPlain(name)
    ensures FlagBody(arg) == Some(name + "=" + word) <==>
            arg == "-" + name + "=" + word || arg == "--" + name + "=" + word
    ensures FlagBody(arg) == Some(name + "=" + word) ==> Reading(arg, name) == ParseBool(word)
    ensures name + "=" <= name + "=" + word
  {
    BodyOfSpelling(arg, name, "=" + word);
    assert name + ("=" + word) == name + "=" + word;
    assert "-" + name + ("=" + word) == "-" + name + "=" + word;
    assert "--" + name + ("=" + word) == "--" + name + "=" + word;
    assert (name + "=" + word)[|name| + 1..] == word;
  }

  // ----- which setting decides -----

  /** The i-th argument sets the flag to this value, and none after it sets it to anything. */
  ghost predicate SetsLast(args: Args, i: nat, name: string, value: bool) {
    && i < |args| && Sets(args[i], name, value)
    && forall j: nat :: i < j < |args| ==> !Sets(args[j], name, true) && !Sets(args[j], name, false)
  }

  ghost predicate IsSetTo(args: Args, name: string, value: bool) {
    exists i: nat :: SetsLast(args, i, name, value)
  }

  /** A flag has the value that the last argument to set it gives it, an unreadable word setting nothing. */
  lemma {:induction false} TheLastSettingDecides(args: Args, name: string, value: bool)
    requires IsPlain(name)
    ensures FlagSetting(args, name) == Some(value) <==> IsSetTo(args, name, value)
  {
    if args != [] {
      hide Reading, Sets;
      var n := |args| - 1;
      var before, last := args[..n], args[n];
      TheLastSettingDecides(before, name, value);
      ReadingIsSpelling(last, name, true);
      ReadingIsSpelling(last, name, false);
      if Sets(last, name, value) {
        assert SetsLast(args, n, name, value);
      }
      if i: nat :| SetsLast(before, i, name, value) {
        assert Sets(last, name, true) || Sets(last, name, false) || SetsLast(args, i, name, value);
      }
      if i: nat :| SetsLast(args, i, name, value) {
        assert i == n || (SetsLast(before, i, name, value) && !Sets(last, name, true) && !Sets(last, name, false));
      }
    }
  }

  // ----- what is passed on -----

  /** A tray passes its arguments on in order, but for those that spell -gui, -background or -no-autoconnect. */
  lemma {:induction false} TraysForwardTheRest(left: Args, right: Args, arg: string)
    ensures TrayForwards(left + right) == TrayForwards(left) + TrayForwards(right)
    ensures TrayForwards([arg]) ==
            if Mentions(arg, "gui") || Mentions(arg, "background") || Mentions(arg, "no-autoconnect") then [] else [arg]
    ensures TrayForwards([]) == []
  {
    hide IsFlagToken, Mentions;
    TokensAreMentions(arg, "gui");
    TokensAreMentions(arg, "background");
    TokensAreMentions(arg, "no-autoconnect");
    assert [arg][..0] == [];
    if right == [] {
      assert left + right == left;
    } else {
      var before := right[..|right| - 1];
      TraysForwardTheRest(left, before, arg);
      assert (left + right)[..|left + right| - 1] == left + before;
    }
  }

  /** A tunnel runs with its arguments in order, but for the two bare spellings of -background. */
  lemma {:induction false} TunnelsDropTheToken(left: Args, right: Args, arg: string)
    ensures WithoutBackgroundFlag(left + right) == WithoutBackgroundFlag(left) + WithoutBackgroundFlag(right)
    ensures WithoutBackgroundFlag([arg]) == if arg == "-background" || arg == "--background" then [] else [arg]
    ensures WithoutBackgroundFlag([]) == []
  {
    assert [arg][..0] == [];
    if right == [] {
      assert left + right == left;
    } else {
      var before := right[..|right| - 1];
      TunnelsDropTheToken(left, before, arg);
      assert (left + right)[..|left + right| - 1] == left + before;
    }
  }

  /** What a tray forwards holds no token for the run to drop. */
  lemma {:induction false} ForwardedIsKept(args: Args)
    ensures WithoutBackgroundFlag(TrayClientArgs(args)) == TrayForwards(args)
  {
    hide IsFlagToken, WithoutBackgroundFlag;
    TunnelsDropTheToken(TrayForwards(args), ["-background"], "-background");
    if args == [] {
      TunnelsDropTheToken([], [], "");
    } else {
      var before, last := args[..|args| - 1], args[|args| - 1];
      ForwardedIsKept(before);
      TunnelsDropTheToken(TrayForwards(before), ["-background"], "-background");
      TunnelsDropTheToken(TrayForwards(before), [last], last);
      TunnelsDropTheToken(TrayForwards(before), [], "");
      TokensAreMentions(last, "background");
    }
  }

  // ----- what a command line starts -----

  /** A command line is a tray exactly when -gui is set on it; a tray starts a tunnel exactly unless -no-autoconnect
      is set on it, and then the one whose arguments it forwards; anything else starts its own. */
  lemma WhatACommandLineStarts(argv: Args)
    ensures IsTray(argv) <==> argv != [] && IsSetTo(argv[1..], "gui", true)
    ensures StartedTunnel([]) == None
    ensures IsTray(argv) ==>
              StartedTunnel(argv) ==
              if IsSetTo(argv[1..], "no-autoconnect", true) then None else Some(TrayForwards(argv[1..]))
    ensures argv != [] && !IsTray(argv) ==> StartedTunnel(argv) == Some(WithoutBackgroundFlag(argv[1..]))
  {
    hide FlagSetting, IsSetTo, TrayForwards, WithoutBackgroundFlag, TrayClientArgs;
    if argv != [] {
      TheLastSettingDecides(argv[1..], "gui", true);
      TheLastSettingDecides(argv[1..], "no-autoconnect", true);
      ForwardedIsKept(argv[1..]);
    }
  }

  /** So a tray that ends with -no-autoconnect starts nothing, and one that ends with -no-autoconnect=false, or does
      not spell the flag at all, starts a tunnel. */
  lemma LastWordOnConnecting(argv: Args)
    requires IsTray(argv)
    ensures StartedTunnel(argv + ["-no-autoconnect"]).None?
    ensures StartedTunnel(argv + ["-no-autoconnect=false"]).Some?
    ensures (forall i: nat :: 1 <= i < |argv| ==> !Mentions(argv[i], "no-autoconnect")) ==> StartedTunnel(argv).Some?
  {
    hide StartedTunnel, IsTray, Sets, Mentions;
    var off, on := argv + ["-no-autoconnect"], argv + ["-no-autoconnect=false"];
    LiteralSettings();
    OneMoreArgument(argv, "-no-autoconnect");
    OneMoreArgument(argv, "-no-autoconnect=false");
    WhatACommandLineStarts(argv);
    WhatACommandLineStarts(off);
    WhatACommandLineStarts(on);
    assert SetsLast(off[1..], |argv| - 1, "no-autoconnect", true);
    forall i: nat ensures !SetsLast(on[1..], i, "no-autoconnect", true) {
      assert on[1..][|argv| - 1] == "-no-autoconnect=false";
    }
    if i: nat :| SetsLast(argv[1..], i, "no-autoconnect", true) {
      SettingsAreMentions(argv[i + 1], "no-autoconnect", true);
    }
  }

  /** A tray told last not to connect. */
  lemma ToldNotToConnect(argv: Args)
    requires IsTray(argv) && argv[|argv| - 1] == "-no-autoconnect"
    ensures StartedTunnel(argv).None?
  {
    hide StartedTunnel, IsTray, Sets, FlagSetting;
    LiteralSettings();
    WhatACommandLineStarts(argv);
    assert |argv| > 1 by {
      var i: nat :| SetsLast(argv[1..], i, "gui", true);
    }
    assert SetsLast(argv[1..], |argv| - 2, "no-autoconnect", true);
  }

  lemma SettingsAreMentions(arg: string, name: string, value: bool)
    ensures Sets(arg, name, value) ==> Mentions(arg, name)
  {
  }

  lemma LiteralSettings()
    ensures Sets("-no-autoconnect", "no-autoconnect", true)
    ensures Sets("-no-autoconnect=false", "no-autoconnect", false)
    ensures !Sets("-no-autoconnect=false", "no-autoconnect", true)
    ensures forall value :: !Sets("-no-autoconnect", "gui", value) && !Sets("-no-autoconnect=false", "gui", value)
  {
    hide Sets;
    var bare, cleared := "-no-autoconnect", "-no-autoconnect=false";
    assert bare == "-" + "no-autoconnect" && cleared == "-" + "no-autoconnect" + "=" + "false";
    Bare(bare, "no-autoconnect");
    SpelledWithWord(cleared, "no-autoconnect", "false");
    ReadingIsSpelling(bare, "no-autoconnect", true);
    ReadingIsSpelling(cleared, "no-autoconnect", true);
    ReadingIsSpelling(cleared, "no-autoconnect", false);
    forall value ensures !Sets(bare, "gui", value) && !Sets(cleared, "gui", value) {
      assert "no-autoconnect"[0] != "gui"[0] && ("no-autoconnect" + "=" + "false")[0] != "gui"[0];
      ReadingIsSpelling(bare, "gui", value);
      ReadingIsSpelling(cleared, "gui", value);
    }
  }

  /** Another argument that does not set -gui leaves a tray a tray. */
  lemma OneMoreArgument(argv: Args, arg: string)
    requires IsTray(argv) && !Sets(arg, "gui", true) && !Sets(arg, "gui", false)
    ensures IsTray(argv + [arg]) && (argv + [arg])[1..] == argv[1..] + [arg]
  {
    hide Sets, FlagSetting;
    WhatACommandLineStarts(argv);
    WhatACommandLineStarts(argv + [arg]);
    var i: nat :| SetsLast(argv[1..], i, "gui", true);
    assert SetsLast((argv + [arg])[1..], i, "gui", true);
  }

  // ----- what is planned -----

  /** Nothing in a list starts this tunnel, nor the one that shares its key. */
  ghost predicate StartedByNone(starters: seq<Args>, tunnel: Args) {
    forall i: nat :: i < |starters| ==>
      && StartedTunnel(starters[i]) != Some(tunnel)
      && (StartedTunnel(starters[i]).Some? ==> !Twins(tunnel, StartedTunnel(starters[i]).value))
  }

  /** When every captured tray was told last not to connect, a captured tunnel that no service starts is planned. */
  lemma QuietTraysReplaceNothing(relaunch: seq<Args>, services: seq<Args>, i: nat)
    requires NulFreeLists(relaunch) && NulFreeLists(services)
    requires forall k: nat :: k < |relaunch| && IsTray(relaunch[k]) ==>
                                relaunch[k][|relaunch[k]| - 1] == "-no-autoconnect"
    requires i < |relaunch| && relaunch[i] != [] && !IsTray(relaunch[i])
    requires StartedByNone(services, WithoutBackgroundFlag(relaunch[i][1..]))
    ensures relaunch[i] in Plan(relaunch, services) || relaunch[i] + ["-background"] in Plan(relaunch, services)
  {
    hide IsTray, WithoutBackgroundFlag, TrayClientArgs;
    var argv := relaunch[i];
    var tunnel := WithoutBackgroundFlag(argv[1..]);
    WhatACommandLineStarts(argv);
    forall k: nat | k < |relaunch| && IsTray(relaunch[k]) ensures StartedTunnel(relaunch[k]).None? {
      ToldNotToConnect(relaunch[k]);
    }
    if Covered(argv, ServiceKeys(services), TunnelKeys(relaunch, services)) {
      if FlagKey(argv[1..]) in ServiceKeys(services) {
        var s := SameProcessSameTunnel(argv, services);
        assert false;
      } else {
        FilteringKeepsNulFree(argv[1..]);
        var other := NotedIsElsewhere(relaunch, services, tunnel);
        assert false;
      }
    }
    KeepMeaning(relaunch, ServiceKeys(services), TunnelKeys(relaunch, services));
    assert RelaunchArgv(argv) in Plan(relaunch, services);
  }

  /** Whether a captured command line is left out of the plan. */
  ghost predicate LeftOut(relaunch: seq<Args>, services: seq<Args>, argv: Args) {
    Covered(argv, ServiceKeys(services), TunnelKeys(relaunch, services))
  }

  /** The places of the captured command lines that a plan starts again, in order. */
  ghost predicate Picks(relaunch: seq<Args>, services: seq<Args>, upTo: nat, plan: seq<Args>, from: seq<nat>)
    requires upTo <= |relaunch|
  {
    && |from| == |plan|
    && (forall k: nat :: k < |from| ==> from[k] < upTo && plan[k] == RelaunchArgv(relaunch[from[k]]))
    && (forall k: nat, l: nat :: k < l < |from| ==> from[k] < from[l])
    && (forall i: nat :: i < upTo ==> (i in from <==> !LeftOut(relaunch, services, relaunch[i])))
  }

  /** The plan has one entry for each captured command line that is not left out, in the order of capture. */
  lemma PlansKeepTheOrder(relaunch: seq<Args>, services: seq<Args>) returns (from: seq<nat>)
    ensures Picks(relaunch, services, |relaunch|, Plan(relaunch, services), from)
  {
    from := PicksUpTo(relaunch, services, |relaunch|);
    assert relaunch[..|relaunch|] == relaunch;
  }

  lemma {:induction false} PicksUpTo(relaunch: seq<Args>, services: seq<Args>, n: nat) returns (from: seq<nat>)
    requires n <= |relaunch|
    ensures Picks(relaunch, services, n,
                  Keep(relaunch[..n], ServiceKeys(services), TunnelKeys(relaunch, services)), from)
    decreases n
  {
    hide *;
    if n == 0 {
      from := [];
      NothingPicked(relaunch, services);
    } else {
      var m := n - 1;
      from := PicksUpTo(relaunch, services, m);
      var before := Keep(relaunch[..m], ServiceKeys(services), TunnelKeys(relaunch, services));
      KeepOneMore(relaunch, services, m);
      PickOneMore(relaunch, services, m, before, from);
      if !LeftOut(relaunch, services, relaunch[m]) {
        from := from + [m];
      }
    }
  }

  lemma NothingPicked(relaunch: seq<Args>, services: seq<Args>)
    ensures Picks(relaunch, services, 0, Keep(relaunch[..0], ServiceKeys(services), TunnelKeys(relaunch, services)), [])
  {
    hide ServiceKeys, TunnelKeys, Covered;
    assert relaunch[..0] == [];
  }

  lemma KeepOneMore(relaunch: seq<Args>, services: seq<Args>, n: nat)
    requires n < |relaunch|
    ensures var serviceKeys, tunnelKeys := ServiceKeys(services), TunnelKeys(relaunch, services);
            Keep(relaunch[..n + 1], serviceKeys, tunnelKeys) ==
            if LeftOut(relaunch, services, relaunch[n]) then Keep(relaunch[..n], serviceKeys, tunnelKeys)
            else Keep(relaunch[..n], serviceKeys, tunnelKeys) + [RelaunchArgv(relaunch[n])]
  {
    hide Covered, RelaunchArgv, ServiceKeys, TunnelKeys;
    assert relaunch[..n + 1][..n] == relaunch[..n];
  }

  lemma PickOneMore(relaunch: seq<Args>, services: seq<Args>, n: nat, plan: seq<Args>, from: seq<nat>)
    requires n < |relaunch| && Picks(relaunch, services, n, plan, from)
    ensures if LeftOut(relaunch, services, relaunch[n]) then Picks(relaunch, services, n + 1, plan, from)
            else Picks(relaunch, services, n + 1, plan + [RelaunchArgv(relaunch[n])], from + [n])
  {
    hide LeftOut, RelaunchArgv;
  }

  /** A tray is started again as it was, a tunnel with the token unless it spells -background already. */
  lemma HowItIsStartedAgain(argv: Args)
    ensures RelaunchArgv(argv) ==
            if argv == [] || IsTray(argv) || (exists i: nat :: 1 <= i < |argv| && Mentions(argv[i], "background"))
            then argv else argv + ["-background"]
  {
    hide IsTray, IsFlagToken, Mentions;
    if argv != [] {
      forall i: nat | i < |argv[1..]|
        ensures IsFlagToken(argv[1..][i], BACKGROUND) == Mentions(argv[i + 1], "background")
      {
        TokensAreMentions(argv[i + 1], "background");
      }
      if i: nat :| 1 <= i < |argv| && Mentions(argv[i], "background") {
        assert IsFlagToken(argv[1..][i - 1], BACKGROUND);
      }
    }
  }

  lemma ServiceByName(exe: string)
    ensures ServiceStarts(exe, ["com.liferay.tunnel.plist"], false) == [[exe, "-background"]]
    ensures ServiceStarts(exe, ["com.liferay.tunnel.gui.plist"], false) == [[exe, "-gui"]]
    ensures forall other :: other != "com.liferay.tunnel.plist" && other != "com.liferay.tunnel.gui.plist" ==>
                              ServiceStarts(exe, [other], false) == []
  {
    assert "com.liferay.tunnel.plist"[19] != "com.liferay.tunnel.gui.plist"[19];
    forall plist ensures ServiceStarts(exe, [plist], false) == StartOf(exe, plist) {
      assert [plist][1..] == [];
    }
  }

  lemma {:induction false} ServicesAddUp(exe: string, first: seq<string>, more: seq<string>, restartSystemd: bool)
    ensures ServiceStarts(exe, first + more, restartSystemd) ==
            ServiceStarts(exe, first, false) + ServiceStarts(exe, more, restartSystemd)
  {
    hide StartOf;
    if first == [] {
      assert first + more == more;
    } else {
      ServicesAddUp(exe, first[1..], more, restartSystemd);
      assert (first + more)[1..] == first[1..] + more;
    }
  }

  /** The services reloaded, by the names of their files, in order and the systemd unit last. */
  lemma WhatServicesRun(exe: string, first: seq<string>, more: seq<string>, restartSystemd: bool)
    ensures ServiceStarts(exe, first + more, restartSystemd) ==
            ServiceStarts(exe, first, false) + ServiceStarts(exe, more, restartSystemd)
    ensures ServiceStarts(exe, ["com.liferay.tunnel.plist"], false) == [[exe, "-background"]]
    ensures ServiceStarts(exe, ["com.liferay.tunnel.gui.plist"], false) == [[exe, "-gui"]]
    ensures forall other :: other != "com.liferay.tunnel.plist" && other != "com.liferay.tunnel.gui.plist" ==>
                              ServiceStarts(exe, [other], false) == []
    ensures ServiceStarts(exe, [], restartSystemd) == if restartSystemd then [[exe, "-background"]] else []
  {
    ServiceByName(exe);
    ServicesAddUp(exe, first, more, restartSystemd);
  }
}
