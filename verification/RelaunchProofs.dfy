/** An upgrade loses no tunnel and doubles none, and planning again changes nothing. */
module RelaunchProofs {
  import opened Prelude
  import opened Relaunch

  // ----- relaunching does not change what is started -----

  lemma {:induction false} BackgroundIsNeutral(args: Args)
    ensures WithoutBackgroundFlag(args + [BACKGROUND_TOKEN]) == WithoutBackgroundFlag(args)
    ensures FlagSetting(args + [BACKGROUND_TOKEN], GUI) == FlagSetting(args, GUI)
    ensures HasBackgroundToken(args + [BACKGROUND_TOKEN])
  {
    var more := args + [BACKGROUND_TOKEN];
    assert more[..|args|] == args && more[|args|] == BACKGROUND_TOKEN;
    assert BACKGROUND_TOKEN[1..] == BACKGROUND;
    assert BACKGROUND_TOKEN[0] == '-' && BACKGROUND_TOKEN[1] != "--"[1];
    assert FlagBody(BACKGROUND_TOKEN) == Some(BACKGROUND);
    assert Reading(BACKGROUND_TOKEN, GUI) == None by {
      assert BACKGROUND[0] != GUI[0];
    }
    assert IsFlagToken(more[|args|], BACKGROUND);
  }

  /** What a planned entry starts is what the captured process started; only tunnels change, by gaining a
      -background token. */
  lemma RelaunchingKeepsTheTunnel(argv: Args)
    ensures StartedTunnel(RelaunchArgv(argv)) == StartedTunnel(argv)
    ensures IsTray(RelaunchArgv(argv)) == IsTray(argv)
    ensures IsTray(argv) ==> RelaunchArgv(argv) == argv
    ensures argv != [] && !IsTray(argv) ==> HasBackgroundToken(RelaunchArgv(argv)[1..])
    ensures RelaunchArgv(argv) == [] <==> argv == []
    ensures RelaunchArgv(RelaunchArgv(argv)) == RelaunchArgv(argv)
  {
    if argv != [] {
      BackgroundIsNeutral(argv[1..]);
      assert (argv + [BACKGROUND_TOKEN])[1..] == argv[1..] + [BACKGROUND_TOKEN];
    }
  }

  // ----- what the plan holds -----

  lemma {:induction false} KeepMeaning(relaunch: seq<Args>, serviceKeys: set<string>, tunnelKeys: set<string>)
    ensures forall p :: p in Keep(relaunch, serviceKeys, tunnelKeys) <==>
                        exists i :: 0 <= i < |relaunch| && !Covered(relaunch[i], serviceKeys, tunnelKeys)
                            && p == RelaunchArgv(relaunch[i])
  {
    hide Covered, RelaunchArgv;
    if relaunch != [] {
      var before, last := relaunch[..|relaunch| - 1], relaunch[|relaunch| - 1];
      KeepMeaning(before, serviceKeys, tunnelKeys);
      assert forall i :: 0 <= i < |before| ==> before[i] == relaunch[i];
      var kept := Keep(before, serviceKeys, tunnelKeys);
      assert Keep(relaunch, serviceKeys, tunnelKeys) ==
             kept + if Covered(last, serviceKeys, tunnelKeys) then [] else [RelaunchArgv(last)];
    }
  }

  /** Something of a list starts exactly this tunnel. */
  ghost predicate Starts(starters: seq<Args>, tunnel: Args) {
    exists i :: 0 <= i < |starters| && StartedTunnel(starters[i]) == Some(tunnel)
  }

  /** A planned tray starts exactly this tunnel. */
  ghost predicate TrayStarts(relaunch: seq<Args>, services: seq<Args>, tunnel: Args) {
    exists i :: 0 <= i < |relaunch| && PlannedTray(relaunch[i], services) && StartedTunnel(relaunch[i]) == Some(tunnel)
  }

  /** The tunnel comes up without a planned tunnel of its own. */
  ghost predicate Elsewhere(relaunch: seq<Args>, services: seq<Args>, tunnel: Args) {
    Starts(services, tunnel) || TrayStarts(relaunch, services, tunnel)
  }

  lemma ElsewhereIsNoted(relaunch: seq<Args>, services: seq<Args>, tunnel: Args)
    requires Elsewhere(relaunch, services, tunnel)
    ensures FlagKey(tunnel) in TunnelKeys(relaunch, services)
  {
  }

  lemma TrayIsPlanned(relaunch: seq<Args>, services: seq<Args>, i: nat)
    requires i < |relaunch| && PlannedTray(relaunch[i], services)
    ensures relaunch[i] in Plan(relaunch, services)
  {
    KeepMeaning(relaunch, ServiceKeys(services), TunnelKeys(relaunch, services));
    RelaunchingKeepsTheTunnel(relaunch[i]);
    assert !Covered(relaunch[i], ServiceKeys(services), TunnelKeys(relaunch, services));
  }

  // ----- no tunnel is doubled -----

  /** No planned background tunnel has the configuration of one that a service or a planned tray starts,
      for any captured processes and any services. */
  lemma NoTunnelIsDoubled(relaunch: seq<Args>, services: seq<Args>, p: Args, tunnel: Args)
    requires p in Plan(relaunch, services) && !IsTray(p) && StartedTunnel(p) == Some(tunnel)
    ensures !Starts(services, tunnel)
    ensures forall q :: q in Plan(relaunch, services) && IsTray(q) ==> StartedTunnel(q) != Some(tunnel)
  {
    var serviceKeys, tunnelKeys := ServiceKeys(services), TunnelKeys(relaunch, services);
    KeepMeaning(relaunch, serviceKeys, tunnelKeys);
    var i :| 0 <= i < |relaunch| && !Covered(relaunch[i], serviceKeys, tunnelKeys) && p == RelaunchArgv(relaunch[i]);
    RelaunchingKeepsTheTunnel(relaunch[i]);
    if Elsewhere(relaunch, services, tunnel) {
      ElsewhereIsNoted(relaunch, services, tunnel);
      assert false;
    }
    forall q | q in Plan(relaunch, services) && IsTray(q) ensures StartedTunnel(q) != Some(tunnel) {
      var j :| 0 <= j < |relaunch| && !Covered(relaunch[j], serviceKeys, tunnelKeys) && q == RelaunchArgv(relaunch[j]);
      RelaunchingKeepsTheTunnel(relaunch[j]);
      assert PlannedTray(relaunch[j], services);
    }
  }

  /** Every planned entry is a captured one: a tray exactly as it was, a tunnel with a -background token
      added where it had none, starting what it started before. Only an empty captured command line,
      which no process has, stays without the token. */
  lemma PlannedEntries(relaunch: seq<Args>, services: seq<Args>, p: Args)
    requires p in Plan(relaunch, services)
    ensures exists i :: 0 <= i < |relaunch| && StartedTunnel(p) == StartedTunnel(relaunch[i])
                        && (p == relaunch[i] || (!IsTray(p) && p == relaunch[i] + [BACKGROUND_TOKEN]))
    ensures IsTray(p) || p == [] || HasBackgroundToken(p[1..])
  {
    var serviceKeys, tunnelKeys := ServiceKeys(services), TunnelKeys(relaunch, services);
    KeepMeaning(relaunch, serviceKeys, tunnelKeys);
    var i :| 0 <= i < |relaunch| && !Covered(relaunch[i], serviceKeys, tunnelKeys) && p == RelaunchArgv(relaunch[i]);
    RelaunchingKeepsTheTunnel(relaunch[i]);
  }

  // ----- no tunnel is lost -----

  ghost predicate NulFreeLists(lists: seq<Args>) {
    forall i :: 0 <= i < |lists| ==> NulFree(lists[i])
  }

  /** Every tunnel a captured process ran is started again, by a service or by the plan. */
  ghost predicate NothingLost(relaunch: seq<Args>, services: seq<Args>) {
    forall i :: 0 <= i < |relaunch| && StartedTunnel(relaunch[i]).Some? ==>
      var tunnel := StartedTunnel(relaunch[i]).value;
      Starts(services, tunnel) || Starts(Plan(relaunch, services), tunnel)
  }

  /** A captured tunnel whose configuration is one of the twins, where the other one and not it comes up
      elsewhere: the key of no flags at all is that of one empty flag. */
  ghost predicate MistakenForItsTwin(relaunch: seq<Args>, services: seq<Args>) {
    exists i, twin ::
      && 0 <= i < |relaunch| && StartedTunnel(relaunch[i]).Some? && !IsTray(relaunch[i])
      && Twins(StartedTunnel(relaunch[i]).value, twin)
      && Elsewhere(relaunch, services, twin)
      && !Elsewhere(relaunch, services, StartedTunnel(relaunch[i]).value)
  }

  lemma {:induction false} FilteringKeepsNulFree(args: Args)
    requires NulFree(args)
    ensures NulFree(WithoutBackgroundFlag(args)) && NulFree(TrayForwards(args))
  {
    if args != [] {
      FilteringKeepsNulFree(args[..|args| - 1]);
    }
  }

  lemma StartedIsNulFree(argv: Args)
    requires NulFree(argv)
    ensures StartedTunnel(argv).Some? ==> NulFree(StartedTunnel(argv).value)
  {
    if argv != [] {
      FilteringKeepsNulFree(argv[1..]);
      FilteringKeepsNulFree(TrayClientArgs(argv[1..]));
    }
  }

  lemma NotedIsElsewhere(relaunch: seq<Args>, services: seq<Args>, tunnel: Args) returns (other: Args)
    requires NulFreeLists(relaunch) && NulFreeLists(services) && NulFree(tunnel)
    requires FlagKey(tunnel) in TunnelKeys(relaunch, services)
    ensures Elsewhere(relaunch, services, other) && (other == tunnel || Twins(tunnel, other))
  {
    var k := FlagKey(tunnel);
    if i :| 0 <= i < |services| && StartedTunnel(services[i]).Some? && FlagKey(StartedTunnel(services[i]).value) == k {
      other := StartedTunnel(services[i]).value;
      StartedIsNulFree(services[i]);
    } else {
      var i :| 0 <= i < |relaunch| && PlannedTray(relaunch[i], services) && StartedTunnel(relaunch[i]).Some?
               && FlagKey(StartedTunnel(relaunch[i]).value) == FlagKey(tunnel);
      other := StartedTunnel(relaunch[i]).value;
      StartedIsNulFree(relaunch[i]);
    }
    KeysIdentify(tunnel, other);
  }

  /** A service with the same flags starts the same tunnel, unless one of the two has no flags and the
      other a lone empty one. */
  lemma SameProcessSameTunnel(argv: Args, services: seq<Args>) returns (s: nat)
    requires argv != [] && NulFree(argv) && NulFreeLists(services) && FlagKey(argv[1..]) in ServiceKeys(services)
    ensures s < |services| && services[s] != []
    ensures argv[1..] == services[s][1..] || Twins(argv[1..], services[s][1..])
    ensures argv[1..] == services[s][1..] ==> StartedTunnel(services[s]) == StartedTunnel(argv)
    ensures Twins(argv[1..], services[s][1..]) ==>
              !IsTray(argv) && StartedTunnel(argv) == Some(argv[1..])
                  && StartedTunnel(services[s]) == Some(services[s][1..])
  {
    s :| 0 <= s < |services| && services[s] != [] && FlagKey(services[s][1..]) == FlagKey(argv[1..]);
    assert NulFree(services[s]);
    KeysIdentify(argv[1..], services[s][1..]);
    if Twins(argv[1..], services[s][1..]) {
      TwinsStartThemselves(argv);
      TwinsStartThemselves(services[s]);
    }
  }

  lemma TwinsStartThemselves(argv: Args)
    requires argv != [] && (argv[1..] == [] || argv[1..] == [""])
    ensures !IsTray(argv) && StartedTunnel(argv) == Some(argv[1..])
  {
    var flags := argv[1..];
    if flags == [""] {
      var before, last := flags[..|flags| - 1], flags[|flags| - 1];
      assert before == [] && last == "";
      assert Reading(last, GUI) == None;
      assert FlagSetting(flags, GUI) == FlagSetting(before, GUI);
      assert WithoutBackgroundFlag(flags) == WithoutBackgroundFlag(before) + [last] == flags;
    }
  }

  lemma CoveredComesBack(relaunch: seq<Args>, services: seq<Args>, i: nat)
    requires NulFreeLists(relaunch) && NulFreeLists(services) && !MistakenForItsTwin(relaunch, services)
    requires i < |relaunch| && Covered(relaunch[i], ServiceKeys(services), TunnelKeys(relaunch, services))
    requires StartedTunnel(relaunch[i]).Some?
    ensures Elsewhere(relaunch, services, StartedTunnel(relaunch[i]).value)
  {
    var argv, tunnel := relaunch[i], StartedTunnel(relaunch[i]).value;
    StartedIsNulFree(argv);
    if FlagKey(argv[1..]) in ServiceKeys(services) {
      var s := SameProcessSameTunnel(argv, services);
      if Twins(argv[1..], services[s][1..]) {
        assert Elsewhere(relaunch, services, services[s][1..]);
      }
    } else {
      var other := NotedIsElsewhere(relaunch, services, tunnel);
    }
  }

  lemma ElsewhereIsStarted(relaunch: seq<Args>, services: seq<Args>, tunnel: Args)
    requires Elsewhere(relaunch, services, tunnel)
    ensures Starts(services, tunnel) || Starts(Plan(relaunch, services), tunnel)
  {
    if !Starts(services, tunnel) {
      var i :| 0 <= i < |relaunch| && PlannedTray(relaunch[i], services) && StartedTunnel(relaunch[i]) == Some(tunnel);
      TrayIsPlanned(relaunch, services, i);
    }
  }

  /** With NUL-free arguments, as every process has, the upgrade loses a tunnel exactly when one without
      flags is taken for one with a lone empty flag, or the other way round. */
  lemma NoTunnelIsLost(relaunch: seq<Args>, services: seq<Args>)
    requires NulFreeLists(relaunch) && NulFreeLists(services)
    ensures NothingLost(relaunch, services) <==> !MistakenForItsTwin(relaunch, services)
  {
    if !MistakenForItsTwin(relaunch, services) {
      forall i | 0 <= i < |relaunch| && StartedTunnel(relaunch[i]).Some?
        ensures Starts(services, StartedTunnel(relaunch[i]).value)
            || Starts(Plan(relaunch, services), StartedTunnel(relaunch[i]).value)
      {
        if Covered(relaunch[i], ServiceKeys(services), TunnelKeys(relaunch, services)) {
          CoveredComesBack(relaunch, services, i);
          ElsewhereIsStarted(relaunch, services, StartedTunnel(relaunch[i]).value);
        } else {
          UncoveredIsPlanned(relaunch, services, i);
        }
      }
    } else {
      var i, twin :| 0 <= i < |relaunch| && StartedTunnel(relaunch[i]).Some? && !IsTray(relaunch[i])
                     && Twins(StartedTunnel(relaunch[i]).value, twin)
                     && Elsewhere(relaunch, services, twin)
                     && !Elsewhere(relaunch, services, StartedTunnel(relaunch[i]).value);
      MistakenIsLost(relaunch, services, StartedTunnel(relaunch[i]).value, twin);
    }
  }

  lemma UncoveredIsPlanned(relaunch: seq<Args>, services: seq<Args>, i: nat)
    requires i < |relaunch| && StartedTunnel(relaunch[i]).Some?
    requires !Covered(relaunch[i], ServiceKeys(services), TunnelKeys(relaunch, services))
    ensures Starts(Plan(relaunch, services), StartedTunnel(relaunch[i]).value)
  {
    KeepMeaning(relaunch, ServiceKeys(services), TunnelKeys(relaunch, services));
    RelaunchingKeepsTheTunnel(relaunch[i]);
    assert RelaunchArgv(relaunch[i]) in Plan(relaunch, services);
  }

  lemma MistakenIsLost(relaunch: seq<Args>, services: seq<Args>, tunnel: Args, twin: Args)
    requires Twins(tunnel, twin) && Elsewhere(relaunch, services, twin) && !Elsewhere(relaunch, services, tunnel)
    ensures !Starts(services, tunnel) && !Starts(Plan(relaunch, services), tunnel)
  {
    ElsewhereIsNoted(relaunch, services, twin);
    assert FlagKey(tunnel) == FlagKey(twin);
    if Starts(Plan(relaunch, services), tunnel) {
      var plan := Plan(relaunch, services);
      var k :| 0 <= k < |plan| && StartedTunnel(plan[k]) == Some(tunnel);
      var serviceKeys, tunnelKeys := ServiceKeys(services), TunnelKeys(relaunch, services);
      KeepMeaning(relaunch, serviceKeys, tunnelKeys);
      assert plan[k] in plan;
      var j :| 0 <= j < |relaunch| && !Covered(relaunch[j], serviceKeys, tunnelKeys)
          && plan[k] == RelaunchArgv(relaunch[j]);
      RelaunchingKeepsTheTunnel(relaunch[j]);
    }
  }

  /** Every service definition the upgrade reloads brings up the tunnel that has no flags. */
  lemma ServicesStartTheBareTunnel(exe: string, plists: seq<string>, restartSystemd: bool, i: nat)
    requires i < |ServiceStarts(exe, plists, restartSystemd)|
    ensures StartedTunnel(ServiceStarts(exe, plists, restartSystemd)[i]) == Some([])
  {
    var daemon, tray: Args := [exe, BACKGROUND_TOKEN], [exe, "-gui"];
    ServiceStartsHold(exe, plists, restartSystemd);
    if ServiceStarts(exe, plists, restartSystemd)[i] == daemon {
      assert RelaunchArgv([exe]) == daemon;
      RelaunchingKeepsTheTunnel([exe]);
      TwinsStartThemselves([exe]);
    } else {
      TheTrayServiceConnects(exe);
    }
  }

  lemma {:induction false} ServiceStartsHold(exe: string, plists: seq<string>, restartSystemd: bool)
    ensures forall i :: 0 <= i < |ServiceStarts(exe, plists, restartSystemd)| ==>
                          ServiceStarts(exe, plists, restartSystemd)[i] in [[exe, BACKGROUND_TOKEN], [exe, "-gui"]]
  {
    if plists != [] {
      ServiceStartsHold(exe, plists[1..], restartSystemd);
    }
  }

  lemma TheTrayServiceConnects(exe: string)
    ensures StartedTunnel([exe, "-gui"]) == Some([])
  {
    var argv: Args := [exe, "-gui"];
    var args, token := argv[1..], "-gui";
    var before := args[..|args| - 1];
    assert args == [token] && before == [];
    assert token[0] == '-' && token[1] != "--"[1] && token[1..] == GUI;
    assert FlagBody(token) == Some(GUI);
    assert FlagSetting(args, GUI) == Some(true);
    assert Reading(token, NO_AUTOCONNECT) == None by {
      assert GUI[0] != NO_AUTOCONNECT[0];
    }
    assert FlagSetting(args, NO_AUTOCONNECT) == FlagSetting(before, NO_AUTOCONNECT) == None;
    assert TrayForwards(args) == TrayForwards(before) + [] == [];
    BackgroundIsNeutral([]);
    assert TrayClientArgs(args) == [] + [BACKGROUND_TOKEN];
  }

  /** Such a loss, with the systemd unit: a tunnel started with one empty argument does not come back,
      because the unit starts one with no arguments at all. */
  lemma LoneEmptyArgumentIsLost(exe: string)
    ensures !NothingLost([[exe, ""]], ServiceStarts(exe, [], true))
  {
    var relaunch, services: seq<Args> := [[exe, ""]], ServiceStarts(exe, [], true);
    ServicesStartTheBareTunnel(exe, [], true, 0);
    assert |services| == 1;
    TwinsStartThemselves(relaunch[0]);
    assert Starts(services, []) && !Starts(services, [""]);
    assert !TrayStarts(relaunch, services, [""]);
    MistakenIsLost(relaunch, services, [""], []);
  }

  // ----- planning a plan -----

  lemma {:induction false} KeepIsStable(relaunch: seq<Args>, serviceKeys: set<string>, tunnelKeys: set<string>)
    requires forall i :: 0 <= i < |relaunch| && !Covered(relaunch[i], serviceKeys, tunnelKeys) ==>
                           !Covered(RelaunchArgv(relaunch[i]), serviceKeys, tunnelKeys)
    ensures var plan := Keep(relaunch, serviceKeys, tunnelKeys); Keep(plan, serviceKeys, tunnelKeys) == plan
  {
    if relaunch != [] {
      var before, last := relaunch[..|relaunch| - 1], relaunch[|relaunch| - 1];
      assert forall i :: 0 <= i < |before| ==> before[i] == relaunch[i];
      KeepIsStable(before, serviceKeys, tunnelKeys);
      var plan := Keep(before, serviceKeys, tunnelKeys);
      if Covered(last, serviceKeys, tunnelKeys) {
        assert Keep(relaunch, serviceKeys, tunnelKeys) == plan;
      } else {
        var more := plan + [RelaunchArgv(last)];
        assert Keep(relaunch, serviceKeys, tunnelKeys) == more;
        assert more[..|more| - 1] == plan && more[|more| - 1] == RelaunchArgv(last);
        RelaunchingKeepsTheTunnel(last);
      }
    }
  }

  /** An uncovered entry stays uncovered once it carries its -background token. */
  lemma RelaunchedStaysUncovered(argv: Args, services: seq<Args>, relaunch: seq<Args>)
    requires NulFree(argv) && NulFreeLists(services)
    requires !Covered(argv, ServiceKeys(services), TunnelKeys(relaunch, services))
    ensures !Covered(RelaunchArgv(argv), ServiceKeys(services), TunnelKeys(relaunch, services))
  {
    if RelaunchArgv(argv) != argv {
      AddedTokenIsNoService(argv, services, relaunch);
    }
  }

  lemma ServiceTunnelIsNoted(services: seq<Args>, s: nat, relaunch: seq<Args>)
    requires s < |services| && StartedTunnel(services[s]).Some?
    ensures FlagKey(StartedTunnel(services[s]).value) in TunnelKeys(relaunch, services)
  {
    assert Starts(services, StartedTunnel(services[s]).value);
    ElsewhereIsNoted(relaunch, services, StartedTunnel(services[s]).value);
  }

  /** Were a service to run the tunnel with its -background token, the tunnel would be covered already. */
  lemma AddedTokenIsNoService(argv: Args, services: seq<Args>, relaunch: seq<Args>)
    requires NulFree(argv) && NulFreeLists(services) && RelaunchArgv(argv) != argv
    requires !Covered(argv, ServiceKeys(services), TunnelKeys(relaunch, services))
    ensures !Covered(RelaunchArgv(argv), ServiceKeys(services), TunnelKeys(relaunch, services))
  {
    hide FlagKey, TunnelKeys, WithoutBackgroundFlag, FlagSetting;
    RelaunchingKeepsTheTunnel(argv);
    var again := RelaunchArgv(argv);
    var flags := again[1..];
    assert flags == argv[1..] + [BACKGROUND_TOKEN];
    assert flags[|flags| - 1] == BACKGROUND_TOKEN && BACKGROUND_TOKEN != "";
    if FlagKey(flags) in ServiceKeys(services) {
      var s := SameProcessSameTunnel(again, services);
      if StartedTunnel(argv).Some? {
        ServiceTunnelIsNoted(services, s, relaunch);
      }
    }
  }

  /** The plan notes the same tunnels as the capture it came from. */
  lemma SameTunnelsNoted(relaunch: seq<Args>, services: seq<Args>)
    ensures TunnelKeys(Plan(relaunch, services), services) == TunnelKeys(relaunch, services)
  {
    var plan := Plan(relaunch, services);
    var serviceKeys, tunnelKeys := ServiceKeys(services), TunnelKeys(relaunch, services);
    KeepMeaning(relaunch, serviceKeys, tunnelKeys);
    forall i | 0 <= i < |relaunch| && PlannedTray(relaunch[i], services) ensures relaunch[i] in plan {
      TrayIsPlanned(relaunch, services, i);
    }
    forall k | 0 <= k < |plan| && PlannedTray(plan[k], services)
      ensures exists j :: 0 <= j < |relaunch| && relaunch[j] == plan[k]
    {
      assert plan[k] in plan;
      var j :| 0 <= j < |relaunch| && !Covered(relaunch[j], serviceKeys, tunnelKeys)
          && plan[k] == RelaunchArgv(relaunch[j]);
      RelaunchingKeepsTheTunnel(relaunch[j]);
    }
  }

  /** Planning a plan again with the same services returns it unchanged. */
  lemma PlanningIsIdempotent(relaunch: seq<Args>, services: seq<Args>)
    requires NulFreeLists(relaunch) && NulFreeLists(services)
    ensures Plan(Plan(relaunch, services), services) == Plan(relaunch, services)
  {
    SameTunnelsNoted(relaunch, services);
    var serviceKeys, tunnelKeys := ServiceKeys(services), TunnelKeys(relaunch, services);
    forall i | 0 <= i < |relaunch| && !Covered(relaunch[i], serviceKeys, tunnelKeys)
      ensures !Covered(RelaunchArgv(relaunch[i]), serviceKeys, tunnelKeys)
    {
      RelaunchedStaysUncovered(relaunch[i], services, relaunch);
    }
    KeepIsStable(relaunch, serviceKeys, tunnelKeys);
  }
}
