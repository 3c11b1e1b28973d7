/** The part of the client's engine that carries signals between the workers of a session and the
    session loop. Times are milliseconds. */
module Engine {
  import opened Prelude
  import opened Gateways

  const FAILBACK_SUPPRESSION := 45_000

  datatype State = State(
    region: string,
    url: Url,
    central: Url,
    warnedAt: int,            // announced stop of the serving gateway, 0 when none
    migrateAt: int,           // pending move ahead of that stop, 0 when none
    leaseLost: bool,
    isFailback: bool,
    suppressedUntil: int,     // failback prober held off until then
    fingerprint: string,      // roster hash last seen this session, "" when none
    nodeSetChanged: bool)

  datatype SignalKind = LeaseLost | ShutdownMigration | NodeSetChange

  /** A signal and the gateway whose reply raised it. */
  datatype Signal = Signal(kind: SignalKind, from: Url)

  /** What one tunnel-status report came back with: nothing, one of the four statuses that mean the
      region is gone, or a body. A body may announce a stop (0 for none), a roster hash ("" for none)
      and that no lease is held. */
  datatype Reply =
    | NoAnswer
    | Gone
    | Body(ok: bool, shutdownAt: int, nodes: string, noLease: bool)

  function Initial(region: string, url: Url, central: Url): State {
    State(region, url, central, 0, 0, false, false, 0, "", false)
  }

  // ----- what each operation does to the state -----

  function WarningNoted(e: State, at: int): State {
    if at == 0 then e
    else if e.warnedAt == at then e
    else e.(warnedAt := at, migrateAt := at)
  }

  function FingerprintNoted(e: State, nodes: string): State {
    if nodes == "" then e
    else e.(fingerprint := nodes,
            nodeSetChanged := e.nodeSetChanged || (e.fingerprint != "" && e.fingerprint != nodes))
  }

  function NodeSetReset(e: State): State {
    e.(fingerprint := "", nodeSetChanged := false)
  }

  /** Committing a session on a gateway retires whatever the previous gateway announced. */
  function Committed(e: State, region: string, url: Url): State {
    e.(region := region, url := url, warnedAt := 0, migrateAt := 0)
  }

  datatype Beat = Beat(engine: State, ended: bool, raised: seq<Signal>)

  function WarningSignals(e: State, at: int, from: Url): seq<Signal> {
    if at != 0 && e.warnedAt != at then [Signal(ShutdownMigration, from)] else []
  }

  function NodeSetSignals(e: State, nodes: string, from: Url): seq<Signal> {
    if nodes != "" && e.fingerprint != "" && e.fingerprint != nodes then [Signal(NodeSetChange, from)] else []
  }

  /** One reply of a heartbeat. Only the body of the session URL itself is believed, and only a
      refusal by the serving host ends the session. */
  function BeatOne(e: State, server: Url, target: Url, reply: Reply): Beat {
    match reply
    case NoAnswer => Beat(e, false, [])
    case Gone => Beat(e, SameGatewayHost(target, server), [])
    case Body(ok, at, nodes, noLease) =>
      if target != server then Beat(e, false, [])
      else
        var warned := WarningNoted(e, at);
        var noted := FingerprintNoted(warned, nodes);
        var raised := WarningSignals(e, at, target) + NodeSetSignals(warned, nodes, target);
        if ok && noLease
        then Beat(noted.(leaseLost := true), true, raised + [Signal(LeaseLost, target)])
        else Beat(noted, false, raised)
  }

  function ReplyFor(replies: seq<Reply>): Reply {
    if replies == [] then NoAnswer else replies[0]
  }

  function RestOf(replies: seq<Reply>): seq<Reply> {
    if replies == [] then [] else replies[1..]
  }

  /** A whole heartbeat: the targets in turn, stopping at the first reply that ends the session. */
  function BeatAll(e: State, server: Url, targets: seq<Url>, replies: seq<Reply>): Beat
    decreases targets
  {
    if targets == [] then Beat(e, false, [])
    else
      var first := BeatOne(e, server, targets[0], ReplyFor(replies));
      if first.ended then first
      else
        var rest := BeatAll(first.engine, server, targets[1..], RestOf(replies));
        Beat(rest.engine, rest.ended, first.raised + rest.raised)
  }

  function Heartbeat(e: State, server: Url, replies: seq<Reply>): Beat {
    BeatAll(e, server, StatusReportTargets(server, e.central), replies)
  }

  /** What a heartbeat may do: its signals come from the session URL alone, every signal it raises is
      pending afterwards, and a signal pending afterwards was pending before or raised by it. The
      endpoint and the failback fields are left alone. */
  ghost predicate BeatIsSound(e: State, server: Url, b: Beat) {
    && (forall s :: s in b.raised ==> s.from == server)
    && (b.engine.leaseLost ==> e.leaseLost || Signal(LeaseLost, server) in b.raised)
    && (b.engine.migrateAt != 0 ==> e.migrateAt != 0 || Signal(ShutdownMigration, server) in b.raised)
    && (b.engine.nodeSetChanged ==> e.nodeSetChanged || Signal(NodeSetChange, server) in b.raised)
    && (Signal(LeaseLost, server) in b.raised ==> b.engine.leaseLost)
    && (Signal(ShutdownMigration, server) in b.raised ==> b.engine.migrateAt != 0)
    && (Signal(NodeSetChange, server) in b.raised ==> b.engine.nodeSetChanged)
    && (e.leaseLost ==> b.engine.leaseLost)
    && (e.migrateAt != 0 ==> b.engine.migrateAt != 0)
    && (e.nodeSetChanged ==> b.engine.nodeSetChanged)
    && b.engine.region == e.region && b.engine.url == e.url && b.engine.central == e.central
    && b.engine.isFailback == e.isFailback && b.engine.suppressedUntil == e.suppressedUntil
  }

  lemma BeatOneIsSound(e: State, server: Url, target: Url, reply: Reply)
    ensures BeatIsSound(e, server, BeatOne(e, server, target, reply))
    ensures target != server ==> BeatOne(e, server, target, reply).engine == e
  {
    if reply.Body? && target == server {
      var warned := WarningNoted(e, reply.shutdownAt);
      var b := BeatOne(e, server, target, reply);
      var w, n := WarningSignals(e, reply.shutdownAt, target), NodeSetSignals(warned, reply.nodes, target);
      assert w != [] ==> w[0] in b.raised;
      assert n != [] ==> n[0] in b.raised;
    }
  }

  lemma {:induction false} BeatAllIsSound(e: State, server: Url, targets: seq<Url>, replies: seq<Reply>)
    ensures BeatIsSound(e, server, BeatAll(e, server, targets, replies))
    decreases targets
  {
    if targets != [] {
      var first := BeatOne(e, server, targets[0], ReplyFor(replies));
      BeatOneIsSound(e, server, targets[0], ReplyFor(replies));
      if !first.ended {
        BeatAllIsSound(first.engine, server, targets[1..], RestOf(replies));
      }
    }
  }

  /** Replies from other hosts than the serving one do nothing at all. */
  lemma {:induction false} OtherHostsAreIgnored(e: State, server: Url, targets: seq<Url>, replies: seq<Reply>)
    requires forall i :: 0 <= i < |targets| ==> targets[i] != server && !SameGatewayHost(targets[i], server)
    ensures BeatAll(e, server, targets, replies) == Beat(e, false, [])
    decreases targets
  {
    if targets != [] {
      assert BeatOne(e, server, targets[0], ReplyFor(replies)) == Beat(e, false, []);
      OtherHostsAreIgnored(e, server, targets[1..], RestOf(replies));
    }
  }

  /** Nothing central answers changes a signal or ends the session: the heartbeat's outcome is that
      of the serving gateway's own reply. */
  lemma CentralsReplyIsIgnored(e: State, server: Url, replies: seq<Reply>)
    requires server.text != ""
    ensures Heartbeat(e, server, replies) == BeatOne(e, server, server, ReplyFor(replies))
  {
    hide BeatOne;
    var first := BeatOne(e, server, server, ReplyFor(replies));
    var targets := StatusReportTargets(server, e.central);
    if |targets| == 2 {
      ServingTargetIsSessionUrl(server, e.central, targets[1]);
    }
    OtherHostsAreIgnored(first.engine, server, targets[1..], RestOf(replies));
    assert targets[0] == server;
    assert first.raised + [] == first.raised;
  }

  // ----- the engine itself -----

  class InterceptorEngine {
    var selectedRegion: string
    var serverUrl: Url
    var centralUrl: Url
    var shutdownWarnedAt: int
    var migrateOnShutdownAt: int
    var leaseLost: bool
    var isFailback: bool
    var failbackSuppressedUntil: int
    var nodeSetFingerprint: string
    var nodeSetChanged: bool

    ghost function View(): State
      reads this
    {
      State(selectedRegion, serverUrl, centralUrl, shutdownWarnedAt, migrateOnShutdownAt, leaseLost,
            isFailback, failbackSuppressedUntil, nodeSetFingerprint, nodeSetChanged)
    }

    constructor (region: string, url: Url, central: Url)
      ensures View() == Initial(region, url, central)
    {
      selectedRegion, serverUrl, centralUrl := region, url, central;
      shutdownWarnedAt, migrateOnShutdownAt := 0, 0;
      leaseLost, isFailback, nodeSetChanged := false, false, false;
      failbackSuppressedUntil := 0;
      nodeSetFingerprint := "";
    }

    method NoteShutdownWarning(at: int)
      modifies this
      ensures View() == WarningNoted(old(View()), at)
    {
      if at == 0 {
        return;
      }
      var already := shutdownWarnedAt == at;
      shutdownWarnedAt := at;
      if !already {
        migrateOnShutdownAt := at;
      }
    }

    method NoteNodeSetFingerprint(nodes: string)
      modifies this
      ensures View() == FingerprintNoted(old(View()), nodes)
    {
      if nodes == "" {
        return;
      }
      var previous := nodeSetFingerprint;
      nodeSetFingerprint := nodes;
      if previous != "" && previous != nodes {
        nodeSetChanged := true;
      }
    }

    method ResetNodeSet()
      modifies this
      ensures View() == NodeSetReset(old(View()))
    {
      nodeSetFingerprint := "";
      nodeSetChanged := false;
    }

    method ConsumeNodeSetChange() returns (changed: bool)
      modifies this
      ensures changed == old(nodeSetChanged)
      ensures View() == old(View()).(nodeSetChanged := false)
    {
      changed := nodeSetChanged;
      nodeSetChanged := false;
    }

    method ConsumeLeaseLost() returns (lost: bool)
      modifies this
      ensures lost == old(leaseLost)
      ensures View() == old(View()).(leaseLost := false)
    {
      lost := leaseLost;
      leaseLost := false;
    }

    method ConsumeShutdownMigration() returns (at: int, ok: bool)
      modifies this
      ensures at == old(migrateOnShutdownAt) && ok == (at != 0)
      ensures View() == old(View()).(migrateAt := 0)
    {
      at := migrateOnShutdownAt;
      migrateOnShutdownAt := 0;
      ok := at != 0;
    }

    method ConsumeFailback() returns (requested: bool)
      modifies this
      ensures requested == old(isFailback)
      ensures View() == old(View()).(isFailback := false)
    {
      requested := isFailback;
      isFailback := false;
    }

    method SuppressFailback(now: int, d: int)
      modifies this
      ensures View() == old(View()).(suppressedUntil := now + d)
    {
      failbackSuppressedUntil := now + d;
    }

    method RaiseFailback()
      modifies this
      ensures View() == old(View()).(isFailback := true)
    {
      isFailback := true;
    }

    method SetRegionEndpoint(region: string, url: Url)
      modifies this
      ensures View() == Committed(old(View()), region, url)
    {
      selectedRegion, serverUrl := region, url;
      shutdownWarnedAt, migrateOnShutdownAt := 0, 0;
    }

    method SetCentralUrl(url: Url)
      modifies this
      ensures View() == old(View()).(central := url)
    {
      centralUrl := url;
    }

    /** What one target's reply does. */
    method ReadReply(server: Url, target: Url, reply: Reply) returns (ended: bool, ghost raised: seq<Signal>)
      modifies this
      ensures Beat(View(), ended, raised) == BeatOne(old(View()), server, target, reply)
    {
      raised := BeatOne(View(), server, target, reply).raised;
      match reply {
        case NoAnswer =>
          return false, raised;
        case Gone =>
          return SameGatewayHost(target, server), raised;
        case Body(ok, at, nodes, noLease) =>
          if target == server {
            NoteShutdownWarning(at);
            NoteNodeSetFingerprint(nodes);
            if ok && noLease {
              leaseLost := true;
              return true, raised;
            }
          }
          return false, raised;
      }
    }

    /** One tick of the health check: report to each target and read what comes back. */
    method HeartbeatTick(server: Url, replies: seq<Reply>) returns (ended: bool, ghost raised: seq<Signal>)
      modifies this
      ensures Beat(View(), ended, raised) == Heartbeat(old(View()), server, replies)
    {
      var targets := StatusReportTargets(server, centralUrl);
      ghost var whole := Heartbeat(View(), server, replies);
      ended, raised := false, [];
      var left := replies;
      var i := 0;
      while i < |targets| && !ended
        invariant 0 <= i <= |targets|
        invariant whole ==
                  Then(raised,
                       if ended then Beat(View(), true, []) else BeatAll(View(), server, targets[i..], left))
      {
        BeatAllUnrolls(View(), server, targets[i..], left, raised);
        assert targets[i..][1..] == targets[i + 1..];
        ghost var more;
        ended, more := ReadReply(server, targets[i], ReplyFor(left));
        raised := raised + more;
        left := RestOf(left);
        i := i + 1;
      }
    }
  }

  function Then(raised: seq<Signal>, b: Beat): Beat {
    Beat(b.engine, b.ended, raised + b.raised)
  }

  lemma BeatAllUnrolls(e: State, server: Url, targets: seq<Url>, replies: seq<Reply>, raised: seq<Signal>)
    requires targets != []
    ensures var first := BeatOne(e, server, targets[0], ReplyFor(replies));
            Then(raised, BeatAll(e, server, targets, replies)) ==
            Then(raised + first.raised,
                 if first.ended then Beat(first.engine, true, [])
                 else BeatAll(first.engine, server, targets[1..], RestOf(replies)))
  {
    hide BeatOne;
    var first := BeatOne(e, server, targets[0], ReplyFor(replies));
    if !first.ended {
      var rest := BeatAll(first.engine, server, targets[1..], RestOf(replies));
      assert raised + (first.raised + rest.raised) == (raised + first.raised) + rest.raised;
    }
  }
}
