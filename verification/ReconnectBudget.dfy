/** How long a client keeps trying one gateway, and the settings a gateway may move. Durations are nanoseconds. */
module ReconnectBudget {
  import opened Prelude

  const MILLISECOND := 1_000_000
  const SECOND := 1000 * MILLISECOND
  const BACKOFF_MIN := 100 * MILLISECOND
  const BACKOFF_MAX := 10 * SECOND
  const FAILOVER_HANDBACK_WINDOW := 10 * SECOND

  // ----- the backoff schedule -----

  /** The wait before attempt k + 1: doubling from the minimum, capped. */
  function Wait(k: nat): (wait: nat)
    ensures 0 < wait <= BACKOFF_MAX
  {
    if k == 0 then BACKOFF_MIN
    else if 2 * Wait(k - 1) > BACKOFF_MAX then BACKOFF_MAX
    else 2 * Wait(k - 1)
  }

  /** What the first n waits add up to. */
  function Backoff(n: nat): nat {
    if n == 0 then 0 else Backoff(n - 1) + Wait(n - 1)
  }

  /** The least count of attempts whose waits cover a window, which they overshoot by less than one wait. */
  method RetryCountForWindow(window: int) returns (count: nat)
    ensures window <= Backoff(count)
    ensures forall n: nat :: n < count ==> Backoff(n) < window
    ensures window > 0 ==> Backoff(count) - window < BACKOFF_MAX
  {
    var total, step := 0, BACKOFF_MIN;
    count := 0;
    while total < window
      invariant total == Backoff(count) && step == Wait(count)
      invariant forall n: nat :: n < count ==> Backoff(n) < window
      invariant count > 0 ==> total - window < BACKOFF_MAX
      decreases window - total
    {
      total := total + step;
      count := count + 1;
      if step < BACKOFF_MAX {
        step := step * 2;
        if step > BACKOFF_MAX {
          step := BACKOFF_MAX;
        }
      }
    }
  }

  /** A count of attempts covers a window, and no smaller one does. */
  ghost predicate IsRetryCount(window: int, count: nat) {
    window <= Backoff(count) && forall n: nat :: n < count ==> Backoff(n) < window
  }

  lemma {:induction false} BackoffGrows(m: nat, n: nat)
    requires m <= n
    ensures Backoff(m) <= Backoff(n)
    ensures m < n ==> Backoff(m) < Backoff(n)
  {
    if m < n {
      BackoffGrows(m, n - 1);
    }
  }

  /** From the seventh attempt on, every wait is the longest. */
  lemma {:induction false} LateBackoff(n: nat)
    requires n >= 7
    ensures Backoff(n) == 12_700 * MILLISECOND + (n - 7) * BACKOFF_MAX && Wait(n) == BACKOFF_MAX
  {
    if n == 7 {
      assert Wait(0) == 100 * MILLISECOND && Wait(1) == 200 * MILLISECOND && Wait(2) == 400 * MILLISECOND;
      assert Wait(3) == 800 * MILLISECOND && Wait(4) == 1600 * MILLISECOND && Wait(5) == 3200 * MILLISECOND;
      assert Wait(6) == 6400 * MILLISECOND;
      assert Backoff(3) == 700 * MILLISECOND;
      assert Backoff(6) == 6300 * MILLISECOND;
    } else {
      LateBackoff(n - 1);
    }
  }

  // ----- settings a gateway advertises -----

  datatype Bound = Bound(default: int, min: int, max: int)

  const RECONNECT := "reconnect_seconds"
  const HEARTBEAT := "heartbeat_seconds"

  function BoundOf(name: string): Option<Bound> {
    if name == RECONNECT then Some(Bound(60, 20, 180))
    else if name == HEARTBEAT then Some(Bound(5, 2, 60))
    else None
  }

  predicate InBounds(name: string, value: int) {
    BoundOf(name).Some? && BoundOf(name).value.min <= value <= BoundOf(name).value.max
  }

  function Distance(a: int, b: int): nat {
    if a < b then b - a else a - b
  }

  /** The value in force for an advertised one, in bounds; and whether it is the advertised one. */
  function ClampSetting(name: string, advertised: int): (clamped: (int, bool))
    ensures BoundOf(name).Some? ==> InBounds(name, clamped.0)
    ensures BoundOf(name).Some? && advertised <= 0 ==> clamped.0 == BoundOf(name).value.default
    ensures clamped.1 <==> InBounds(name, advertised)
    ensures clamped.1 ==> clamped.0 == advertised
  {
    match BoundOf(name)
    case None => (0, false)
    case Some(b) =>
      if advertised <= 0 then (b.default, false)
      else if advertised < b.min then (b.min, false)
      else if advertised > b.max then (b.max, false)
      else (advertised, true)
  }

  /** Of the values in bounds, the one in force is the nearest to what was asked for. */
  lemma ClampedIsNearest(name: string, advertised: int, other: int)
    requires InBounds(name, other) && advertised > 0
    ensures Distance(ClampSetting(name, advertised).0, advertised) <= Distance(other, advertised)
  {
  }

  /** Clamping what was clamped changes nothing and finds nothing to report. */
  lemma ClampingTwiceIsOnce(name: string, advertised: int)
    requires BoundOf(name).Some?
    ensures ClampSetting(name, ClampSetting(name, advertised).0) == (ClampSetting(name, advertised).0, true)
  {
  }

  datatype ClientSettings = ClientSettings(reconnectSeconds: int, heartbeatSeconds: int)

  datatype Adjustment = Adjustment(name: string, advertised: int, used: int)

  datatype Resolved = Resolved(reconnectWindow: int, heartbeatInterval: int, adjustments: seq<Adjustment>)

  /** What a gateway asks for: the block where it carries a value, the older field for the window otherwise. */
  function Advertised(settings: Option<ClientSettings>, legacyReconnectSeconds: int): map<string, int> {
    map[
      RECONNECT := if settings.Some? && settings.value.reconnectSeconds > 0 then settings.value.reconnectSeconds
                   else legacyReconnectSeconds,
      HEARTBEAT := if settings.Some? && settings.value.heartbeatSeconds > 0 then settings.value.heartbeatSeconds else 0
    ]
  }

  /** The names advertised, sorted. */
  const NAMES: seq<string> := [HEARTBEAT, RECONNECT]

  ghost predicate WasAdjusted(name: string, advertised: int) {
    advertised > 0 && !InBounds(name, advertised)
  }

  /** Both values are in bounds, and an adjustment is noted for exactly the values that were asked for and are
      not used as sent. */
  method ResolveSettings(settings: Option<ClientSettings>, legacyReconnectSeconds: int) returns (out: Resolved)
    ensures var wanted := Advertised(settings, legacyReconnectSeconds);
            && out.reconnectWindow == ClampSetting(RECONNECT, wanted[RECONNECT]).0 * SECOND
            && out.heartbeatInterval == ClampSetting(HEARTBEAT, wanted[HEARTBEAT]).0 * SECOND
            && (forall a :: a in out.adjustments <==>
                  a.name in NAMES && WasAdjusted(a.name, wanted[a.name])
                  && a.advertised == wanted[a.name] && a.used == ClampSetting(a.name, wanted[a.name]).0)
            && |out.adjustments| <= 2
            && (|out.adjustments| == 2 ==> out.adjustments[0].name == HEARTBEAT && out.adjustments[1].name == RECONNECT)
  {
    var advertised := map[RECONNECT := legacyReconnectSeconds, HEARTBEAT := 0];
    if settings.Some? {
      if settings.value.reconnectSeconds > 0 {
        advertised := advertised[RECONNECT := settings.value.reconnectSeconds];
      }
      if settings.value.heartbeatSeconds > 0 {
        advertised := advertised[HEARTBEAT := settings.value.heartbeatSeconds];
      }
    }
    assert RECONNECT[0] == 'r' && HEARTBEAT[0] == 'h';
    assert advertised == Advertised(settings, legacyReconnectSeconds);
    var resolved: map<string, int> := map[];
    var adjustments: seq<Adjustment> := [];
    var i := 0;
    while i < |NAMES|
      invariant 0 <= i <= 2
      invariant i > 0 ==>
                  HEARTBEAT in resolved && resolved[HEARTBEAT] == ClampSetting(HEARTBEAT, advertised[HEARTBEAT]).0
      invariant i > 1 ==>
                  RECONNECT in resolved && resolved[RECONNECT] == ClampSetting(RECONNECT, advertised[RECONNECT]).0
      invariant adjustments == Adjustments(advertised, i)
    {
      var name := NAMES[i];
      var clamped := ClampSetting(name, advertised[name]);
      resolved := resolved[name := clamped.0];
      if advertised[name] > 0 && !clamped.1 {
        adjustments := adjustments + [Adjustment(name, advertised[name], clamped.0)];
      }
      i := i + 1;
    }
    out := Resolved(resolved[RECONNECT] * SECOND, resolved[HEARTBEAT] * SECOND, adjustments);
  }

  function Adjustments(advertised: map<string, int>, i: nat): seq<Adjustment>
    requires i <= |NAMES| && RECONNECT in advertised && HEARTBEAT in advertised
  {
    if i == 0 then []
    else
      var name := NAMES[i - 1];
      Adjustments(advertised, i - 1)
      + if advertised[name] > 0 && !InBounds(name, advertised[name])
        then [Adjustment(name, advertised[name], ClampSetting(name, advertised[name]).0)] else []
  }

  /** The two settings in numbers: what a client asks for within 20 s to 180 s and 2 s to 60 s is honoured, and 60 s
      and 5 s stand where nothing is asked for. */
  lemma SettingsInSeconds(advertised: int)
    ensures ClampSetting("reconnect_seconds", advertised).0 ==
            if advertised <= 0 then 60 else if advertised < 20 then 20 else if advertised > 180 then 180 else advertised
    ensures ClampSetting("heartbeat_seconds", advertised).0 ==
            if advertised <= 0 then 5 else if advertised < 2 then 2 else if advertised > 60 then 60 else advertised
  {
    assert RECONNECT[0] == 'r' && HEARTBEAT[0] == 'h';
  }

  /** The window in force is the block's where the block carries one, else the older field's; the heartbeat has no
      older field. */
  lemma TheBlockOutranksTheOldField(settings: Option<ClientSettings>, legacy: int)
    ensures var wanted := Advertised(settings, legacy);
            && (settings.Some? && settings.value.reconnectSeconds > 0 ==>
                  ClampSetting(RECONNECT, wanted[RECONNECT])
                  == ClampSetting(RECONNECT, settings.value.reconnectSeconds))
            && (settings.None? || settings.value.reconnectSeconds <= 0 ==>
                  ClampSetting(RECONNECT, wanted[RECONNECT]) == ClampSetting(RECONNECT, legacy))
            && ClampSetting(HEARTBEAT, wanted[HEARTBEAT]).0 ==
               if settings.Some? then ClampSetting(HEARTBEAT, settings.value.heartbeatSeconds).0 else 5
  {
    assert RECONNECT[0] == 'r' && HEARTBEAT[0] == 'h';
  }

  // ----- the window of one session -----

  /** Go's integer division, which truncates toward zero. */
  function TruncatedSeconds(duration: int): int {
    if duration >= 0 then duration / SECOND else -((-duration) / SECOND)
  }

  function ClampReconnectWindow(advertised: int): int {
    ClampSetting(RECONNECT, TruncatedSeconds(advertised)).0 * SECOND
  }

  function ReconnectWindowFor(advertised: int, failoverAvailable: bool): int {
    if failoverAvailable then FAILOVER_HANDBACK_WINDOW else ClampReconnectWindow(advertised)
  }

  /** A window that was resolved from settings, or clamped already, is honoured as it is. */
  lemma ResolvedWindowsAreHonoured(seconds: int)
    ensures var window := ClampSetting(RECONNECT, seconds).0 * SECOND;
            ClampReconnectWindow(window) == window
  {
    ClampingTwiceIsOnce(RECONNECT, seconds);
    var used := ClampSetting(RECONNECT, seconds).0;
    assert TruncatedSeconds(used * SECOND) == used;
  }

  /** Parts of a second do not count, and less than a second is no window at all: the default stands in. */
  lemma WindowsCountWholeSeconds(seconds: nat, part: nat, advertised: int)
    requires part < SECOND
    ensures seconds > 0 ==>
              ClampReconnectWindow(seconds * SECOND + part) == ClampSetting(RECONNECT, seconds).0 * SECOND
    ensures advertised < SECOND ==> ClampReconnectWindow(advertised) == 60 * SECOND
  {
    assert TruncatedSeconds(seconds * SECOND + part) == seconds;
    if advertised < SECOND {
      assert TruncatedSeconds(advertised) <= 0;
    }
  }

  lemma WindowsAreBounded(advertised: int, failoverAvailable: bool)
    ensures 10 * SECOND <= ReconnectWindowFor(advertised, failoverAvailable) <= 180 * SECOND
    ensures failoverAvailable ==> ReconnectWindowFor(advertised, failoverAvailable) == 10 * SECOND
  {
    assert InBounds(RECONNECT, ClampSetting(RECONNECT, TruncatedSeconds(advertised)).0);
  }

  /** No gateway, whatever it advertises, makes a client try fewer than 7 or more than 24 times, or wait more
      than 182.7 s; one with somewhere else to go tries 7 times, over 12.7 s. */
  lemma AttemptsAreBounded(advertised: int, failoverAvailable: bool, count: nat)
    requires IsRetryCount(ReconnectWindowFor(advertised, failoverAvailable), count)
    ensures 7 <= count <= 24 && Backoff(count) <= 182_700 * MILLISECOND
    ensures failoverAvailable ==> count == 7 && Backoff(count) == 12_700 * MILLISECOND
  {
    hide Backoff, Wait, ReconnectWindowFor;
    var window := ReconnectWindowFor(advertised, failoverAvailable);
    WindowsAreBounded(advertised, failoverAvailable);
    LateBackoff(7);
    LateBackoff(24);
    if count < 7 {
      BackoffGrows(count, 6);
      SixWaits();
    }
    if count > 24 {
      assert false;
    }
    BackoffGrows(count, 24);
  }

  lemma SixWaits()
    ensures Backoff(6) == 6300 * MILLISECOND
  {
    assert Backoff(3) == 700 * MILLISECOND;
    assert Wait(3) == 800 * MILLISECOND && Wait(4) == 1600 * MILLISECOND && Wait(5) == 3200 * MILLISECOND;
  }

  /** The default window takes 12 attempts over 62.7 s. */
  lemma DefaultWindowTakesTwelve(count: nat)
    requires IsRetryCount(ReconnectWindowFor(0, false), count)
    ensures count == 12 && Backoff(count) == 62_700 * MILLISECOND
  {
    LateBackoff(11);
    LateBackoff(12);
    if count < 12 {
      BackoffGrows(count, 11);
    }
  }
}
