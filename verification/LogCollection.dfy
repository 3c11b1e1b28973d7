/** Collecting the newest redacted lines of a client's logs within a byte budget. */
module LogCollection {
  import opened Prelude

  datatype Kind = Error | Console | Traffic

  /** The library's part: trimming a line, and redacting one of each kind. Only a traffic line can fail. */
  datatype Redactors = Redactors(
    trim: string -> string, event: string -> string, text: string -> string, traffic: string -> Option<string>)

  datatype LogFile = Missing | Unreadable | Readable(lines: seq<string>)

  datatype RedactedLog = RedactedLog(kind: Kind, content: string, truncated: bool, droppedLines: nat)

  const DEFAULT_COLLECTION_MAX_BYTES := 4 * 1024 * 1024
  const PLACEHOLDER := "[REDACTED]"

  // ----- what a line becomes -----

  datatype Outcome = Blank | Dropped | Kept(text: string)

  function OutcomeOf(kind: Kind, line: string, r: Redactors): Outcome {
    var raw := r.trim(line);
    if raw == "" then Blank
    else
      match kind
      case Error => Kept(r.event(raw))
      case Console => Kept(r.text(raw))
      case Traffic => if r.traffic(raw).Some? then Kept(r.traffic(raw).value) else Dropped
  }

  function RedactedLines(kind: Kind, lines: seq<string>, r: Redactors): seq<string> {
    if lines == [] then []
    else
      var last := OutcomeOf(kind, lines[|lines| - 1], r);
      RedactedLines(kind, lines[..|lines| - 1], r) + if last.Kept? then [last.text] else []
  }

  function DroppedCount(kind: Kind, lines: seq<string>, r: Redactors): nat {
    if lines == [] then 0
    else DroppedCount(kind, lines[..|lines| - 1], r) + if OutcomeOf(kind, lines[|lines| - 1], r).Dropped? then 1 else 0
  }

  /** The bytes lines take, each with its line end. */
  function Weight(lines: seq<string>): nat {
    if lines == [] then 0 else |lines[0]| + 1 + Weight(lines[1..])
  }

  /** How many lines come before the longest suffix that fits the budget. */
  function CutFor(all: seq<string>, budget: nat): (cut: nat)
    ensures cut <= |all|
  {
    if Weight(all) <= budget then 0 else 1 + CutFor(all[1..], budget)
  }

  lemma {:induction false} CutIsBest(all: seq<string>, budget: nat, c: nat)
    requires c <= |all|
    ensures c == CutFor(all, budget) ==> Weight(all[c..]) <= budget
    ensures c < CutFor(all, budget) ==> Weight(all[c..]) > budget
  {
    if c == 0 {
      assert all[0..] == all;
    } else if Weight(all) > budget {
      assert all[c..] == all[1..][c - 1..];
      CutIsBest(all[1..], budget, c - 1);
    }
  }

  function Rendered(lines: seq<string>): string {
    if lines == [] then "" else Rendered(lines[..|lines| - 1]) + lines[|lines| - 1] + "\n"
  }

  function Decimal(n: nat): string {
    (if n < 10 then "" else Decimal(n / 10)) + [['0', '1', '2', '3', '4', '5', '6', '7', '8', '9'][n % 10]]
  }

  /** The line that says how many lines were dropped. */
  function Trailer(dropped: nat): string {
    if dropped == 0 then ""
    else
      PLACEHOLDER + " " + Decimal(dropped)
      + " line(s) were unparseable and were dropped rather than uploaded unchecked.\n"
  }

  /** A log collected: the longest suffix of its redacted lines that fits, and what was dropped. */
  function LogWithin(kind: Kind, lines: seq<string>, budget: nat, r: Redactors): RedactedLog {
    var all, dropped := RedactedLines(kind, lines, r), DroppedCount(kind, lines, r);
    RedactedLog(kind, Rendered(all[CutFor(all, budget)..]) + Trailer(dropped), CutFor(all, budget) > 0, dropped)
  }

  // ----- one log -----

  method CollectOne(kind: Kind, lines: seq<string>, budget: nat, r: Redactors) returns (result: RedactedLog)
    ensures result == LogWithin(kind, lines, budget, r)
  {
    hide Weight, IsTail, NoLonger, CutFor, OutcomeOf, Rendered;
    var kept: seq<string> := [];
    var keptBytes := 0;
    var truncated, droppedLines := false, 0;
    ghost var all: seq<string> := [];
    NothingFits(budget);
    var i := 0;
    while i < |lines|
      invariant 0 <= i <= |lines|
      invariant all == RedactedLines(kind, lines[..i], r) && droppedLines == DroppedCount(kind, lines[..i], r)
      invariant IsNewestWithin(kept, all, budget) && keptBytes == Weight(kept)
      invariant |kept| <= |all| && truncated == (|kept| < |all|)
    {
      assert lines[..i + 1][..i] == lines[..i];
      var line := lines[i];
      i := i + 1;
      var outcome := OutcomeOf(kind, line, r);
      if outcome.Blank? {
        continue;
      }
      if outcome.Dropped? {
        droppedLines := droppedLines + 1;
        continue;
      }
      var redacted := outcome.text;
      ghost var before := kept;
      kept := kept + [redacted];
      keptBytes := keptBytes + |redacted| + 1;
      OneMoreLine(before, all, redacted, budget);
      all := all + [redacted];
      var dropped;
      kept, keptBytes, dropped := DropOldest(kept, keptBytes, budget, all);
      truncated := truncated || dropped;
    }
    assert lines[..i] == lines;
    NewestIsTheCut(kept, all, budget);
    var content := Render(kept);
    if droppedLines > 0 {
      content := content + Trailer(droppedLines);
    }
    result := RedactedLog(kind, content, truncated, droppedLines);
  }

  /** Drop the oldest lines of a window until it fits. */
  method DropOldest(window: seq<string>, windowBytes: nat, budget: nat, ghost all: seq<string>)
    returns (kept: seq<string>, keptBytes: nat, dropped: bool)
    requires windowBytes == Weight(window) && IsTail(window, all) && NoLonger(window, all, budget)
    ensures IsNewestWithin(kept, all, budget) && keptBytes == Weight(kept)
    ensures |kept| <= |window| && dropped == (|kept| < |window|)
  {
    kept, keptBytes, dropped := window, windowBytes, false;
    while keptBytes > budget && |kept| > 0
      invariant IsTail(kept, all) && keptBytes == Weight(kept) && NoLonger(kept, all, budget)
      invariant |kept| <= |window| && dropped == (|kept| < |window|)
      decreases |kept|
    {
      keptBytes := keptBytes - (|kept[0]| + 1);
      assert all[|all| - |kept|..] == kept;
      kept := kept[1..];
      dropped := true;
    }
  }

  method Render(lines: seq<string>) returns (content: string)
    ensures content == Rendered(lines)
  {
    content := "";
    var k := 0;
    while k < |lines|
      invariant 0 <= k <= |lines|
      invariant content == Rendered(lines[..k])
    {
      assert lines[..k + 1][..k] == lines[..k];
      content := content + lines[k] + "\n";
      k := k + 1;
    }
    assert lines[..k] == lines;
  }

  ghost predicate IsTail(kept: seq<string>, all: seq<string>) {
    |kept| <= |all| && kept == all[|all| - |kept|..]
  }

  /** A suffix that fits, where one line more would not. */
  ghost predicate IsNewestWithin(kept: seq<string>, all: seq<string>, budget: nat) {
    IsTail(kept, all) && Weight(kept) <= budget && NoLonger(kept, all, budget)
  }

  ghost predicate NoLonger(kept: seq<string>, all: seq<string>, budget: nat) {
    |kept| < |all| ==> Weight(all[|all| - |kept| - 1..]) > budget
  }

  lemma {:induction false} WeightAppends(lines: seq<string>, more: seq<string>)
    ensures Weight(lines + more) == Weight(lines) + Weight(more)
  {
    if lines == [] {
      assert lines + more == more;
    } else {
      assert (lines + more)[1..] == lines[1..] + more;
      WeightAppends(lines[1..], more);
    }
  }

  lemma OneMoreLine(kept: seq<string>, all: seq<string>, line: string, budget: nat)
    requires IsNewestWithin(kept, all, budget)
    ensures Weight(kept + [line]) == Weight(kept) + |line| + 1
    ensures IsTail(kept + [line], all + [line]) && NoLonger(kept + [line], all + [line], budget)
  {
    hide Weight;
    WeightAppends(kept, [line]);
    OneLineWeighs(line);
    TailAppends(all, line, |all| - |kept|);
    if |kept| < |all| {
      TailAppends(all, line, |all| - |kept| - 1);
      WeightAppends(all[|all| - |kept| - 1..], [line]);
    }
  }

  lemma NothingFits(budget: nat)
    ensures IsNewestWithin([], [], budget) && Weight([]) == 0
  {
  }

  lemma OneLineWeighs(line: string)
    ensures Weight([line]) == |line| + 1
  {
    assert [line][1..] == [];
  }

  lemma TailAppends(all: seq<string>, line: string, k: nat)
    requires k <= |all|
    ensures (all + [line])[k..] == all[k..] + [line]
  {
  }

  lemma LongerWeighsMore(all: seq<string>, c: nat, d: nat)
    requires c <= d <= |all|
    ensures Weight(all[c..]) >= Weight(all[d..])
  {
    assert all[c..] == all[c..d] + all[d..];
    WeightAppends(all[c..d], all[d..]);
  }

  lemma NewestIsTheCut(kept: seq<string>, all: seq<string>, budget: nat)
    requires IsNewestWithin(kept, all, budget)
    ensures CutFor(all, budget) == |all| - |kept| && kept == all[CutFor(all, budget)..]
  {
    var cut, at := CutFor(all, budget), |all| - |kept|;
    CutIsBest(all, budget, cut);
    CutIsBest(all, budget, at);
    if cut < at {
      LongerWeighsMore(all, cut, at - 1);
    }
  }

  // ----- what a collected log holds -----

  lemma {:induction false} RenderedWeighs(lines: seq<string>)
    ensures |Rendered(lines)| == Weight(lines)
  {
    if lines != [] {
      var before, last := lines[..|lines| - 1], lines[|lines| - 1];
      RenderedWeighs(before);
      assert lines == before + [last];
      WeightAppends(before, [last]);
    }
  }

  /** The kept lines are the longest suffix of the redacted lines that fits the budget, and the log is marked
      truncated exactly when a redacted line was left out. */
  lemma KeepsTheNewestLines(kind: Kind, lines: seq<string>, budget: nat, r: Redactors) returns (kept: seq<string>)
    ensures var log, all := LogWithin(kind, lines, budget, r), RedactedLines(kind, lines, r);
            && IsTail(kept, all)
            && log.content == Rendered(kept) + Trailer(DroppedCount(kind, lines, r))
            && |Rendered(kept)| <= budget
            && (forall other :: IsTail(other, all) && |Rendered(other)| <= budget ==> |other| <= |kept|)
            && (log.truncated <==> kept != all)
            && (log.droppedLines > 0 ==> kind == Traffic)
  {
    var all := RedactedLines(kind, lines, r);
    kept := all[CutFor(all, budget)..];
    hide Weight, Rendered;
    RenderedWeighs(kept);
    CutIsBest(all, budget, CutFor(all, budget));
    forall other | IsTail(other, all) && |Rendered(other)| <= budget ensures |other| <= |kept| {
      RenderedWeighs(other);
      CutIsBest(all, budget, |all| - |other|);
    }
    OnlyTrafficDrops(kind, lines, r);
  }

  lemma {:induction false} OnlyTrafficDrops(kind: Kind, lines: seq<string>, r: Redactors)
    ensures DroppedCount(kind, lines, r) > 0 ==> kind == Traffic
  {
    if lines != [] {
      OnlyTrafficDrops(kind, lines[..|lines| - 1], r);
    }
  }

  // ----- all logs -----

  /** In order of worth when the budget runs out. */
  const WANTED: seq<Kind> := [Error, Console, Traffic]

  datatype Collection = Failed | Logs(logs: seq<RedactedLog>)

  type Files = map<Kind, LogFile>

  function FileOf(files: Files, kind: Kind): LogFile {
    if kind in files then files[kind] else Missing
  }

  predicate WorthKeeping(log: RedactedLog) {
    log.content != "" || log.droppedLines > 0
  }

  /** The logs of these kinds, each within what the ones before it left. */
  function CollectedFrom(files: Files, kinds: seq<Kind>, remaining: int, r: Redactors): Collection {
    if kinds == [] || remaining <= 0 then Logs([])
    else
      match FileOf(files, kinds[0])
      case Missing => CollectedFrom(files, kinds[1..], remaining, r)
      case Unreadable => Failed
      case Readable(lines) =>
        var log := LogWithin(kinds[0], lines, remaining, r);
        if !WorthKeeping(log) then CollectedFrom(files, kinds[1..], remaining, r)
        else
          match CollectedFrom(files, kinds[1..], remaining - |log.content|, r)
          case Failed => Failed
          case Logs(rest) => Logs([log] + rest)
  }

  function Budget(maxTotalBytes: int): int {
    if maxTotalBytes <= 0 then DEFAULT_COLLECTION_MAX_BYTES else maxTotalBytes
  }

  method CollectRedactedLogs(files: Files, maxTotalBytes: int, r: Redactors) returns (collection: Collection)
    ensures collection == CollectedFrom(files, WANTED, Budget(maxTotalBytes), r)
  {
    hide LogWithin;
    var remaining := Budget(maxTotalBytes);
    var out: seq<RedactedLog> := [];
    ghost var target := CollectedFrom(files, WANTED, remaining, r);
    var i := 0;
    while i < |WANTED|
      invariant 0 <= i <= |WANTED|
      invariant target == Prepended(out, CollectedFrom(files, WANTED[i..], remaining, r))
    {
      assert WANTED[i..][1..] == WANTED[i + 1..];
      if remaining <= 0 {
        break;
      }
      var kind := WANTED[i];
      var file := FileOf(files, kind);
      i := i + 1;
      match file {
        case Missing => continue;
        case Unreadable => return Failed;
        case Readable(lines) =>
          var log := CollectOne(kind, lines, remaining, r);
          if |log.content| == 0 && log.droppedLines == 0 {
            continue;
          }
          PrependedTwice(out, log, CollectedFrom(files, WANTED[i..], remaining - |log.content|, r));
          remaining := remaining - |log.content|;
          out := out + [log];
      }
    }
    collection := Logs(out);
  }

  function Prepended(logs: seq<RedactedLog>, rest: Collection): Collection {
    if rest.Failed? then Failed else Logs(logs + rest.logs)
  }

  lemma PrependedTwice(logs: seq<RedactedLog>, log: RedactedLog, rest: Collection)
    ensures Prepended(logs, Prepended([log], rest)) == Prepended(logs + [log], rest)
  {
    if rest.Logs? {
      assert logs + ([log] + rest.logs) == (logs + [log]) + rest.logs;
    }
  }

  // ----- the bound -----

  /** The trailer of the last log, if it has one. */
  function LastTrailer(logs: seq<RedactedLog>): string {
    if logs == [] then "" else Trailer(logs[|logs| - 1].droppedLines)
  }

  function Total(logs: seq<RedactedLog>): nat {
    if logs == [] then 0 else |logs[0].content| + Total(logs[1..])
  }

  /** Everything collected fits the budget, plus one trailer if the last log, traffic's, dropped lines. */
  lemma CollectionFitsItsBudget(files: Files, maxTotalBytes: int, r: Redactors)
    requires CollectedFrom(files, WANTED, Budget(maxTotalBytes), r).Logs?
    ensures var logs := CollectedFrom(files, WANTED, Budget(maxTotalBytes), r).logs;
            && Total(logs) <= Budget(maxTotalBytes) + |LastTrailer(logs)|
            && (forall i :: 0 <= i < |logs| && logs[i].droppedLines > 0 ==> logs[i].kind == Traffic && i == |logs| - 1)
  {
    SomeFit(files, WANTED, Budget(maxTotalBytes), r);
  }

  ghost predicate FitsWithin(logs: seq<RedactedLog>, remaining: int) {
    Total(logs) <= remaining + |LastTrailer(logs)|
  }

  ghost predicate OnlyTheLastDrops(logs: seq<RedactedLog>) {
    forall i :: 0 <= i < |logs| && logs[i].droppedLines > 0 ==> logs[i].kind == Traffic && i == |logs| - 1
  }

  lemma LogFits(kind: Kind, lines: seq<string>, budget: nat, r: Redactors)
    ensures var log := LogWithin(kind, lines, budget, r);
            && |log.content| <= budget + |Trailer(log.droppedLines)|
            && log.kind == kind
            && (log.droppedLines > 0 ==> kind == Traffic)
  {
    hide Rendered, Trailer;
    var kept := KeepsTheNewestLines(kind, lines, budget, r);
  }

  lemma OneMoreLog(log: RedactedLog, rest: seq<RedactedLog>, remaining: int)
    requires |log.content| <= remaining + |Trailer(log.droppedLines)| && (log.droppedLines > 0 ==> log.kind == Traffic)
    requires OnlyTheLastDrops(rest)
    requires FitsWithin(rest, if remaining >= |log.content| then remaining - |log.content| else 0)
    requires log.droppedLines > 0 || remaining < |log.content| ==> rest == []
    ensures FitsWithin([log] + rest, remaining) && OnlyTheLastDrops([log] + rest)
  {
    hide Trailer;
    var logs := [log] + rest;
    assert logs[1..] == rest && logs[0] == log;
    assert Total(logs) == |log.content| + Total(rest);
    if rest != [] {
      assert logs[|logs| - 1] == rest[|rest| - 1];
    }
  }

  lemma {:induction false} SomeFit(files: Files, kinds: seq<Kind>, remaining: int, r: Redactors)
    requires forall i :: 0 <= i < |kinds| && kinds[i] == Traffic ==> i == |kinds| - 1
    requires CollectedFrom(files, kinds, remaining, r).Logs?
    ensures OnlyTheLastDrops(CollectedFrom(files, kinds, remaining, r).logs)
    ensures FitsWithin(CollectedFrom(files, kinds, remaining, r).logs, if remaining >= 0 then remaining else 0)
  {
    hide LogWithin, Trailer, WorthKeeping;
    if kinds == [] || remaining <= 0 {
      NoLogsFit();
    } else {
      var file := FileOf(files, kinds[0]);
      if file.Missing? {
        SomeFit(files, kinds[1..], remaining, r);
      } else {
        var log := LogWithin(kinds[0], file.lines, remaining, r);
        if !WorthKeeping(log) {
          SomeFit(files, kinds[1..], remaining, r);
        } else {
          hide FitsWithin, OnlyTheLastDrops;
          LogFits(kinds[0], file.lines, remaining, r);
          NoTrailer();
          SomeFit(files, kinds[1..], remaining - |log.content|, r);
          OneMoreLog(log, CollectedFrom(files, kinds[1..], remaining - |log.content|, r).logs, remaining);
        }
      }
    }
  }

  lemma NoTrailer()
    ensures Trailer(0) == ""
  {
  }

  lemma NoLogsFit()
    ensures forall budget: nat :: FitsWithin([], budget)
    ensures OnlyTheLastDrops([])
  {
  }

  /** The error log comes first and has the whole budget: it is as long as if it were alone. */
  lemma TheErrorLogHasTheWholeBudget(files: Files, maxTotalBytes: int, r: Redactors)
    requires CollectedFrom(files, WANTED, Budget(maxTotalBytes), r).Logs? && FileOf(files, Error).Readable?
    requires WorthKeeping(LogWithin(Error, FileOf(files, Error).lines, Budget(maxTotalBytes), r))
    ensures var logs := CollectedFrom(files, WANTED, Budget(maxTotalBytes), r).logs;
            logs != [] && logs[0] == LogWithin(Error, FileOf(files, Error).lines, Budget(maxTotalBytes), r)
  {
  }
}
