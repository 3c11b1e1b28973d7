/** Whatever a collection returns went through a redactor, line by line. */
module LogRedaction {
  import opened Prelude
  import opened LogCollection

  /** A line of nothing but white space. */
  predicate Skips(r: Redactors, line: string) {
    r.trim(line) == ""
  }

  /** What a line that is not blank becomes: an event, a text, or a traffic record if it parses. */
  function Image(kind: Kind, line: string, r: Redactors): Option<string> {
    match kind
    case Error => Some(r.event(r.trim(line)))
    case Console => Some(r.text(r.trim(line)))
    case Traffic => r.traffic(r.trim(line))
  }

  /** A line is kept as its image, dropped when it has none, and passed over when it is blank. */
  lemma OneLine(kind: Kind, line: string, r: Redactors)
    ensures RedactedLines(kind, [line], r) ==
            if Skips(r, line) || Image(kind, line, r).None? then [] else [Image(kind, line, r).value]
    ensures DroppedCount(kind, [line], r) == if !Skips(r, line) && Image(kind, line, r).None? then 1 else 0
  {
    assert [line][..0] == [];
    assert RedactedLines(kind, [], r) == [];
  }

  lemma {:induction false} LinesAddUp(kind: Kind, first: seq<string>, more: seq<string>, r: Redactors)
    ensures RedactedLines(kind, first + more, r) == RedactedLines(kind, first, r) + RedactedLines(kind, more, r)
    ensures DroppedCount(kind, first + more, r) == DroppedCount(kind, first, r) + DroppedCount(kind, more, r)
  {
    if more == [] {
      assert first + more == first;
    } else {
      hide OutcomeOf;
      LinesAddUp(kind, first, more[..|more| - 1], r);
      assert (first + more)[..|first + more| - 1] == first + more[..|more| - 1];
    }
  }

  // ----- which line comes from which -----

  /** The lines kept of the first n, by their places, in order: each is the image of its own. */
  ghost predicate ComesFrom(kind: Kind, lines: seq<string>, n: nat, r: Redactors, kept: seq<string>, from: seq<nat>)
    requires n <= |lines|
  {
    && |from| == |kept|
    && (forall k: nat :: k < |from| ==>
          && from[k] < n && !Skips(r, lines[from[k]])
          && Image(kind, lines[from[k]], r) == Some(kept[k]))
    && (forall k: nat, l: nat :: k < l < |from| ==> from[k] < from[l])
  }

  /** How many of some lines are not blank. */
  function Unskipped(lines: seq<string>, r: Redactors): nat {
    if lines == [] then 0 else Unskipped(lines[..|lines| - 1], r) + if Skips(r, lines[|lines| - 1]) then 0 else 1
  }

  /** The kept lines are, in order, the images of lines that are not blank; with the dropped ones they count them
      all. */
  lemma KeptLinesAreImages(kind: Kind, lines: seq<string>, r: Redactors) returns (from: seq<nat>)
    ensures ComesFrom(kind, lines, |lines|, r, RedactedLines(kind, lines, r), from)
    ensures |RedactedLines(kind, lines, r)| + DroppedCount(kind, lines, r) == Unskipped(lines, r)
  {
    from := KeptUpTo(kind, lines, |lines|, r);
    assert lines[..|lines|] == lines;
  }

  lemma {:induction false} KeptUpTo(kind: Kind, lines: seq<string>, n: nat, r: Redactors) returns (from: seq<nat>)
    requires n <= |lines|
    ensures ComesFrom(kind, lines, n, r, RedactedLines(kind, lines[..n], r), from)
    ensures |RedactedLines(kind, lines[..n], r)| + DroppedCount(kind, lines[..n], r) == Unskipped(lines[..n], r)
    decreases n
  {
    if n == 0 {
      from := [];
    } else {
      hide OutcomeOf, Image, Skips;
      from := KeptUpTo(kind, lines, n - 1, r);
      var before, last := lines[..n - 1], lines[n - 1];
      assert lines[..n] == before + [last] && lines[..n][..n - 1] == before && lines[..n][n - 1] == last;
      LinesAddUp(kind, before, [last], r);
      OneLine(kind, last, r);
      KeptOneMore(kind, lines, n - 1, r, RedactedLines(kind, before, r), from);
      if !Skips(r, last) && Image(kind, last, r).Some? {
        from := from + [n - 1];
      }
    }
  }

  lemma KeptOneMore(kind: Kind, lines: seq<string>, n: nat, r: Redactors, kept: seq<string>, from: seq<nat>)
    requires n < |lines| && ComesFrom(kind, lines, n, r, kept, from)
    ensures ComesFrom(kind, lines, n + 1, r, kept + [], from)
    ensures !Skips(r, lines[n]) && Image(kind, lines[n], r).Some? ==>
              ComesFrom(kind, lines, n + 1, r, kept + [Image(kind, lines[n], r).value], from + [n])
  {
    hide Image, Skips;
    assert kept + [] == kept;
  }

  // ----- nothing leaves unredacted -----

  /** A property of everything the redactor of a kind returns. */
  ghost predicate Cleans(kind: Kind, r: Redactors, clean: string -> bool) {
    match kind
    case Error => forall s :: clean(r.event(s))
    case Console => forall s :: clean(r.text(s))
    case Traffic => forall s :: r.traffic(s).Some? ==> clean(r.traffic(s).value)
  }

  /** Whatever holds of all that a redactor returns holds of every line kept. */
  lemma KeptLinesAreClean(kind: Kind, lines: seq<string>, r: Redactors, clean: string -> bool)
    requires Cleans(kind, r, clean)
    ensures forall k :: 0 <= k < |RedactedLines(kind, lines, r)| ==> clean(RedactedLines(kind, lines, r)[k])
  {
    var from := KeptLinesAreImages(kind, lines, r);
    var kept := RedactedLines(kind, lines, r);
    forall k | 0 <= k < |kept| ensures clean(kept[k]) {
      assert Image(kind, lines[from[k]], r) == Some(kept[k]);
    }
  }

  /** A log collected is clean lines, each ended by a line feed, and then the trailer. */
  lemma ContentIsClean(kind: Kind, lines: seq<string>, budget: nat, r: Redactors, clean: string -> bool)
    returns (kept: seq<string>)
    requires Cleans(kind, r, clean)
    ensures forall k :: 0 <= k < |kept| ==> clean(kept[k])
    ensures LogWithin(kind, lines, budget, r).content == Rendered(kept) + Trailer(DroppedCount(kind, lines, r))
  {
    hide Rendered, Trailer;
    KeptLinesAreClean(kind, lines, r, clean);
    kept := KeepsTheNewestLines(kind, lines, budget, r);
    var all := RedactedLines(kind, lines, r);
    forall k | 0 <= k < |kept| ensures clean(kept[k]) {
      assert kept[k] == all[|all| - |kept| + k];
    }
  }

  // ----- the text -----

  lemma {:induction false} RenderedAddsUp(first: seq<string>, more: seq<string>, line: string)
    ensures Rendered(first + more) == Rendered(first) + Rendered(more)
    ensures Rendered([line]) == line + "\n" && Rendered([]) == ""
  {
    assert [line][..0] == [];
    assert Rendered([]) == "" && "" + line + "\n" == line + "\n";
    if more == [] {
      assert first + more == first;
    } else {
      RenderedAddsUp(first, more[..|more| - 1], line);
      assert (first + more)[..|first + more| - 1] == first + more[..|more| - 1];
    }
  }

  /** What a decimal numeral stands for. */
  function Value(digits: string): nat {
    if digits == "" then 0
    else
      var last := digits[|digits| - 1];
      10 * Value(digits[..|digits| - 1]) + if '0' <= last <= '9' then (last - '0') as int else 0
  }

  lemma {:induction false} DecimalsStandForTheirNumber(n: nat)
    ensures Value(Decimal(n)) == n && Decimal(n) != ""
    ensures n > 0 ==> Decimal(n)[0] != '0'
  {
    var digits := Decimal(n);
    if n >= 10 {
      DecimalsStandForTheirNumber(n / 10);
      assert digits[..|digits| - 1] == Decimal(n / 10);
    }
  }

  /** The trailer names the number of lines dropped, and there is none if none was. */
  lemma TheTrailerCounts(dropped: nat)
    ensures Trailer(0) == ""
    ensures dropped > 0 ==>
              Trailer(dropped) == "[REDACTED] " + Decimal(dropped)
                  + " line(s) were unparseable and were dropped rather than uploaded unchecked.\n"
  {
    assert "[REDACTED]" + " " == "[REDACTED] ";
  }

  // ----- all logs -----

  /** Whether a log of this kind, given these bytes, is worth returning: it has text, or dropped lines to report. */
  predicate Returns(files: Files, kind: Kind, remaining: int, r: Redactors) {
    && remaining > 0 && kind in files && files[kind].Readable?
    && var log := LogWithin(kind, files[kind].lines, remaining, r); log.content != "" || log.droppedLines > 0
  }

  /** The error log, the console log and the traffic log. */
  function KindAt(k: nat): Kind {
    if k == 0 then Error else if k == 1 then Console else Traffic
  }

  /** The logs from the k-th kind on: each kind in turn gets what those before it left. A kind whose log is missing,
      empty or left without bytes is passed over; one that cannot be read fails the whole, if bytes are left for it. */
  function InTurn(files: Files, remaining: int, r: Redactors, k: nat): Collection
    requires k <= 3
    decreases 3 - k
  {
    if k == 3 then Logs([])
    else if remaining > 0 && KindAt(k) in files && files[KindAt(k)].Unreadable? then Failed
    else if !Returns(files, KindAt(k), remaining, r) then InTurn(files, remaining, r, k + 1)
    else
      var log := LogWithin(KindAt(k), files[KindAt(k)].lines, remaining, r);
      match InTurn(files, remaining - |log.content|, r, k + 1)
      case Failed => Failed
      case Logs(rest) => Logs([log] + rest)
  }

  /** Kinds that are collected as the turns from k + 1 on are, with one more in front. */
  lemma OneMoreTurn(files: Files, remaining: int, r: Redactors, k: nat, kinds: seq<Kind>)
    requires k < 3 && forall left :: CollectedFrom(files, kinds, left, r) == InTurn(files, left, r, k + 1)
    ensures CollectedFrom(files, [KindAt(k)] + kinds, remaining, r) == InTurn(files, remaining, r, k)
  {
    hide LogWithin, KindAt;
    if remaining > 0 {
      CollectedByKind(files, KindAt(k), kinds, remaining, r);
      hide CollectedFrom;
    } else {
      assert CollectedFrom(files, kinds, remaining, r) == Logs([]);
    }
  }

  lemma CollectedByKind(files: Files, kind: Kind, kinds: seq<Kind>, remaining: int, r: Redactors)
    requires remaining > 0
    ensures CollectedFrom(files, [kind] + kinds, remaining, r) ==
            if kind in files && files[kind].Unreadable? then Failed
            else if !Returns(files, kind, remaining, r) then CollectedFrom(files, kinds, remaining, r)
            else
              var log := LogWithin(kind, files[kind].lines, remaining, r);
              match CollectedFrom(files, kinds, remaining - |log.content|, r)
              case Failed => Failed
              case Logs(rest) => Logs([log] + rest)
  {
    hide LogWithin;
    assert ([kind] + kinds)[1..] == kinds;
  }

  /** The error log, the console log and the traffic log, in that order, within the bytes asked for, or 4 MiB. */
  lemma LogsAreCollectedInTurn(files: Files, maxTotalBytes: int, r: Redactors)
    ensures CollectedFrom(files, WANTED, Budget(maxTotalBytes), r) ==
            InTurn(files, if maxTotalBytes <= 0 then 4_194_304 else maxTotalBytes, r, 0)
  {
    var third, second := [KindAt(2)], [KindAt(1)] + [KindAt(2)];
    WantedInOrder();
    TurnsBegin(files, r);
    forall left ensures CollectedFrom(files, third, left, r) == InTurn(files, left, r, 2) {
      hide CollectedFrom, InTurn, KindAt;
      assert third == [KindAt(2)] + [];
      OneMoreTurn(files, left, r, 2, []);
    }
    forall left ensures CollectedFrom(files, second, left, r) == InTurn(files, left, r, 1) {
      hide CollectedFrom, InTurn, KindAt;
      OneMoreTurn(files, left, r, 1, third);
    }
    hide CollectedFrom, InTurn, KindAt;
    OneMoreTurn(files, Budget(maxTotalBytes), r, 0, second);
  }

  lemma WantedInOrder()
    ensures WANTED == [KindAt(0)] + ([KindAt(1)] + [KindAt(2)])
  {
  }

  lemma TurnsBegin(files: Files, r: Redactors)
    ensures forall left :: CollectedFrom(files, [], left, r) == InTurn(files, left, r, 3)
  {
  }
}
