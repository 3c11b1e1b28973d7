/** Code fences in Markdown: the fence check and the state the alert converter follows. */
module Fences {
  import opened Prelude

  // ----- characters and lines -----

  /** What Python's \s and strip() take for white space. */
  predicate IsSpace(c: char) {
    var n := c as int;
    9 <= n <= 13 || 28 <= n <= 32 || n == 0x85 || n == 0xa0 || n == 0x1680 || 0x2000 <= n <= 0x200a
    || n == 0x2028 || n == 0x2029 || n == 0x202f || n == 0x205f || n == 0x3000
  }

  predicate IsBlank(s: string) {
    forall i :: 0 <= i < |s| ==> IsSpace(s[i])
  }

  function SkipSpaces(s: string): string {
    if s == [] || !IsSpace(s[0]) then s else SkipSpaces(s[1..])
  }

  function TrimEnd(s: string): string {
    if s == [] || !IsSpace(s[|s| - 1]) then s else TrimEnd(s[..|s| - 1])
  }

  function Strip(s: string): string {
    TrimEnd(SkipSpaces(s))
  }

  /** How many of a character a string starts with. */
  function RunLength(s: string, c: char): (n: nat)
    ensures n <= |s|
  {
    if s == [] || s[0] != c then 0 else 1 + RunLength(s[1..], c)
  }

  lemma {:induction false} SkippedPart(s: string) returns (indent: string)
    ensures s == indent + SkipSpaces(s) && IsBlank(indent)
    ensures SkipSpaces(s) == [] || !IsSpace(SkipSpaces(s)[0])
  {
    if s == [] || !IsSpace(s[0]) {
      indent := [];
    } else {
      var less := SkippedPart(s[1..]);
      indent := [s[0]] + less;
    }
  }

  lemma {:induction false} RunPart(s: string, c: char)
    ensures s == seq(RunLength(s, c), i => c) + s[RunLength(s, c)..]
    ensures RunLength(s, c) == |s| || s[RunLength(s, c)] != c
  {
    if s != [] && s[0] == c {
      RunPart(s[1..], c);
      assert s == [s[0]] + s[1..];
    }
  }

  // ----- fence lines -----

  datatype Fence = Fence(mark: char, length: nat, info: string)

  predicate IsMark(c: char) {
    c == '`' || c == '~'
  }

  /** The fence a line is, if it is one: white space, three or more of one mark, and an info string. */
  function FenceOf(line: string): Option<Fence> {
    var rest := SkipSpaces(line);
    if rest == [] || !IsMark(rest[0]) then None
    else
      var n := RunLength(rest, rest[0]);
      if n < 3 then None else Some(Fence(rest[0], n, Strip(rest[n..])))
  }

  /** A line read as a fence, part by part. */
  ghost predicate Reads(line: string, indent: string, mark: char, length: nat, tail: string) {
    && IsBlank(indent) && IsMark(mark) && length >= 3 && (tail == [] || tail[0] != mark)
    && line == indent + seq(length, i => mark) + tail
  }

  /** Whatever way a line reads as a fence is the way it is taken, and it is taken for one only then. */
  lemma FenceLinesReadOneWay(line: string)
    ensures forall indent, mark, length: nat, tail ::
              Reads(line, indent, mark, length, tail) ==> FenceOf(line) == Some(Fence(mark, length, Strip(tail)))
    ensures FenceOf(line).Some? ==> exists indent, tail ::
              Reads(line, indent, FenceOf(line).value.mark, FenceOf(line).value.length, tail)
  {
    forall indent, mark, length: nat, tail | Reads(line, indent, mark, length, tail)
      ensures FenceOf(line) == Some(Fence(mark, length, Strip(tail)))
    {
      var run := seq(length, i => mark);
      SkipsExactly(indent, run + tail);
      assert line == indent + (run + tail);
      RunIsExact(mark, length, tail);
      assert (run + tail)[length..] == tail;
    }
    if FenceOf(line).Some? {
      var rest := SkipSpaces(line);
      var n := RunLength(rest, rest[0]);
      var indent := SkippedPart(line);
      RunPart(rest, rest[0]);
      assert line == indent + seq(n, i => rest[0]) + rest[n..];
      assert Reads(line, indent, rest[0], n, rest[n..]);
    }
  }

  lemma {:induction false} SkipsExactly(indent: string, rest: string)
    requires IsBlank(indent) && rest != [] && !IsSpace(rest[0])
    ensures SkipSpaces(indent + rest) == rest
  {
    if indent == [] {
      assert indent + rest == rest;
    } else {
      assert (indent + rest)[1..] == indent[1..] + rest;
      SkipsExactly(indent[1..], rest);
    }
  }

  lemma {:induction false} RunIsExact(mark: char, length: nat, tail: string)
    requires tail == [] || tail[0] != mark
    ensures RunLength(seq(length, i => mark) + tail, mark) == length
  {
    var s := seq(length, i => mark) + tail;
    if length == 0 {
      assert s == tail;
    } else {
      assert s[1..] == seq(length - 1, i => mark) + tail;
      RunIsExact(mark, length - 1, tail);
    }
  }

  // ----- following the fences -----

  datatype Block = Outside | Inside(mark: char, length: nat)

  /** The closing rule: the same mark, at least as many of them, and no info string. */
  predicate Closes(fence: Fence, block: Block) {
    block.Inside? && fence.mark == block.mark && fence.length >= block.length && fence.info == ""
  }

  /** The converter's reading of a line: inside a block, what cannot close it is content. */
  function Followed(block: Block, line: string): Block {
    match FenceOf(line)
    case None => block
    case Some(fence) =>
      if block.Outside? then Inside(fence.mark, fence.length)
      else if Closes(fence, block) then Outside
      else block
  }

  /** The converter's block before line i. */
  function BlockBefore(lines: seq<string>, i: nat): Block
    requires i <= |lines|
  {
    if i == 0 then Outside else Followed(BlockBefore(lines, i - 1), lines[i - 1])
  }

  // ----- the check -----

  datatype Kind = StrayOpener | Eof

  datatype Report = Report(kind: Kind, number: nat, text: string, openedAt: nat)

  datatype Scan = Scan(block: Block, openedAt: nat, reports: seq<Report>)

  /** The check's reading of line number `number`: what cannot close a block is reported and opens the next. */
  function Scanned(scan: Scan, number: nat, line: string): Scan {
    match FenceOf(line)
    case None => scan
    case Some(fence) =>
      if scan.block.Outside? then Scan(Inside(fence.mark, fence.length), number, scan.reports)
      else if Closes(fence, scan.block) then scan.(block := Outside)
      else Scan(Inside(fence.mark, fence.length), number,
                scan.reports + [Report(StrayOpener, number, Strip(line), scan.openedAt)])
  }

  function ScanBefore(lines: seq<string>, i: nat): Scan
    requires i <= |lines|
  {
    if i == 0 then Scan(Outside, 0, []) else Scanned(ScanBefore(lines, i - 1), i, lines[i - 1])
  }

  function Unclosed(lines: seq<string>): seq<Report> {
    var scan := ScanBefore(lines, |lines|);
    scan.reports + if scan.block.Inside? then [Report(Eof, |lines|, "", scan.openedAt)] else []
  }

  method UnclosedFences(lines: seq<string>) returns (reports: seq<Report>)
    ensures reports == Unclosed(lines)
  {
    reports := [];
    var inFence := false;
    var mark: char := ' ';
    var length, openedAt := 0, 0;
    var i := 0;
    while i < |lines|
      invariant 0 <= i <= |lines|
      invariant ScanBefore(lines, i) == Scan(if inFence then Inside(mark, length) else Outside, openedAt, reports)
    {
      var fence := FenceOf(lines[i]);
      i := i + 1;
      if fence.None? {
        continue;
      }
      if !inFence {
        inFence, mark, length, openedAt := true, fence.value.mark, fence.value.length, i;
        continue;
      }
      if fence.value.mark == mark && fence.value.length >= length && fence.value.info == "" {
        inFence := false;
      } else {
        reports := reports + [Report(StrayOpener, i, Strip(lines[i - 1]), openedAt)];
        mark, length, openedAt := fence.value.mark, fence.value.length, i;
      }
    }
    if inFence {
      reports := reports + [Report(Eof, |lines|, "", openedAt)];
    }
  }

  // ----- the check and the converter -----

  /** A fence line inside a block, by the converter's reading, that does not close it. */
  predicate IsStray(lines: seq<string>, i: nat)
    requires i < |lines|
  {
    FenceOf(lines[i]).Some? && BlockBefore(lines, i).Inside? && !Closes(FenceOf(lines[i]).value, BlockBefore(lines, i))
  }

  lemma {:induction false} InStepUntilAStray(lines: seq<string>, i: nat)
    requires i <= |lines|
    ensures ScanBefore(lines, i).reports == [] <==> forall k: nat :: k < i ==> !IsStray(lines, k)
    ensures ScanBefore(lines, i).reports == [] ==> ScanBefore(lines, i).block == BlockBefore(lines, i)
  {
    hide FenceOf;
    if i > 0 {
      InStepUntilAStray(lines, i - 1);
      var was := ScanBefore(lines, i - 1);
      if was.reports == [] {
        assert ScanBefore(lines, i).reports == [] <==> !IsStray(lines, i - 1);
        assert (forall k: nat :: k < i ==> !IsStray(lines, k)) <==>
               (forall k: nat :: k < i - 1 ==> !IsStray(lines, k)) && !IsStray(lines, i - 1);
      }
    }
  }

  /** A file passes the check exactly when the converter meets no stray fence in it and ends outside a block;
      both then see the same block at every line. */
  lemma AcceptedFilesReadTheSame(lines: seq<string>)
    ensures Unclosed(lines) == [] <==>
            (forall k: nat :: k < |lines| ==> !IsStray(lines, k)) && BlockBefore(lines, |lines|).Outside?
    ensures Unclosed(lines) == [] ==>
              forall i: nat :: i <= |lines| ==> ScanBefore(lines, i).block == BlockBefore(lines, i)
  {
    InStepUntilAStray(lines, |lines|);
    if Unclosed(lines) == [] {
      forall i: nat | i <= |lines| ensures ScanBefore(lines, i).block == BlockBefore(lines, i) {
        InStepUntilAStray(lines, i);
      }
    }
  }

  /** On a file the check rejects the two can part: it takes the other mark for an opener, the converter for
      content. */
  lemma RejectedFilesCanReadDifferently()
    ensures var lines := ["```", "~~~", "```"];
            BlockBefore(lines, 3) == Outside && ScanBefore(lines, 3).block == Inside('`', 3) && |Unclosed(lines)| == 3
  {
    var lines := ["```", "~~~", "```"];
    PlainFence('`', "```");
    PlainFence('~', "~~~");
    assert BlockBefore(lines, 1) == Inside('`', 3) && BlockBefore(lines, 2) == Inside('`', 3);
    assert ScanBefore(lines, 1) == Scan(Inside('`', 3), 1, []);
    assert ScanBefore(lines, 2) == Scan(Inside('~', 3), 2, [Report(StrayOpener, 2, Strip("~~~"), 1)]);
  }

  lemma PlainFence(mark: char, line: string)
    requires IsMark(mark) && line == [mark, mark, mark]
    ensures FenceOf(line) == Some(Fence(mark, 3, ""))
  {
    FenceLinesReadOneWay(line);
    assert line == [] + seq(3, i => mark) + [];
    assert Reads(line, [], mark, 3, []);
  }

  // ----- what a report says -----

  /** The fence that opened the reported block, and no other fence line up to the report. */
  ghost predicate OpenedAndLeftOpen(lines: seq<string>, openedAt: nat, upTo: nat) {
    && 1 <= openedAt <= upTo <= |lines|
    && FenceOf(lines[openedAt - 1]).Some?
    && forall k :: openedAt <= k < upTo ==> FenceOf(lines[k]).None?
  }

  ghost predicate ReportHolds(lines: seq<string>, report: Report) {
    && 1 <= report.number <= |lines|
    && match report.kind
       case Eof =>
         report.number == |lines| && report.text == "" && OpenedAndLeftOpen(lines, report.openedAt, |lines|)
       case StrayOpener =>
         && report.text == Strip(lines[report.number - 1])
         && OpenedAndLeftOpen(lines, report.openedAt, report.number - 1)
         && FenceOf(lines[report.number - 1]).Some?
         && var opener, fence := FenceOf(lines[report.openedAt - 1]).value, FenceOf(lines[report.number - 1]).value;
            !Closes(fence, Inside(opener.mark, opener.length))
  }

  lemma {:induction false} ScanReportsHold(lines: seq<string>, i: nat)
    requires i <= |lines|
    ensures forall r :: r in ScanBefore(lines, i).reports ==> ReportHolds(lines, r)
    ensures var scan := ScanBefore(lines, i);
            scan.block.Inside? ==>
              && OpenedAndLeftOpen(lines, scan.openedAt, i)
              && var opener := FenceOf(lines[scan.openedAt - 1]).value;
                 scan.block == Inside(opener.mark, opener.length)
  {
    hide FenceOf;
    if i > 0 {
      ScanReportsHold(lines, i - 1);
    }
  }

  /** Every report names a block and the line that shows it was never closed. */
  lemma ReportsNameOpenBlocks(lines: seq<string>, report: Report)
    requires report in Unclosed(lines)
    ensures ReportHolds(lines, report)
  {
    ScanReportsHold(lines, |lines|);
  }
}
