/** What alerts, quotes and fences read like, and what an alert becomes, in the text itself. */
module AlertText {
  import opened Prelude
  import opened Fences
  import opened Alerts

  // ----- white space -----

  /** What is left of a string without white space at its ends. */
  ghost predicate IsCore(core: string) {
    core == "" || (!IsSpace(core[0]) && !IsSpace(core[|core| - 1]))
  }

  /** A string is stripped to its core, and nothing else. */
  lemma StrippingIsExact(s: string)
    ensures exists before, after :: s == before + Strip(s) + after && IsBlank(before) && IsBlank(after)
    ensures IsCore(Strip(s))
    ensures Strip(s) == "" <==> IsBlank(s)
  {
    var before := SkippedPart(s);
    var rest := SkipSpaces(s);
    var after := TrimmedPart(rest);
    var core := Strip(s);
    assert s == before + core + after;
    if core != "" {
      assert core[0] == rest[0] && s[|before|] == core[0];
    } else if s != "" {
      assert IsBlank(before + after) && s == before + after;
    }
  }

  lemma {:induction false} TrimmedPart(s: string) returns (after: string)
    ensures s == TrimEnd(s) + after && IsBlank(after)
    ensures TrimEnd(s) == [] || !IsSpace(TrimEnd(s)[|TrimEnd(s)| - 1])
  {
    if s == [] || !IsSpace(s[|s| - 1]) {
      after := [];
    } else {
      var less := TrimmedPart(s[..|s| - 1]);
      after := less + [s[|s| - 1]];
    }
  }

  // ----- fences -----

  /** A block is closed exactly by a line of white space, as many of its marks or more, and white space; any other
      line leaves the converter inside it. */
  lemma BlocksCloseExactly(mark: char, n: nat, line: string)
    ensures Followed(Inside(mark, n), line) ==
            if exists indent, length: nat, tail ::
                 length >= n && IsBlank(tail) && Reads(line, indent, mark, length, tail)
            then Outside else Inside(mark, n)
  {
    hide Reads, Strip;
    FenceLinesReadOneWay(line);
    forall indent, length: nat, tail | Reads(line, indent, mark, length, tail)
      ensures FenceOf(line) == Some(Fence(mark, length, Strip(tail))) && (Strip(tail) == "" <==> IsBlank(tail))
    {
      StrippingIsExact(tail);
    }
    if FenceOf(line).Some? {
      var fence := FenceOf(line).value;
      var indent, tail :| Reads(line, indent, fence.mark, fence.length, tail);
      StrippingIsExact(tail);
    }
  }

  /** Outside a block a line opens one exactly when it reads as a fence. */
  lemma BlocksOpenExactly(line: string)
    ensures forall indent, mark, length: nat, tail ::
              Reads(line, indent, mark, length, tail) ==> Followed(Outside, line) == Inside(mark, length)
    ensures Followed(Outside, line).Inside? ==> exists indent, tail ::
              Reads(line, indent, Followed(Outside, line).mark, Followed(Outside, line).length, tail)
  {
    hide Reads, Strip;
    FenceLinesReadOneWay(line);
  }

  // ----- markers -----

  const NAMES: seq<string> := ["NOTE", "TIP", "IMPORTANT", "WARNING", "CAUTION"]

  /** A line that opens an alert, part by part: > and [!NAME], white space between, and what follows. */
  ghost predicate ReadsAsMarker(line: string, gap: string, name: string, rest: string) {
    IsBlank(gap) && name in NAMES && line == ">" + gap + "[!" + name + "]" + rest
  }

  /** The first line of the admonition for an alert of this name without a title of its own. */
  function TitledByName(name: string): string {
    if name == "NOTE" then "!!! note \"Note\""
    else if name == "TIP" then "!!! tip \"Tip\""
    else if name == "IMPORTANT" then "!!! info \"Important\""
    else if name == "WARNING" then "!!! warning \"Warning\""
    else "!!! danger \"Caution\""
  }

  lemma HeadersByName(name: string)
    requires name in NAMES
    ensures exists k: nat :: k < |TYPES| && TYPES[k].marker == name
    ensures forall k: nat :: k < |TYPES| && TYPES[k].marker == name ==>
                               HeaderLine(TYPES[k].style, TYPES[k].caption) == TitledByName(name)
  {
    assert "NOTE"[0] == 'N' && "TIP"[0] == 'T' && "IMPORTANT"[0] == 'I' && "WARNING"[0] == 'W' && "CAUTION"[0] == 'C';
    assert TYPES[0].marker == "NOTE" && TYPES[1].marker == "TIP" && TYPES[2].marker == "IMPORTANT";
    assert TYPES[3].marker == "WARNING" && TYPES[4].marker == "CAUTION";
    LiteralHeaders();
    hide HeaderLine;
  }

  lemma LiteralHeaders()
    ensures HeaderLine("note", "Note") == "!!! note \"Note\""
    ensures HeaderLine("tip", "Tip") == "!!! tip \"Tip\""
    ensures HeaderLine("info", "Important") == "!!! info \"Important\""
    ensures HeaderLine("warning", "Warning") == "!!! warning \"Warning\""
    ensures HeaderLine("danger", "Caution") == "!!! danger \"Caution\""
  {
  }

  lemma {:induction false} TheFirstNameCounts(rest: string, types: seq<AlertType>, k: nat)
    requires k < |types| && types[k].marker + "]" <= rest
    requires forall j :: 0 <= j < k ==> !(types[j].marker + "]" <= rest)
    ensures MarkerNamed(rest, types) == Some(Marker(types[k], Strip(rest[|types[k].marker| + 1..])))
  {
    if k > 0 {
      TheFirstNameCounts(rest, types[1..], k - 1);
    }
  }

  lemma {:induction false} ANameIsListed(rest: string, types: seq<AlertType>) returns (k: nat)
    requires MarkerNamed(rest, types).Some?
    ensures k < |types| && types[k].marker + "]" <= rest
    ensures MarkerNamed(rest, types) == Some(Marker(types[k], Strip(rest[|types[k].marker| + 1..])))
  {
    if types[0].marker + "]" <= rest {
      k := 0;
    } else {
      k := ANameIsListed(rest, types[1..]);
      k := k + 1;
    }
  }

  lemma NamesStartDifferently()
    ensures |TYPES| == |NAMES|
    ensures forall k: nat :: k < |TYPES| ==> TYPES[k].marker == NAMES[k] != ""
    ensures forall j: nat, k: nat :: j < k < |TYPES| ==> TYPES[j].marker[0] != TYPES[k].marker[0]
  {
    assert "NOTE"[0] == 'N' && "TIP"[0] == 'T' && "IMPORTANT"[0] == 'I' && "WARNING"[0] == 'W' && "CAUTION"[0] == 'C';
    assert TYPES[0].marker == "NOTE" && TYPES[1].marker == "TIP" && TYPES[2].marker == "IMPORTANT";
    assert TYPES[3].marker == "WARNING" && TYPES[4].marker == "CAUTION";
  }

  lemma OneNameFits(rest: string, k: nat)
    requires k < |TYPES| && TYPES[k].marker + "]" <= rest
    ensures MarkerNamed(rest, TYPES) == Some(Marker(TYPES[k], Strip(rest[|TYPES[k].marker| + 1..])))
  {
    NamesStartDifferently();
    forall j | 0 <= j < k ensures !(TYPES[j].marker + "]" <= rest) {
      assert (TYPES[k].marker + "]")[0] == rest[0];
      assert (TYPES[j].marker + "]")[0] != rest[0];
    }
    TheFirstNameCounts(rest, TYPES, k);
  }

  /** What a marker line is taken for. */
  ghost predicate TakenFor(line: string, name: string, rest: string) {
    && MarkerOf(line).Some? && MarkerOf(line).value.trailing == Strip(rest)
    && HeaderLine(MarkerOf(line).value.alert.style, MarkerOf(line).value.alert.caption) == TitledByName(name)
  }

  lemma MarkersAreTaken(line: string, gap: string, name: string, rest: string)
    requires ReadsAsMarker(line, gap, name, rest)
    ensures TakenFor(line, name, rest)
  {
    hide MarkerNamed, HeaderLine, TitledByName, Strip, TYPES, MarkerOf;
    NamesStartDifferently();
    HeadersByName(name);
    var k: nat :| k < |NAMES| && NAMES[k] == name;
    MarkersAreNamed(line, gap, name + "]" + rest);
    assert ">" + gap + "[!" + name + "]" + rest == ">" + (gap + ("[!" + (name + "]" + rest)));
    OneNameFits(name + "]" + rest, k);
    assert (name + "]" + rest)[|name| + 1..] == rest;
  }

  lemma MarkersAreNamed(line: string, gap: string, named: string)
    requires IsBlank(gap)
    ensures line == ">" + (gap + ("[!" + named)) ==> MarkerOf(line) == MarkerNamed(named, TYPES)
  {
    hide MarkerNamed, TYPES;
    SkipsExactly(gap, "[!" + named);
    assert ("[!" + named)[2..] == named;
  }

  /** A line is taken for the opening of an alert exactly when it reads as one, by its name and what follows. */
  lemma MarkersReadOneWay(line: string)
    ensures forall gap, name, rest :: ReadsAsMarker(line, gap, name, rest) ==> TakenFor(line, name, rest)
    ensures MarkerOf(line).Some? ==> exists gap, name, rest :: ReadsAsMarker(line, gap, name, rest)
  {
    forall gap, name, rest | ReadsAsMarker(line, gap, name, rest) ensures TakenFor(line, name, rest) {
      MarkersAreTaken(line, gap, name, rest);
    }
    if MarkerOf(line).Some? {
      var gap, name, rest := TakenMarkersRead(line);
    }
  }

  lemma TakenMarkersRead(line: string) returns (gap: string, name: string, rest: string)
    requires MarkerOf(line).Some?
    ensures ReadsAsMarker(line, gap, name, rest)
  {
    hide MarkerNamed, Strip, TYPES;
    gap := SkippedPart(line[1..]);
    var tail := SkipSpaces(line[1..]);
    var k := ANameIsListed(tail[2..], TYPES);
    NamesStartDifferently();
    name, rest := NAMES[k], tail[2..][|NAMES[k]| + 1..];
    InFull(line, gap, tail, name, rest);
  }

  lemma InFull(line: string, gap: string, tail: string, name: string, rest: string)
    requires line != "" && line[0] == '>' && line[1..] == gap + tail
    requires |tail| >= 2 && tail[..2] == "[!" && name + "]" <= tail[2..] && rest == tail[2..][|name| + 1..]
    ensures line == ">" + gap + "[!" + name + "]" + rest
  {
    assert tail[2..] == name + "]" + rest;
    assert tail == "[!" + (name + "]" + rest);
    assert line == ">" + (gap + tail);
  }

  // ----- quotes -----

  /** A quoted line loses its > and one white space. */
  lemma QuotesLoseTheirMark(c: char, text: string)
    ensures IsSpace(c) ==> Unquoted(">" + [c] + text) == text
    ensures text == "" || !IsSpace(text[0]) ==> Unquoted(">" + text) == text
  {
    assert (">" + [c] + text)[2..] == text && (">" + text)[1..] == text;
  }

  /** The quoted lines after an alert, up to the first line that is not one, each without its mark. */
  lemma {:induction false} QuotesRunOn(lines: seq<string>, i: nat)
    requires i <= |lines|
    ensures var end := i + |QuotedFrom(lines, i)|;
            && end <= |lines| && (end < |lines| ==> !IsQuote(lines[end]))
            && forall k: nat :: i <= k < end ==> IsQuote(lines[k]) && QuotedFrom(lines, i)[k - i] == Unquoted(lines[k])
    decreases |lines| - i
  {
    if i < |lines| && IsQuote(lines[i]) {
      hide Unquoted;
      QuotesRunOn(lines, i + 1);
      var rest := QuotedFrom(lines, i + 1);
      assert QuotedFrom(lines, i) == [Unquoted(lines[i])] + rest;
    }
  }

  // ----- what an alert becomes -----

  /** A line of an admonition's text: four blanks in front, unless there is nothing to show. */
  function TextLine(text: string): string {
    if IsBlank(text) then "" else "    " + text
  }

  /** The text of the alert that line i opens: what follows the marker, if anything, and the quoted lines after it. */
  function TextOf(lines: seq<string>, i: nat, rest: string): seq<string>
    requires i < |lines|
  {
    (if IsBlank(rest) then [] else [Strip(rest)]) + QuotedFrom(lines, i + 1)
  }

  lemma IndentingIsExact(text: string)
    ensures Indented(text) == TextLine(text)
  {
    StrippingIsExact(text);
  }

  lemma BodiesAreTexts(lines: seq<string>, i: nat, gap: string, name: string, rest: string)
    requires i < |lines| && ReadsAsMarker(lines[i], gap, name, rest)
    ensures MarkerOf(lines[i]).Some? && BodyOf(lines, i) == TextOf(lines, i, rest)
  {
    hide MarkerOf, QuotedFrom;
    MarkersAreTaken(lines[i], gap, name, rest);
    StrippingIsExact(rest);
  }

  /** A converted alert is a header, a blank line, its text indented, and a blank line. Its header is that of its
      name, unless a title was lifted out of the first line of its text, which then names an info box and leaves the
      rest of that line behind. */
  lemma WhatAnAlertBecomes(lines: seq<string>, i: nat, lift: Lifter, gap: string, name: string, rest: string)
    requires i < |lines| && Opens(lines, i) && ReadsAsMarker(lines[i], gap, name, rest)
    ensures var out, text := Emitted(lines, i, lift), TextOf(lines, i, rest);
            && |out| == |text| + 3 && out[1] == "" && out[|out| - 1] == ""
            && (forall k: nat :: 1 <= k < |text| ==> out[2 + k] == TextLine(text[k]))
            && (text == [] || lift(text[0]).None? ==> out[0] == TitledByName(name))
            && (text != [] && lift(text[0]).None? ==> out[2] == TextLine(text[0]))
            && (text != [] && lift(text[0]).Some? ==>
                  && out[0] == "!!! info \"" + lift(text[0]).value.title + "\""
                  && out[2] == TextLine(lift(text[0]).value.rest))
  {
    hide MarkerOf, Opens, QuotedFrom, TextLine, BodyOf, TitledByName, Strip, Admonition, HeaderLine;
    MarkersAreTaken(lines[i], gap, name, rest);
    BodiesAreTexts(lines, i, gap, name, rest);
    OpenersEmit(lines, i, lift);
    var text := TextOf(lines, i, rest);
    AdmonitionsAreLaidOut(MarkerOf(lines[i]).value.alert, text, lift);
    if text != [] && lift(text[0]).Some? {
      LiftedHeader(lift(text[0]).value.title);
    }
  }

  lemma AdmonitionsAreLaidOut(alert: AlertType, text: seq<string>, lift: Lifter)
    ensures var out := Admonition(alert, text, lift);
            && |out| == |text| + 3 && out[0] == Header(alert, text, lift) && out[1] == "" && out[|out| - 1] == ""
            && forall k: nat :: k < |text| ==>
                 out[2 + k] == TextLine(if k == 0 && lift(text[0]).Some? then lift(text[0]).value.rest else text[k])
  {
    hide Header, TextLine, Indented;
    var lifted := Lifted(text, lift);
    forall k: nat | k < |lifted| ensures IndentAll(lifted)[k] == TextLine(lifted[k]) {
      IndentingIsExact(lifted[k]);
    }
  }

  lemma LiftedHeader(title: string)
    ensures HeaderLine("info", title) == "!!! info \"" + title + "\""
  {
    assert "!!! " + "info" == "!!! info";
    assert "!!! info" + " \"" == "!!! info \"";
  }
}
