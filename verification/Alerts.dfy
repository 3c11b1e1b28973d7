/** GitHub alert blockquotes turned into admonitions, line by line. */
module Alerts {
  import opened Prelude
  import opened Fences

  // ----- single lines -----

  datatype AlertType = AlertType(marker: string, style: string, caption: string)

  const TYPES: seq<AlertType> := [
    AlertType("NOTE", "note", "Note"),
    AlertType("TIP", "tip", "Tip"),
    AlertType("IMPORTANT", "info", "Important"),
    AlertType("WARNING", "warning", "Warning"),
    AlertType("CAUTION", "danger", "Caution")
  ]

  datatype Marker = Marker(alert: AlertType, trailing: string)

  /** The alert a line opens: > and [!TYPE], with white space between and around. */
  function MarkerOf(line: string): Option<Marker> {
    if !IsQuote(line) then None
    else
      var rest := SkipSpaces(line[1..]);
      if "[!" <= rest then MarkerNamed(rest[2..], TYPES) else None
  }

  function MarkerNamed(rest: string, types: seq<AlertType>): Option<Marker> {
    if types == [] then None
    else if types[0].marker + "]" <= rest then Some(Marker(types[0], Strip(rest[|types[0].marker| + 1..])))
    else MarkerNamed(rest, types[1..])
  }

  predicate IsQuote(line: string) {
    line != "" && line[0] == '>'
  }

  /** A quoted line without its > and one white space. */
  function Unquoted(line: string): string
    requires IsQuote(line)
  {
    if |line| > 1 && IsSpace(line[1]) then line[2..] else line[1..]
  }

  /** A body line, indented unless blank. */
  function Indented(text: string): string {
    if Strip(text) != "" then "    " + text else ""
  }

  /** A title lifted out of a body's first line, and what is left of that line. */
  datatype Lift = Lift(title: string, rest: string)

  type Lifter = string -> Option<Lift>

  function HeaderLine(style: string, caption: string): string {
    "!!! " + style + " \"" + caption + "\""
  }

  /** The header of an admonition whose body is this. */
  function Header(alert: AlertType, body: seq<string>, lift: Lifter): string {
    if body != [] && lift(body[0]).Some? then HeaderLine("info", lift(body[0]).value.title)
    else HeaderLine(alert.style, alert.caption)
  }

  /** The body's text once a title was lifted out of it. */
  function Lifted(body: seq<string>, lift: Lifter): seq<string> {
    if body != [] && lift(body[0]).Some? then [lift(body[0]).value.rest] + body[1..] else body
  }

  // ----- which line is what -----

  /** Line i opens an admonition: a marker, outside a block, and not inside a body being collected. */
  predicate Opens(lines: seq<string>, i: nat)
    requires i < |lines|
    decreases i, 1
  {
    MarkerOf(lines[i]).Some? && BlockBefore(lines, i).Outside? && !InBody(lines, i)
  }

  /** Line i belongs to the body of the alert above it. */
  predicate InBody(lines: seq<string>, i: nat)
    requires i < |lines|
    decreases i, 0
  {
    i > 0 && IsQuote(lines[i]) && (Opens(lines, i - 1) || InBody(lines, i - 1))
  }

  function Trailing(line: string): seq<string>
    requires MarkerOf(line).Some?
  {
    if MarkerOf(line).value.trailing != "" then [MarkerOf(line).value.trailing] else []
  }

  /** The body of the alert that line i opens. */
  function BodyOf(lines: seq<string>, i: nat): seq<string>
    requires i < |lines| && MarkerOf(lines[i]).Some?
  {
    Trailing(lines[i]) + QuotedFrom(lines, i + 1)
  }

  /** The quoted lines from i on, up to the first that is not one. */
  function QuotedFrom(lines: seq<string>, i: nat): seq<string>
    requires i <= |lines|
    decreases |lines| - i
  {
    if i < |lines| && IsQuote(lines[i]) then [Unquoted(lines[i])] + QuotedFrom(lines, i + 1) else []
  }

  function IndentAll(body: seq<string>): seq<string> {
    seq(|body|, k requires 0 <= k < |body| => Indented(body[k]))
  }

  /** The admonition for an alert, blank line after the header and at the end. */
  function Admonition(alert: AlertType, body: seq<string>, lift: Lifter): seq<string> {
    [Header(alert, body, lift), ""] + IndentAll(Lifted(body, lift)) + [""]
  }

  /** What comes out for line i: itself, an admonition with its body, or nothing, its admonition holding it. */
  function Emitted(lines: seq<string>, i: nat, lift: Lifter): seq<string>
    requires i < |lines|
  {
    if Opens(lines, i) then Admonition(MarkerOf(lines[i]).value.alert, BodyOf(lines, i), lift)
    else if InBody(lines, i) then []
    else [lines[i]]
  }

  function ConvertedUpTo(lines: seq<string>, i: nat, lift: Lifter): seq<string>
    requires i <= |lines|
  {
    if i == 0 then [] else ConvertedUpTo(lines, i - 1, lift) + Emitted(lines, i - 1, lift)
  }

  function Converted(lines: seq<string>, lift: Lifter): seq<string> {
    ConvertedUpTo(lines, |lines|, lift)
  }

  // ----- the code -----

  method Convert(lines: seq<string>, lift: Lifter) returns (out: seq<string>)
    ensures out == Converted(lines, lift)
  {
    hide FenceOf, MarkerOf, Admonition, BodyOf;
    out := [];
    var block := Outside;
    var i := 0;
    while i < |lines|
      invariant 0 <= i <= |lines|
      invariant out == ConvertedUpTo(lines, i, lift)
      invariant block == BlockBefore(lines, i)
      invariant i < |lines| ==> !InBody(lines, i)
    {
      var line := lines[i];
      var fence := FenceOf(line);
      if fence.Some? {
        FencesAreNoQuotes(line);
        if block.Inside? {
          if fence.value.mark == block.mark && fence.value.length >= block.length && fence.value.info == "" {
            block := Outside;
          }
        } else {
          block := Inside(fence.value.mark, fence.value.length);
        }
        out := out + [line];
        i := i + 1;
        continue;
      }
      var marker := if block.Inside? then None else MarkerOf(line);
      assert Opens(lines, i) == marker.Some?;
      if marker.None? {
        out := out + [line];
        i := i + 1;
        continue;
      }
      ghost var opener := i;
      var body;
      body, i := CollectBody(lines, i);
      var admonition := Render(marker.value.alert, body, lift);
      out := out + admonition;
      BodyEmitsNothing(lines, opener, i, lift);
    }
  }

  /** The body of the alert at i, and the first line after it. */
  method CollectBody(lines: seq<string>, opener: nat) returns (body: seq<string>, i: nat)
    requires opener < |lines| && MarkerOf(lines[opener]).Some?
    ensures opener < i <= |lines| && (forall k :: opener < k < i ==> IsQuote(lines[k]))
    ensures i < |lines| ==> !IsQuote(lines[i])
    ensures body == BodyOf(lines, opener)
  {
    hide MarkerOf;
    body := Trailing(lines[opener]);
    i := opener + 1;
    while i < |lines| && IsQuote(lines[i])
      invariant opener < i <= |lines|
      invariant forall k :: opener < k < i ==> IsQuote(lines[k])
      invariant body + QuotedFrom(lines, i) == BodyOf(lines, opener)
    {
      body := body + [Unquoted(lines[i])];
      i := i + 1;
    }
  }

  method Render(alert: AlertType, body: seq<string>, lift: Lifter) returns (out: seq<string>)
    ensures out == Admonition(alert, body, lift)
  {
    var text, head := body, HeaderLine(alert.style, alert.caption);
    if body != [] {
      var title := lift(body[0]);
      if title.Some? {
        text := [title.value.rest] + body[1..];
        head := HeaderLine("info", title.value.title);
      }
    }
    out := [head, ""];
    var k := 0;
    while k < |text|
      invariant 0 <= k <= |text|
      invariant out == [head, ""] + IndentAll(text[..k])
    {
      assert IndentAll(text[..k + 1]) == IndentAll(text[..k]) + [Indented(text[k])];
      out := out + [Indented(text[k])];
      k := k + 1;
    }
    assert text[..k] == text;
    out := out + [""];
  }

  lemma FencesAreNoQuotes(line: string)
    requires FenceOf(line).Some?
    ensures !IsQuote(line) && MarkerOf(line).None?
  {
  }

  lemma {:induction false} BodyEmitsNothing(lines: seq<string>, opener: nat, i: nat, lift: Lifter)
    requires opener < i <= |lines| && Opens(lines, opener)
    requires forall k :: opener < k < i ==> IsQuote(lines[k])
    ensures ConvertedUpTo(lines, i, lift) == ConvertedUpTo(lines, opener + 1, lift)
    ensures BlockBefore(lines, i) == BlockBefore(lines, opener)
    ensures Opens(lines, i - 1) || InBody(lines, i - 1)
  {
    hide FenceOf, MarkerOf, Emitted;
    if i == opener + 1 {
      MarkersAreNoFences(lines[opener]);
    } else {
      BodyEmitsNothing(lines, opener, i - 1, lift);
      QuotesAreNoFences(lines[i - 1]);
      assert InBody(lines, i - 1);
      assert Emitted(lines, i - 1, lift) == [] by {
        EmptyInBody(lines, i - 1, lift);
      }
    }
  }

  lemma QuotesAreNoFences(line: string)
    requires IsQuote(line)
    ensures FenceOf(line).None?
  {
  }

  lemma MarkersAreNoFences(line: string)
    requires MarkerOf(line).Some?
    ensures FenceOf(line).None? && IsQuote(line)
  {
  }

  lemma EmptyInBody(lines: seq<string>, i: nat, lift: Lifter)
    requires i < |lines| && InBody(lines, i)
    ensures Emitted(lines, i, lift) == []
  {
    hide MarkerOf, BlockBefore, Admonition;
  }

  // ----- which lines are converted -----

  /** Line i follows an alert opened at h, quoted lines all the way. */
  ghost predicate Follows(lines: seq<string>, h: nat, i: nat)
    requires i < |lines|
  {
    h < i && Opens(lines, h) && forall k :: h < k <= i ==> IsQuote(lines[k])
  }

  lemma {:induction false} BodiesFollow(lines: seq<string>, i: nat)
    requires i < |lines|
    ensures InBody(lines, i) <==> exists h: nat :: Follows(lines, h, i)
    ensures InBody(lines, i) ==> BlockBefore(lines, i).Outside?
  {
    hide MarkerOf, FenceOf;
    if i > 0 && IsQuote(lines[i]) {
      BodiesFollow(lines, i - 1);
      var above := i - 1;
      if h: nat :| Follows(lines, h, above) {
        assert Follows(lines, h, i);
      }
      if Opens(lines, above) {
        assert Follows(lines, above, i);
      }
      if h: nat :| Follows(lines, h, i) {
        assert h == above || Follows(lines, h, above);
      }
      if Opens(lines, i - 1) {
        MarkersAreNoFences(lines[i - 1]);
      } else if InBody(lines, i - 1) {
        QuotesAreNoFences(lines[i - 1]);
      }
    }
  }

  /** A line opens an admonition exactly when it is a marker outside every block and follows no alert. */
  lemma MarkersConvertExactly(lines: seq<string>, i: nat)
    requires i < |lines|
    ensures Opens(lines, i) <==>
            MarkerOf(lines[i]).Some? && BlockBefore(lines, i).Outside? && !exists h: nat :: Follows(lines, h, i)
  {
    hide MarkerOf, BlockBefore;
    BodiesFollow(lines, i);
  }

  /** Fence lines and everything between them come out as they are. */
  lemma FencedLinesAreVerbatim(lines: seq<string>, i: nat, lift: Lifter)
    requires i < |lines| && (FenceOf(lines[i]).Some? || BlockBefore(lines, i).Inside?)
    ensures Emitted(lines, i, lift) == [lines[i]]
  {
    hide MarkerOf, FenceOf, BlockBefore, Admonition;
    BodiesFollow(lines, i);
    if FenceOf(lines[i]).Some? {
      FencesAreNoQuotes(lines[i]);
    }
  }

  /** On a file the fence check accepts, its fences and the lines it sees in blocks come out as they are, and
      markers it sees outside are the only ones converted. */
  lemma AcceptedFilesKeepTheirCode(lines: seq<string>, i: nat, lift: Lifter)
    requires Unclosed(lines) == [] && i < |lines|
    ensures FenceOf(lines[i]).Some? || ScanBefore(lines, i).block.Inside? ==> Emitted(lines, i, lift) == [lines[i]]
    ensures Opens(lines, i) <==>
            MarkerOf(lines[i]).Some? && ScanBefore(lines, i).block.Outside? && !exists h: nat :: Follows(lines, h, i)
  {
    hide *;
    AcceptedFilesReadTheSame(lines);
    MarkersConvertExactly(lines, i);
    if FenceOf(lines[i]).Some? || BlockBefore(lines, i).Inside? {
      FencedLinesAreVerbatim(lines, i, lift);
    }
  }

  // ----- every body line once -----

  lemma {:induction false} QuotedFromIsPositional(lines: seq<string>, i: nat, j: nat)
    requires i <= j < |lines| && forall k :: i <= k <= j ==> IsQuote(lines[k])
    ensures j - i < |QuotedFrom(lines, i)| && QuotedFrom(lines, i)[j - i] == Unquoted(lines[j])
    decreases j - i
  {
    if i < j {
      QuotedFromIsPositional(lines, i + 1, j);
    }
  }

  lemma OneAlertOnly(lines: seq<string>, h: nat, i: nat, other: nat)
    requires i < |lines| && Follows(lines, h, i) && Follows(lines, other, i)
    ensures other == h
  {
    hide MarkerOf, BlockBefore;
    if other < h {
      assert Follows(lines, other, h);
      BodiesFollow(lines, h);
    } else if h < other {
      assert Follows(lines, h, other);
      BodiesFollow(lines, other);
    }
  }

  /** A body line belongs to one alert, comes out at its place in that alert's admonition, indented and
      without its quote mark (cut, when a title was lifted from it), and nowhere else. */
  lemma BodyLinesComeOutOnce(lines: seq<string>, h: nat, i: nat, lift: Lifter)
    requires i < |lines| && Follows(lines, h, i)
    ensures Emitted(lines, i, lift) == []
    ensures forall other: nat :: Follows(lines, other, i) ==> other == h
    ensures var place := |Trailing(lines[h])| + i - h - 1;
            && 2 + place < |Emitted(lines, h, lift)|
            && Emitted(lines, h, lift)[2 + place] ==
               if place == 0 && lift(Unquoted(lines[i])).Some? then Indented(lift(Unquoted(lines[i])).value.rest)
               else Indented(Unquoted(lines[i]))
  {
    hide MarkerOf, Opens, InBody, BlockBefore, Indented, Header, Emitted, Unquoted;
    BodiesFollow(lines, i);
    EmptyInBody(lines, i, lift);
    forall other: nat | Follows(lines, other, i) ensures other == h {
      OneAlertOnly(lines, h, i, other);
    }
    OpenersEmit(lines, h, lift);
    QuotedFromIsPositional(lines, h + 1, i);
    var place := |Trailing(lines[h])| + i - h - 1;
    assert BodyOf(lines, h)[place] == Unquoted(lines[i]);
    PlaceInAdmonition(MarkerOf(lines[h]).value.alert, BodyOf(lines, h), lift, place);
  }

  lemma OpenersEmit(lines: seq<string>, h: nat, lift: Lifter)
    requires h < |lines| && Opens(lines, h)
    ensures MarkerOf(lines[h]).Some?
    ensures Emitted(lines, h, lift) == Admonition(MarkerOf(lines[h]).value.alert, BodyOf(lines, h), lift)
  {
  }

  lemma PlaceInAdmonition(alert: AlertType, body: seq<string>, lift: Lifter, place: nat)
    requires place < |body|
    ensures 2 + place < |Admonition(alert, body, lift)|
    ensures Admonition(alert, body, lift)[2 + place] ==
            if place == 0 && lift(body[0]).Some? then Indented(lift(body[0]).value.rest) else Indented(body[place])
  {
    hide Indented, Header;
  }

  // ----- text without alerts -----

  lemma {:induction false} NothingOpensNothingChanges(lines: seq<string>, i: nat, lift: Lifter)
    requires i <= |lines| && forall k :: 0 <= k < i ==> !Opens(lines, k)
    ensures ConvertedUpTo(lines, i, lift) == lines[..i]
  {
    hide MarkerOf, BlockBefore;
    if i > 0 {
      NothingOpensNothingChanges(lines, i - 1, lift);
      NoBodyWithoutAlert(lines, i - 1);
      assert lines[..i] == lines[..i - 1] + [lines[i - 1]];
    }
  }

  lemma {:induction false} NoBodyWithoutAlert(lines: seq<string>, i: nat)
    requires i < |lines| && forall k :: 0 <= k <= i ==> !Opens(lines, k)
    ensures !InBody(lines, i)
  {
    if i > 0 {
      NoBodyWithoutAlert(lines, i - 1);
    }
  }

  lemma {:induction false} ConvertingGoesOn(lines: seq<string>, i: nat, j: nat, lift: Lifter)
    requires i <= j <= |lines|
    ensures ConvertedUpTo(lines, i, lift) <= ConvertedUpTo(lines, j, lift)
  {
    if i < j {
      ConvertingGoesOn(lines, i, j - 1, lift);
    }
  }

  /** The first marker outside a block opens an admonition. */
  lemma {:induction false} FirstMarkerOpens(lines: seq<string>, i: nat) returns (h: nat)
    requires i < |lines| && MarkerOf(lines[i]).Some? && BlockBefore(lines, i).Outside?
    ensures h <= i && Opens(lines, h) && forall k :: 0 <= k < h ==> !Opens(lines, k)
  {
    hide MarkerOf, BlockBefore;
    if k: nat :| k < i && Opens(lines, k) {
      assert MarkerOf(lines[k]).Some? && BlockBefore(lines, k).Outside?;
      h := FirstMarkerOpens(lines, k);
    } else {
      h := i;
      if i > 0 {
        NoBodyWithoutAlert(lines, i - 1);
        assert !Opens(lines, i - 1);
      }
      assert !InBody(lines, i);
    }
  }

  ghost predicate HasConvertibleMarker(lines: seq<string>) {
    exists i: nat :: i < |lines| && MarkerOf(lines[i]).Some? && BlockBefore(lines, i).Outside?
  }

  /** A document comes out unchanged exactly when it has no marker outside its code blocks. */
  lemma UnchangedWithoutMarkers(lines: seq<string>, lift: Lifter)
    ensures Converted(lines, lift) == lines <==> !HasConvertibleMarker(lines)
  {
    hide MarkerOf, BlockBefore, Header, Lifted, BodyOf;
    if HasConvertibleMarker(lines) {
      var i: nat :| i < |lines| && MarkerOf(lines[i]).Some? && BlockBefore(lines, i).Outside?;
      var h := FirstMarkerOpens(lines, i);
      NothingOpensNothingChanges(lines, h, lift);
      ConvertingGoesOn(lines, h + 1, |lines|, lift);
      MarkersAreNoFences(lines[h]);
      var header := Header(MarkerOf(lines[h]).value.alert, BodyOf(lines, h), lift);
      HeadersStartWithABang(MarkerOf(lines[h]).value.alert, BodyOf(lines, h), lift);
      assert ConvertedUpTo(lines, h + 1, lift)[h] == header;
      assert Converted(lines, lift)[h] != lines[h];
    } else {
      NothingOpensNothingChanges(lines, |lines|, lift);
      assert lines[..|lines|] == lines;
    }
  }

  lemma HeadersStartWithABang(alert: AlertType, body: seq<string>, lift: Lifter)
    ensures Header(alert, body, lift) != "" && Header(alert, body, lift)[0] == '!'
  {
  }

  // ----- whole texts -----

  /** The text cut at its line ends; there is always at least one line. */
  function Split(text: string): (lines: seq<string>)
    ensures lines != []
  {
    if text == "" then [""]
    else
      var rest := Split(text[1..]);
      if text[0] == '\n' then [""] + rest else [[text[0]] + rest[0]] + rest[1..]
  }

  function Join(lines: seq<string>): string {
    if lines == [] then "" else if |lines| == 1 then lines[0] else lines[0] + "\n" + Join(lines[1..])
  }

  lemma {:induction false} JoinUndoesSplit(text: string)
    ensures Join(Split(text)) == text
  {
    if text != "" {
      JoinUndoesSplit(text[1..]);
      var rest := Split(text[1..]);
      if text[0] == '\n' {
        assert ([""] + rest)[1..] == rest;
        assert text == "" + "\n" + text[1..];
      } else {
        var lines := [[text[0]] + rest[0]] + rest[1..];
        assert lines[1..] == rest[1..];
        assert text == [text[0]] + text[1..];
        if |rest| > 1 {
          assert Join(lines) == [text[0]] + (rest[0] + "\n" + Join(rest[1..]));
        }
      }
    }
  }

  method ConvertText(markdown: string, lift: Lifter) returns (text: string)
    ensures text == Join(Converted(Split(markdown), lift))
    ensures !HasConvertibleMarker(Split(markdown)) ==> text == markdown
  {
    var out := Convert(Split(markdown), lift);
    UnchangedWithoutMarkers(Split(markdown), lift);
    JoinUndoesSplit(markdown);
    text := Join(out);
  }
}
