/** Reading a process's arguments back from what the kernel keeps, on macOS and on Linux. */
module ProcessArgv {
  import opened Prelude

  type byte = n: nat | n < 256

  type Bytes = seq<byte>

  const NUL: byte := 0

  const MAX_ARGC := 1024

  // ----- bytes -----

  predicate NulFree(s: Bytes) {
    forall i :: 0 <= i < |s| ==> s[i] != NUL
  }

  /** Where the first NUL is; none, if there is none. */
  function IndexNul(s: Bytes): (at: Option<nat>)
    ensures at.Some? ==> at.value < |s|
  {
    if s == [] then None
    else if s[0] == NUL then Some(0)
    else
      match IndexNul(s[1..])
      case None => None
      case Some(i) => Some(i + 1)
  }

  function SkipNuls(s: Bytes): Bytes {
    if s != [] && s[0] == NUL then SkipNuls(s[1..]) else s
  }

  lemma {:induction false} FirstNulEndsIt(s: Bytes, rest: Bytes)
    requires NulFree(s)
    ensures IndexNul(s + [NUL] + rest) == Some(|s|)
    ensures IndexNul(s) == None
  {
    if s == [] {
      assert s + [NUL] + rest == [NUL] + rest;
    } else {
      assert (s + [NUL] + rest)[1..] == s[1..] + [NUL] + rest;
      FirstNulEndsIt(s[1..], rest);
    }
  }

  // ----- macOS -----

  /** A 32-bit count, least significant byte first. */
  function LittleEndian(b0: byte, b1: byte, b2: byte, b3: byte): nat {
    b0 + 256 * b1 + 65536 * b2 + 16777216 * b3
  }

  /** Up to argc arguments; the last may lack its NUL. */
  function Arguments(rest: Bytes, argc: nat): seq<Bytes> {
    if argc == 0 then []
    else
      match IndexNul(rest)
      case None => if rest == [] then [] else [rest]
      case Some(i) => [rest[..i]] + Arguments(rest[i + 1..], argc - 1)
  }

  /** The reading of a process's argument buffer. */
  function DarwinArgv(buf: Bytes): Option<seq<Bytes>> {
    if |buf| < 4 then None
    else
      var argc := LittleEndian(buf[0], buf[1], buf[2], buf[3]);
      if argc == 0 || argc > MAX_ARGC then None
      else
        match IndexNul(buf[4..])
        case None => None
        case Some(i) =>
          var argv := Arguments(SkipNuls(buf[4..][i..]), argc);
          if argv == [] || argv[0] == [] then None else Some(argv)
  }

  method ReadDarwinArgv(buf: Bytes) returns (argv: Option<seq<Bytes>>)
    ensures argv == DarwinArgv(buf)
  {
    if |buf| < 4 {
      return None;
    }
    var argc := LittleEndian(buf[0], buf[1], buf[2], buf[3]);
    if argc == 0 || argc > MAX_ARGC {
      return None;
    }
    var rest := buf[4..];
    var pathEnd := IndexNul(rest);
    if pathEnd.None? {
      return None;
    }
    rest := rest[pathEnd.value..];
    ghost var padded := rest;
    while |rest| > 0 && rest[0] == NUL
      invariant SkipNuls(rest) == SkipNuls(padded)
      decreases |rest|
    {
      rest := rest[1..];
    }
    var args := TakeArguments(rest, argc);
    if |args| == 0 || args[0] == [] {
      return None;
    }
    return Some(args);
  }

  method TakeArguments(buf: Bytes, argc: nat) returns (args: seq<Bytes>)
    ensures args == Arguments(buf, argc)
  {
    var rest := buf;
    args := [];
    while |args| < argc
      invariant |args| <= argc
      invariant args + Arguments(rest, argc - |args|) == Arguments(buf, argc)
      decreases argc - |args|
    {
      var i := IndexNul(rest);
      if i.None? {
        if |rest| > 0 {
          args := args + [rest];
        }
        return;
      }
      args := args + [rest[..i.value]];
      rest := rest[i.value + 1..];
    }
  }

  // ----- Linux -----

  /** The pieces between NULs; there is always at least one. */
  function SplitAtNuls(s: Bytes): (parts: seq<Bytes>)
    ensures parts != []
  {
    if s == [] then [[]]
    else
      var parts := SplitAtNuls(s[1..]);
      if s[0] == NUL then [[]] + parts else [[s[0]] + parts[0]] + parts[1..]
  }

  function WithoutFinalNul(raw: Bytes): Bytes {
    if raw != [] && raw[|raw| - 1] == NUL then raw[..|raw| - 1] else raw
  }

  function LinuxArgv(raw: Bytes): Option<seq<Bytes>> {
    var parts := SplitAtNuls(WithoutFinalNul(raw));
    if parts[0] == [] then None else Some(parts)
  }

  // ----- what the kernel keeps -----

  /** Arguments, each ended by a NUL. */
  function Terminated(args: seq<Bytes>): Bytes {
    if args == [] then [] else args[0] + [NUL] + Terminated(args[1..])
  }

  function CountBytes(n: nat): Bytes
    requires n <= MAX_ARGC
  {
    [n % 256, n / 256, 0, 0]
  }

  /** The macOS buffer: the count, the executable's path, padding, the arguments and then the environment. */
  function Layout(path: Bytes, padding: nat, args: seq<Bytes>, environment: Bytes): Bytes
    requires |args| <= MAX_ARGC
  {
    CountBytes(|args|) + (path + [NUL] + (seq(padding, i => NUL) + (Terminated(args) + environment)))
  }

  ghost predicate AreArguments(args: seq<Bytes>) {
    1 <= |args| <= 1024 && forall i :: 0 <= i < |args| ==> NulFree(args[i])
  }

  lemma {:induction false} PaddingIsSkipped(padding: nat, rest: Bytes)
    ensures SkipNuls(seq(padding, i => NUL) + rest) == SkipNuls(rest)
  {
    if padding == 0 {
      assert seq(0, i => NUL) + rest == rest;
    } else {
      assert (seq(padding, i => NUL) + rest)[1..] == seq(padding - 1, i => NUL) + rest;
      PaddingIsSkipped(padding - 1, rest);
    }
  }

  lemma OneArgument(first: Bytes, more: Bytes, argc: nat)
    requires NulFree(first)
    ensures Arguments(first + [NUL] + more, argc + 1) == [first] + Arguments(more, argc)
  {
    var whole := first + [NUL] + more;
    FirstNulEndsIt(first, more);
    assert whole[..|first|] == first && whole[|first| + 1..] == more;
  }

  lemma {:induction false} ArgumentsComeBack(args: seq<Bytes>, after: Bytes)
    requires forall i :: 0 <= i < |args| ==> NulFree(args[i])
    ensures Arguments(Terminated(args) + after, |args|) == args
  {
    if args != [] {
      hide NulFree;
      var more := Terminated(args[1..]) + after;
      assert Terminated(args) + after == args[0] + [NUL] + more;
      OneArgument(args[0], more, |args| - 1);
      ArgumentsComeBack(args[1..], after);
    }
  }

  /** What the macOS reader makes of a buffer, from what follows the padding. */
  lemma ReadsPastThePadding(path: Bytes, padding: nat, argc: nat, tail: Bytes)
    requires 1 <= argc <= MAX_ARGC && NulFree(path)
    ensures DarwinArgv(CountBytes(argc) + (path + [NUL] + (seq(padding, i => NUL) + tail))) ==
            var argv := Arguments(SkipNuls(tail), argc); if argv == [] || argv[0] == [] then None else Some(argv)
  {
    var padded := seq(padding, i => NUL) + tail;
    var buf := CountBytes(argc) + (path + [NUL] + padded);
    assert buf[4..] == path + [NUL] + padded;
    assert LittleEndian(buf[0], buf[1], buf[2], buf[3]) == argc;
    FirstNulEndsIt(path, padded);
    assert buf[4..][|path|..] == [NUL] + padded;
    assert SkipNuls([NUL] + padded) == SkipNuls(padded) by {
      assert ([NUL] + padded)[1..] == padded;
    }
    PaddingIsSkipped(padding, tail);
  }

  /** The macOS reader recovers the arguments from their layout, whatever the path, the padding and the
      environment, exactly when the first is not empty: an empty one is taken for padding. */
  lemma DarwinRecovers(path: Bytes, padding: nat, args: seq<Bytes>, environment: Bytes)
    requires AreArguments(args) && NulFree(path)
    ensures DarwinArgv(Layout(path, padding, args, environment)) == Some(args) <==> args[0] != []
  {
    var tail := Terminated(args) + environment;
    ReadsPastThePadding(path, padding, |args|, tail);
    if args[0] != [] {
      assert tail[0] == args[0][0];
      ArgumentsComeBack(args, environment);
    }
  }

  lemma {:induction false} SplittingUndoesTerminating(args: seq<Bytes>)
    requires args != [] && forall i :: 0 <= i < |args| ==> NulFree(args[i])
    ensures Terminated(args) != [] && Terminated(args)[|Terminated(args)| - 1] == NUL
    ensures SplitAtNuls(Terminated(args)[..|Terminated(args)| - 1]) == args
  {
    if |args| == 1 {
      assert Terminated(args) == args[0] + [NUL] + Terminated([]);
      assert Terminated(args)[..|Terminated(args)| - 1] == args[0];
      SplitNulFree(args[0]);
    } else {
      SplittingUndoesTerminating(args[1..]);
      var more := Terminated(args[1..]);
      assert Terminated(args)[..|Terminated(args)| - 1] == args[0] + [NUL] + more[..|more| - 1];
      SplitFirst(args[0], more[..|more| - 1]);
    }
  }

  lemma {:induction false} SplitNulFree(s: Bytes)
    requires NulFree(s)
    ensures SplitAtNuls(s) == [s]
  {
    if s != [] {
      SplitNulFree(s[1..]);
      assert [s[0]] + s[1..] == s;
    }
  }

  lemma {:induction false} SplitFirst(s: Bytes, rest: Bytes)
    requires NulFree(s)
    ensures SplitAtNuls(s + [NUL] + rest) == [s] + SplitAtNuls(rest)
  {
    var whole := s + [NUL] + rest;
    if s == [] {
      assert whole[1..] == rest;
    } else {
      assert whole[1..] == s[1..] + [NUL] + rest;
      SplitFirst(s[1..], rest);
      assert [s[0]] + s[1..] == s;
    }
  }

  /** The Linux reader recovers the arguments from their terminated form exactly when the first is not empty. */
  lemma LinuxRecovers(args: seq<Bytes>)
    requires AreArguments(args)
    ensures LinuxArgv(Terminated(args)) == Some(args) <==> args[0] != []
    ensures args[0] == [] ==> LinuxArgv(Terminated(args)) == None
  {
    SplittingUndoesTerminating(args);
  }

  /** Both readers give the same arguments for the same process. */
  lemma ReadersAgree(path: Bytes, padding: nat, args: seq<Bytes>, environment: Bytes)
    requires AreArguments(args) && NulFree(path) && args[0] != []
    ensures DarwinArgv(Layout(path, padding, args, environment)) == LinuxArgv(Terminated(args)) == Some(args)
  {
    DarwinRecovers(path, padding, args, environment);
    LinuxRecovers(args);
  }

  // ----- buffers that are not as laid out -----

  /** A buffer is read at all only if its count is from 1 to 1024: neither four zeros, nor 1025 or more. */
  lemma CountsHaveBounds(buf: Bytes)
    ensures |buf| < 4 ==> DarwinArgv(buf) == None
    ensures |buf| >= 4 && buf[..4] == [0, 0, 0, 0] ==> DarwinArgv(buf) == None
    ensures |buf| >= 4 && (buf[3] > 0 || buf[2] > 0 || buf[1] > 4 || (buf[1] == 4 && buf[0] > 0)) ==>
              DarwinArgv(buf) == None
  {
    if |buf| >= 4 && buf[..4] == [0, 0, 0, 0] {
      assert buf[0] == buf[..4][0] && buf[1] == buf[..4][1] && buf[2] == buf[..4][2] && buf[3] == buf[..4][3];
    }
  }

  lemma {:induction false} TheLastMayEndTheBuffer(args: seq<Bytes>, last: Bytes)
    requires NulFree(last) && last != [] && forall i :: 0 <= i < |args| ==> NulFree(args[i])
    ensures Arguments(Terminated(args) + last, |args| + 1) == args + [last]
  {
    hide NulFree;
    if args == [] {
      FirstNulEndsIt(last, []);
      assert Terminated([]) + last == last;
    } else {
      hide IndexNul;
      var more := Terminated(args[1..]) + last;
      assert Terminated(args) + last == args[0] + [NUL] + more;
      OneArgument(args[0], more, |args|);
      TheLastMayEndTheBuffer(args[1..], last);
      assert args + [last] == [args[0]] + (args[1..] + [last]);
    }
  }

  /** A buffer cut off before the NUL of the last argument still gives them all. */
  lemma DarwinRecoversCutBuffers(path: Bytes, padding: nat, args: seq<Bytes>, last: Bytes)
    requires AreArguments(args + [last]) && NulFree(path) && last != [] && (args + [last])[0] != []
    ensures DarwinArgv(CountBytes(|args| + 1) + (path + [NUL] + (seq(padding, i => NUL) + (Terminated(args) + last))))
            == Some(args + [last])
  {
    var tail := Terminated(args) + last;
    ReadsPastThePadding(path, padding, |args| + 1, tail);
    assert tail[0] == if args == [] then last[0] else args[0][0];
    assert NulFree((args + [last])[0]);
    assert SkipNuls(tail) == tail;
    hide DarwinArgv, Arguments, Terminated, SkipNuls, CountBytes, NulFree;
    forall i | 0 <= i < |args| ensures NulFree(args[i]) {
      assert (args + [last])[i] == args[i];
    }
    assert NulFree((args + [last])[|args|]);
    TheLastMayEndTheBuffer(args, last);
  }
}
