/** The rotating log: a bounded set of files that reads as one append-only stream. */
module RotatingLog {
  import opened Prelude

  type Bytes = seq<bv8>

  /** The live file, its numbered generations (higher is older), and whatever else the directory holds. */
  datatype Path = Live | Generation(n: nat) | Other(name: string)

  const DEFAULT_LOG_MAX_BYTES := 8 * 1024 * 1024

  // ----- what rotation does to a directory -----

  /** The file that takes a path's place when the generations shift. */
  function Source(p: Path, generations: nat): Option<Path> {
    match p
    case Live => None
    case Other(_) => Some(p)
    case Generation(n) =>
      if n == 1 && generations >= 1 then Some(Live)
      else if 2 <= n <= generations then Some(Generation(n - 1))
      else Some(p)
  }

  function Next(p: Path): Path {
    match p
    case Live => Generation(1)
    case Other(_) => p
    case Generation(n) => Generation(n + 1)
  }

  /** The directory once every file moved one generation on; gaps move with their neighbours. */
  function Shifted<T>(files: map<Path, T>, generations: nat): (shifted: map<Path, T>)
    ensures forall p :: p in shifted <==> Source(p, generations).Some? && Source(p, generations).value in files
    ensures forall p :: p in shifted ==> shifted[p] == files[Source(p, generations).value]
  {
    var moved := set p | p in files :: Next(p);
    assert forall p :: p in files ==> Next(p) in moved;
    map p | p in files.Keys + moved && Source(p, generations).Some? && Source(p, generations).value in files
      :: files[Source(p, generations).value]
  }

  function At<T>(files: map<Path, seq<T>>, p: Path): seq<T> {
    if p in files then files[p] else []
  }

  /** Whether a write of this length has to go to a fresh file. */
  predicate MustRotate(size: nat, length: nat, maxBytes: nat) {
    size > 0 && size + length > maxBytes
  }

  function Rotated<T>(files: map<Path, seq<T>>, generations: nat): map<Path, seq<T>> {
    Shifted(files, generations)[Live := []]
  }

  /** The directory after a client opened the log: what an earlier run left is a generation now. */
  function Opened(files: map<Path, Bytes>, generations: nat): map<Path, Bytes> {
    if At(files, Live) != [] then Rotated(files, generations) else files[Live := At(files, Live)]
  }

  function Appended(files: map<Path, Bytes>, data: Bytes, maxBytes: nat, generations: nat): map<Path, Bytes> {
    var ready := if MustRotate(|At(files, Live)|, |data|, maxBytes) then Rotated(files, generations) else files;
    ready[Live := At(ready, Live) + data]
  }

  // ----- the code -----

  class Directory {
    var files: map<Path, Bytes>

    method Remove(p: Path)
      modifies this
      ensures files == old(files) - {p}
    {
      files := files - {p};
    }

    /** Renaming a file that does not exist changes nothing: the caller overlooks that error. */
    method Rename(from: Path, to: Path)
      requires from != to
      modifies this
      ensures files == if from in old(files) then (old(files) - {from})[to := old(files)[from]] else old(files)
    {
      if from in files {
        files := (files - {from})[to := files[from]];
      }
    }

    method Append(p: Path, data: Bytes)
      modifies this
      ensures files == old(files)[p := At(old(files), p) + data]
    {
      files := files[p := At(files, p) + data];
    }

    /** Shift live -> 1 -> 2 -> ..., discarding the oldest. */
    method RotateGenerations(generations: nat)
      modifies this
      ensures files == Shifted(old(files), generations)
    {
      if generations == 0 {
        Remove(Live);
        return;
      }
      Remove(Generation(generations));
      var i := generations - 1;
      while i >= 1
        invariant 0 <= i < generations
        invariant HalfShifted(old(files), files, i, generations)
      {
        ghost var now := files;
        Rename(Generation(i), Generation(i + 1));
        OneMoreShifted(old(files), now, files, i, generations);
        i := i - 1;
      }
      ghost var now := files;
      Rename(Live, Generation(1));
      AllShifted(old(files), now, files, generations);
    }

    /** Rotate a log an earlier run left behind, if there is anything in it. */
    method RotateFile(generations: nat)
      modifies this
      ensures files == if At(old(files), Live) != [] then Shifted(old(files), generations) else old(files)
    {
      if Live !in files || |files[Live]| == 0 {
        return;
      }
      RotateGenerations(generations);
    }
  }

  ghost predicate Renamed(now: map<Path, Bytes>, renamed: map<Path, Bytes>, from: Path, to: Path) {
    renamed == if from in now then (now - {from})[to := now[from]] else now
  }

  lemma OneMoreShifted(before: map<Path, Bytes>, now: map<Path, Bytes>, after: map<Path, Bytes>, i: nat,
      generations: nat)
    requires 1 <= i < generations && HalfShifted(before, now, i, generations)
    requires Renamed(now, after, Generation(i), Generation(i + 1))
    ensures HalfShifted(before, after, i - 1, generations)
  {
    forall p: Path
      ensures p in after <==>
          if InTransit(p, i - 1, generations) then Source(p, generations).value in before
          else p in before && p != Generation(i)
      ensures p in after ==>
          after[p] == if InTransit(p, i - 1, generations) then before[Source(p, generations).value] else before[p]
    {
      assert InTransit(p, i - 1, generations) == (InTransit(p, i, generations) || p == Generation(i + 1));
    }
  }

  lemma AllShifted(before: map<Path, Bytes>, now: map<Path, Bytes>, after: map<Path, Bytes>, generations: nat)
    requires 1 <= generations && HalfShifted(before, now, 0, generations)
    requires Renamed(now, after, Live, Generation(1))
    ensures after == Shifted(before, generations)
  {
    var shifted := Shifted(before, generations);
    forall p: Path
      ensures p in after <==> p in shifted
      ensures p in after ==> after[p] == shifted[p]
    {
      assert InTransit(p, 0, generations) ==> (p in now <==> Source(p, generations).value in before);
    }
  }

  /** The generations above i have moved on, and the place above i is free. */
  ghost predicate HalfShifted(before: map<Path, Bytes>, now: map<Path, Bytes>, i: nat, generations: nat) {
    && (forall p :: p in now <==>
          if InTransit(p, i, generations) then Source(p, generations).value in before
          else p in before && p != Generation(i + 1))
    && (forall p :: p in now ==>
          now[p] == if InTransit(p, i, generations) then before[Source(p, generations).value] else before[p])
  }

  ghost predicate InTransit(p: Path, i: nat, generations: nat)
    ensures InTransit(p, i, generations) ==> Source(p, generations).Some?
  {
    p.Generation? && i + 2 <= p.n <= generations
  }

  class RotatingFile {
    const dir: Directory
    const maxBytes: nat
    const generations: nat
    var isOpen: bool
    var size: nat

    ghost predicate Valid()
      reads this, dir
    {
      isOpen ==> Live in dir.files && size == |dir.files[Live]|
    }

    constructor Open(dir: Directory, maxBytes: int, generations: int)
      modifies dir
      ensures Valid() && isOpen && this.dir == dir
      ensures this.maxBytes == if maxBytes <= 0 then 8_388_608 else maxBytes
      ensures this.generations == if generations < 0 then 0 else generations
      ensures dir.files == Opened(old(dir.files), this.generations)
    {
      this.dir := dir;
      this.maxBytes := if maxBytes <= 0 then DEFAULT_LOG_MAX_BYTES else maxBytes;
      this.generations := if generations < 0 then 0 else generations;
      this.isOpen := true;
      this.size := 0;
      new;
      dir.RotateFile(this.generations);
      Reopen();
    }

    /** Open the live file for appending, creating it if need be. */
    method Reopen()
      modifies this, dir
      ensures Valid() && isOpen
      ensures dir.files == old(dir.files)[Live := At(old(dir.files), Live)]
    {
      dir.Append(Live, []);
      assert At(old(dir.files), Live) + [] == At(old(dir.files), Live);
      isOpen, size := true, |dir.files[Live]|;
    }

    /** Append data, rotating first if it would take the file past its cap. */
    method Write(data: Bytes) returns (written: Option<nat>)
      requires Valid()
      modifies this, dir
      ensures Valid() && isOpen == old(isOpen)
      ensures old(isOpen) ==>
                written == Some(|data|) && dir.files == Appended(old(dir.files), data, maxBytes, generations)
      ensures !old(isOpen) ==> written == None && dir.files == old(dir.files)
    {
      if !isOpen {
        return None;
      }
      if size > 0 && size + |data| > maxBytes {
        dir.RotateGenerations(generations);
        Reopen();
      }
      dir.Append(Live, data);
      size := size + |data|;
      return Some(|data|);
    }

    method Close()
      modifies this
      ensures !isOpen && Valid()
    {
      isOpen := false;
    }
  }

  // ----- the stream -----

  /** The generations up to n, oldest first. */
  function Older<T>(files: map<Path, seq<T>>, n: nat): seq<T> {
    if n == 0 then [] else At(files, Generation(n)) + Older(files, n - 1)
  }

  /** Everything the log still holds, oldest first. */
  function Held<T>(files: map<Path, seq<T>>, generations: nat): seq<T> {
    Older(files, generations) + At(files, Live)
  }

  ghost predicate IsSuffix<T(!new)>(s: seq<T>, whole: seq<T>) {
    exists lost: seq<T> :: whole == lost + s
  }

  /** Where the content of each file comes from when the log rotates. */
  lemma AtRotated<T>(files: map<Path, seq<T>>, generations: nat, p: Path)
    ensures p == Live ==> At(Rotated(files, generations), p) == []
    ensures p != Live ==> At(Rotated(files, generations), p) == At(files, Source(p, generations).value)
  {
  }

  lemma {:induction false} RotatedOlder<T>(files: map<Path, seq<T>>, n: nat, generations: nat)
    requires n < generations
    ensures Older(Rotated(files, generations), n + 1) == Older(files, n) + At(files, Live)
  {
    hide Rotated, At;
    AtRotated(files, generations, Generation(n + 1));
    if n == 0 {
      assert Older(Rotated(files, generations), 0) == [];
    } else {
      RotatedOlder(files, n - 1, generations);
    }
  }

  /** Rotating loses the oldest generation and nothing else; with no generations, the live file. */
  lemma RotationDropsTheOldest<T>(files: map<Path, seq<T>>, generations: nat)
    ensures Held(files, generations) ==
            At(files, if generations == 0 then Live else Generation(generations))
            + Held(Rotated(files, generations), generations)
  {
    hide Rotated, At;
    AtRotated(files, generations, Live);
    if generations > 0 {
      RotatedOlder(files, generations - 1, generations);
    } else {
      assert Older(files, 0) == Older(Rotated(files, 0), 0) == [];
    }
  }

  /** No other file is touched, and no generation beyond the kept ones. */
  lemma RotationSparesOthers<T>(files: map<Path, seq<T>>, generations: nat, p: Path)
    requires p.Other? || (p.Generation? && (p.n == 0 || p.n > generations))
    ensures p in Rotated(files, generations) <==> p in files
    ensures p in files ==> Rotated(files, generations)[p] == files[p]
  {
  }

  lemma {:induction false} SameOlder<T>(a: map<Path, seq<T>>, b: map<Path, seq<T>>, n: nat)
    requires forall k :: 1 <= k <= n ==> At(a, Generation(k)) == At(b, Generation(k))
    ensures Older(a, n) == Older(b, n)
  {
    if n > 0 {
      SameOlder(a, b, n - 1);
    }
  }

  // ----- runs: clients come and go, and write -----

  datatype Step = Open | Write(data: Bytes)

  function After(files: map<Path, Bytes>, step: Step, maxBytes: nat, generations: nat): map<Path, Bytes> {
    match step
    case Open => Opened(files, generations)
    case Write(data) => Appended(files, data, maxBytes, generations)
  }

  function Run(files: map<Path, Bytes>, steps: seq<Step>, maxBytes: nat, generations: nat): map<Path, Bytes> {
    if steps == [] then files
    else After(Run(files, steps[..|steps| - 1], maxBytes, generations), steps[|steps| - 1], maxBytes, generations)
  }

  /** What the steps wrote, one entry a write. */
  function Writes(steps: seq<Step>): seq<Bytes> {
    if steps == [] then []
    else Writes(steps[..|steps| - 1]) + Written(steps[|steps| - 1])
  }

  function Written(step: Step): seq<Bytes> {
    match step
    case Open => []
    case Write(data) => [data]
  }

  /** The directory with each file cut into the pieces it was written in; what a file held before the run is
      one piece. */
  type Pieces = map<Path, seq<Bytes>>

  ghost predicate Assemble(pieces: Pieces, files: map<Path, Bytes>) {
    && (forall p :: p in pieces <==> p in files)
    && (forall p :: p in pieces ==> files[p] == Flatten(pieces[p]))
  }

  function AfterPieces(pieces: Pieces, files: map<Path, Bytes>, step: Step, maxBytes: nat, generations: nat): Pieces {
    match step
    case Open =>
      if At(files, Live) != [] then Rotated(pieces, generations) else pieces[Live := At(pieces, Live)]
    case Write(data) =>
      var ready := if MustRotate(|At(files, Live)|, |data|, maxBytes) then Rotated(pieces, generations) else pieces;
      ready[Live := At(ready, Live) + [data]]
  }

  lemma RotatedAssembles(pieces: Pieces, files: map<Path, Bytes>, generations: nat)
    requires Assemble(pieces, files)
    ensures Assemble(Rotated(pieces, generations), Rotated(files, generations))
  {
    assert Flatten<bv8>([]) == [];
  }

  lemma AppendedAssembles(pieces: Pieces, files: map<Path, Bytes>, data: Bytes)
    requires Assemble(pieces, files)
    ensures Assemble(pieces[Live := At(pieces, Live) + [data]], files[Live := At(files, Live) + data])
    ensures Assemble(pieces[Live := At(pieces, Live)], files[Live := At(files, Live)])
  {
    FlattenSnoc(At(pieces, Live), data);
    assert Flatten<bv8>([]) == [];
  }

  lemma StepAssembles(pieces: Pieces, files: map<Path, Bytes>, step: Step, maxBytes: nat, generations: nat)
    requires Assemble(pieces, files)
    ensures Assemble(AfterPieces(pieces, files, step, maxBytes, generations), After(files, step, maxBytes, generations))
  {
    hide Assemble, Rotated, Flatten;
    RotatedAssembles(pieces, files, generations);
    AppendedAssembles(pieces, files, []);
    if step.Write? {
      AppendedAssembles(pieces, files, step.data);
      AppendedAssembles(Rotated(pieces, generations), Rotated(files, generations), step.data);
    }
  }

  /** Appending to the live file appends to the stream. */
  lemma HeldAppends<T>(files: map<Path, seq<T>>, more: seq<T>, generations: nat)
    ensures Held(files[Live := At(files, Live) + more], generations) == Held(files, generations) + more
  {
    SameOlder(files, files[Live := At(files, Live) + more], generations);
  }

  /** What a step loses, in pieces: nothing, unless it rotates. */
  function Lost(pieces: Pieces, files: map<Path, Bytes>, step: Step, maxBytes: nat, generations: nat): seq<Bytes> {
    if match step case Open => At(files, Live) != [] case Write(data) => MustRotate(|At(files, Live)|, |data|, maxBytes)
    then At(pieces, if generations == 0 then Live else Generation(generations))
    else []
  }

  lemma StepMovesTheStream(pieces: Pieces, files: map<Path, Bytes>, step: Step, maxBytes: nat, generations: nat)
    ensures Lost(pieces, files, step, maxBytes, generations)
            + Held(AfterPieces(pieces, files, step, maxBytes, generations), generations)
            == Held(pieces, generations) + Written(step)
  {
    hide Held, Rotated;
    RotationDropsTheOldest(pieces, generations);
    HeldAppends(pieces, [], generations);
    assert At(pieces, Live) + [] == At(pieces, Live);
    if step.Write? {
      HeldAppends(pieces, [step.data], generations);
      HeldAppends(Rotated(pieces, generations), [step.data], generations);
    }
  }

  // ----- the theorems -----

  /** Whole files, as the pieces of a run that starts now. */
  function Uncut(files: map<Path, Bytes>): Pieces {
    map p | p in files :: [files[p]]
  }

  /** The live file is within the cap, or it is a single oversized write. */
  ghost predicate LiveIsBounded(files: map<Path, Bytes>, writes: seq<Bytes>, maxBytes: nat) {
    |At(files, Live)| <= maxBytes || At(files, Live) in writes
  }

  /** In every run, every file is made of whole pieces (what it held at first, or single writes) and the files,
      oldest generation to live file, hold a suffix of everything: the starting contents and all writes. */
  lemma {:induction false} LogIsASuffix(files: map<Path, Bytes>, steps: seq<Step>, maxBytes: nat, generations: nat)
    returns (pieces: Pieces)
    ensures Assemble(pieces, Run(files, steps, maxBytes, generations))
    ensures IsSuffix(Held(pieces, generations), Held(Uncut(files), generations) + Writes(steps))
  {
    hide Held, Assemble, AfterPieces, After, Lost, Written, Uncut;
    var whole := Held(Uncut(files), generations);
    if steps == [] {
      pieces := Uncut(files);
      UncutAssembles(files);
      assert whole + Writes(steps) == [] + whole;
    } else {
      var before, step := steps[..|steps| - 1], steps[|steps| - 1];
      var was := Run(files, before, maxBytes, generations);
      var cut := LogIsASuffix(files, before, maxBytes, generations);
      pieces := AfterPieces(cut, was, step, maxBytes, generations);
      StepAssembles(cut, was, step, maxBytes, generations);
      StepMovesTheStream(cut, was, step, maxBytes, generations);
      var lost :| whole + Writes(before) == lost + Held(cut, generations);
      var more := Lost(cut, was, step, maxBytes, generations);
      Longer(whole, Writes(before), Written(step), lost, more, Held(cut, generations), Held(pieces, generations));
      assert Writes(steps) == Writes(before) + Written(step);
    }
  }

  lemma Longer<T(!new)>(whole: seq<T>, writes: seq<T>, written: seq<T>, lost: seq<T>, more: seq<T>, was: seq<T>,
      held: seq<T>)
    requires whole + writes == lost + was && more + held == was + written
    ensures IsSuffix(held, whole + (writes + written))
  {
    calc {
      whole + (writes + written);
      (whole + writes) + written;
      lost + (was + written);
      lost + (more + held);
      (lost + more) + held;
    }
  }

  lemma UncutAssembles(files: map<Path, Bytes>)
    ensures Assemble(Uncut(files), files)
  {
    forall p | p in files ensures Flatten(Uncut(files)[p]) == files[p] {
      FlattenSnoc([], files[p]);
      assert [] + [files[p]] == [files[p]];
    }
  }

  lemma NothingFlattens()
    ensures Flatten<bv8>([]) == []
  {
  }

  lemma AtFlattens(pieces: Pieces, files: map<Path, Bytes>, p: Path)
    requires Assemble(pieces, files)
    ensures At(files, p) == Flatten(At(pieces, p))
  {
    NothingFlattens();
  }

  lemma {:induction false} OlderIsFlattened(pieces: Pieces, files: map<Path, Bytes>, n: nat)
    requires Assemble(pieces, files)
    ensures Older(files, n) == Flatten(Older(pieces, n))
  {
    hide Assemble, At, Flatten;
    if n == 0 {
      NothingFlattens();
    } else {
      OlderIsFlattened(pieces, files, n - 1);
      AtFlattens(pieces, files, Generation(n));
      FlattenAppends(At(pieces, Generation(n)), Older(pieces, n - 1));
    }
  }

  /** In bytes: what the log holds is always a suffix of the starting contents and all that was written. */
  lemma LogRefinesTheStream(files: map<Path, Bytes>, steps: seq<Step>, maxBytes: nat, generations: nat)
    ensures IsSuffix(Held(Run(files, steps, maxBytes, generations), generations),
                     Held(files, generations) + Flatten(Writes(steps)))
  {
    hide Run, Writes;
    var end := Run(files, steps, maxBytes, generations);
    var pieces := LogIsASuffix(files, steps, maxBytes, generations);
    HeldIsFlattened(pieces, end, generations);
    UncutAssembles(files);
    HeldIsFlattened(Uncut(files), files, generations);
    var whole := Held(Uncut(files), generations) + Writes(steps);
    var lost :| whole == lost + Held(pieces, generations);
    FlattenAppends(lost, Held(pieces, generations));
    FlattenAppends(Held(Uncut(files), generations), Writes(steps));
    assert Held(files, generations) + Flatten(Writes(steps)) == Flatten(lost) + Held(end, generations);
  }

  lemma HeldIsFlattened(pieces: Pieces, files: map<Path, Bytes>, generations: nat)
    requires Assemble(pieces, files)
    ensures Held(files, generations) == Flatten(Held(pieces, generations))
  {
    hide Assemble, At, Flatten;
    OlderIsFlattened(pieces, files, generations);
    AtFlattens(pieces, files, Live);
    FlattenAppends(Older(pieces, generations), At(pieces, Live));
  }

  /** Once a client has opened the log, its live file is within the cap or is one oversized write. */
  lemma {:induction false} LiveStaysBounded(files: map<Path, Bytes>, steps: seq<Step>, maxBytes: nat, generations: nat)
    ensures LiveIsBounded(Run(Opened(files, generations), steps, maxBytes, generations), Writes(steps), maxBytes)
  {
    hide Opened, Rotated;
    if steps == [] {
      OpeningLeavesItEmpty(files, generations);
    } else {
      var before, step := steps[..|steps| - 1], steps[|steps| - 1];
      LiveStaysBounded(files, before, maxBytes, generations);
      var was := Run(Opened(files, generations), before, maxBytes, generations);
      OpeningLeavesItEmpty(was, generations);
      AtRotated(was, generations, Live);
      assert Writes(steps) == Writes(before) + Written(step);
      if step.Write? && At(After(was, step, maxBytes, generations), Live) == step.data {
        assert Written(step)[0] == step.data;
      }
    }
  }

  lemma OpeningLeavesItEmpty(files: map<Path, Bytes>, generations: nat)
    ensures At(Opened(files, generations), Live) == []
  {
    AtRotated(files, generations, Live);
  }

  ghost predicate Used(files: map<Path, Bytes>, i: nat) {
    At(files, Generation(i)) != []
  }

  /** Generations are filled from the newest on. */
  ghost predicate NoGaps(files: map<Path, Bytes>, generations: nat) {
    forall i: nat, j: nat :: 1 <= i < j <= generations && Used(files, j) ==> Used(files, i)
  }

  ghost predicate AllUsed(files: map<Path, Bytes>, generations: nat) {
    forall i: nat :: 1 <= i <= generations ==> Used(files, i)
  }

  lemma RotatingUsesOneMore(files: map<Path, Bytes>, generations: nat)
    requires NoGaps(files, generations) && At(files, Live) != []
    ensures NoGaps(Rotated(files, generations), generations)
    ensures AllUsed(files, generations) ==> AllUsed(Rotated(files, generations), generations)
    ensures !AllUsed(Rotated(files, generations), generations) ==>
              Held(Rotated(files, generations), generations) == Held(files, generations)
  {
    hide Held, Rotated, At;
    var rotated := Rotated(files, generations);
    RotationDropsTheOldest(files, generations);
    forall i: nat | 1 <= i <= generations
      ensures Used(rotated, i) <==> i == 1 || Used(files, i - 1)
    {
      AtRotated(files, generations, Generation(i));
    }
    if generations > 0 && At(files, Generation(generations)) != [] {
      assert Used(files, generations);
      assert AllUsed(files, generations);
    }
  }

  lemma StepKeepsWhatFits(files: map<Path, Bytes>, step: Step, maxBytes: nat, generations: nat)
    requires NoGaps(files, generations)
    ensures var next := After(files, step, maxBytes, generations);
            && NoGaps(next, generations)
            && (AllUsed(files, generations) ==> AllUsed(next, generations))
            && (!AllUsed(next, generations) ==>
                  Held(next, generations) == Held(files, generations) + Flatten(Written(step)))
  {
    hide Held, Rotated, NoGaps, AllUsed;
    if At(files, Live) != [] {
      RotatingUsesOneMore(files, generations);
    }
    match step
    case Open =>
      AppendingUsesNoGeneration(files, [], generations);
      assert At(files, Live) + [] == At(files, Live);
    case Write(data) =>
      FlattenSnoc([], data);
      assert [] + [data] == [data];
      AppendingUsesNoGeneration(files, data, generations);
      AppendingUsesNoGeneration(Rotated(files, generations), data, generations);
  }

  lemma AppendingUsesNoGeneration(files: map<Path, Bytes>, data: Bytes, generations: nat)
    ensures var more := files[Live := At(files, Live) + data];
            && Held(more, generations) == Held(files, generations) + data
            && NoGaps(more, generations) == NoGaps(files, generations)
            && AllUsed(more, generations) == AllUsed(files, generations)
  {
    hide Held;
    HeldAppends(files, data, generations);
    SameUse(files[Live := At(files, Live) + data], files, generations);
  }

  lemma SameUse(a: map<Path, Bytes>, b: map<Path, Bytes>, generations: nat)
    requires forall i: nat :: At(a, Generation(i)) == At(b, Generation(i))
    ensures NoGaps(a, generations) == NoGaps(b, generations)
    ensures AllUsed(a, generations) == AllUsed(b, generations)
  {
    forall i: nat ensures Used(a, i) == Used(b, i) {
      assert At(a, Generation(i)) == At(b, Generation(i));
    }
  }

  /** Nothing is lost before it has to be: while some generation is unused, the log holds everything. */
  lemma {:induction false} NothingIsLostWhileThereIsRoom(files: map<Path, Bytes>, steps: seq<Step>, maxBytes: nat,
      generations: nat)
    requires NoGaps(files, generations)
    ensures var end := Run(files, steps, maxBytes, generations);
            && NoGaps(end, generations)
            && (!AllUsed(end, generations) ==>
                  Held(end, generations) == Held(files, generations) + Flatten(Writes(steps)))
  {
    hide Held, NoGaps, AllUsed, After;
    if steps == [] {
      assert Held(files, generations) + [] == Held(files, generations);
    } else {
      var before, step := steps[..|steps| - 1], steps[|steps| - 1];
      NothingIsLostWhileThereIsRoom(files, before, maxBytes, generations);
      StepKeepsWhatFits(Run(files, before, maxBytes, generations), step, maxBytes, generations);
      FlattenAppends(Writes(before), Written(step));
      assert Held(files, generations) + (Flatten(Writes(before)) + Flatten(Written(step)))
             == (Held(files, generations) + Flatten(Writes(before))) + Flatten(Written(step));
    }
  }
}
