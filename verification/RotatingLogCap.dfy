/** When the log rotates, and what a rotation does to each file. */
module RotatingLogCap {
  import opened Prelude
  import opened RotatingLog

  /** Every file one generation on, and this in the live one; other files and older generations as they were. */
  ghost predicate MovedOn(before: map<Path, Bytes>, after: map<Path, Bytes>, live: Bytes, generations: nat) {
    && Live in after && after[Live] == live
    && (generations > 0 ==> At(after, Generation(1)) == At(before, Live))
    && (forall n: nat :: 2 <= n <= generations ==>
          var newer := n - 1; At(after, Generation(n)) == At(before, Generation(newer)))
    && (forall n: nat :: n == 0 || n > generations ==> At(after, Generation(n)) == At(before, Generation(n)))
    && (forall name :: At(after, Other(name)) == At(before, Other(name)))
  }

  /** A write that fits under the cap, or finds the live file empty, is appended and touches nothing else; any other
      moves every file one generation on and is alone in the live one. */
  lemma WritesRotateExactly(files: map<Path, Bytes>, data: Bytes, maxBytes: nat, generations: nat)
    ensures At(files, Live) == [] || |At(files, Live)| + |data| <= maxBytes ==>
              Appended(files, data, maxBytes, generations) == files[Live := At(files, Live) + data]
    ensures At(files, Live) != [] && |At(files, Live)| + |data| > maxBytes ==>
              MovedOn(files, Appended(files, data, maxBytes, generations), data, generations)
  {
    RotatingMovesOn(files, data, generations);
  }

  lemma RotatingMovesOn(files: map<Path, Bytes>, data: Bytes, generations: nat)
    ensures MovedOn(files, Rotated(files, generations)[Live := At(Rotated(files, generations), Live) + data], data,
                    generations)
  {
    hide Rotated;
    AtRotated(files, generations, Live);
    assert [] + data == data;
    var after := Rotated(files, generations)[Live := At(Rotated(files, generations), Live) + data];
    forall n: nat ensures At(after, Generation(n)) == At(files, Source(Generation(n), generations).value) {
      AtRotated(files, generations, Generation(n));
    }
    forall name ensures At(after, Other(name)) == At(files, Other(name)) {
      AtRotated(files, generations, Other(name));
    }
  }

  /** Opening a log with content moves every file one generation on; one without is only created. */
  lemma OpeningRotatesExactly(files: map<Path, Bytes>, generations: nat)
    ensures At(files, Live) == [] ==> Opened(files, generations) == files[Live := []]
    ensures At(files, Live) != [] ==> MovedOn(files, Opened(files, generations), [], generations)
  {
    RotatingMovesOn(files, [], generations);
    AtRotated(files, generations, Live);
  }

  predicate OnlyWrites(steps: seq<Step>) {
    forall i :: 0 <= i < |steps| ==> steps[i].Write?
  }

  /** From an open log, writes that fit the cap together are all in the live file and touch no other, however many
      generations are kept. */
  lemma {:induction false} WhatFitsStaysInOneFile(files: map<Path, Bytes>, steps: seq<Step>, maxBytes: nat,
      generations: nat)
    requires Live in files && OnlyWrites(steps)
    requires |files[Live]| + |Flatten(Writes(steps))| <= maxBytes
    ensures Run(files, steps, maxBytes, generations) == files[Live := files[Live] + Flatten(Writes(steps))]
  {
    hide Rotated, Flatten;
    if steps == [] {
      NothingFlattens();
      assert files[Live] + [] == files[Live];
    } else {
      var before, data := steps[..|steps| - 1], steps[|steps| - 1].data;
      FlattenSnoc(Writes(before), data);
      assert Writes(steps) == Writes(before) + [data];
      WhatFitsStaysInOneFile(files, before, maxBytes, generations);
      WritesRotateExactly(Run(files, before, maxBytes, generations), data, maxBytes, generations);
      assert (files[Live] + Flatten(Writes(before))) + data == files[Live] + Flatten(Writes(steps));
    }
  }

  /** So a client that writes no more than its cap finds all of it in the live file, and every generation as opening
      left it. */
  lemma ASmallSessionIsOneFile(files: map<Path, Bytes>, steps: seq<Step>, maxBytes: nat, generations: nat)
    requires OnlyWrites(steps) && |Flatten(Writes(steps))| <= maxBytes
    ensures Run(Opened(files, generations), steps, maxBytes, generations) ==
            Opened(files, generations)[Live := Flatten(Writes(steps))]
  {
    assert Live in Opened(files, generations);
    hide Rotated, Flatten;
    OpeningLeavesItEmpty(files, generations);
    WhatFitsStaysInOneFile(Opened(files, generations), steps, maxBytes, generations);
    assert [] + Flatten(Writes(steps)) == Flatten(Writes(steps));
  }
}
