/** Small vocabulary shared by every module: optional values, letter case and blanks. */
module Prelude {

  datatype Option<+T> = None | Some(value: T)

  /** ASCII lower-casing, the folding Go applies to host and region names. */
  function LowerChar(c: char): char {
    if 'A' <= c <= 'Z' then c - 'A' + 'a' else c
  }

  function Lower(s: string): string {
    seq(|s|, i requires 0 <= i < |s| => LowerChar(s[i]))
  }

  predicate EqualFold(a: string, b: string) {
    Lower(a) == Lower(b)
  }

  /** The same letter, or the other case of it. */
  predicate SameLetter(c: char, d: char) {
    c == d || ('A' <= c <= 'Z' && d as int == c as int + 32) || ('A' <= d <= 'Z' && c as int == d as int + 32)
  }

  /** Folding overlooks the case of the letters A to Z and nothing else. */
  lemma FoldingOverlooksCase(a: string, b: string)
    ensures EqualFold(a, b) <==> |a| == |b| && forall i :: 0 <= i < |a| ==> SameLetter(a[i], b[i])
  {
    if EqualFold(a, b) {
      assert |a| == |Lower(a)| == |b|;
      forall i | 0 <= i < |a| ensures SameLetter(a[i], b[i]) {
        assert Lower(a)[i] == Lower(b)[i];
      }
    }
    if |a| == |b| && forall i :: 0 <= i < |a| ==> SameLetter(a[i], b[i]) {
      assert forall i :: 0 <= i < |a| ==> Lower(a)[i] == Lower(b)[i];
    }
  }

  /** Everything a list of lists holds, end to end. */
  function Flatten<T>(parts: seq<seq<T>>): seq<T> {
    if parts == [] then [] else parts[0] + Flatten(parts[1..])
  }

  lemma {:induction false} FlattenAppends<T>(left: seq<seq<T>>, right: seq<seq<T>>)
    ensures Flatten(left + right) == Flatten(left) + Flatten(right)
  {
    if left == [] {
      assert left + right == right;
    } else {
      assert (left + right)[1..] == left[1..] + right;
      FlattenAppends(left[1..], right);
    }
  }

  lemma FlattenSnoc<T>(parts: seq<seq<T>>, last: seq<T>)
    ensures Flatten(parts + [last]) == Flatten(parts) + last
  {
    FlattenAppends(parts, [last]);
    assert Flatten([last]) == last + Flatten<T>([]);
  }

  /** A map split into the entries a loop has visited and the ones still to come. */
  ghost predicate Parted<K(!new), V>(whole: map<K, V>, rest: map<K, V>, seen: map<K, V>) {
    && (forall k :: k in whole <==> k in rest || k in seen)
    && (forall k :: k in rest ==> k !in seen && rest[k] == whole[k])
    && (forall k :: k in seen ==> seen[k] == whole[k])
  }

  lemma PartOneMore<K(!new), V>(whole: map<K, V>, rest: map<K, V>, seen: map<K, V>, k: K)
    requires Parted(whole, rest, seen) && k in rest
    ensures Parted(whole, rest - {k}, seen[k := rest[k]])
  {
  }
}
