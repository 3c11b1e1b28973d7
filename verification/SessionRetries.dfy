/** How a client tries again: which outcome counts, and how long it pauses. */
module SessionRetries {
  import opened Prelude
  import opened Gateways
  import opened Cooldowns
  import opened SessionLoop

  // ----- the same gateway -----

  /** The pause after the k-th refusal of one gateway: a second, doubling, and thirty seconds from the sixth on. */
  function Pause(k: nat): nat {
    if k < 5 then [1_000, 2_000, 4_000, 8_000, 16_000][k] else 30_000
  }

  /** When the k-th registration with one gateway is answered. */
  function AnsweredAt(now: int, tries: seq<Registration>, k: nat): int
    requires k < |tries|
  {
    if k == 0 then now + tries[0].took else AnsweredAt(now, tries, k - 1) + Pause(k - 1) + tries[k].took
  }

  /** The k-th registration is the first that is not to be tried again. */
  predicate Settles(tries: seq<Registration>, k: nat) {
    k < |tries| && !tries[k].outcome.Retryable? && forall j :: 0 <= j < k ==> tries[j].outcome.Retryable?
  }

  /** Retrying from the k-th registration on, with the pause that belongs there. */
  lemma {:induction false} RetriedFrom(c: Client, tries: seq<Registration>, k: nat, now: int)
    requires k < |tries| && forall j :: 0 <= j < k ==> tries[j].outcome.Retryable?
    requires c.now == if k == 0 then now else AnsweredAt(now, tries, k - 1) + Pause(k - 1)
    ensures var r := Retried(c, tries[k..], Pause(k));
            && (forall l: nat :: Settles(tries, l) ==>
                  r.outcome == tries[l].outcome && r.client.now == AnsweredAt(now, tries, l))
            && ((forall l: nat :: !Settles(tries, l)) ==> r.outcome == Retryable)
    decreases |tries| - k
  {
    assert tries[k..][0] == tries[k] && tries[k..][1..] == tries[k + 1..];
    var asked := Advance(c, tries[k].took);
    assert asked.now == AnsweredAt(now, tries, k);
    if tries[k].outcome.Retryable? {
      if k + 1 < |tries| {
        RetriedFrom(Advance(asked, Pause(k)), tries, k + 1, now);
      } else {
        assert tries[k + 1..] == [];
      }
    } else {
      assert Settles(tries, k);
    }
  }

  /** A client that keeps its gateway registers with it until an answer is not one to try again on, which decides,
      and pauses 1, 2, 4, 8, 16 and then 30 s in between; it gives up only when the user stops it. */
  lemma RetriesPauseAndSettle(c: Client, tries: seq<Registration>)
    ensures var r := Retried(c, tries, SAME_GATEWAY_RETRY_BACKOFF);
            && (forall k: nat :: Settles(tries, k) ==>
                  r.outcome == tries[k].outcome && r.client.now == AnsweredAt(c.now, tries, k))
            && ((forall k: nat :: !Settles(tries, k)) ==> r.outcome == Retryable)
            && r.client == c.(now := r.client.now)
  {
    if tries != [] {
      assert tries[0..] == tries;
      RetriedFrom(c, tries, 0, c.now);
    }
  }
}
