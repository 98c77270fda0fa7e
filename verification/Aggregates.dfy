/** Counting and maxima: the aggregate queries that number new rows and bound watermarks. */
module Aggregates {

  /** SQL's `COALESCE(MAX(seq), 0)`. */
  ghost function MaxOf(seqs: set<nat>): (m: nat)
    ensures forall n :: n in seqs ==> n <= m
    ensures seqs != {} ==> m in seqs
    ensures seqs == {} ==> m == 0
  {
    if seqs == {} then 0
    else
      var n :| n in seqs;
      assert forall k :: k in seqs ==> k == n || k in seqs - {n};
      var rest := MaxOf(seqs - {n});
      if rest > n then rest else n
  }

  lemma {:induction false} SmallerSubset<T>(a: set<T>, b: set<T>)
    requires a <= b
    ensures |a| <= |b| && (|a| == |b| ==> a == b)
  {
    if a != {} {
      var x :| x in a;
      SmallerSubset(a - {x}, b - {x});
    }
  }

  lemma MaxOfLarger(a: set<nat>, b: set<nat>)
    requires a <= b
    ensures MaxOf(a) <= MaxOf(b)
  {
  }

  lemma MaxOfIs(seqs: set<nat>, m: nat)
    requires forall n :: n in seqs ==> n <= m
    requires if seqs == {} then m == 0 else m in seqs
    ensures m == MaxOf(seqs)
  {
  }

  /** `COALESCE(MAX(...), 0)`. */
  method Maximum(seqs: set<nat>) returns (m: nat)
    ensures m == MaxOf(seqs)
  {
    m := 0;
    var todo := seqs;
    while todo != {}
      invariant todo <= seqs
      invariant forall n :: n in seqs && n !in todo ==> n <= m
      invariant m == 0 || m in seqs
      decreases todo
    {
      var n: nat :| n in todo;
      if n > m {
        m := n;
      }
      todo := todo - {n};
    }
    if m == 0 && seqs != {} {
      var n :| n in seqs;
      assert n !in todo;
    }
    MaxOfIs(seqs, m);
  }
}
