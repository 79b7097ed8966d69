/**
 * Orderings of integer sequences, used for the constant tables: a strictly
 * increasing sequence has pairwise distinct members, and a table keyed that
 * way needs only its neighbours compared.
 */
module Order {

  predicate Increasing(s: seq<int>)
  {
    forall i :: 0 <= i < |s| - 1 ==> s[i] < s[i + 1]
  }

  lemma {:induction false} IncreasingPairwise(s: seq<int>, i: int, j: int)
    requires Increasing(s) && 0 <= i < j < |s|
    ensures s[i] < s[j]
  {
    if j > i + 1 {
      IncreasingPairwise(s, i, j - 1);
    }
  }

  /** Strictly increasing members are pairwise distinct. */
  lemma IncreasingDistinct(s: seq<int>)
    requires Increasing(s)
    ensures forall i, j :: 0 <= i < |s| && 0 <= j < |s| && i != j ==> s[i] != s[j]
  {
    forall i, j | 0 <= i < |s| && 0 <= j < |s| && i != j
      ensures s[i] != s[j]
    {
      if i < j {
        IncreasingPairwise(s, i, j);
      } else {
        IncreasingPairwise(s, j, i);
      }
    }
  }

  /** Two increasing runs joined in order make one. */
  lemma IncreasingAppend(a: seq<int>, b: seq<int>)
    requires Increasing(a) && Increasing(b)
    requires |a| == 0 || |b| == 0 || a[|a| - 1] < b[0]
    ensures Increasing(a + b)
  {
    forall i | 0 <= i < |a + b| - 1
      ensures (a + b)[i] < (a + b)[i + 1]
    {
      if i + 1 < |a| {
        assert (a + b)[i] == a[i] && (a + b)[i + 1] == a[i + 1];
      } else if i + 1 == |a| {
        assert (a + b)[i] == a[i] && (a + b)[i + 1] == b[0];
      } else {
        assert (a + b)[i] == b[i - |a|] && (a + b)[i + 1] == b[i + 1 - |a|];
      }
    }
  }
}
