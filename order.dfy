/**
 * Lists the generator builds by appending optional blocks in a fixed
 * order: when each element has a rank and the ranks strictly increase,
 * no element appears twice and every element sits in its fixed place.
 */
module Order {

  /** Strictly increasing ranks. */
  predicate Ascending<T>(s: seq<T>, rank: T -> int)
  {
    forall i, j :: 0 <= i < j < |s| ==> rank(s[i]) < rank(s[j])
  }

  predicate RanksBelow<T>(s: seq<T>, rank: T -> int, k: int)
  {
    forall i :: 0 <= i < |s| ==> rank(s[i]) < k
  }

  predicate RanksFrom<T>(s: seq<T>, rank: T -> int, k: int)
  {
    forall i :: 0 <= i < |s| ==> k <= rank(s[i])
  }

  /** Appending a block whose ranks lie in [k, k2) to a list whose ranks lie in [k0, k). */
  lemma {:induction false} AscendingAppend<T>(a: seq<T>, b: seq<T>, rank: T -> int, k0: int, k: int, k2: int)
    requires Ascending(a, rank) && RanksFrom(a, rank, k0) && RanksBelow(a, rank, k)
    requires Ascending(b, rank) && RanksFrom(b, rank, k) && RanksBelow(b, rank, k2) && k0 <= k <= k2
    ensures Ascending(a + b, rank) && RanksFrom(a + b, rank, k0) && RanksBelow(a + b, rank, k2)
  {
    var s := a + b;
    forall i, j | 0 <= i < j < |s| ensures rank(s[i]) < rank(s[j]) {
      if j < |a| {
        assert s[i] == a[i] && s[j] == a[j];
      } else if i >= |a| {
        assert s[i] == b[i - |a|] && s[j] == b[j - |a|];
      } else {
        assert s[i] == a[i] && s[j] == b[j - |a|];
      }
    }
    forall i | 0 <= i < |s| ensures k0 <= rank(s[i]) < k2 {
      if i < |a| {
        assert s[i] == a[i];
      } else {
        assert s[i] == b[i - |a|];
      }
    }
  }

  /** An ascending list names nothing twice, and orders any two elements by rank. */
  lemma AscendingOrders<T>(s: seq<T>, rank: T -> int)
    requires Ascending(s, rank)
    ensures forall i, j :: 0 <= i < j < |s| ==> s[i] != s[j]
    ensures forall i, j :: 0 <= i < |s| && 0 <= j < |s| && rank(s[i]) < rank(s[j]) ==> i < j
  {
    forall i, j | 0 <= j <= i < |s| ensures rank(s[j]) <= rank(s[i]) {
      if j < i {
        assert rank(s[j]) < rank(s[i]);
      }
    }
  }
}
