/**
 The three array operations the bookkeeping code relies on, stated over
 Dafny sequences: `findIndex` by record id, `splice(i, 1)` and a
 `reduce` that adds up one numeric field of every record.
 */
module Seqs {

  datatype Option<T> = None | Some(value: T)

  /* True iff no element of `s` has key `k`. */
  predicate Absent<T>(s: seq<T>, key: T -> string, k: string)
  {
    forall j | 0 <= j < |s| :: key(s[j]) != k
  }

  /* True iff `i` is the index `findIndex` answers with: the first element
     of `s` whose key is `k`. */
  predicate IsFirst<T>(s: seq<T>, key: T -> string, k: string, i: int)
  {
    && 0 <= i < |s|
    && key(s[i]) == k
    && forall j | 0 <= j < i :: key(s[j]) != k
  }

  /* `Array.prototype.findIndex(x => key(x) === k)`, with `None` standing for
     the answer -1. */
  function FindFirst<T>(s: seq<T>, key: T -> string, k: string): (r: Option<nat>)
    ensures r.None? <==> Absent(s, key, k)
    ensures r.Some? ==> IsFirst(s, key, k, r.value)
    ensures forall i | IsFirst(s, key, k, i) :: r == Some(i)
  {
    if |s| == 0 then None
    else if key(s[0]) == k then Some(0)
    else
      match FindFirst(s[1..], key, k)
      case None =>
        assert forall j | 1 <= j < |s| :: s[j] == s[1..][j - 1];
        None
      case Some(i) =>
        assert forall j | 1 <= j <= i + 1 :: s[j] == s[1..][j - 1];
        assert forall m | IsFirst(s, key, k, m) :: IsFirst(s[1..], key, k, m - 1);
        Some(i + 1)
  }

  /* `splice(i, 1)`: the sequence without its element at `i`. */
  function RemoveAt<T>(s: seq<T>, i: nat): (r: seq<T>)
    requires i < |s|
    ensures |r| == |s| - 1
    ensures forall j | 0 <= j < i :: r[j] == s[j]
    ensures forall j | i <= j < |r| :: r[j] == s[j + 1]
    ensures multiset(r) + multiset{s[i]} == multiset(s)
  {
    assert s == s[..i] + [s[i]] + s[i + 1..];
    s[..i] + s[i + 1..]
  }

  /* `s.reduce((sum, x) => sum + amount(x), 0)`: a left fold, so the last
     element is added last. */
  function Sum<T>(s: seq<T>, amount: T -> int): int
  {
    if |s| == 0 then 0 else Sum(s[..|s| - 1], amount) + amount(s[|s| - 1])
  }

  /* Appending one record raises the sum by exactly its amount. */
  lemma SumAppend<T>(s: seq<T>, x: T, amount: T -> int)
    ensures Sum(s + [x], amount) == Sum(s, amount) + amount(x)
  {
    assert (s + [x])[..|s|] == s;
  }

  /* The fold distributes over concatenation. */
  lemma {:induction false} SumConcat<T>(a: seq<T>, b: seq<T>, amount: T -> int)
    ensures Sum(a + b, amount) == Sum(a, amount) + Sum(b, amount)
    decreases |b|
  {
    if |b| == 0 {
      assert a + b == a;
    } else {
      var b' := b[..|b| - 1];
      assert a + b == (a + b') + [b[|b| - 1]];
      SumConcat(a, b', amount);
      SumAppend(a + b', b[|b| - 1], amount);
      SumAppend(b', b[|b| - 1], amount);
      assert b' + [b[|b| - 1]] == b;
    }
  }

  /* Removing the record at `i` lowers the sum by exactly its amount. */
  lemma SumRemoveAt<T>(s: seq<T>, i: nat, amount: T -> int)
    requires i < |s|
    ensures Sum(RemoveAt(s, i), amount) == Sum(s, amount) - amount(s[i])
  {
    assert s == s[..i] + ([s[i]] + s[i + 1..]);
    SumConcat(s[..i], [s[i]] + s[i + 1..], amount);
    SumConcat([s[i]], s[i + 1..], amount);
    SumConcat(s[..i], s[i + 1..], amount);
    assert Sum([s[i]], amount) == amount(s[i]) by {
      assert [s[i]][..0] == [];
    }
  }
}
