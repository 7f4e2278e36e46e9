/**
 * The iteration order of a Python dict's keys, as a sequence. Inserting a new
 * key appends it; deleting a key removes it and keeps the others in place.
 */
module Order {

  /** No key occurs twice. */
  ghost predicate Distinct<T>(s: seq<T>) {
    forall i, j :: 0 <= i < j < |s| ==> s[i] != s[j]
  }

  /** `s` without `x`, the other elements in their original order: what `del d[x]`
      does to the order of `d`'s keys. */
  function Erase<T(==, !new)>(s: seq<T>, x: T): (r: seq<T>)
    ensures forall y :: y in r <==> y in s && y != x
    ensures Distinct(s) ==> Distinct(r)
    ensures |r| <= |s|
  {
    if s == [] then []
    else
      var front, last := s[..|s| - 1], s[|s| - 1];
      assert forall i :: 0 <= i < |front| ==> front[i] == s[i];
      assert Distinct(s) ==> Distinct(front) && last !in front;
      Erase(front, x) + (if last == x then [] else [last])
  }

  /** Deleting a key that is absent leaves the order as it was. */
  lemma {:induction false} EraseAbsent<T(!new)>(s: seq<T>, x: T)
    requires x !in s
    ensures Erase(s, x) == s
  {
    if s != [] {
      EraseAbsent(s[..|s| - 1], x);
      assert s[..|s| - 1] + [s[|s| - 1]] == s;
    }
  }

  /** Inserting a new key and then deleting it restores the order. */
  lemma EraseAppended<T(!new)>(s: seq<T>, x: T)
    requires x !in s
    ensures Erase(s + [x], x) == s
  {
    assert (s + [x])[..|s|] == s;
    EraseAbsent(s, x);
  }

  /** Deleting a key from one of two consecutive runs of keys: each run keeps its
      own remaining keys in their order, and the runs stay in sequence. */
  lemma {:induction false} EraseConcat<T(!new)>(a: seq<T>, b: seq<T>, x: T)
    ensures Erase(a + b, x) == Erase(a, x) + Erase(b, x)
    decreases |b|
  {
    if b == [] {
      assert a + b == a;
    } else {
      var front, last := b[..|b| - 1], b[|b| - 1];
      assert (a + b)[..|a + b| - 1] == a + front;
      assert (a + b)[|a + b| - 1] == last;
      EraseConcat(a, front, x);
    }
  }

  /** A single key is dropped exactly when it is the deleted one. */
  lemma EraseSingle<T(!new)>(y: T, x: T)
    ensures Erase([y], x) == if y == x then [] else [y]
  {
    assert [y][..0] == [];
  }
}
