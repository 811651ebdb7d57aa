/** Generic sequence notions shared by the rest of the model: an optional
    value (a file read that may fail), subsequences (order-preserving
    selection) and counting the elements that satisfy a test. */
module Seqs {

  datatype Option<T> = None | Some(value: T)

  /** `s` can be obtained from `t` by deleting elements, keeping order. */
  predicate IsSubsequence<T(==)>(s: seq<T>, t: seq<T>)
    decreases |t|
  {
    if s == [] then true
    else if t == [] then false
    else if s[0] == t[0] then IsSubsequence(s[1..], t[1..])
    else IsSubsequence(s, t[1..])
  }

  /** A subsequence keeps no element that the sequence does not hold. */
  lemma {:induction false} SubsequenceElements<T>(s: seq<T>, t: seq<T>, x: T)
    requires IsSubsequence(s, t) && x in s
    ensures x in t
    decreases |t|
  {
    if s[0] == t[0] {
      if x != s[0] {
        assert x in s[1..];
        SubsequenceElements(s[1..], t[1..], x);
      }
    } else {
      SubsequenceElements(s, t[1..], x);
    }
  }

  /** A selection from `t` is also a selection from `[x] + t`. */
  lemma SubsequenceSkip<T>(s: seq<T>, t: seq<T>, x: T)
    requires IsSubsequence(s, t) && x !in s
    ensures IsSubsequence(s, [x] + t)
  {
    assert ([x] + t)[1..] == t;
  }

  /** Putting `x` in front of a selection when `p` holds: the result is a
      selection from `[x] + t`, holds `x` exactly when `p` holds, holds
      every other element exactly when the selection did, and stays free of
      duplicates. */
  lemma PrependIf<T>(p: bool, x: T, s: seq<T>, t: seq<T>)
    requires IsSubsequence(s, t) && Distinct(s) && x !in s
    ensures var r := (if p then [x] else []) + s;
      IsSubsequence(r, [x] + t) && Distinct(r) && (x in r <==> p) &&
      (forall y :: y != x ==> (y in r <==> y in s))
  {
    var r := (if p then [x] else []) + s;
    if p {
      assert r[0] == x && r[1..] == s && ([x] + t)[1..] == t;
      forall i, j | 0 <= i < j < |r|
        ensures r[i] != r[j]
      {
        assert r[j] == s[j - 1];
        if i > 0 {
          assert r[i] == s[i - 1];
        }
      }
    } else {
      assert r == s;
      SubsequenceSkip(s, t, x);
    }
  }

  /** The first elements of `[o] + m + [c]`: `o` and a prefix of `m`. */
  lemma FramedPrefix<T>(o: T, m: seq<T>, c: T, j: nat)
    requires j <= |m|
    ensures ([o] + m + [c])[..j + 1] == [o] + m[..j]
  {
    var b := [o] + m + [c];
    assert |b[..j + 1]| == j + 1;
    forall i | 0 <= i < j + 1
      ensures b[..j + 1][i] == ([o] + m[..j])[i]
    {
      if i > 0 {
        assert b[i] == m[i - 1];
      }
    }
  }

  /** The number of elements of `s` for which `f` holds. */
  function CountWhere<T>(s: seq<T>, f: T -> bool): (n: nat)
    ensures n <= |s|
    decreases |s|
  {
    if s == [] then 0
    else CountWhere(s[..|s| - 1], f) + (if f(s[|s| - 1]) then 1 else 0)
  }

  /** Counting distributes over concatenation. */
  lemma {:induction false} CountWhereAppend<T>(a: seq<T>, b: seq<T>, f: T -> bool)
    ensures CountWhere(a + b, f) == CountWhere(a, f) + CountWhere(b, f)
    decreases |b|
  {
    if b == [] {
      assert a + b == a;
    } else {
      var b' := b[..|b| - 1];
      assert (a + b)[..|a + b| - 1] == a + b';
      CountWhereAppend(a, b', f);
    }
  }

  /** Counting over a single element. */
  lemma CountWhereSingle<T>(x: T, f: T -> bool)
    ensures CountWhere([x], f) == if f(x) then 1 else 0
  {
    assert [x][..0] == [];
  }

  /** Counting over three elements. */
  lemma CountWhere3<T>(a: T, b: T, c: T, f: T -> bool)
    ensures CountWhere([a] + [b] + [c], f)
      == (if f(a) then 1 else 0) + (if f(b) then 1 else 0) + (if f(c) then 1 else 0)
  {
    CountWhereAppend([a] + [b], [c], f);
    CountWhereAppend([a], [b], f);
    CountWhereSingle(a, f);
    CountWhereSingle(b, f);
    CountWhereSingle(c, f);
  }

  /** A prefix never counts more than the whole. */
  lemma CountWherePrefix<T>(s: seq<T>, j: nat, f: T -> bool)
    requires j <= |s|
    ensures CountWhere(s[..j], f) <= CountWhere(s, f)
  {
    assert s == s[..j] + s[j..];
    CountWhereAppend(s[..j], s[j..], f);
  }

  /** No element satisfies `f` exactly when the count is zero. */
  lemma {:induction false} CountWhereZero<T>(s: seq<T>, f: T -> bool)
    ensures CountWhere(s, f) == 0 <==> forall i :: 0 <= i < |s| ==> !f(s[i])
    decreases |s|
  {
    if s != [] {
      var s' := s[..|s| - 1];
      CountWhereZero(s', f);
      assert forall i :: 0 <= i < |s'| ==> s'[i] == s[i];
    }
  }

  /** No element occurs twice. */
  predicate Distinct<T(==)>(s: seq<T>)
  {
    forall i, j :: 0 <= i < j < |s| ==> s[i] != s[j]
  }
}
