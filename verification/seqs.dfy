/** Sequence utilities used by the table operations: boolean-mask
    selection (`Filter`, pandas' `df[mask]`), counting and summation. */
module Seqs {

  /** The elements of `s` satisfying `p`, in their original order. */
  function Filter<T(!new)>(s: seq<T>, p: T -> bool): (r: seq<T>)
    ensures |r| <= |s|
    ensures forall x :: x in r <==> x in s && p(x)
  {
    if |s| == 0 then []
    else if p(s[0]) then [s[0]] + Filter(s[1..], p)
    else Filter(s[1..], p)
  }

  /** `f` applied to every element of `s`, in order. */
  function Map<T(!new), U>(s: seq<T>, f: T --> U): (r: seq<U>)
    requires forall x :: x in s ==> f.requires(x)
    ensures |r| == |s|
    ensures forall i :: 0 <= i < |s| ==> r[i] == f(s[i])
  {
    if |s| == 0 then [] else [f(s[0])] + Map(s[1..], f)
  }

  /** Number of elements of `s` satisfying `p`. */
  function Count<T(!new)>(s: seq<T>, p: T -> bool): nat
  {
    |Filter(s, p)|
  }

  function Sum(s: seq<real>): real
  {
    if |s| == 0 then 0.0 else s[0] + Sum(s[1..])
  }

  /** Selection distributes over concatenation. */
  lemma {:induction false} FilterAppend<T(!new)>(a: seq<T>, b: seq<T>, p: T -> bool)
    ensures Filter(a + b, p) == Filter(a, p) + Filter(b, p)
  {
    if |a| == 0 {
      assert a + b == b;
    } else {
      assert (a + b)[0] == a[0];
      assert (a + b)[1..] == a[1..] + b;
      FilterAppend(a[1..], b, p);
    }
  }

  /** Selecting from a prefix yields a prefix of the selection; the next
      element is appended exactly when it satisfies `p`. */
  lemma FilterSnoc<T(!new)>(s: seq<T>, i: nat, p: T -> bool)
    requires i < |s|
    ensures Filter(s[..i+1], p) == Filter(s[..i], p) + (if p(s[i]) then [s[i]] else [])
  {
    assert s[..i+1] == s[..i] + [s[i]];
    FilterAppend(s[..i], [s[i]], p);
    assert [s[i]][1..] == [];
  }

  /** The selection of a prefix is a prefix of the selection. */
  lemma FilterPrefix<T(!new)>(s: seq<T>, i: nat, p: T -> bool)
    requires i <= |s|
    ensures Filter(s[..i], p) <= Filter(s, p)
    ensures Filter(s, p) == Filter(s[..i], p) + Filter(s[i..], p)
  {
    var front, back := s[..i], s[i..];
    assert s == front + back;
    FilterAppend(front, back, p);
    var f := Filter(front, p);
    assert Filter(s, p)[..|f|] == f;
  }

  /** A mask and its complement split a sequence without loss or duplication. */
  lemma {:induction false} FilterPartition<T(!new)>(s: seq<T>, p: T -> bool, q: T -> bool)
    requires forall x :: q(x) == !p(x)
    ensures multiset(Filter(s, p)) + multiset(Filter(s, q)) == multiset(s)
  {
    if |s| > 0 {
      FilterPartition(s[1..], p, q);
      assert s == [s[0]] + s[1..];
    }
  }

  /** When the whole sequence holds more `p`-elements than `s[..i+1]`, one
      of them lies after position `i`. */
  lemma CountBeyond<T(!new)>(s: seq<T>, i: nat, p: T -> bool)
    requires i < |s|
    requires Count(s, p) > Count(s[..i+1], p)
    ensures exists j :: i < j < |s| && p(s[j])
  {
    FilterPrefix(s, i + 1, p);
    var t := Filter(s[i+1..], p);
    assert |t| > 0;
    assert t[0] in s[i+1..] && p(t[0]);
    var k :| 0 <= k < |s[i+1..]| && s[i+1..][k] == t[0];
    assert s[i + 1 + k] == t[0];
  }

  /** Filtering preserves a strictly increasing key. */
  lemma {:induction false} FilterKeepsIncreasing<T(!new)>(s: seq<T>, key: T -> int, p: T -> bool)
    requires forall a, b :: 0 <= a < b < |s| ==> key(s[a]) < key(s[b])
    ensures forall a, b :: 0 <= a < b < |Filter(s, p)| ==> key(Filter(s, p)[a]) < key(Filter(s, p)[b])
  {
    if |s| > 0 {
      FilterKeepsIncreasing(s[1..], key, p);
      var rest := Filter(s[1..], p);
      forall x | x in rest
        ensures key(s[0]) < key(x)
      {
        var k :| 0 <= k < |s[1..]| && s[1..][k] == x;
        assert s[k + 1] == x;
      }
    }
  }

  /** Selecting with a stronger mask after a weaker one is selecting with
      the stronger mask alone. */
  lemma {:induction false} FilterOfFilter<T(!new)>(s: seq<T>, p: T -> bool, q: T -> bool)
    requires forall x :: q(x) ==> p(x)
    ensures Filter(Filter(s, p), q) == Filter(s, q)
  {
    if |s| > 0 {
      FilterOfFilter(s[1..], p, q);
    }
  }

  /** Selecting with a mask that excludes the first one leaves nothing. */
  lemma FilterDisjoint<T(!new)>(s: seq<T>, p: T -> bool, q: T -> bool)
    requires forall x :: q(x) ==> !p(x)
    ensures Filter(Filter(s, p), q) == []
  {
  }

  /** Selecting after mapping is mapping after selecting, when the two
      masks agree through `f`. */
  lemma {:induction false} FilterMap<T(!new), U(!new)>(s: seq<T>, f: T --> U, p: U -> bool, q: T -> bool)
    requires forall x :: x in s ==> f.requires(x)
    requires forall x :: x in s ==> p(f(x)) == q(x)
    ensures Filter(Map(s, f), p) == Map(Filter(s, q), f)
  {
    if |s| > 0 {
      FilterMap(s[1..], f, p, q);
      assert s[0] in s;
      var m := Map(s, f);
      assert m == [f(s[0])] + Map(s[1..], f);
      assert m[1..] == Map(s[1..], f);
      if q(s[0]) {
        var sel := Filter(s, q);
        assert sel[0] == s[0] && sel[1..] == Filter(s[1..], q);
      }
    }
  }
}
