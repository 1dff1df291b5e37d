/** The list operations the rule engine builds on: Python's list.remove and the
    copy-then-remove loop of remove_cards_from_list (rules/pattern_matcher.py). */
module Lists {

  /** list.remove(x): drops the first occurrence of x (the source raises when x is absent,
      callers here only use it after checking membership, or treat absence explicitly). */
  function RemoveFirst<T(==)>(s: seq<T>, x: T): (r: seq<T>)
    ensures multiset(r) == multiset(s) - multiset{x}
    ensures x in s ==> |r| == |s| - 1
    ensures x !in s ==> r == s
  {
    if s == [] then []
    else
      assert s == [s[0]] + s[1..];
      if s[0] == x then s[1..]
      else [s[0]] + RemoveFirst(s[1..], x)
  }

  /** remove_cards_from_list: for each element of t in order, removes one occurrence of it
      if one is still present, and skips it otherwise. */
  function RemoveAll<T(==)>(s: seq<T>, t: seq<T>): (r: seq<T>)
    ensures multiset(r) == multiset(s) - multiset(t)
    ensures |r| <= |s|
    ensures t != [] && t[0] in s ==> |r| < |s|
    decreases t
  {
    if t == [] then s
    else
      var s' := if t[0] in s then RemoveFirst(s, t[0]) else s;
      DiffSplit(multiset(s), t);
      RemoveAll(s', t[1..])
  }

  lemma DiffSplit<T>(m: multiset<T>, t: seq<T>)
    requires t != []
    ensures (m - multiset{t[0]}) - multiset(t[1..]) == m - multiset(t)
  {
    assert t == [t[0]] + t[1..];
    assert multiset(t) == multiset{t[0]} + multiset(t[1..]);
  }

  /** Removal with the skipping semantics, in two steps or in one. */
  lemma {:induction false} RemoveAllAppend<T>(s: seq<T>, a: seq<T>, b: seq<T>)
    ensures RemoveAll(s, a + b) == RemoveAll(RemoveAll(s, a), b)
    decreases |a|
  {
    if a == [] {
      assert a + b == b;
    } else {
      assert (a + b)[0] == a[0] && (a + b)[1..] == a[1..] + b;
      var s' := if a[0] in s then RemoveFirst(s, a[0]) else s;
      RemoveAllAppend(s', a[1..], b);
    }
  }

  /** A loop of list.remove calls that stops at the first absent element, as the source's
      remove loops do when they raise: the list reached so far and whether every removal succeeded. */
  function RemoveEach<T(==)>(s: seq<T>, t: seq<T>): (r: (seq<T>, bool))
    decreases t
  {
    if t == [] then (s, true)
    else if t[0] in s then RemoveEach(RemoveFirst(s, t[0]), t[1..])
    else (s, false)
  }

  /** The removal loop succeeds exactly when t fits into s as a multiset, and then it
      agrees with the skipping removal and takes away exactly t. */
  lemma {:induction false} RemoveEachSucceeds<T>(s: seq<T>, t: seq<T>)
    ensures RemoveEach(s, t).1 <==> multiset(t) <= multiset(s)
    ensures RemoveEach(s, t).1 ==> RemoveEach(s, t).0 == RemoveAll(s, t)
    ensures RemoveEach(s, t).1 ==> multiset(RemoveEach(s, t).0) == multiset(s) - multiset(t)
    ensures RemoveEach(s, t).1 ==> |RemoveEach(s, t).0| == |s| - |t|
    decreases t
  {
    if t != [] {
      assert t == [t[0]] + t[1..];
      if t[0] in s {
        var s' := RemoveFirst(s, t[0]);
        RemoveEachSucceeds(s', t[1..]);
        assert multiset(t) <= multiset(s) <==> multiset(t[1..]) <= multiset(s') by {
          assert multiset(t) == multiset{t[0]} + multiset(t[1..]);
          assert multiset(s) == multiset(s') + multiset{t[0]};
        }
      } else {
        assert multiset(s)[t[0]] == 0;
      }
    }
  }

  /** Removing a sub-multiset takes away exactly its length. */
  lemma RemoveIncluded<T>(s: seq<T>, t: seq<T>)
    requires multiset(t) <= multiset(s)
    ensures |RemoveAll(s, t)| == |s| - |t|
  {
    RemoveEachSucceeds(s, t);
  }

  /** One step of the skipping removal over the suffix of t from k. */
  lemma RemoveAllStep<T>(s: seq<T>, t: seq<T>, k: nat)
    requires k < |t|
    ensures RemoveAll(s, t[k..]) == RemoveAll(RemoveFirst(s, t[k]), t[k + 1..])
  {
    assert t[k..][0] == t[k] && t[k..][1..] == t[k + 1..];
  }

  /** One step of the stopping removal over the suffix of t from k. */
  lemma RemoveEachStep<T>(s: seq<T>, t: seq<T>, k: nat)
    requires k < |t|
    ensures RemoveEach(s, t[k..]) ==
      if t[k] in s then RemoveEach(RemoveFirst(s, t[k]), t[k + 1..]) else (s, false)
  {
    assert t[k..][0] == t[k] && t[k..][1..] == t[k + 1..];
  }

  /** Putting a removed sub-multiset back gives the original multiset. */
  lemma RemovedRestored<T>(s: seq<T>, t: seq<T>)
    requires multiset(t) <= multiset(s)
    ensures multiset(RemoveAll(s, t)) + multiset(t) == multiset(s)
  {
    var m, k := multiset(s), multiset(t);
    forall x ensures ((m - k) + k)[x] == m[x] { }
  }

  /** A loop of list.remove calls over t, each skipped when its element is already gone:
      the skipping removal, computed step by step. */
  method RemoveEachOf<T(==)>(s: seq<T>, t: seq<T>) returns (r: seq<T>)
    ensures r == RemoveAll(s, t)
  {
    r := s;
    assert t[0..] == t;
    for j := 0 to |t|
      invariant RemoveAll(r, t[j..]) == RemoveAll(s, t)
    {
      RemoveAllStep(r, t, j);
      r := RemoveFirst(r, t[j]);
    }
    assert t[|t|..] == [];
  }

  /** Concatenation of a list of lists. */
  function Flatten<T>(ss: seq<seq<T>>): (r: seq<T>)
  {
    if ss == [] then [] else ss[0] + Flatten(ss[1..])
  }

  /** Flattening distributes over concatenation. */
  lemma {:induction false} FlattenAppend<T>(a: seq<seq<T>>, b: seq<seq<T>>)
    ensures Flatten(a + b) == Flatten(a) + Flatten(b)
    decreases |a|
  {
    if a == [] {
      assert a + b == b;
    } else {
      assert (a + b)[1..] == a[1..] + b;
      FlattenAppend(a[1..], b);
    }
  }

  /** The number of elements of s equal to x, counted one by one. */
  function Count<T(==)>(s: seq<T>, x: T): (n: nat)
    ensures n == multiset(s)[x]
  {
    if s == [] then 0
    else
      assert s == [s[0]] + s[1..];
      (if s[0] == x then 1 else 0) + Count(s[1..], x)
  }

  /** The first m of n copies are m copies. */
  lemma RepeatPrefix<T>(x: T, n: nat, m: nat)
    requires m <= n
    ensures Repeat(x, n)[..m] == Repeat(x, m)
  {
  }

  /** n copies of x are among the elements of a multiset that holds at least n of them. */
  lemma CopiesIncluded<T>(m: multiset<T>, x: T, n: nat)
    requires m[x] >= n
    ensures multiset(Repeat(x, n)) <= m
  {
    assert multiset(Repeat(x, n)) == multiset{}[x := n] by {
      forall y ensures multiset(Repeat(x, n))[y] == multiset{}[x := n][y] {
        if y != x {
          assert y !in Repeat(x, n);
        }
      }
    }
  }

  /** n copies of x. */
  function Repeat<T>(x: T, n: nat): (r: seq<T>)
    ensures |r| == n && forall i :: 0 <= i < n ==> r[i] == x
    ensures multiset(r)[x] == n
  {
    if n == 0 then [] else Repeat(x, n - 1) + [x]
  }
}
