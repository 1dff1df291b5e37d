/** Pure queries over a list of cards (rules/pattern_matcher.py): classes of identical
    cards, sequence validity and sequence candidates. */
module Patterns {
  import opened Config
  import opened Cards
  import opened Lists

  /** The distinct cards of s in order of first occurrence: the key order of the
      dictionaries the source builds while scanning s. */
  function Distinct(s: seq<Card>): (r: seq<Card>)
    ensures forall c :: c in r <==> c in s
    ensures forall i, j :: 0 <= i < j < |r| ==> r[i] != r[j]
  {
    if s == [] then []
    else
      var d := Distinct(s[..|s| - 1]);
      assert s == s[..|s| - 1] + [s[|s| - 1]];
      if s[|s| - 1] in d then d else d + [s[|s| - 1]]
  }

  /** The members of k's (value, case) class in s, in input order. */
  function Members(s: seq<Card>, k: Card): (r: seq<Card>)
    ensures r == Repeat(k, multiset(s)[k])
  {
    if s == [] then []
    else
      assert s == [s[0]] + s[1..];
      if s[0] == k then [k] + Members(s[1..], k) else Members(s[1..], k)
  }

  /** Whether a class of `count` members is reported when looking for groups of n:
      at least n members, or exactly n when `exact`. */
  predicate Qualifies(count: nat, n: nat, exact: bool)
  {
    if exact then count == n else count >= n
  }

  /** For every key, in order, whose class qualifies: the first n members of that class. */
  function Classes(s: seq<Card>, keys: seq<Card>, n: nat, exact: bool): (r: seq<seq<Card>>)
    ensures forall g :: g in r <==>
      exists k :: k in keys && Qualifies(multiset(s)[k], n, exact) && g == Repeat(k, n)
    ensures |r| <= |keys|
  {
    if keys == [] then []
    else
      var k := keys[0];
      var rest := Classes(s, keys[1..], n, exact);
      assert forall k' :: k' in keys <==> k' == k || k' in keys[1..];
      if Qualifies(multiset(s)[k], n, exact) then
        assert Members(s, k)[..n] == Repeat(k, n);
        [Members(s, k)[..n]] + rest
      else rest
  }

  /** find_triplets: one group per class with at least 3 members, its first 3 members. */
  function FindTriplets(s: seq<Card>): (r: seq<seq<Card>>)
    ensures forall g :: g in r ==> |g| == 3 && g == Repeat(g[0], 3) && multiset(s)[g[0]] >= 3
  {
    Classes(s, Distinct(s), 3, false)
  }

  /** find_quadruplets: one group per class with exactly 4 members. */
  function FindQuadruplets(s: seq<Card>): (r: seq<seq<Card>>)
    ensures forall g :: g in r ==> |g| == 4 && g == Repeat(g[0], 4) && multiset(s)[g[0]] == 4
  {
    Classes(s, Distinct(s), 4, true)
  }

  /** find_pairs: one pair per class with at least 2 members, its first 2 members. */
  function FindPairs(s: seq<Card>): (r: seq<seq<Card>>)
    ensures forall g :: g in r ==> |g| == 2 && g == Repeat(g[0], 2) && multiset(s)[g[0]] >= 2
  {
    Classes(s, Distinct(s), 2, false)
  }

  /** find_triplets reports a class exactly when it has at least three members. */
  lemma TripletsFoundExactly(s: seq<Card>, c: Card)
    ensures Repeat(c, 3) in FindTriplets(s) <==> multiset(s)[c] >= 3
  {
    RepeatInjective(3);
  }

  /** find_quadruplets reports a class exactly when it has exactly four members. */
  lemma QuadsFoundExactly(s: seq<Card>, c: Card)
    ensures Repeat(c, 4) in FindQuadruplets(s) <==> multiset(s)[c] == 4
  {
    RepeatInjective(4);
  }

  /** find_pairs reports a class exactly when it has at least two members. */
  lemma PairsFoundExactly(s: seq<Card>, c: Card)
    ensures Repeat(c, 2) in FindPairs(s) <==> multiset(s)[c] >= 2
  {
    RepeatInjective(2);
  }

  /** Over distinct keys, the group of n copies of c is reported once when c is a key
      whose class qualifies, and not at all otherwise. */
  lemma {:induction false} ClassesCount(s: seq<Card>, keys: seq<Card>, n: nat, exact: bool, c: Card)
    requires n > 0
    requires forall i, j :: 0 <= i < j < |keys| ==> keys[i] != keys[j]
    ensures multiset(Classes(s, keys, n, exact))[Repeat(c, n)]
      == if c in keys && Qualifies(multiset(s)[c], n, exact) then 1 else 0
    decreases |keys|
  {
    if keys != [] {
      var k := keys[0];
      ClassesCount(s, keys[1..], n, exact, c);
      RepeatInjective(n);
      assert c in keys <==> c == k || c in keys[1..];
      assert k !in keys[1..];
      if Qualifies(multiset(s)[k], n, exact) {
        assert Members(s, k)[..n] == Repeat(k, n);
      }
    }
  }

  /** find_triplets reports each class of at least three members exactly once. */
  lemma TripletsOnce(s: seq<Card>, c: Card)
    ensures multiset(FindTriplets(s))[Repeat(c, 3)] == if multiset(s)[c] >= 3 then 1 else 0
  {
    ClassesCount(s, Distinct(s), 3, false, c);
  }

  /** find_quadruplets reports each class of exactly four members exactly once. */
  lemma QuadsOnce(s: seq<Card>, c: Card)
    ensures multiset(FindQuadruplets(s))[Repeat(c, 4)] == if multiset(s)[c] == 4 then 1 else 0
  {
    ClassesCount(s, Distinct(s), 4, true, c);
  }

  /** find_pairs reports each class of at least two members exactly once. */
  lemma PairsOnce(s: seq<Card>, c: Card)
    ensures multiset(FindPairs(s))[Repeat(c, 2)] == if multiset(s)[c] >= 2 then 1 else 0
  {
    ClassesCount(s, Distinct(s), 2, false, c);
  }

  /** Equal runs of n copies are runs of the same card. */
  lemma RepeatInjective(n: nat)
    requires n > 0
    ensures forall a: Card, b: Card :: Repeat(a, n) == Repeat(b, n) ==> a == b
  {
    forall a: Card, b: Card | Repeat(a, n) == Repeat(b, n) ensures a == b {
      assert Repeat(a, n)[0] == Repeat(b, n)[0];
    }
  }

  /** The three values of cs in ascending order. */
  function SortedValues(cs: seq<Card>): (r: seq<int>)
    requires |cs| == 3
    ensures |r| == 3 && r[0] <= r[1] <= r[2]
  {
    var a, b, c := cs[0].value, cs[1].value, cs[2].value;
    if a <= b then
      if b <= c then [a, b, c] else if a <= c then [a, c, b] else [c, a, b]
    else
      if a <= c then [b, a, c] else if b <= c then [b, c, a] else [c, b, a]
  }

  /** Sorting keeps the three values: the result is a permutation of them. */
  lemma SortedValuesPermutes(cs: seq<Card>)
    requires |cs| == 3
    ensures multiset(SortedValues(cs)) == multiset{cs[0].value, cs[1].value, cs[2].value}
  {
  }

  predicate SameCase(cs: seq<Card>)
  {
    forall i :: 0 <= i < |cs| ==> cs[i].upper == cs[0].upper
  }

  /** is_valid_sequence: exactly three cards of one case whose sorted values are a
      special sequence or three consecutive integers. */
  predicate IsValidSequence(cs: seq<Card>)
    ensures IsValidSequence(cs) ==> |cs| == 3 && SameCase(cs)
  {
    && |cs| == 3
    && SameCase(cs)
    && var v := SortedValues(cs);
       v in SPECIAL_SEQUENCES || (v[1] == v[0] + 1 && v[2] == v[1] + 1)
  }

  /** is_special_sequence: three cards of one case whose values are {1,2,3} or {2,7,10}. */
  predicate IsSpecialSequence(cs: seq<Card>)
    ensures IsSpecialSequence(cs) ==> IsValidSequence(cs)
  {
    |cs| == 3 && SameCase(cs) && SortedValues(cs) in SPECIAL_SEQUENCES
  }

  /** An order-independent reference definition of a sequence: three distinct values of one
      case that are either all red (so exactly 2, 7 and 10) or span exactly 2 (which covers 1, 2, 3). */
  predicate IsSequenceByValues(cs: seq<Card>)
  {
    && |cs| == 3
    && cs[0].upper == cs[1].upper == cs[2].upper
    && var a, b, c := cs[0].value, cs[1].value, cs[2].value;
       && a != b && b != c && a != c
       && ((IsRed(cs[0]) && IsRed(cs[1]) && IsRed(cs[2])) || Max3(a, b, c) - Min3(a, b, c) == 2)
  }

  function Max3(a: int, b: int, c: int): int
  {
    if a >= b && a >= c then a else if b >= c then b else c
  }

  function Min3(a: int, b: int, c: int): int
  {
    if a <= b && a <= c then a else if b <= c then b else c
  }

  /** Sorted values of three cards in terms of their minimum and maximum. */
  lemma SortedValuesBounds(cs: seq<Card>)
    requires |cs| == 3
    ensures var v, a, b, c := SortedValues(cs), cs[0].value, cs[1].value, cs[2].value;
      && v[0] == Min3(a, b, c) && v[2] == Max3(a, b, c)
      && (a != b && b != c && a != c <==> v[0] < v[1] < v[2])
      && (v[0] == 2 && v[1] == 7 && v[2] == 10 <==>
           (a != b && b != c && a != c && IsRed(cs[0]) && IsRed(cs[1]) && IsRed(cs[2])))
  {
  }

  /** The sorted-list test of is_valid_sequence agrees with the order-independent definition. */
  lemma ValidSequenceByValues(cs: seq<Card>)
    ensures IsValidSequence(cs) <==> IsSequenceByValues(cs)
  {
    if |cs| == 3 {
      assert SameCase(cs) <==> cs[0].upper == cs[1].upper == cs[2].upper by {
        if cs[0].upper == cs[1].upper == cs[2].upper {
          forall i | 0 <= i < 3 ensures cs[i].upper == cs[0].upper {
          }
        }
      }
      SortedValuesBounds(cs);
      var v := SortedValues(cs);
      assert v in SPECIAL_SEQUENCES <==> v == [1, 2, 3] || v == [2, 7, 10];
    }
  }

  /** The values w >= v (up to 10) for which a card of case u occurs in s, ascending:
      the sorted keys of the source's value-to-cards dictionary for that case. */
  function PresentValues(s: seq<Card>, u: bool, v: int): (r: seq<int>)
    requires MIN_VALUE <= v <= MAX_VALUE + 1
    ensures forall i :: 0 <= i < |r| ==> v <= r[i] <= MAX_VALUE
    ensures forall i, j :: 0 <= i < j < |r| ==> r[i] < r[j]
    ensures forall w: CardValue :: w in r <==> v <= w && Card(w, u) in s
    decreases MAX_VALUE + 1 - v
  {
    if v > MAX_VALUE then []
    else if Card(v, u) in s then [v] + PresentValues(s, u, v + 1)
    else PresentValues(s, u, v + 1)
  }

  /** The cards of case u with the three given values, in that order. */
  function Triple(v1: int, v2: int, v3: int, u: bool): (g: seq<Card>)
    requires MIN_VALUE <= v1 < v2 < v3 <= MAX_VALUE
    ensures |g| == 3 && g[0] != g[1] && g[1] != g[2] && g[0] != g[2]
    ensures SortedValues(g) == [v1, v2, v3]
    ensures SameCase(g) && forall c :: c in g ==> c.upper == u
  {
    [Card(v1, u), Card(v2, u), Card(v3, u)]
  }

  /** A valid sequence of three distinct cards of case u whose values are all among keys. */
  predicate Candidate(g: seq<Card>, u: bool, keys: seq<int>)
  {
    && IsValidSequence(g) && |g| == 3
    && g[0] != g[1] && g[1] != g[2] && g[0] != g[2]
    && forall c :: c in g ==> c.upper == u && c.value in keys
  }

  predicate InRange(sp: seq<int>)
  {
    |sp| == 3 && MIN_VALUE <= sp[0] < sp[1] < sp[2] <= MAX_VALUE
  }

  /** The special sequences all of whose values occur among `keys`, in case u. */
  function SpecialHits(sps: seq<seq<int>>, keys: seq<int>, u: bool): (r: seq<seq<Card>>)
    requires forall sp :: sp in sps ==> InRange(sp) && sp in SPECIAL_SEQUENCES
    ensures forall g :: g in r ==> Candidate(g, u, keys)
  {
    if sps == [] then []
    else
      var sp := sps[0];
      assert sp in sps;
      var rest := SpecialHits(sps[1..], keys, u);
      if sp[0] in keys && sp[1] in keys && sp[2] in keys then
        [Triple(sp[0], sp[1], sp[2], u)] + rest
      else rest
  }

  /** The runs of three adjacent sorted keys that are consecutive, except [1,2,3]. */
  function Runs(keys: seq<int>, u: bool, i: nat): (r: seq<seq<Card>>)
    requires forall j :: 0 <= j < |keys| ==> MIN_VALUE <= keys[j] <= MAX_VALUE
    ensures forall g :: g in r ==> Candidate(g, u, keys)
    decreases |keys| - i
  {
    if i + 2 >= |keys| then []
    else
      var v1, v2, v3 := keys[i], keys[i + 1], keys[i + 2];
      var rest := Runs(keys, u, i + 1);
      if v2 == v1 + 1 && v3 == v2 + 1 && [v1, v2, v3] !in SPECIAL_SEQUENCES then
        var g := Triple(v1, v2, v3, u);
        assert Candidate(g, u, keys) by {
          assert SortedValues(g) == [v1, v2, v3];
          assert v1 in keys && v2 in keys && v3 in keys;
        }
        [g] + rest
      else rest
  }

  /** The sequence candidates of one case: special sequences first, then consecutive runs. */
  function CaseSequences(s: seq<Card>, u: bool): (r: seq<seq<Card>>)
    ensures forall g :: g in r ==> IsValidSequence(g) && multiset(g) <= multiset(s)
  {
    var keys := PresentValues(s, u, MIN_VALUE);
    var r := SpecialHits(SPECIAL_SEQUENCES, keys, u) + Runs(keys, u, 0);
    forall g | g in r ensures IsValidSequence(g) && multiset(g) <= multiset(s) {
      assert forall c :: c in g ==> c.upper == u && c.value in keys;
      assert g[0] in g && g[1] in g && g[2] in g;
      DistinctMembersIncluded(s, g);
    }
    r
  }

  /** find_sequences: the lower-case candidates, then the upper-case ones. Every candidate
      is a valid sequence made of three distinct cards that all occur in s. */
  function FindSequences(s: seq<Card>): (r: seq<seq<Card>>)
    ensures forall g :: g in r ==> IsValidSequence(g) && multiset(g) <= multiset(s)
  {
    CaseSequences(s, false) + CaseSequences(s, true)
  }

  /** Each list is non-empty and their first cards have strictly increasing values. */
  predicate FirstValuesAscending(r: seq<seq<Card>>)
  {
    forall a, b :: 0 <= a < b < |r| ==> |r[a]| > 0 && |r[b]| > 0 && r[a][0].value < r[b][0].value
  }

  /** The special hits: 1-2-3 when all three values are present, then 2-7-10 likewise. */
  lemma SpecialHitsExplicit(keys: seq<int>, u: bool)
    ensures SpecialHits(SPECIAL_SEQUENCES, keys, u)
      == (if 1 in keys && 2 in keys && 3 in keys then [Triple(1, 2, 3, u)] else [])
       + (if 2 in keys && 7 in keys && 10 in keys then [Triple(2, 7, 10, u)] else [])
  {
    var sps := SPECIAL_SEQUENCES;
    assert sps[0] == [1, 2, 3] && sps[1..] == [[2, 7, 10]] && sps[1..][1..] == [];
    assert SpecialHits(sps[1..][1..], keys, u) == [];
  }

  /** The special hits are among the special sequences, 1-2-3 before 2-7-10. */
  lemma SpecialHitsShape(keys: seq<int>, u: bool)
    ensures forall g: seq<Card> :: g in SpecialHits(SPECIAL_SEQUENCES, keys, u) ==>
      |g| == 3 && [g[0].value, g[1].value, g[2].value] in SPECIAL_SEQUENCES
    ensures FirstValuesAscending(SpecialHits(SPECIAL_SEQUENCES, keys, u))
  {
    SpecialHitsExplicit(keys, u);
    SpecialsShape(SpecialHits(SPECIAL_SEQUENCES, keys, u), keys, u);
  }

  lemma SpecialsShape(h: seq<seq<Card>>, keys: seq<int>, u: bool)
    requires h == (if 1 in keys && 2 in keys && 3 in keys then [Triple(1, 2, 3, u)] else [])
                + (if 2 in keys && 7 in keys && 10 in keys then [Triple(2, 7, 10, u)] else [])
    ensures forall g: seq<Card> :: g in h ==>
      |g| == 3 && [g[0].value, g[1].value, g[2].value] in SPECIAL_SEQUENCES
    ensures FirstValuesAscending(h)
  {
  }

  /** Each run is three consecutive values other than 1, 2, 3, starting at or after
      keys[i], and the runs start at strictly increasing values. */
  lemma {:induction false} RunsShape(keys: seq<int>, u: bool, i: nat)
    requires forall j :: 0 <= j < |keys| ==> MIN_VALUE <= keys[j] <= MAX_VALUE
    requires forall a, b :: 0 <= a < b < |keys| ==> keys[a] < keys[b]
    ensures forall g: seq<Card> :: g in Runs(keys, u, i) ==>
      && |g| == 3 && i < |keys| && keys[i] <= g[0].value && g[0].value != 1
      && g[1].value == g[0].value + 1 && g[2].value == g[1].value + 1
    ensures FirstValuesAscending(Runs(keys, u, i))
    decreases |keys| - i
  {
    if i + 2 < |keys| {
      RunsShape(keys, u, i + 1);
    }
  }

  /** No list occurs twice. */
  predicate AllDifferent(r: seq<seq<Card>>)
  {
    forall a, b :: 0 <= a < b < |r| ==> r[a] != r[b]
  }

  /** Special sequences followed by runs, each kind in ascending order of first value,
      never repeat a list. */
  lemma SpecialsThenRunsDiffer(sh: seq<seq<Card>>, rs: seq<seq<Card>>)
    requires FirstValuesAscending(sh) && FirstValuesAscending(rs)
    requires forall g: seq<Card> :: g in sh ==>
      |g| == 3 && [g[0].value, g[1].value, g[2].value] in SPECIAL_SEQUENCES
    requires forall g: seq<Card> :: g in rs ==>
      |g| == 3 && g[0].value != 1 && g[1].value == g[0].value + 1 && g[2].value == g[1].value + 1
    ensures AllDifferent(sh + rs)
  {
    var r: seq<seq<Card>> := sh + rs;
    forall a, b | 0 <= a < b < |r| ensures r[a] != r[b] {
      if b < |sh| {
        assert r[a][0].value < r[b][0].value;
      } else if a >= |sh| {
        assert r[a] == rs[a - |sh|] && r[b] == rs[b - |sh|];
        assert r[a][0].value < r[b][0].value;
      } else {
        assert r[a] in sh && r[b] in rs;
      }
    }
  }

  /** Within one case the candidates are pairwise different: special hits differ by their
      first value, runs likewise, and no run is a special sequence. */
  lemma CaseSequencesDistinct(s: seq<Card>, u: bool)
    ensures forall g: seq<Card> :: g in CaseSequences(s, u) ==> |g| == 3 && g[0].upper == u
    ensures AllDifferent(CaseSequences(s, u))
  {
    var keys := PresentValues(s, u, MIN_VALUE);
    SpecialHitsShape(keys, u);
    RunsShape(keys, u, 0);
    SpecialsThenRunsDiffer(SpecialHits(SPECIAL_SEQUENCES, keys, u), Runs(keys, u, 0));
  }

  /** find_sequences never proposes the same sequence twice: the two cases cannot share
      one, and within a case the candidates differ. */
  lemma FindSequencesDistinct(s: seq<Card>)
    ensures forall a, b :: 0 <= a < b < |FindSequences(s)| ==> FindSequences(s)[a] != FindSequences(s)[b]
  {
    CaseSequencesDistinct(s, false);
    CaseSequencesDistinct(s, true);
    var lo, hi := CaseSequences(s, false), CaseSequences(s, true);
    var r: seq<seq<Card>> := lo + hi;
    forall a, b | 0 <= a < b < |r| ensures r[a] != r[b] {
      if b < |lo| {
      } else if a >= |lo| {
        assert r[a] == hi[a - |lo|] && r[b] == hi[b - |lo|];
      } else {
        assert r[a] in lo && r[b] in hi;
      }
    }
  }

  /** Three distinct cards that each occur in s form a sub-multiset of s. */
  lemma DistinctMembersIncluded(s: seq<Card>, g: seq<Card>)
    requires |g| == 3 && g[0] != g[1] && g[1] != g[2] && g[0] != g[2]
    requires g[0] in s && g[1] in s && g[2] in s
    ensures multiset(g) <= multiset(s)
  {
    assert multiset(g) == multiset{g[0]} + multiset{g[1]} + multiset{g[2]} by {
      assert g == [g[0]] + [g[1]] + [g[2]];
    }
    forall c ensures multiset(g)[c] <= multiset(s)[c] {
      assert c != g[0] || c != g[1];
    }
  }
}
