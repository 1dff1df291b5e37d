/** The win test (rules/win_checker.py): forced triplets, then one pair and sequences for
    the rest, found by a first-success backtracking search. */
module WinChecking {
  import opened Common
  import opened Config
  import opened Cards
  import opened Lists
  import opened Patterns
  import opened Hands
  import opened Huxi

  /** Every group of ss is a valid sequence. */
  predicate AllValid(ss: seq<seq<Card>>)
  {
    forall g :: g in ss ==> IsValidSequence(g)
  }

  /** ss splits cards into valid sequences: its groups are valid, there is one group per
      three cards, and together they hold exactly the cards. */
  predicate SplitsInto(cards: seq<Card>, ss: seq<seq<Card>>)
  {
    AllValid(ss) && 3 * |ss| == |cards| && multiset(Flatten(ss)) == multiset(cards)
  }

  /** cands lists candidate sequences of cards, as find_sequences does: each is a valid
      sequence whose cards are all among cards. */
  predicate Candidates(cards: seq<Card>, cands: seq<seq<Card>>)
  {
    forall g :: g in cands ==> IsValidSequence(g) && multiset(g) <= multiset(cards)
  }

  /** _try_form_sequences_recursive: true on no cards, false on a count not divisible by
      three, otherwise whether some candidate sequence, tried in order, leaves cards that
      can all be formed into sequences. */
  function TryFormSequences(cards: seq<Card>): bool
    decreases |cards|, 1
  {
    if |cards| == 0 then true
    else if |cards| % 3 != 0 then false
    else FormsFrom(cards, FindSequences(cards), 0)
  }

  /** The candidate loop of _try_form_sequences_recursive, from candidate i on. */
  function FormsFrom(cards: seq<Card>, cands: seq<seq<Card>>, i: nat): bool
    requires Candidates(cards, cands) && i <= |cands|
    decreases |cards|, 0, |cands| - i
  {
    if i == |cands| then false
    else
      var g := cands[i];
      assert g in cands;
      if AllIn(g, cards) && TryFormSequences(RemoveAll(cards, g)) then true
      else FormsFrom(cards, cands, i + 1)
  }

  /** _find_all_sequences: the same search, returning the sequences of its first success. */
  function FindAllSequences(cards: seq<Card>): (r: Option<seq<seq<Card>>>)
    ensures |cards| == 0 ==> r == Some([])
    ensures |cards| % 3 != 0 ==> r == None
    ensures r.Some? ==> SplitsInto(cards, r.value)
    decreases |cards|, 1
  {
    if |cards| == 0 then Some([])
    else if |cards| % 3 != 0 then None
    else FoundFrom(cards, FindSequences(cards), 0)
  }

  /** The candidate loop of _find_all_sequences, from candidate i on. */
  function FoundFrom(cards: seq<Card>, cands: seq<seq<Card>>, i: nat): (r: Option<seq<seq<Card>>>)
    requires Candidates(cards, cands) && i <= |cands|
    ensures r.Some? ==> SplitsInto(cards, r.value)
    decreases |cards|, 0, |cands| - i
  {
    if i == |cands| then None
    else
      var g := cands[i];
      assert g in cands;
      if AllIn(g, cards) then
        var rest := FindAllSequences(RemoveAll(cards, g));
        if rest.Some? then
          Prepended(cards, g, rest.value);
          Some([g] + rest.value)
        else FoundFrom(cards, cands, i + 1)
      else FoundFrom(cards, cands, i + 1)
  }

  /** A valid sequence taken from cards, followed by a split of what it leaves, splits
      cards. */
  lemma Prepended(cards: seq<Card>, g: seq<Card>, rest: seq<seq<Card>>)
    requires IsValidSequence(g) && multiset(g) <= multiset(cards)
    requires SplitsInto(RemoveAll(cards, g), rest)
    ensures SplitsInto(cards, [g] + rest)
  {
    RemoveIncluded(cards, g);
    RemovedRestored(cards, g);
    ValidCons(g, rest);
    FlattenCons(g, rest);
  }

  lemma ValidCons(g: seq<Card>, rest: seq<seq<Card>>)
    requires IsValidSequence(g) && AllValid(rest)
    ensures AllValid([g] + rest)
  {
    forall h | h in [g] + rest
      ensures IsValidSequence(h)
    {
      if h != g {
        assert h in rest;
      }
    }
  }

  lemma FlattenCons(g: seq<Card>, rest: seq<seq<Card>>)
    ensures Flatten([g] + rest) == g + Flatten(rest)
  {
    assert ([g] + rest)[1..] == rest;
  }

  /** _can_form_all_sequences. */
  function CanFormAllSequences(cards: seq<Card>): bool
  {
    if |cards| == 0 then true
    else if |cards| % 3 != 0 then false
    else TryFormSequences(cards)
  }

  /** The yes/no search and the search that returns sequences agree: one succeeds exactly
      when the other does. */
  lemma {:induction false} FormsIffFound(cards: seq<Card>)
    ensures TryFormSequences(cards) <==> FindAllSequences(cards).Some?
    decreases |cards|, 1
  {
    if |cards| != 0 && |cards| % 3 == 0 {
      FormsFromIffFoundFrom(cards, FindSequences(cards), 0);
    }
  }

  lemma {:induction false} FormsFromIffFoundFrom(cards: seq<Card>, cands: seq<seq<Card>>, i: nat)
    requires Candidates(cards, cands) && i <= |cands|
    ensures FormsFrom(cards, cands, i) <==> FoundFrom(cards, cands, i).Some?
    decreases |cards|, 0, |cands| - i
  {
    if i < |cands| {
      var g := cands[i];
      assert g in cands;
      if AllIn(g, cards) {
        FormsIffFound(RemoveAll(cards, g));
      }
      FormsFromIffFoundFrom(cards, cands, i + 1);
    }
  }

  /** _can_form_all_sequences holds exactly when _find_all_sequences finds sequences, and
      those then split the cards. */
  lemma CanFormIffFound(cards: seq<Card>)
    ensures CanFormAllSequences(cards) <==> FindAllSequences(cards).Some?
    ensures CanFormAllSequences(cards) ==> SplitsInto(cards, FindAllSequences(cards).value)
  {
    FormsIffFound(cards);
  }

  /** _try_find_sequences_and_pair: nothing for fewer than two cards; otherwise the first
      pair, in find_pairs order, whose removal leaves a non-empty set of cards that the
      sequence search covers completely. */
  function PairSearch(cards: seq<Card>): Option<(seq<seq<Card>>, seq<Card>)>
  {
    if |cards| < 2 then None else PairsFrom(cards, FindPairs(cards), 0)
  }

  /** The pair loop of _try_find_sequences_and_pair, from pair i on. */
  function PairsFrom(cards: seq<Card>, pairs: seq<seq<Card>>, i: nat): (r: Option<(seq<seq<Card>>, seq<Card>)>)
    requires i <= |pairs|
    ensures r.Some? ==>
      && r.value.1 in pairs
      && |r.value.0| > 0
      && SplitsInto(RemoveAll(cards, r.value.1), r.value.0)
    decreases |pairs| - i
  {
    if i == |pairs| then None
    else
      var pair := pairs[i];
      var rest := RemoveAll(cards, pair);
      if |rest| % 3 != 0 then PairsFrom(cards, pairs, i + 1)
      else if CanFormAllSequences(rest) then
        var seqs := FindAllSequences(rest);
        if seqs.Some? && |seqs.value| > 0 && |seqs.value| * 3 == |rest| then Some((seqs.value, pair))
        else PairsFrom(cards, pairs, i + 1)
      else PairsFrom(cards, pairs, i + 1)
  }

  /** A pair-and-sequences result is two identical cards of the input plus at least one
      valid sequence, and together they are exactly the input; so the input has 3m + 2
      cards. */
  lemma PairSearchSound(cards: seq<Card>)
    ensures |cards| < 2 ==> PairSearch(cards) == None
    ensures PairSearch(cards).Some? ==>
      var (seqs, pair) := PairSearch(cards).value;
      && |pair| == 2 && pair == Repeat(pair[0], 2)
      && |seqs| > 0 && AllValid(seqs)
      && multiset(Flatten(seqs)) + multiset(pair) == multiset(cards)
      && |cards| == 3 * |seqs| + 2
  {
    if PairSearch(cards).Some? {
      var (seqs, pair) := PairSearch(cards).value;
      assert pair in FindPairs(cards);
      PairAndRest(cards, pair, seqs);
    }
  }

  /** Two copies of a card of the input, and a split of what they leave, together make up
      the input. */
  lemma PairAndRest(cards: seq<Card>, pair: seq<Card>, seqs: seq<seq<Card>>)
    requires |pair| == 2 && pair == Repeat(pair[0], 2) && multiset(cards)[pair[0]] >= 2
    requires SplitsInto(RemoveAll(cards, pair), seqs)
    ensures multiset(Flatten(seqs)) + multiset(pair) == multiset(cards)
    ensures |cards| == 3 * |seqs| + 2
  {
    CopiesIncluded(multiset(cards), pair[0], 2);
    RemoveIncluded(cards, pair);
    RemovedRestored(cards, pair);
  }

  /** The pair loop, step by step. */
  method TryFindSequencesAndPair(cards: seq<Card>) returns (r: Option<(seq<seq<Card>>, seq<Card>)>)
    ensures r == PairSearch(cards)
  {
    if |cards| < 2 {
      return None;
    }
    var pairs := FindPairs(cards);
    for i := 0 to |pairs|
      invariant PairsFrom(cards, pairs, i) == PairSearch(cards)
    {
      var pair := pairs[i];
      var rest := RemoveAll(cards, pair);
      if |rest| % 3 != 0 {
        continue;
      }
      if CanFormAllSequences(rest) {
        var seqs := FindAllSequences(rest);
        if seqs.Some? && |seqs.value| > 0 && |seqs.value| * 3 == |rest| {
          return Some((seqs.value, pair));
        }
      }
    }
    return None;
  }

  /** The forced triplets found so far and the cards not yet taken. */
  datatype Extraction = Extraction(triplets: seq<seq<Card>>, remaining: seq<Card>)

  /** The first n elements of l, or all of l when it is shorter (a Python slice l[:n]). */
  function Prefix(l: seq<Card>, n: nat): (r: seq<Card>)
    ensures |r| == if |l| < n then |l| else n
    ensures r == l[..|r|]
  {
    if |l| < n then l else l[..n]
  }

  /** One turn of the extraction loop for the card k of the original cards: four copies
      give a triplet of the first three and leave one, three copies give a triplet of all
      three, any other count leaves the cards alone. */
  function ExtractStep(cards: seq<Card>, e: Extraction, k: Card): Extraction
  {
    var count := multiset(cards)[k];
    if count == 4 then
      Extraction(e.triplets + [Prefix(Members(e.remaining, k), 3)], RemoveAll(e.remaining, Repeat(k, 3)))
    else if count == 3 then
      var list := Members(e.remaining, k);
      Extraction(e.triplets + [list], RemoveAll(e.remaining, list))
    else e
  }

  /** The extraction loop run over the cards keys, in order. */
  function Extract(cards: seq<Card>, keys: seq<Card>): Extraction
    decreases |keys|
  {
    if keys == [] then Extraction([], cards)
    else ExtractStep(cards, Extract(cards, keys[..|keys| - 1]), keys[|keys| - 1])
  }

  /** The extraction of _find_win_combination: over the distinct cards in order of first
      occurrence, as the source's Counter yields them. */
  function ForcedExtraction(cards: seq<Card>): Extraction
  {
    Extract(cards, Distinct(cards))
  }

  /** _find_win_combination: exactly 21 cards, the forced triplets, then a pair and
      sequences for the rest when its size is 2 more than a multiple of 3. */
  function WinCombinationOf(cards: seq<Card>): Option<Combination>
  {
    if |cards| != WIN_HAND_SIZE then None
    else
      var e := ForcedExtraction(cards);
      if |e.remaining| % 3 == 2 then
        match PairSearch(e.remaining)
        case Some((seqs, pair)) => Some(Combination(e.triplets, seqs, pair))
        case None => None
      else None
  }

  /** How many copies of a card the extraction leaves behind: one of four, none of three,
      all of any other count. */
  function Leftover(count: nat): nat
  {
    if count == 4 then 1 else if count == 3 then 0 else count
  }

  /** Distinct elements: no card occurs twice. */
  predicate NoRepeats(keys: seq<Card>)
  {
    forall i, j :: 0 <= i < j < |keys| ==> keys[i] != keys[j]
  }

  /** Splitting off the last of distinct keys. */
  lemma LastKey(keys: seq<Card>)
    requires NoRepeats(keys) && keys != []
    ensures NoRepeats(keys[..|keys| - 1]) && keys[|keys| - 1] !in keys[..|keys| - 1]
    ensures keys == keys[..|keys| - 1] + [keys[|keys| - 1]]
  {
  }

  /** The extraction over distinct keys leaves every unvisited card as it was and every
      visited card at its leftover count. */
  lemma {:induction false} ExtractCount(cards: seq<Card>, keys: seq<Card>, c: Card)
    requires NoRepeats(keys)
    ensures multiset(Extract(cards, keys).remaining)[c]
      == if c in keys then Leftover(multiset(cards)[c]) else multiset(cards)[c]
    decreases |keys|
  {
    if keys != [] {
      var init, k := keys[..|keys| - 1], keys[|keys| - 1];
      LastKey(keys);
      var e := Extract(cards, init);
      ExtractCount(cards, init, c);
      ExtractCount(cards, init, k);
      var m := multiset(e.remaining);
      assert m[k] == multiset(cards)[k];
      var count := multiset(cards)[k];
      if count == 4 {
        CopiesIncluded(m, k, 3);
      } else if count == 3 {
        assert Members(e.remaining, k) == Repeat(k, 3);
        CopiesIncluded(m, k, 3);
      }
    }
  }

  /** Each forced triplet takes exactly three cards away. */
  lemma {:induction false} ExtractLength(cards: seq<Card>, keys: seq<Card>)
    requires NoRepeats(keys)
    ensures |Extract(cards, keys).remaining| + 3 * |Extract(cards, keys).triplets| == |cards|
    decreases |keys|
  {
    if keys != [] {
      var init, k := keys[..|keys| - 1], keys[|keys| - 1];
      LastKey(keys);
      var e := Extract(cards, init);
      ExtractLength(cards, init);
      ExtractCount(cards, init, k);
      var count := multiset(cards)[k];
      if count == 4 || count == 3 {
        CopiesIncluded(multiset(e.remaining), k, 3);
        RemoveIncluded(e.remaining, Repeat(k, 3));
        if count == 3 {
          assert Members(e.remaining, k) == Repeat(k, 3);
        }
      }
    }
  }

  /** Each forced triplet is three copies of a visited card present three or four times. */
  lemma {:induction false} ExtractTriplet(cards: seq<Card>, keys: seq<Card>, t: seq<Card>)
    requires NoRepeats(keys) && t in Extract(cards, keys).triplets
    ensures |t| == 3 && t == Repeat(t[0], 3) && t[0] in keys
    ensures multiset(cards)[t[0]] == 3 || multiset(cards)[t[0]] == 4
    decreases |keys|
  {
    var init, k := keys[..|keys| - 1], keys[|keys| - 1];
    LastKey(keys);
    var e := Extract(cards, init);
    if t in e.triplets {
      ExtractTriplet(cards, init, t);
    } else {
      NewTriplet(cards, init, k, t);
    }
  }

  /** The triplet added for the card k, which the earlier keys did not visit. */
  lemma NewTriplet(cards: seq<Card>, init: seq<Card>, k: Card, t: seq<Card>)
    requires NoRepeats(init) && k !in init
    requires t in ExtractStep(cards, Extract(cards, init), k).triplets
    requires t !in Extract(cards, init).triplets
    ensures t == Repeat(k, 3)
    ensures multiset(cards)[k] == 3 || multiset(cards)[k] == 4
  {
    var e := Extract(cards, init);
    ExtractCount(cards, init, k);
    var count := multiset(cards)[k];
    var list := Members(e.remaining, k);
    assert list == Repeat(k, count);
    if count == 4 {
      assert t == Prefix(list, 3);
      RepeatPrefix(k, 4, 3);
    } else {
      assert count == 3 && t == list;
    }
  }

  /** The turn for a card k not visited before appends three copies of k exactly when k
      is present three or four times. */
  lemma TripletAdded(cards: seq<Card>, init: seq<Card>, k: Card)
    requires NoRepeats(init) && k !in init
    ensures ExtractStep(cards, Extract(cards, init), k).triplets
      == Extract(cards, init).triplets
         + (if multiset(cards)[k] == 3 || multiset(cards)[k] == 4 then [Repeat(k, 3)] else [])
  {
    var e := Extract(cards, init);
    ExtractCount(cards, init, k);
    var count := multiset(cards)[k];
    if count == 4 {
      assert Members(e.remaining, k) == Repeat(k, 4);
      RepeatPrefix(k, 4, 3);
    } else if count == 3 {
      assert Members(e.remaining, k) == Repeat(k, 3);
    }
  }

  /** Over distinct keys, the triplet of a card appears once when the card was visited and
      is present three or four times, and not at all otherwise. */
  lemma {:induction false} ExtractTripletCount(cards: seq<Card>, keys: seq<Card>, c: Card)
    requires NoRepeats(keys)
    ensures multiset(Extract(cards, keys).triplets)[Repeat(c, 3)]
      == if c in keys && (multiset(cards)[c] == 3 || multiset(cards)[c] == 4) then 1 else 0
    decreases |keys|
  {
    if keys != [] {
      var init, k := keys[..|keys| - 1], keys[|keys| - 1];
      LastKey(keys);
      ExtractTripletCount(cards, init, c);
      TripletAdded(cards, init, k);
      RepeatInjective(3);
      assert c in keys <==> c in init || c == k;
    }
  }

  /** The forced extraction: exactly one triplet for each card present three or four
      times and none for any other card, every triplet three copies of one card, and what
      is left keeps one copy of a four, none of a three and every other card. Its size is
      the input's size less three per triplet. */
  lemma ForcedExtractionShape(cards: seq<Card>, c: Card)
    ensures var e := ForcedExtraction(cards);
      && |e.remaining| + 3 * |e.triplets| == |cards|
      && multiset(e.remaining)[c] == Leftover(multiset(cards)[c])
      && multiset(e.triplets)[Repeat(c, 3)]
         == (if multiset(cards)[c] == 3 || multiset(cards)[c] == 4 then 1 else 0)
      && (forall t :: t in e.triplets ==> |t| == 3 && t == Repeat(t[0], 3))
  {
    var keys := Distinct(cards);
    ExtractLength(cards, keys);
    ExtractCount(cards, keys, c);
    ExtractTripletCount(cards, keys, c);
    if c !in keys {
      assert multiset(cards)[c] == 0;
    }
    forall t | t in ForcedExtraction(cards).triplets ensures |t| == 3 && t == Repeat(t[0], 3) {
      ExtractTriplet(cards, keys, t);
    }
  }

  /** The remainder after the forced triplets is never 2 more than a multiple of 3 when
      the input has 21 cards, so _find_win_combination finds no combination for any
      input. */
  lemma NoWinCombination(cards: seq<Card>)
    ensures WinCombinationOf(cards) == None
  {
    if |cards| == WIN_HAND_SIZE {
      var e := ForcedExtraction(cards);
      ExtractLength(cards, Distinct(cards));
      ThreeDivides(|e.remaining|, 7 - |e.triplets|);
    }
  }

  /** Three times any integer leaves no remainder modulo 3. */
  lemma ThreeDivides(n: int, k: int)
    requires n == 3 * k
    ensures n % 3 == 0
  {
  }

  /** The extraction loop and the pair search, step by step. */
  method FindWinCombination(cards: seq<Card>) returns (r: Option<Combination>)
    ensures r == WinCombinationOf(cards)
  {
    if |cards| != WIN_HAND_SIZE {
      return None;
    }
    var keys := Distinct(cards);
    var forced: seq<seq<Card>> := [];
    var remaining := cards;
    for i := 0 to |keys|
      invariant Extraction(forced, remaining) == Extract(cards, keys[..i])
    {
      var k := keys[i];
      assert keys[..i + 1][..i] == keys[..i];
      var count := Count(cards, k);
      if count == 4 {
        var list := Members(remaining, k);
        forced := forced + [Prefix(list, 3)];
        remaining := RemoveEachOf(remaining, Repeat(k, 3));
      } else if count == 3 {
        var list := Members(remaining, k);
        forced := forced + [list];
        remaining := RemoveEachOf(remaining, list);
      }
    }
    assert keys[..|keys|] == keys;
    if |remaining| % 3 == 2 {
      var found := TryFindSequencesAndPair(remaining);
      if found.Some? {
        return Some(Combination(forced, found.value.0, found.value.1));
      }
    }
    return None;
  }

  /** What can_win reports: whether the hand wins, its huxi and the combination. */
  datatype Verdict = Verdict(won: bool, huxi: nat, combination: Option<Combination>)

  /** can_win on the concealed cards, the drawn card and the committed groups: no
      combination gives (false, 0, none); otherwise the win huxi decides against the
      minimum of 15, and a malformed committed group raises. */
  function CanWinOf(cards: seq<Card>, drawn: Option<Card>, groups: seq<Group>): Result<Verdict>
  {
    var all := cards + DrawnList(drawn);
    match WinCombinationOf(all)
    case None => Ok(Verdict(false, 0, None))
    case Some(combo) =>
      var h := WinHuxi(groups, combo);
      if h.Err? then Err(h.error)
      else if h.value < MIN_HUXI_TO_WIN then Ok(Verdict(false, h.value, Some(combo)))
      else Ok(Verdict(true, h.value, Some(combo)))
  }

  /** Whatever the hand, can_win reports (false, 0, none). */
  lemma NeverWins(cards: seq<Card>, drawn: Option<Card>, groups: seq<Group>)
    ensures CanWinOf(cards, drawn, groups) == Ok(Verdict(false, 0, None))
  {
    NoWinCombination(cards + DrawnList(drawn));
  }

  /** can_win on a hand, which it reads and leaves unchanged. */
  method CanWin(hand: Hand) returns (r: Result<Verdict>)
    ensures r == CanWinOf(hand.cards, hand.drawn, hand.groups)
  {
    var all := hand.cards + DrawnList(hand.drawn);
    var combo := FindWinCombination(all);
    if combo.None? {
      return Ok(Verdict(false, 0, None));
    }
    var h := CalculateWinHuxi(all, hand.groups, combo.value);
    if h.Err? {
      return Err(h.error);
    }
    if h.value < MIN_HUXI_TO_WIN {
      return Ok(Verdict(false, h.value, combo));
    }
    return Ok(Verdict(true, h.value, combo));
  }
}
