/** Huxi (the points a group of cards is worth) of single groups, of the committed groups,
    of the concealed hand and of a winning arrangement (rules/huxi_calculator.py). */
module Huxi {
  import opened Common
  import opened Cards
  import opened Lists
  import opened Patterns
  import opened Hands

  /** Every card of cs is the same card (same value and case). */
  predicate Identical(cs: seq<Card>)
  {
    forall i :: 0 <= i < |cs| ==> cs[i] == cs[0]
  }

  /** The huxi table for three of a kind, by case and by whether the group is exposed. */
  function TripletValue(upper: bool, exposed: bool): nat
  {
    if exposed then (if upper then 3 else 1) else (if upper then 6 else 3)
  }

  /** The huxi table for four of a kind. */
  function QuadValue(upper: bool, exposed: bool): nat
  {
    if exposed then (if upper then 9 else 6) else (if upper then 12 else 9)
  }

  /** The table as a whole: upper beats lower, held beats exposed, four beat three, an
      exposed upper group is worth what the held lower group of its size is, and a four of
      a kind is worth three times its triplet except for an exposed upper one. */
  lemma HuxiTable(u: bool, e: bool)
    ensures TripletValue(false, e) < TripletValue(true, e) && QuadValue(false, e) < QuadValue(true, e)
    ensures TripletValue(u, true) < TripletValue(u, false) && QuadValue(u, true) < QuadValue(u, false)
    ensures TripletValue(u, e) < QuadValue(u, e)
    ensures TripletValue(true, true) == TripletValue(false, false) && QuadValue(true, true) == QuadValue(false, false)
  {
  }

  /** calculate_triplet_huxi: three identical cards score by the table; anything else
      is refused. */
  function TripletHuxi(cs: seq<Card>, exposed: bool): (r: Result<nat>)
    ensures r.Ok? <==> |cs| == 3 && Identical(cs)
    ensures r.Ok? ==> r.value == TripletValue(cs[0].upper, exposed)
    ensures r.Err? ==> r.error == MalformedGroup
  {
    if |cs| != 3 || !Identical(cs) then Err(MalformedGroup)
    else if exposed then Ok(if cs[0].upper then 3 else 1)
    else Ok(if cs[0].upper then 6 else 3)
  }

  /** calculate_quadruplet_huxi: four identical cards score by the table; anything else
      is refused. */
  function QuadHuxi(cs: seq<Card>, exposed: bool): (r: Result<nat>)
    ensures r.Ok? <==> |cs| == 4 && Identical(cs)
    ensures r.Ok? ==> r.value == QuadValue(cs[0].upper, exposed)
    ensures r.Err? ==> r.error == MalformedGroup
  {
    if |cs| != 4 || !Identical(cs) then Err(MalformedGroup)
    else if exposed then Ok(if cs[0].upper then 9 else 6)
    else Ok(if cs[0].upper then 12 else 9)
  }

  /** calculate_sequence_huxi: a special sequence (1-2-3 or 2-7-10) is worth 3 (lower) or
      6 (upper); every other sequence, and every list that is not a sequence, is worth 0. */
  function SequenceHuxi(cs: seq<Card>): (r: nat)
    ensures r > 0 <==> IsSpecialSequence(cs)
    ensures r > 0 ==> r == TripletValue(cs[0].upper, false)
  {
    if |cs| != 3 then 0
    else if !IsValidSequence(cs) then 0
    else if IsSpecialSequence(cs) then (if cs[0].upper then 6 else 3)
    else 0
  }

  /** The groups whose huxi the source can compute: triplets for peng and wei, four of a
      kind for pao and ti; chi and any other tag never fail. */
  predicate WellFormedGroup(g: Group)
  {
    if g.kind == Peng || g.kind == Wei then |g.cards| == 3 && Identical(g.cards)
    else if g.kind == Pao || g.kind == Ti then |g.cards| == 4 && Identical(g.cards)
    else true
  }

  /** The worth of a well-formed committed group: peng is an exposed triplet, wei a held
      one, pao an exposed four, ti a held four, chi a sequence, any other tag nothing. */
  function GroupValue(g: Group): nat
    requires WellFormedGroup(g)
  {
    if g.kind == Peng then TripletValue(g.cards[0].upper, true)
    else if g.kind == Wei then TripletValue(g.cards[0].upper, false)
    else if g.kind == Pao then QuadValue(g.cards[0].upper, true)
    else if g.kind == Ti then QuadValue(g.cards[0].upper, false)
    else if g.kind == Chi then SequenceHuxi(g.cards)
    else 0
  }

  /** The huxi of one committed group, dispatched on its tag as the source does (its
      concealed flag plays no part): it fails exactly on a malformed group and is
      otherwise the group's worth. */
  function GroupHuxi(g: Group): (r: Result<nat>)
    ensures r == if WellFormedGroup(g) then Ok(GroupValue(g)) else Err(MalformedGroup)
  {
    if g.kind == Peng then TripletHuxi(g.cards, true)
    else if g.kind == Wei then TripletHuxi(g.cards, false)
    else if g.kind == Pao then QuadHuxi(g.cards, true)
    else if g.kind == Ti then QuadHuxi(g.cards, false)
    else if g.kind == Chi then Ok(SequenceHuxi(g.cards))
    else Ok(0)
  }

  /** Turning a wei into a ti of the same card adds 6 huxi whatever the case; turning a
      peng into a pao adds 6 for upper and 5 for lower cards. */
  lemma UpgradeGain(c: Card, f: bool)
    ensures GroupHuxi(Group(Ti, [c, c, c, c], f)).value == GroupHuxi(Group(Wei, [c, c, c], f)).value + 6
    ensures GroupHuxi(Group(Pao, [c, c, c, c], f)).value
      == GroupHuxi(Group(Peng, [c, c, c], f)).value + (if c.upper then 6 else 5)
  {
    assert WellFormedGroup(Group(Ti, [c, c, c, c], f)) && WellFormedGroup(Group(Wei, [c, c, c], f));
    assert WellFormedGroup(Group(Pao, [c, c, c, c], f)) && WellFormedGroup(Group(Peng, [c, c, c], f));
  }

  predicate AllWellFormed(gs: seq<Group>)
  {
    forall i :: 0 <= i < |gs| ==> WellFormedGroup(gs[i])
  }

  /** The summed worth of well-formed groups, in order. */
  function GroupsTotal(gs: seq<Group>): nat
    requires AllWellFormed(gs)
  {
    if gs == [] then 0
    else
      var p := gs[..|gs| - 1];
      assert forall i :: 0 <= i < |p| ==> p[i] == gs[i];
      GroupsTotal(p) + GroupValue(gs[|gs| - 1])
  }

  /** The source's loop over the committed groups: it raises at the first malformed group,
      so it fails exactly when one is malformed, and otherwise yields the summed worth. */
  function GroupsHuxi(gs: seq<Group>): Result<nat>
  {
    if AllWellFormed(gs) then Ok(GroupsTotal(gs)) else Err(MalformedGroup)
  }

  /** The worth of groups is additive over concatenation. */
  lemma {:induction false} GroupsTotalAppend(a: seq<Group>, b: seq<Group>)
    requires AllWellFormed(a) && AllWellFormed(b)
    ensures AllWellFormed(a + b)
    ensures GroupsTotal(a + b) == GroupsTotal(a) + GroupsTotal(b)
    decreases |b|
  {
    if b == [] {
      assert a + b == a;
    } else {
      var b' := b[..|b| - 1];
      assert AllWellFormed(b');
      GroupsTotalAppend(a, b');
      assert (a + b)[..|a + b| - 1] == a + b';
      assert (a + b)[|a + b| - 1] == b[|b| - 1];
    }
  }

  /** Each is three identical cards. */
  predicate AllTriplets(ts: seq<seq<Card>>)
  {
    forall i :: 0 <= i < |ts| ==> |ts[i]| == 3 && Identical(ts[i])
  }

  /** Each is four identical cards. */
  predicate AllQuads(qs: seq<seq<Card>>)
  {
    forall i :: 0 <= i < |qs| ==> |qs[i]| == 4 && Identical(qs[i])
  }

  /** The summed worth of triplets held in the hand. */
  function TripletsTotal(ts: seq<seq<Card>>): nat
    requires AllTriplets(ts)
  {
    if ts == [] then 0
    else
      var p := ts[..|ts| - 1];
      assert forall i :: 0 <= i < |p| ==> p[i] == ts[i];
      TripletsTotal(p) + TripletValue(ts[|ts| - 1][0].upper, false)
  }

  /** The summed worth of fours of a kind held in the hand. */
  function QuadsTotal(qs: seq<seq<Card>>): nat
    requires AllQuads(qs)
  {
    if qs == [] then 0
    else
      var p := qs[..|qs| - 1];
      assert forall i :: 0 <= i < |p| ==> p[i] == qs[i];
      QuadsTotal(p) + QuadValue(qs[|qs| - 1][0].upper, false)
  }

  /** Scoring a list of held triplets fails exactly when one is malformed. */
  function TripletsHuxi(ts: seq<seq<Card>>): Result<nat>
  {
    if AllTriplets(ts) then Ok(TripletsTotal(ts)) else Err(MalformedGroup)
  }

  /** Held triplets are worth 3 to 6 each, held fours 9 to 12 each. */
  lemma {:induction false} HeldTotalsBounds(ts: seq<seq<Card>>, qs: seq<seq<Card>>)
    requires AllTriplets(ts) && AllQuads(qs)
    ensures 3 * |ts| <= TripletsTotal(ts) <= 6 * |ts|
    ensures 9 * |qs| <= QuadsTotal(qs) <= 12 * |qs|
    decreases |ts| + |qs|
  {
    if ts != [] {
      var p := ts[..|ts| - 1];
      assert AllTriplets(p) by {
        assert forall i :: 0 <= i < |p| ==> p[i] == ts[i];
      }
      HeldTotalsBounds(p, qs);
    } else if qs != [] {
      var p := qs[..|qs| - 1];
      assert AllQuads(p) by {
        assert forall i :: 0 <= i < |p| ==> p[i] == qs[i];
      }
      HeldTotalsBounds(ts, p);
    }
  }

  /** The summed huxi of sequences; only special sequences contribute. */
  function SequencesHuxi(ss: seq<seq<Card>>): nat
  {
    if ss == [] then 0
    else
      var p := ss[..|ss| - 1];
      SequencesHuxi(p) + SequenceHuxi(ss[|ss| - 1])
  }

  /** Sequences are worth something exactly when one of them is special. */
  lemma SequencesHuxiPositive(ss: seq<seq<Card>>)
    ensures SequencesHuxi(ss) > 0 <==> exists i :: 0 <= i < |ss| && IsSpecialSequence(ss[i])
  {
    if SequencesHuxi(ss) > 0 {
      var j := PositiveHasSpecial(ss);
      assert IsSpecialSequence(ss[j]);
    }
    if exists i :: 0 <= i < |ss| && IsSpecialSequence(ss[i]) {
      var j :| 0 <= j < |ss| && IsSpecialSequence(ss[j]);
      SpecialSequenceCounts(ss, j);
    }
  }

  /** One scoring sequence makes the whole sequence total positive. */
  lemma {:induction false} SpecialSequenceCounts(ss: seq<seq<Card>>, j: nat)
    requires j < |ss| && SequenceHuxi(ss[j]) > 0
    ensures SequencesHuxi(ss) > 0
  {
    var p := ss[..|ss| - 1];
    if j < |p| {
      assert p[j] == ss[j];
      SpecialSequenceCounts(p, j);
    }
  }

  /** A positive sequence total has a scoring sequence to show for it. */
  lemma {:induction false} PositiveHasSpecial(ss: seq<seq<Card>>) returns (j: nat)
    requires SequencesHuxi(ss) > 0
    ensures j < |ss| && SequenceHuxi(ss[j]) > 0
  {
    var n := |ss| - 1;
    if SequenceHuxi(ss[n]) > 0 {
      j := n;
    } else {
      var p := ss[..n];
      j := PositiveHasSpecial(p);
      assert p[j] == ss[j];
    }
  }

  /** Addition in which an error absorbs everything after it, as an exception does. */
  function Plus(a: Result<nat>, b: Result<nat>): Result<nat>
  {
    if a.Err? then a else if b.Err? then b else Ok(a.value + b.value)
  }

  /** A winning arrangement of the concealed cards: triplets, sequences and the pair. */
  datatype Combination = Combination(triplets: seq<seq<Card>>, sequences: seq<seq<Card>>, pair: seq<Card>)

  /** The huxi of a win: committed groups, then the combination's triplets as held
      triplets and its sequences; the pair is worth nothing. */
  function WinHuxi(groups: seq<Group>, combo: Combination): Result<nat>
  {
    Plus(Plus(GroupsHuxi(groups), TripletsHuxi(combo.triplets)), Ok(SequencesHuxi(combo.sequences)))
  }

  /** A win with well-formed parts scores at least 3 per held triplet on top of the
      committed groups, and at most 6 per triplet and per sequence. */
  lemma WinHuxiBounds(groups: seq<Group>, combo: Combination)
    requires AllWellFormed(groups) && AllTriplets(combo.triplets)
    ensures WinHuxi(groups, combo).Ok?
    ensures GroupsTotal(groups) + 3 * |combo.triplets| <= WinHuxi(groups, combo).value
    ensures WinHuxi(groups, combo).value
      <= GroupsTotal(groups) + 6 * |combo.triplets| + 6 * |combo.sequences|
  {
    HeldTotalsBounds(combo.triplets, []);
    SequencesAtMostSix(combo.sequences);
  }

  lemma {:induction false} SequencesAtMostSix(ss: seq<seq<Card>>)
    ensures SequencesHuxi(ss) <= 6 * |ss|
  {
    if ss != [] {
      SequencesAtMostSix(ss[..|ss| - 1]);
    }
  }

  /** The concealed cards the hand scoring leaves after taking out every four of a kind. */
  function AfterQuads(hand: seq<Card>): seq<Card>
  {
    RemoveAll(hand, Flatten(FindQuadruplets(hand)))
  }

  /** What the hand scoring leaves after also taking out every triplet. */
  function AfterTriplets(hand: seq<Card>): seq<Card>
  {
    RemoveAll(AfterQuads(hand), Flatten(FindTriplets(AfterQuads(hand))))
  }

  /** The huxi of the concealed cards: the fours, then the triplets of the rest, then the
      special sequences among what is left. */
  function ConcealedHuxi(hand: seq<Card>): nat
  {
    FoundQuadsScore(hand);
    FoundTripletsScore(AfterQuads(hand));
    QuadsTotal(FindQuadruplets(hand)) + TripletsTotal(FindTriplets(AfterQuads(hand)))
      + SequencesHuxi(FindSequences(AfterTriplets(hand)))
  }

  /** The huxi the hand scoring credits: the committed groups, then every four of a kind
      of the hand as a held four, every triplet of the rest as a held triplet, and the
      special sequences among the candidates of what is then left. The only error is a
      malformed committed group: what the hand search finds always scores. */
  function HandHuxi(hand: seq<Card>, groups: seq<Group>): Result<nat>
  {
    Plus(GroupsHuxi(groups), Ok(ConcealedHuxi(hand)))
  }

  /** Every four of a kind the hand search reports is well formed. */
  lemma FoundQuadsScore(hand: seq<Card>)
    ensures AllQuads(FindQuadruplets(hand))
  {
    var qs := FindQuadruplets(hand);
    forall i | 0 <= i < |qs| ensures |qs[i]| == 4 && Identical(qs[i]) {
      assert qs[i] in qs;
      assert qs[i] == Repeat(qs[i][0], 4);
    }
  }

  /** Every triplet the hand search reports is well formed. */
  lemma FoundTripletsScore(cards: seq<Card>)
    ensures AllTriplets(FindTriplets(cards))
  {
    var ts := FindTriplets(cards);
    forall i | 0 <= i < |ts| ensures |ts[i]| == 3 && Identical(ts[i]) {
      assert ts[i] in ts;
      assert ts[i] == Repeat(ts[i][0], 3);
    }
  }

  /** The hand scoring fails exactly on a malformed committed group; otherwise it is the
      committed groups' worth plus the concealed cards', at least 9 per four of a kind. */
  lemma HandHuxiParts(hand: seq<Card>, groups: seq<Group>)
    ensures HandHuxi(hand, groups).Err? <==> !AllWellFormed(groups)
    ensures HandHuxi(hand, groups).Err? ==> HandHuxi(hand, groups).error == MalformedGroup
    ensures HandHuxi(hand, groups).Ok? ==>
      && HandHuxi(hand, groups).value == GroupsTotal(groups) + ConcealedHuxi(hand)
      && HandHuxi(hand, groups).value >= GroupsTotal(groups) + 9 * |FindQuadruplets(hand)|
  {
    ConcealedAtLeastQuads(hand);
  }

  /** Every four of a kind found in the hand is worth at least 9 huxi. */
  lemma ConcealedAtLeastQuads(hand: seq<Card>)
    ensures ConcealedHuxi(hand) >= 9 * |FindQuadruplets(hand)|
  {
    FoundQuadsScore(hand);
    HeldTotalsBounds([], FindQuadruplets(hand));
  }

  /** Every card of a list in ss occurs in the flattening at least as often. */
  lemma {:induction false} FlattenIncludes(ss: seq<seq<Card>>, g: seq<Card>)
    requires g in ss
    ensures multiset(g) <= multiset(Flatten(ss))
  {
    assert ss == [ss[0]] + ss[1..];
    if g != ss[0] {
      FlattenIncludes(ss[1..], g);
    }
  }

  /** A four of a kind in the hand is scored once, as a four: none of its cards is left
      for the triplet pass. */
  lemma QuadsNotRecounted(hand: seq<Card>, c: Card)
    requires multiset(hand)[c] == 4
    ensures multiset(AfterQuads(hand))[c] == 0
    ensures Repeat(c, 3) !in FindTriplets(AfterQuads(hand))
  {
    var qs := FindQuadruplets(hand);
    QuadsFoundExactly(hand, c);
    FlattenIncludes(qs, Repeat(c, 4));
    TripletsFoundExactly(AfterQuads(hand), c);
  }

  /** The running total of the held fours grows by one four's worth per step. */
  lemma QuadsTotalStep(qs: seq<seq<Card>>, i: nat)
    requires AllQuads(qs) && i < |qs|
    ensures AllQuads(qs[..i]) && AllQuads(qs[..i + 1])
    ensures QuadsTotal(qs[..i + 1]) == QuadsTotal(qs[..i]) + QuadHuxi(qs[i], false).value
  {
    var p := qs[..i + 1];
    assert p[..|p| - 1] == qs[..i] && p[|p| - 1] == qs[i];
  }

  /** The running total of the held triplets grows by one triplet's worth per step. */
  lemma TripletsTotalStep(ts: seq<seq<Card>>, i: nat)
    requires AllTriplets(ts) && i < |ts|
    ensures AllTriplets(ts[..i]) && AllTriplets(ts[..i + 1])
    ensures TripletsTotal(ts[..i + 1]) == TripletsTotal(ts[..i]) + TripletHuxi(ts[i], false).value
  {
    var p := ts[..i + 1];
    assert p[..|p| - 1] == ts[..i] && p[|p| - 1] == ts[i];
  }

  /** Taking out the groups from index i on is taking out group i, then the rest. */
  lemma RemoveHead(cards: seq<Card>, gs: seq<seq<Card>>, i: nat)
    requires i < |gs|
    ensures RemoveAll(cards, Flatten(gs[i..])) == RemoveAll(RemoveAll(cards, gs[i]), Flatten(gs[i + 1..]))
  {
    assert gs[i..] == [gs[i]] + gs[i + 1..];
    assert Flatten(gs[i..]) == gs[i] + Flatten(gs[i + 1..]);
    RemoveAllAppend(cards, gs[i], Flatten(gs[i + 1..]));
  }

  /** The source's loop over the committed groups, shared by both scorings. */
  method SumGroupsHuxi(groups: seq<Group>) returns (r: Result<nat>)
    ensures r == GroupsHuxi(groups)
  {
    var total: nat := 0;
    for i := 0 to |groups|
      invariant AllWellFormed(groups[..i]) && total == GroupsTotal(groups[..i])
    {
      var h := GroupHuxi(groups[i]);
      if h.Err? {
        return Err(h.error);
      }
      assert groups[..i + 1][..i] == groups[..i];
      total := total + h.value;
    }
    assert groups[..|groups|] == groups;
    r := Ok(total);
  }

  /** The loop over a combination's triplets, each scored as held. */
  method SumTripletsHuxi(ts: seq<seq<Card>>) returns (r: Result<nat>)
    ensures r == TripletsHuxi(ts)
  {
    var total: nat := 0;
    for i := 0 to |ts|
      invariant AllTriplets(ts[..i]) && total == TripletsTotal(ts[..i])
    {
      var h := TripletHuxi(ts[i], false);
      if h.Err? {
        return Err(h.error);
      }
      assert ts[..i + 1][..i] == ts[..i];
      total := total + h.value;
    }
    assert ts[..|ts|] == ts;
    r := Ok(total);
  }

  /** The loop over a combination's sequences. */
  method SumSequencesHuxi(ss: seq<seq<Card>>) returns (total: nat)
    ensures total == SequencesHuxi(ss)
  {
    total := 0;
    for i := 0 to |ss|
      invariant total == SequencesHuxi(ss[..i])
    {
      assert ss[..i + 1][..i] == ss[..i];
      total := total + SequenceHuxi(ss[i]);
    }
    assert ss[..|ss|] == ss;
  }

  /** calculate_win_huxi: adds up the committed groups, then the combination's triplets,
      then its sequences, stopping at the first malformed group. The source also takes the
      list of all cards and ignores it. */
  method CalculateWinHuxi(allCards: seq<Card>, groups: seq<Group>, combo: Combination) returns (r: Result<nat>)
    ensures r == WinHuxi(groups, combo)
  {
    var g := SumGroupsHuxi(groups);
    if g.Err? {
      return g;
    }
    var t := SumTripletsHuxi(combo.triplets);
    if t.Err? {
      return t;
    }
    var q := SumSequencesHuxi(combo.sequences);
    r := Ok(g.value + t.value + q);
  }

  /** The hand scoring's first pass over the fours of a kind it found: each scored as
      held and taken out of a copy of the hand. */
  method TakeQuads(hand: seq<Card>, quads: seq<seq<Card>>) returns (total: nat, remaining: seq<Card>)
    requires AllQuads(quads)
    ensures total == QuadsTotal(quads)
    ensures remaining == RemoveAll(hand, Flatten(quads))
  {
    total, remaining := 0, hand;
    assert quads[0..] == quads;
    for i := 0 to |quads|
      invariant total == QuadsTotal(quads[..i])
      invariant RemoveAll(remaining, Flatten(quads[i..])) == RemoveAll(hand, Flatten(quads))
    {
      QuadsTotalStep(quads, i);
      RemoveHead(remaining, quads, i);
      total, remaining := total + QuadHuxi(quads[i], false).value, RemoveAll(remaining, quads[i]);
    }
    assert quads[..|quads|] == quads;
    assert quads[|quads|..] == [];
  }

  /** The second pass, over the triplets found in what is left. */
  method TakeTriplets(cards: seq<Card>, triplets: seq<seq<Card>>) returns (total: nat, remaining: seq<Card>)
    requires AllTriplets(triplets)
    ensures total == TripletsTotal(triplets)
    ensures remaining == RemoveAll(cards, Flatten(triplets))
  {
    total, remaining := 0, cards;
    assert triplets[0..] == triplets;
    for i := 0 to |triplets|
      invariant total == TripletsTotal(triplets[..i])
      invariant RemoveAll(remaining, Flatten(triplets[i..])) == RemoveAll(cards, Flatten(triplets))
    {
      TripletsTotalStep(triplets, i);
      RemoveHead(remaining, triplets, i);
      total, remaining := total + TripletHuxi(triplets[i], false).value, RemoveAll(remaining, triplets[i]);
    }
    assert triplets[..|triplets|] == triplets;
    assert triplets[|triplets|..] == [];
  }

  /** The last pass: the special sequences among the candidates, each scored and taken
      out; what is left afterwards is not used. */
  method TakeSpecialSequences(cards: seq<Card>, sequences: seq<seq<Card>>) returns (total: nat, remaining: seq<Card>)
    ensures total == SequencesHuxi(sequences)
  {
    total, remaining := 0, cards;
    for i := 0 to |sequences|
      invariant total == SequencesHuxi(sequences[..i])
    {
      assert sequences[..i + 1][..i] == sequences[..i];
      var h := SequenceHuxi(sequences[i]);
      if h > 0 {
        total := total + h;
        remaining := RemoveAll(remaining, sequences[i]);
      }
    }
    assert sequences[..|sequences|] == sequences;
  }

  /** calculate_hand_huxi: adds up the committed groups, then takes every four of a kind
      out of a copy of the hand, then every triplet of what is left, then scores the
      special sequences among the remaining candidates. */
  method CalculateHandHuxi(hand: seq<Card>, groups: seq<Group>) returns (r: Result<nat>)
    ensures r == HandHuxi(hand, groups)
  {
    var g := SumGroupsHuxi(groups);
    if g.Err? {
      return g;
    }
    var c := ScoreConcealed(hand);
    r := Plus(g, Ok(c));
  }

  /** The concealed half of calculate_hand_huxi: takes every four of a kind out of a copy
      of the hand, then every triplet of what is left, then scores the special sequences
      among the remaining candidates. */
  method ScoreConcealed(hand: seq<Card>) returns (total: nat)
    ensures total == ConcealedHuxi(hand)
  {
    var quads := FindQuadruplets(hand);
    FoundQuadsScore(hand);
    var q, afterQuads := TakeQuads(hand, quads);
    var triplets := FindTriplets(afterQuads);
    FoundTripletsScore(afterQuads);
    var t, afterTriplets := TakeTriplets(afterQuads, triplets);
    var p, rest := TakeSpecialSequences(afterTriplets, FindSequences(afterTriplets));
    total := q + t + p;
  }
}
