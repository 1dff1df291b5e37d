/** A player's group-forming actions over a hand (core/player.py): the legality tests for
    peng, pao and chi, the wei, ti, peng, pao and chi commits with the upgrade of a wei
    group to a ti or pao, and the discard. */
module Players {
  import opened Common
  import opened Cards
  import opened Lists
  import opened Patterns
  import opened Hands

  /** The first n cards of s equal to x, in order: the source's list comprehension
      followed by the slice [:n]. */
  function FirstEqual(s: seq<Card>, x: Card, n: nat): (r: seq<Card>)
    ensures r == Repeat(x, if multiset(s)[x] < n then multiset(s)[x] else n)
  {
    var m := Members(s, x);
    if |m| <= n then m else m[..n]
  }

  /** The size of the first 'wei' group that starts with c, or 0 when there is none. */
  function WeiCount(gs: seq<Group>, c: Card): nat
  {
    match WeiIndex(gs, c)
    case None => 0
    case Some(i) => |gs[i].cards|
  }

  /** The group list with the group at index i taken out (list.pop(i)). */
  function Without(gs: seq<Group>, i: nat): (r: seq<Group>)
    requires i < |gs|
    ensures |r| == |gs| - 1
    ensures forall j :: 0 <= j < i ==> r[j] == gs[j]
    ensures forall j :: i <= j < |r| ==> r[j] == gs[j + 1]
  {
    gs[..i] + gs[i + 1..]
  }

  /** The chi candidate for positions i < j of s: the pair when it forms a sequence with c. */
  function ChiCell(s: seq<Card>, c: Card, i: nat, j: nat): seq<seq<Card>>
    requires i < j < |s|
  {
    if IsValidSequence([c, s[i], s[j]]) then [[s[i], s[j]]] else []
  }

  /** The chi candidates pairing position i with positions i+1 .. m-1, in order. */
  function ChiRow(s: seq<Card>, c: Card, i: nat, m: nat): seq<seq<Card>>
    requires i < m <= |s|
    decreases m
  {
    if m == i + 1 then [] else ChiRow(s, c, i, m - 1) + ChiCell(s, c, i, m - 1)
  }

  /** The chi candidates whose first position is below n, in the order of the source's
      nested loops. */
  function ChiRows(s: seq<Card>, c: Card, n: nat): seq<seq<Card>>
    requires n <= |s|
  {
    if n == 0 then [] else ChiRows(s, c, n - 1) + ChiRow(s, c, n - 1, |s|)
  }

  /** Every chi candidate for c over s. */
  function ChiCandidates(s: seq<Card>, c: Card): seq<seq<Card>>
  {
    ChiRows(s, c, |s|)
  }

  /** A pair of cards that chi may take: two cards of s at distinct positions forming a
      sequence with c, so both of c's case. */
  predicate ChiPair(s: seq<Card>, c: Card, p: seq<Card>)
  {
    && |p| == 2
    && IsValidSequence([c, p[0], p[1]])
    && multiset(p) <= multiset(s)
    && p[0].upper == c.upper && p[1].upper == c.upper
  }

  /** Two distinct positions of s contribute both their cards. */
  lemma TwoPositions(s: seq<Card>, i: nat, j: nat)
    requires i < j < |s|
    ensures multiset([s[i], s[j]]) <= multiset(s)
  {
    assert s == s[..i] + [s[i]] + s[i + 1..j] + [s[j]] + s[j + 1..];
  }

  lemma {:induction false} ChiRowSound(s: seq<Card>, c: Card, i: nat, m: nat)
    requires i < m <= |s|
    ensures forall p :: p in ChiRow(s, c, i, m) ==> ChiPair(s, c, p)
    decreases m
  {
    if m > i + 1 {
      ChiRowSound(s, c, i, m - 1);
      ChiCellSound(s, c, i, m - 1);
    }
  }

  lemma ChiCellSound(s: seq<Card>, c: Card, i: nat, j: nat)
    requires i < j < |s|
    ensures forall p :: p in ChiCell(s, c, i, j) ==> ChiPair(s, c, p)
  {
    if IsValidSequence([c, s[i], s[j]]) {
      TwoPositions(s, i, j);
      assert SameCase([c, s[i], s[j]]);
      assert [c, s[i], s[j]][1] == s[i] && [c, s[i], s[j]][2] == s[j];
      assert ChiPair(s, c, [s[i], s[j]]);
    }
  }

  lemma {:induction false} ChiRowsSound(s: seq<Card>, c: Card, n: nat)
    requires n <= |s|
    ensures forall p :: p in ChiRows(s, c, n) ==> ChiPair(s, c, p)
  {
    if n > 0 {
      ChiRowsSound(s, c, n - 1);
      ChiRowSound(s, c, n - 1, |s|);
    }
  }

  /** can_chi proposes only pairs of the hand's own cards, at distinct positions, that form
      a sequence with the offered card, hence of its case. */
  lemma ChiSound(s: seq<Card>, c: Card)
    ensures forall p :: p in ChiCandidates(s, c) ==> ChiPair(s, c, p)
  {
    ChiRowsSound(s, c, |s|);
  }

  lemma {:induction false} ChiRowComplete(s: seq<Card>, c: Card, i: nat, j: nat, m: nat)
    requires i < j < m <= |s| && IsValidSequence([c, s[i], s[j]])
    ensures [s[i], s[j]] in ChiRow(s, c, i, m)
    decreases m
  {
    if j < m - 1 {
      ChiRowComplete(s, c, i, j, m - 1);
    } else {
      assert ChiCell(s, c, i, j) == [[s[i], s[j]]];
    }
  }

  lemma {:induction false} ChiRowsComplete(s: seq<Card>, c: Card, i: nat, j: nat, n: nat)
    requires i < n <= |s| && i < j < |s| && IsValidSequence([c, s[i], s[j]])
    ensures [s[i], s[j]] in ChiRows(s, c, n)
  {
    if i < n - 1 {
      ChiRowsComplete(s, c, i, j, n - 1);
    } else {
      ChiRowComplete(s, c, i, j, |s|);
    }
  }

  /** can_chi proposes every pair of positions i < j that forms a sequence with c. */
  lemma ChiComplete(s: seq<Card>, c: Card, i: nat, j: nat)
    requires i < j < |s| && IsValidSequence([c, s[i], s[j]])
    ensures [s[i], s[j]] in ChiCandidates(s, c)
  {
    ChiRowsComplete(s, c, i, j, |s|);
  }

  /** Moving `removed` out of the concealed cards into a new group g, with the drawn card
      going from d to d', changes the hand's cards by exactly `extra`. */
  lemma AddGroupTiles(cards: seq<Card>, d: Option<Card>, d': Option<Card>, gs: seq<Group>,
                      removed: seq<Card>, g: Group, extra: multiset<Card>)
    requires multiset(removed) <= multiset(cards)
    requires multiset(g.cards) + multiset(DrawnList(d')) == multiset(removed) + multiset(DrawnList(d)) + extra
    ensures multiset(RemoveAll(cards, removed) + DrawnList(d') + GroupTiles(gs + [g]))
      == multiset(cards + DrawnList(d) + GroupTiles(gs)) + extra
  {
    GroupTilesAppend(gs, [g]);
    assert GroupTiles([g]) == g.cards;
    Rearrange(multiset(cards), multiset(removed), multiset(DrawnList(d)), multiset(DrawnList(d')),
              multiset(GroupTiles(gs)), multiset(g.cards), extra);
  }

  /** A commit that moves n concealed copies of x into a new group g made of those copies
      and x, where x is either the drawn card (which is then cleared) or a card from
      outside the hand: the hand keeps its cards in the first case and gains x in the
      second. */
  lemma CommitTiles(cards: seq<Card>, d: Option<Card>, d': Option<Card>, gs: seq<Group>,
                    x: Card, n: nat, removed: seq<Card>, g: Group, fromDrawn: bool)
    requires removed == Repeat(x, n) && n <= multiset(cards)[x]
    requires g.cards == removed + [x]
    requires if fromDrawn then d == Some(x) && d' == None else d' == d
    ensures fromDrawn ==>
      multiset(RemoveAll(cards, removed) + DrawnList(d') + GroupTiles(gs + [g]))
      == multiset(cards + DrawnList(d) + GroupTiles(gs))
    ensures !fromDrawn ==>
      multiset(RemoveAll(cards, removed) + DrawnList(d') + GroupTiles(gs + [g]))
      == multiset(cards + DrawnList(d) + GroupTiles(gs)) + multiset{x}
  {
    CopiesIncluded(multiset(cards), x, n);
    var before := multiset(cards + DrawnList(d) + GroupTiles(gs));
    if fromDrawn {
      JoinCounts(removed, x, d, d', multiset{});
      AddGroupTiles(cards, d, d', gs, removed, g, multiset{});
      assert before + multiset{} == before;
    } else {
      JoinCounts(removed, x, d, d', multiset{x});
      AddGroupTiles(cards, d, d', gs, removed, g, multiset{x});
    }
  }

  /** The counts behind a commit: the group gains x besides the removed cards, and x
      comes either from the drawn card or from outside the hand. */
  lemma JoinCounts(removed: seq<Card>, x: Card, d: Option<Card>, d': Option<Card>, extra: multiset<Card>)
    requires (d == Some(x) && d' == None && extra == multiset{}) || (d' == d && extra == multiset{x})
    ensures multiset(removed + [x]) + multiset(DrawnList(d')) == multiset(removed) + multiset(DrawnList(d)) + extra
  {
    var r, dm, dm' := multiset(removed), multiset(DrawnList(d)), multiset(DrawnList(d'));
    assert multiset(removed + [x]) == r + multiset{x};
    if d == Some(x) && d' == None && extra == multiset{} {
      assert dm == multiset{x} && dm' == multiset{};
    }
    forall y ensures (r + multiset{x} + dm')[y] == (r + dm + extra)[y] {
    }
  }

  /** An upgrade that takes group i out and commits g, its cards and x, in its place, where
      x is either the drawn card (then cleared) or a card from outside the hand. */
  lemma UpgradeTiles(cards: seq<Card>, d: Option<Card>, d': Option<Card>, gs: seq<Group>,
                     i: nat, x: Card, g: Group, fromDrawn: bool)
    requires i < |gs|
    requires g.cards == gs[i].cards + [x]
    requires if fromDrawn then d == Some(x) && d' == None else d' == d
    ensures fromDrawn ==>
      multiset(cards + DrawnList(d') + GroupTiles(Without(gs, i) + [g]))
      == multiset(cards + DrawnList(d) + GroupTiles(gs))
    ensures !fromDrawn ==>
      multiset(cards + DrawnList(d') + GroupTiles(Without(gs, i) + [g]))
      == multiset(cards + DrawnList(d) + GroupTiles(gs)) + multiset{x}
  {
    var extra := if fromDrawn then multiset{} else multiset{x};
    assert multiset(g.cards) + multiset(DrawnList(d')) == multiset(gs[i].cards) + multiset(DrawnList(d)) + extra;
    WithoutTiles(gs, i);
    GroupTilesAppend(Without(gs, i), [g]);
    assert GroupTiles([g]) == g.cards;
    Swap(multiset(cards), multiset(GroupTiles(Without(gs, i))), multiset(gs[i].cards),
         multiset(DrawnList(d)), multiset(DrawnList(d')), multiset(g.cards), extra);
  }

  /** Taking group i out of the list takes exactly its cards out of the group tiles. */
  lemma WithoutTiles(gs: seq<Group>, i: nat)
    requires i < |gs|
    ensures multiset(GroupTiles(gs)) == multiset(GroupTiles(Without(gs, i))) + multiset(gs[i].cards)
  {
    GroupTilesSplitAt(gs, i);
    GroupTilesAppend(gs[..i], gs[i + 1..]);
    var a, b, c := multiset(GroupTiles(gs[..i])), multiset(GroupTiles(gs[i + 1..])), multiset(gs[i].cards);
    assert multiset(GroupTiles(gs)) == a + (c + b);
    assert multiset(GroupTiles(Without(gs, i))) == a + b;
    forall x ensures (a + (c + b))[x] == ((a + b) + c)[x] {
    }
  }

  /** Multiset bookkeeping of an upgrade: group cards gi are replaced by c. */
  lemma Swap(m: multiset<Card>, w: multiset<Card>, gi: multiset<Card>, d: multiset<Card>,
             d': multiset<Card>, c: multiset<Card>, e: multiset<Card>)
    requires c + d' == gi + d + e
    ensures m + d' + (w + c) == m + d + (w + gi) + e
  {
    forall x ensures (m + d' + (w + c))[x] == (m + d + (w + gi) + e)[x] {
      assert (c + d')[x] == (gi + d + e)[x];
    }
  }

  /** Multiset bookkeeping shared by the commits: take r out of m, then add the rest. */
  lemma Rearrange(m: multiset<Card>, r: multiset<Card>, d: multiset<Card>, d': multiset<Card>,
                  g: multiset<Card>, c: multiset<Card>, e: multiset<Card>)
    requires r <= m && c + d' == r + d + e
    ensures (m - r) + d' + (g + c) == m + d + g + e
  {
    forall x ensures ((m - r) + d' + (g + c))[x] == (m + d + g + e)[x] {
      assert (c + d')[x] == (r + d + e)[x];
    }
  }

  class Player {
    const hand: Hand

    /** A player starts with an empty hand. */
    constructor()
      ensures fresh(hand)
      ensures hand.cards == [] && hand.drawn == None && hand.groups == []
    {
      hand := new Hand();
    }

    /** can_peng: at least two concealed cards equal c; the drawn card does not count. */
    predicate CanPeng(c: Card)
      reads hand
      ensures CanPeng(c) <==> multiset(hand.cards)[c] >= 2
    {
      hand.CountExact(c, false) >= 2
    }

    /** can_pao: the concealed cards equal to c and the cards of the first 'wei' group
        starting with c number exactly three. */
    predicate CanPao(c: Card)
      reads hand
      ensures WeiIndex(hand.groups, c).None? ==> (CanPao(c) <==> multiset(hand.cards)[c] == 3)
      ensures WeiIndex(hand.groups, c).Some? ==>
        (CanPao(c) <==>
          multiset(hand.cards)[c] + |hand.groups[WeiIndex(hand.groups, c).value].cards| == 3)
    {
      hand.CountExact(c, false) + WeiCount(hand.groups, c) == 3
    }

    /** can_chi: every pair of concealed cards at positions i < j that makes a sequence
        with c, scanned in the order of the source's nested loops. */
    method CanChi(c: Card) returns (r: seq<seq<Card>>)
      ensures r == ChiCandidates(hand.cards, c)
    {
      var s := hand.cards;
      r := [];
      for i := 0 to |s|
        invariant r == ChiRows(s, c, i)
      {
        for j := i + 1 to |s|
          invariant r == ChiRows(s, c, i) + ChiRow(s, c, i, j)
        {
          if IsValidSequence([c, s[i], s[j]]) {
            r := r + [[s[i], s[j]]];
          }
        }
      }
    }

    /** The removal loop the commits share: remove_card for each listed card, the result
        ignored, so an absent card is skipped. */
    method RemoveFromHand(cs: seq<Card>)
      modifies hand
      ensures hand.cards == RemoveAll(old(hand.cards), cs)
      ensures hand.drawn == old(hand.drawn) && hand.groups == old(hand.groups)
    {
      for k := 0 to |cs|
        invariant RemoveAll(hand.cards, cs[k..]) == RemoveAll(old(hand.cards), cs)
        invariant hand.drawn == old(hand.drawn) && hand.groups == old(hand.groups)
      {
        RemoveAllStep(hand.cards, cs, k);
        var removed := hand.RemoveCard(cs[k]);
      }
      assert cs[|cs|..] == [];
    }

    /** The commit the source writes out in do_wei, do_ti, do_peng and do_pao: the first
        |copies| concealed cards equal to x are removed one by one and, followed by x,
        appended as a new group; when x is the drawn card, the drawn card is cleared. */
    method CommitCopies(copies: seq<Card>, x: Card, kind: GroupKind, concealed: bool, fromDrawn: bool)
      modifies hand
      requires copies == Repeat(x, |copies|) && |copies| <= multiset(hand.cards)[x]
      requires fromDrawn ==> hand.drawn == Some(x)
      ensures hand.cards == RemoveAll(old(hand.cards), copies)
      ensures hand.groups == old(hand.groups) + [Group(kind, copies + [x], concealed)]
      ensures hand.drawn == if fromDrawn then None else old(hand.drawn)
      ensures fromDrawn ==> multiset(hand.Tiles()) == old(multiset(hand.Tiles()))
      ensures !fromDrawn ==> multiset(hand.Tiles()) == old(multiset(hand.Tiles())) + multiset{x}
    {
      ghost var cards0, drawn0, groups0 := hand.cards, hand.drawn, hand.groups;
      var same := FirstEqual(hand.cards, x, |copies|);
      RemoveFromHand(same);
      hand.AddExposedGroup(kind, same + [x], concealed);
      if fromDrawn {
        hand.ClearDrawnCard();
      }
      CommitTiles(cards0, drawn0, hand.drawn, groups0, x, |copies|, same, Group(kind, same + [x], concealed), fromDrawn);
    }

    /** The upgrade the source writes out in do_ti and do_pao: the 'wei' group at index i is
        popped and its cards, followed by x, appended as an exposed group; when x is the
        drawn card, the drawn card is cleared. */
    method UpgradeGroup(i: nat, x: Card, kind: GroupKind, fromDrawn: bool)
      modifies hand
      requires i < |hand.groups|
      requires fromDrawn ==> hand.drawn == Some(x)
      ensures hand.cards == old(hand.cards)
      ensures hand.groups == Without(old(hand.groups), i) + [Group(kind, old(hand.groups)[i].cards + [x], false)]
      ensures hand.drawn == if fromDrawn then None else old(hand.drawn)
      ensures fromDrawn ==> multiset(hand.Tiles()) == old(multiset(hand.Tiles()))
      ensures !fromDrawn ==> multiset(hand.Tiles()) == old(multiset(hand.Tiles())) + multiset{x}
    {
      ghost var drawn0, groups0 := hand.drawn, hand.groups;
      var merged := hand.groups[i].cards + [x];
      hand.groups := Without(hand.groups, i);
      hand.AddExposedGroup(kind, merged, false);
      if fromDrawn {
        hand.ClearDrawnCard();
      }
      UpgradeTiles(hand.cards, drawn0, hand.drawn, groups0, i, x, Group(kind, merged, false), fromDrawn);
    }

    /** do_wei: the two concealed copies of the drawn card and the drawn card itself become
        a concealed 'wei' group; refused unless can_wei. */
    method DoWei() returns (r: Outcome)
      modifies hand
      ensures !old(hand.CanWei()) ==> r == Fail(IllegalGroupFormation) && unchanged(hand)
      ensures old(hand.CanWei()) ==>
        var d := old(hand.drawn).value;
        && r == Done
        && hand.cards == RemoveAll(old(hand.cards), [d, d])
        && multiset(hand.cards)[d] == 0
        && hand.groups == old(hand.groups) + [Group(Wei, [d, d, d], true)]
        && hand.drawn == None
      ensures multiset(hand.Tiles()) == old(multiset(hand.Tiles()))
    {
      if !hand.CanWei() {
        return Fail(IllegalGroupFormation);
      }
      var d := hand.drawn.value;
      assert [d, d] + [d] == [d, d, d];
      CommitCopies([d, d], d, Wei, true, true);
      r := Done;
    }

    /** do_ti: the drawn card joins the first 'wei' group starting with it, which is taken
        out and re-committed as an exposed 'ti' group; without such a group, the three
        concealed copies and the drawn card form the 'ti'. Refused unless can_ti. */
    method DoTi() returns (r: Outcome)
      modifies hand
      ensures !old(hand.CanTi()) ==> r == Fail(IllegalGroupFormation) && unchanged(hand)
      ensures old(hand.CanTi()) ==> r == Done && hand.drawn == None
      ensures old(hand.CanTi()) && WeiIndex(old(hand.groups), old(hand.drawn).value).Some? ==>
        var i := WeiIndex(old(hand.groups), old(hand.drawn).value).value;
        && hand.cards == old(hand.cards)
        && hand.groups == Without(old(hand.groups), i)
                          + [Group(Ti, old(hand.groups)[i].cards + [old(hand.drawn).value], false)]
      ensures old(hand.CanTi()) && WeiIndex(old(hand.groups), old(hand.drawn).value).None? ==>
        var d := old(hand.drawn).value;
        && hand.cards == RemoveAll(old(hand.cards), [d, d, d])
        && multiset(hand.cards)[d] == 0
        && hand.groups == old(hand.groups) + [Group(Ti, [d, d, d, d], false)]
      ensures multiset(hand.Tiles()) == old(multiset(hand.Tiles()))
    {
      if !hand.CanTi() {
        return Fail(IllegalGroupFormation);
      }
      var d := hand.drawn.value;
      match WeiIndex(hand.groups, d) {
        case Some(i) =>
          UpgradeGroup(i, d, Ti, true);
        case None =>
          assert [d, d, d] + [d] == [d, d, d, d];
          CommitCopies([d, d, d], d, Ti, false, true);
      }
      r := Done;
    }

    /** do_peng: two concealed copies of the offered card and the card itself form an
        exposed 'peng' group; the drawn card is untouched. Refused unless can_peng. */
    method DoPeng(c: Card) returns (r: Outcome)
      modifies hand
      ensures !old(CanPeng(c)) ==> r == Fail(IllegalGroupFormation) && unchanged(hand)
      ensures old(CanPeng(c)) ==>
        && r == Done
        && hand.cards == RemoveAll(old(hand.cards), [c, c])
        && multiset(hand.cards)[c] == old(multiset(hand.cards)[c]) - 2
        && hand.groups == old(hand.groups) + [Group(Peng, [c, c, c], false)]
        && hand.drawn == old(hand.drawn)
        && multiset(hand.Tiles()) == old(multiset(hand.Tiles())) + multiset{c}
    {
      if !CanPeng(c) {
        return Fail(IllegalGroupFormation);
      }
      assert [c, c] + [c] == [c, c, c];
      CommitCopies([c, c], c, Peng, false, false);
      r := Done;
    }

    /** do_pao: the offered card joins the first 'wei' group starting with it, which is
        taken out and re-committed as an exposed 'pao' group; without such a group, three
        concealed copies and the card form the 'pao'. Refused unless can_pao. */
    method DoPao(c: Card) returns (r: Outcome)
      modifies hand
      ensures !old(CanPao(c)) ==> r == Fail(IllegalGroupFormation) && unchanged(hand)
      ensures old(CanPao(c)) ==> r == Done && hand.drawn == old(hand.drawn)
      ensures old(CanPao(c)) && WeiIndex(old(hand.groups), c).Some? ==>
        var i := WeiIndex(old(hand.groups), c).value;
        && hand.cards == old(hand.cards)
        && hand.groups == Without(old(hand.groups), i) + [Group(Pao, old(hand.groups)[i].cards + [c], false)]
      ensures old(CanPao(c)) && WeiIndex(old(hand.groups), c).None? ==>
        && hand.cards == RemoveAll(old(hand.cards), [c, c, c])
        && multiset(hand.cards)[c] == 0
        && hand.groups == old(hand.groups) + [Group(Pao, [c, c, c, c], false)]
      ensures old(CanPao(c)) ==> multiset(hand.Tiles()) == old(multiset(hand.Tiles())) + multiset{c}
    {
      if !CanPao(c) {
        return Fail(IllegalGroupFormation);
      }
      match WeiIndex(hand.groups, c) {
        case Some(i) =>
          UpgradeGroup(i, c, Pao, false);
        case None =>
          assert [c, c, c] + [c] == [c, c, c, c];
          CommitCopies([c, c, c], c, Pao, false, false);
      }
      r := Done;
    }

    /** do_chi: the offered card and the two chosen concealed cards form an exposed 'chi'
        group. Refused with nothing changed unless they make a sequence; when a chosen card
        is missing the source raises part way, after the earlier removals took effect. */
    method DoChi(c: Card, handCards: seq<Card>) returns (r: Outcome)
      modifies hand
      ensures !IsValidSequence([c] + handCards) ==> r == Fail(IllegalGroupFormation) && unchanged(hand)
      ensures IsValidSequence([c] + handCards) ==>
        && hand.cards == RemoveEach(old(hand.cards), handCards).0
        && (r == if RemoveEach(old(hand.cards), handCards).1 then Done else Fail(TileNotOwned))
        && hand.drawn == old(hand.drawn)
      ensures IsValidSequence([c] + handCards) && r.Fail? ==> hand.groups == old(hand.groups)
      ensures r == Done ==>
        && hand.groups == old(hand.groups) + [Group(Chi, [c] + handCards, false)]
        && multiset(handCards) <= old(multiset(hand.cards))
        && multiset(hand.Tiles()) == old(multiset(hand.Tiles())) + multiset{c}
    {
      if !IsValidSequence([c] + handCards) {
        return Fail(IllegalGroupFormation);
      }
      r := CommitChi(c, handCards);
    }

    /** The commit half of do_chi, once the sequence check has passed. */
    method CommitChi(c: Card, handCards: seq<Card>) returns (r: Outcome)
      modifies hand
      ensures hand.cards == RemoveEach(old(hand.cards), handCards).0
      ensures r == if RemoveEach(old(hand.cards), handCards).1 then Done else Fail(TileNotOwned)
      ensures hand.drawn == old(hand.drawn)
      ensures r.Fail? ==> hand.groups == old(hand.groups)
      ensures r == Done ==>
        && hand.groups == old(hand.groups) + [Group(Chi, [c] + handCards, false)]
        && multiset(handCards) <= old(multiset(hand.cards))
        && multiset(hand.Tiles()) == old(multiset(hand.Tiles())) + multiset{c}
    {
      ghost var cards0, groups0 := hand.cards, hand.groups;
      var ok := RemoveEachFromHand(handCards);
      if !ok {
        return Fail(TileNotOwned);
      }
      RemoveEachSucceeds(cards0, handCards);
      hand.AddExposedGroup(Chi, [c] + handCards, false);
      AddGroupTiles(cards0, hand.drawn, hand.drawn, groups0, handCards, Group(Chi, [c] + handCards, false), multiset{c});
      r := Done;
    }

    /** The removal loop of do_chi: remove_card for each listed card, stopping at the first
        one that is missing, with the removals before it kept. */
    method RemoveEachFromHand(cs: seq<Card>) returns (ok: bool)
      modifies hand
      ensures (hand.cards, ok) == RemoveEach(old(hand.cards), cs)
      ensures hand.drawn == old(hand.drawn) && hand.groups == old(hand.groups)
    {
      for k := 0 to |cs|
        invariant RemoveEach(hand.cards, cs[k..]) == RemoveEach(old(hand.cards), cs)
        invariant hand.drawn == old(hand.drawn) && hand.groups == old(hand.groups)
      {
        RemoveEachStep(hand.cards, cs, k);
        var removed := hand.RemoveCard(cs[k]);
        if !removed {
          return false;
        }
      }
      assert cs[|cs|..] == [];
      ok := true;
    }

    /** discard_card: the drawn card when c is that card, otherwise a concealed copy of c
        with the drawn card folded into the concealed cards; refused when c is neither. */
    method DiscardCard(c: Card) returns (r: Result<Card>)
      modifies hand
      ensures old(hand.drawn) == Some(c) ==>
        r == Ok(c) && hand.drawn == None && hand.cards == old(hand.cards)
      ensures old(hand.drawn) != Some(c) && c in old(hand.cards) ==>
        r == Ok(c) && hand.drawn == None
        && hand.cards == RemoveFirst(old(hand.cards), c) + DrawnList(old(hand.drawn))
      ensures old(hand.drawn) != Some(c) && c !in old(hand.cards) ==>
        r == Err(TileNotOwned) && unchanged(hand)
      ensures hand.groups == old(hand.groups)
      ensures r.Ok? ==> multiset(hand.Tiles()) == old(multiset(hand.Tiles())) - multiset{c}
      ensures r.Ok? ==> hand.TotalCount() == old(hand.TotalCount()) - 1
    {
      if hand.drawn.Some? && c == hand.drawn.value {
        r := hand.DiscardDrawnCard();
      } else if c in hand.cards {
        r := hand.DiscardHandCard(c);
      } else {
        r := Err(TileNotOwned);
      }
    }
  }
}
