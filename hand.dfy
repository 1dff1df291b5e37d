/** A player's hand (core/hand.py): the concealed cards, at most one pending drawn card,
    and the ordered list of groups the player has committed. */
module Hands {
  import opened Common
  import opened Config
  import opened Cards
  import opened Lists

  /** A group tag other than the five the game uses. */
  type OtherTag = t: string | t !in {"chi", "peng", "pao", "wei", "ti"} witness ""

  /** The type tag of a committed group; the source stores it as a string, and any tag
      other than the five the game uses is kept as Other, whose type excludes those five. */
  datatype GroupKind = Chi | Peng | Pao | Wei | Ti | Other(tag: OtherTag)

  /** A committed group: its tag, its cards and whether it is concealed. */
  datatype Group = Group(kind: GroupKind, cards: seq<Card>, concealed: bool)

  /** The cards of all groups, in order. */
  function GroupTiles(gs: seq<Group>): seq<Card>
  {
    if gs == [] then [] else gs[0].cards + GroupTiles(gs[1..])
  }

  /** The number of cards held in groups, summed group by group as the source does. */
  function GroupSizes(gs: seq<Group>): (n: nat)
    ensures n == |GroupTiles(gs)|
  {
    if gs == [] then 0 else |gs[0].cards| + GroupSizes(gs[1..])
  }

  lemma {:induction false} GroupTilesAppend(a: seq<Group>, b: seq<Group>)
    ensures GroupTiles(a + b) == GroupTiles(a) + GroupTiles(b)
    decreases |a|
  {
    if a == [] {
      assert a + b == b;
    } else {
      assert (a + b)[1..] == a[1..] + b;
      GroupTilesAppend(a[1..], b);
    }
  }

  /** The group tiles split around the group at index i. */
  lemma GroupTilesSplitAt(gs: seq<Group>, i: nat)
    requires i < |gs|
    ensures GroupTiles(gs) == GroupTiles(gs[..i]) + (gs[i].cards + GroupTiles(gs[i + 1..]))
  {
    var rest := gs[i..];
    assert rest[1..] == gs[i + 1..];
    assert gs == gs[..i] + rest;
    GroupTilesAppend(gs[..i], rest);
  }

  /** Every card of cs occurs in s (membership only, not multiplicity). */
  predicate AllIn(cs: seq<Card>, s: seq<Card>)
  {
    forall c :: c in cs ==> c in s
  }

  /** The pending drawn card as a list of zero or one cards. */
  function DrawnList(d: Option<Card>): seq<Card>
  {
    if d.Some? then [d.value] else []
  }

  /** A group that is a 'wei' whose first card is c (the source's upgrade test). */
  predicate IsWeiOf(g: Group, c: Card)
  {
    g.kind == Wei && |g.cards| > 0 && g.cards[0] == c
  }

  /** The index of the first 'wei' group whose first card is c, if any. */
  function WeiIndex(gs: seq<Group>, c: Card): (r: Option<nat>)
    ensures r.Some? ==>
      (r.value < |gs| && IsWeiOf(gs[r.value], c) && forall j :: 0 <= j < r.value ==> !IsWeiOf(gs[j], c))
    ensures r.None? ==> forall j :: 0 <= j < |gs| ==> !IsWeiOf(gs[j], c)
  {
    if gs == [] then None
    else if IsWeiOf(gs[0], c) then Some(0)
    else match WeiIndex(gs[1..], c)
      case None => None
      case Some(i) => Some(i + 1)
  }

  /** The number of cards of value v in s, case ignored, counted one by one. */
  function CountValueIn(s: seq<Card>, v: int): (n: nat)
    ensures MIN_VALUE <= v <= MAX_VALUE ==>
      n == multiset(s)[Card(v, false)] + multiset(s)[Card(v, true)]
    ensures !(MIN_VALUE <= v <= MAX_VALUE) ==> n == 0
  {
    if s == [] then 0
    else
      assert s == [s[0]] + s[1..];
      (if s[0].value == v then 1 else 0) + CountValueIn(s[1..], v)
  }

  /** Discarding concealed card c while folding the drawn card in loses exactly c. */
  lemma DiscardKeepsOthers(cards: seq<Card>, d: Option<Card>, gs: seq<Group>, c: Card)
    requires c in cards
    ensures multiset(RemoveFirst(cards, c) + DrawnList(d) + DrawnList(None) + GroupTiles(gs))
      == multiset(cards + DrawnList(d) + GroupTiles(gs)) - multiset{c}
  {
    var a, b := multiset(cards), multiset(DrawnList(d)) + multiset(GroupTiles(gs));
    assert multiset(RemoveFirst(cards, c)) == a - multiset{c};
    assert DrawnList(None) == [];
    forall x ensures ((a - multiset{c}) + b)[x] == ((a + b) - multiset{c})[x] {
    }
  }

  class Hand {
    var cards: seq<Card>
    var drawn: Option<Card>
    var groups: seq<Group>

    constructor()
      ensures cards == [] && drawn == None && groups == []
    {
      cards, drawn, groups := [], None, [];
    }

    /** Every card the hand owns: concealed cards, the drawn card and the group cards. */
    function Tiles(): (t: seq<Card>)
      reads this
      ensures multiset(t) == multiset(cards) + multiset(DrawnList(drawn)) + multiset(GroupTiles(groups))
    {
      cards + DrawnList(drawn) + GroupTiles(groups)
    }

    /** add_card: appends one card to the concealed cards (used when dealing). */
    method AddCard(c: Card)
      modifies this
      ensures cards == old(cards) + [c] && drawn == old(drawn) && groups == old(groups)
      ensures multiset(Tiles()) == old(multiset(Tiles())) + multiset{c}
    {
      cards := cards + [c];
    }

    /** add_cards: appends cards to the concealed cards (used when dealing). */
    method AddCards(cs: seq<Card>)
      modifies this
      ensures cards == old(cards) + cs && drawn == old(drawn) && groups == old(groups)
      ensures multiset(Tiles()) == old(multiset(Tiles())) + multiset(cs)
    {
      cards := cards + cs;
    }

    /** draw_card: the drawn card is kept apart from the concealed cards; a second draw
        while one is pending fails and changes nothing. */
    method DrawCard(c: Card) returns (r: Outcome)
      modifies this
      ensures old(drawn).Some? ==> r == Fail(DuplicatePendingDraw) && drawn == old(drawn)
      ensures old(drawn).None? ==> r == Done && drawn == Some(c)
      ensures cards == old(cards) && groups == old(groups)
    {
      if drawn.Some? {
        return Fail(DuplicatePendingDraw);
      }
      drawn := Some(c);
      r := Done;
    }

    /** clear_drawn_card */
    method ClearDrawnCard()
      modifies this
      ensures drawn == None && cards == old(cards) && groups == old(groups)
    {
      drawn := None;
    }

    /** remove_card: removes the first occurrence of c and reports whether there was one. */
    method RemoveCard(c: Card) returns (ok: bool)
      modifies this
      ensures ok <==> c in old(cards)
      ensures ok ==> cards == RemoveFirst(old(cards), c) && |cards| == |old(cards)| - 1
      ensures multiset(cards) == old(multiset(cards)) - multiset{c}
      ensures !ok ==> cards == old(cards)
      ensures drawn == old(drawn) && groups == old(groups)
    {
      ok := c in cards;
      if ok {
        cards := RemoveFirst(cards, c);
      }
    }

    /** remove_cards: returns false without changing anything when some listed card is
        absent (membership is checked card by card, not by multiplicity). Otherwise removes
        the cards one at a time; when cs lists a card more often than the hand holds it, the
        source's list.remove raises part way, after the earlier removals took effect. */
    method RemoveCards(cs: seq<Card>) returns (r: Result<bool>)
      modifies this
      ensures !AllIn(cs, old(cards)) ==> r == Ok(false) && cards == old(cards)
      ensures AllIn(cs, old(cards)) ==> cards == RemoveEach(old(cards), cs).0
      ensures AllIn(cs, old(cards)) ==> r == if RemoveEach(old(cards), cs).1 then Ok(true) else Err(TileNotOwned)
      ensures r == Ok(true) ==> multiset(cards) == old(multiset(cards)) - multiset(cs)
      ensures r == Ok(true) ==> multiset(cs) <= old(multiset(cards))
      ensures drawn == old(drawn) && groups == old(groups)
    {
      var i := 0;
      while i < |cs|
        invariant 0 <= i <= |cs|
        invariant AllIn(cs[..i], cards)
      {
        if cs[i] !in cards {
          assert cs[i] in cs;
          return Ok(false);
        }
        assert cs[..i + 1] == cs[..i] + [cs[i]];
        i := i + 1;
      }
      assert cs[..i] == cs;
      var k := 0;
      while k < |cs|
        invariant 0 <= k <= |cs|
        invariant RemoveEach(cards, cs[k..]) == RemoveEach(old(cards), cs)
        invariant drawn == old(drawn) && groups == old(groups)
      {
        RemoveEachStep(cards, cs, k);
        if cs[k] !in cards {
          return Err(TileNotOwned);
        }
        cards := RemoveFirst(cards, cs[k]);
        k := k + 1;
      }
      assert cs[k..] == [];
      RemoveEachSucceeds(old(cards), cs);
      r := Ok(true);
    }

    /** discard_drawn_card: gives up the pending drawn card; fails when there is none. */
    method DiscardDrawnCard() returns (r: Result<Card>)
      modifies this
      ensures old(drawn).None? ==> r == Err(NoPendingDraw)
      ensures old(drawn).Some? ==> r == Ok(old(drawn).value)
      ensures drawn == None && cards == old(cards) && groups == old(groups)
    {
      if drawn.None? {
        return Err(NoPendingDraw);
      }
      r := Ok(drawn.value);
      drawn := None;
    }

    /** discard_hand_card: discards one concealed card; a pending drawn card is then kept
        by appending it to the concealed cards. */
    method DiscardHandCard(c: Card) returns (r: Result<Card>)
      modifies this
      ensures c !in old(cards) ==> r == Err(TileNotOwned) && cards == old(cards) && drawn == old(drawn)
      ensures c in old(cards) ==>
        (r == Ok(c) && drawn == None && cards == RemoveFirst(old(cards), c) + DrawnList(old(drawn)))
      ensures r.Ok? ==> multiset(Tiles()) == old(multiset(Tiles())) - multiset{c}
      ensures groups == old(groups)
    {
      if c !in cards {
        return Err(TileNotOwned);
      }
      DiscardKeepsOthers(cards, drawn, groups, c);
      cards := RemoveFirst(cards, c) + DrawnList(drawn);
      drawn := None;
      r := Ok(c);
    }

    /** get_total_count: concealed cards, plus one for a pending draw, plus the group sizes;
        that is, the number of cards the hand owns. */
    function TotalCount(): (n: nat)
      reads this
      ensures n == |Tiles()|
    {
      |cards| + (if drawn.Some? then 1 else 0) + GroupSizes(groups)
    }

    /** count_value: cards of value v regardless of case, optionally counting the drawn card. */
    function CountValue(v: int, includeDrawn: bool): (n: nat)
      reads this
      ensures MIN_VALUE <= v <= MAX_VALUE ==>
        n == multiset(cards + (if includeDrawn then DrawnList(drawn) else []))[Card(v, false)]
           + multiset(cards + (if includeDrawn then DrawnList(drawn) else []))[Card(v, true)]
      ensures !(MIN_VALUE <= v <= MAX_VALUE) ==> n == 0
    {
      CountValueIn(cards, v) + (if includeDrawn && drawn.Some? && drawn.value.value == v then 1 else 0)
    }

    /** count_exact_card: cards equal to c, optionally counting the drawn card. */
    function CountExact(c: Card, includeDrawn: bool): (n: nat)
      reads this
      ensures n == multiset(cards + (if includeDrawn then DrawnList(drawn) else []))[c]
    {
      Count(cards, c) + (if includeDrawn && drawn == Some(c) then 1 else 0)
    }

    /** can_wei: a card was drawn and exactly two concealed cards equal it. */
    predicate CanWei()
      reads this
      ensures CanWei() <==> drawn.Some? && multiset(cards)[drawn.value] == 2
    {
      drawn.Some? && CountExact(drawn.value, false) == 2
    }

    /** can_ti: a card was drawn and either exactly three concealed cards equal it, or a
        committed 'wei' group starts with it. */
    predicate CanTi()
      reads this
      ensures CanTi() <==>
        (drawn.Some? && (multiset(cards)[drawn.value] == 3
         || exists j :: 0 <= j < |groups| && IsWeiOf(groups[j], drawn.value)))
    {
      drawn.Some? && (CountExact(drawn.value, false) == 3 || WeiIndex(groups, drawn.value).Some?)
    }

    /** add_exposed_group: appends a group holding a copy of the given cards. */
    method AddExposedGroup(kind: GroupKind, cs: seq<Card>, concealed: bool)
      modifies this
      ensures groups == old(groups) + [Group(kind, cs, concealed)]
      ensures cards == old(cards) && drawn == old(drawn)
      ensures multiset(Tiles()) == old(multiset(Tiles())) + multiset(cs)
    {
      groups := groups + [Group(kind, cs, concealed)];
      GroupTilesAppend(old(groups), [Group(kind, cs, concealed)]);
      assert GroupTiles([Group(kind, cs, concealed)]) == cs;
    }

    /** clear: empties the hand for a new round. */
    method Clear()
      modifies this
      ensures cards == [] && drawn == None && groups == []
      ensures TotalCount() == 0
    {
      cards, drawn, groups := [], None, [];
    }
  }

  /** Drawing a card and then discarding it restores the hand exactly and returns that card. */
  method DrawThenDiscard(h: Hand, c: Card) returns (r: Result<Card>)
    requires h.drawn.None?
    modifies h
    ensures r == Ok(c)
    ensures h.cards == old(h.cards) && h.drawn == old(h.drawn) && h.groups == old(h.groups)
  {
    var d := h.DrawCard(c);
    r := h.DiscardDrawnCard();
  }
}
