/** The draw pile (core/deck.py): the 80 cards of a game and the list of cards not yet
    dealt or drawn. */
module Decks {
  import opened Common
  import opened Config
  import opened Cards

  /** k rounds of the inner loop of _create_cards for value v: a lower and an upper card
      per round. */
  function Rounds(v: CardValue, k: nat): (r: seq<Card>)
    ensures |r| == 2 * k
  {
    if k == 0 then [] else Rounds(v, k - 1) + [Card(v, false), Card(v, true)]
  }

  /** The cards _create_cards has appended once the values up to v are done. */
  function DeckThrough(v: CardValue): (r: seq<Card>)
    ensures |r| == 8 * v
  {
    if v == MIN_VALUE then Rounds(v, 4) else DeckThrough(v - 1) + Rounds(v, 4)
  }

  /** The cards _create_cards has appended before it reaches value v. */
  function DeckBefore(v: CardValue): (r: seq<Card>)
    ensures |r| == 8 * (v - 1)
  {
    if v == MIN_VALUE then [] else DeckThrough(v - 1)
  }

  /** The full deck in the order _create_cards builds it. */
  function FullDeck(): (r: seq<Card>)
    ensures |r| == TOTAL_CARDS
  {
    DeckThrough(MAX_VALUE)
  }

  /** k rounds for value v hold k lower and k upper copies of v and nothing else. */
  lemma {:induction false} RoundsCount(v: CardValue, k: nat, c: Card)
    ensures multiset(Rounds(v, k))[c] == if c.value == v then k else 0
  {
    if k > 0 {
      RoundsCount(v, k - 1, c);
      assert multiset(Rounds(v, k)) == multiset(Rounds(v, k - 1)) + multiset{Card(v, false), Card(v, true)};
    }
  }

  /** After the values up to v, each card of those values occurs exactly four times. */
  lemma {:induction false} DeckThroughCount(v: CardValue, c: Card)
    ensures multiset(DeckThrough(v))[c] == if c.value <= v then 4 else 0
  {
    RoundsCount(v, 4, c);
    if v > 1 {
      DeckThroughCount(v - 1, c);
    }
  }

  /** The deck holds 80 cards, exactly four lower-case and four upper-case cards of each
      value, so the size check of _create_cards never fails. */
  lemma FullDeckShape(c: Card)
    ensures |FullDeck()| == TOTAL_CARDS
    ensures multiset(FullDeck())[c] == 4
  {
    DeckThroughCount(MAX_VALUE, c);
  }

  /** Where Python's slices rem[:num] and rem[num:] cut a list of length len: a negative
      num counts from the end, and the cut never leaves the list. */
  function SliceCut(num: int, len: nat): (k: nat)
    ensures k <= len
    ensures 0 <= num <= len ==> k == num
    ensures num < 0 ==> k == if len + num < 0 then 0 else len + num
  {
    if num >= 0 then (if num <= len then num else len)
    else if len + num < 0 then 0
    else len + num
  }

  /** deal(num) on the remaining cards rem: the dealt cards and what remains, or an error
      when num exceeds the remaining count. */
  function DealOf(rem: seq<Card>, num: int): Result<(seq<Card>, seq<Card>)>
  {
    if num > |rem| then Err(NotEnoughCards)
    else
      var k := SliceCut(num, |rem|);
      Ok((rem[..k], rem[k..]))
  }

  /** draw() on the remaining cards rem: the head and the tail, or an error when empty. */
  function DrawOf(rem: seq<Card>): Result<(Card, seq<Card>)>
  {
    if rem == [] then Err(NotEnoughCards) else Ok((rem[0], rem[1..]))
  }

  /** A deal fails exactly when more cards are asked for than remain; otherwise the dealt
      cards followed by the rest are the old remaining cards, and a non-negative request
      gets exactly the number of cards asked for. */
  lemma DealSplits(rem: seq<Card>, num: int)
    ensures DealOf(rem, num).Err? <==> num > |rem|
    ensures DealOf(rem, num).Err? ==> DealOf(rem, num).error == NotEnoughCards
    ensures DealOf(rem, num).Ok? ==>
      var (dealt, rest) := DealOf(rem, num).value;
      && dealt + rest == rem
      && |rest| == |rem| - |dealt|
      && (num >= 0 ==> |dealt| == num)
  {
    if num <= |rem| {
      var k := SliceCut(num, |rem|);
      assert rem[..k] + rem[k..] == rem;
    }
  }

  /** Drawing is dealing one card: both fail on an empty pile, and otherwise both take the
      head and leave the tail. */
  lemma DrawIsDealOne(rem: seq<Card>)
    ensures DrawOf(rem).Err? <==> DealOf(rem, 1).Err?
    ensures DrawOf(rem).Ok? ==>
      DealOf(rem, 1).Ok? && DealOf(rem, 1).value == ([DrawOf(rem).value.0], DrawOf(rem).value.1)
  {
    if rem != [] {
      assert rem[..1] == [rem[0]];
    }
  }

  /** Dealing a cards and then b cards deals the same cards, in the same order, as dealing
      a + b at once. */
  lemma DealTwice(rem: seq<Card>, a: nat, b: nat)
    requires a + b <= |rem|
    ensures DealOf(rem, a).Ok?
    ensures DealOf(DealOf(rem, a).value.1, b).Ok?
    ensures DealOf(rem, a).value.0 + DealOf(DealOf(rem, a).value.1, b).value.0 == DealOf(rem, a + b).value.0
    ensures DealOf(DealOf(rem, a).value.1, b).value.1 == DealOf(rem, a + b).value.1
  {
    assert rem[..a] + rem[a..][..b] == rem[..a + b];
    assert rem[a..][b..] == rem[a + b..];
  }

  class Deck {
    /** All cards of the game, in creation order; never changed after construction. */
    var cards: seq<Card>
    /** The cards not yet dealt or drawn; the head is drawn next. */
    var remaining: seq<Card>

    /** _create_cards: for each value, four rounds each appending a lower and an upper
        card; the remaining cards start as a copy of the whole deck. */
    constructor()
      ensures cards == FullDeck() && remaining == cards
    {
      var built: seq<Card> := [];
      for v := MIN_VALUE to MAX_VALUE + 1
        invariant v > MIN_VALUE ==> built == DeckThrough(v - 1)
        invariant v == MIN_VALUE ==> built == []
      {
        for k := 0 to 4
          invariant built == DeckBefore(v) + Rounds(v, k)
        {
          built := built + [Card(v, false), Card(v, true)];
        }
      }
      cards := built;
      remaining := built;
    }

    /** get_remaining_count. */
    function RemainingCount(): (n: nat)
      reads this
      ensures n == |remaining|
    {
      |remaining|
    }

    /** is_empty: no card remains. */
    predicate IsEmpty()
      reads this
      ensures IsEmpty() <==> RemainingCount() == 0
      ensures IsEmpty() <==> remaining == []
    {
      |remaining| == 0
    }

    /** deal: the first num remaining cards, Python-slice style for a negative num; refused
        with nothing changed when num exceeds the remaining count. */
    method Deal(num: int) returns (r: Result<seq<Card>>)
      modifies this
      ensures cards == old(cards)
      ensures DealOf(old(remaining), num).Err? ==> r == Err(NotEnoughCards) && remaining == old(remaining)
      ensures DealOf(old(remaining), num).Ok? ==>
        r == Ok(DealOf(old(remaining), num).value.0) && remaining == DealOf(old(remaining), num).value.1
    {
      if num > |remaining| {
        return Err(NotEnoughCards);
      }
      var k := SliceCut(num, |remaining|);
      var dealt := remaining[..k];
      remaining := remaining[k..];
      r := Ok(dealt);
    }

    /** draw: the head of the remaining cards; refused with nothing changed when none
        remain. */
    method Draw() returns (r: Result<Card>)
      modifies this
      ensures cards == old(cards)
      ensures DrawOf(old(remaining)).Err? ==> r == Err(NotEnoughCards) && remaining == old(remaining)
      ensures DrawOf(old(remaining)).Ok? ==>
        r == Ok(DrawOf(old(remaining)).value.0) && remaining == DrawOf(old(remaining)).value.1
    {
      if remaining == [] {
        return Err(NotEnoughCards);
      }
      var c := remaining[0];
      remaining := remaining[1..];
      r := Ok(c);
    }

    /** shuffle: the remaining cards in some order; which order is left open. */
    method Shuffle()
      modifies this
      ensures cards == old(cards)
      ensures multiset(remaining) == multiset(old(remaining))
    {
      var order :| multiset(order) == multiset(remaining);
      remaining := order;
    }

    /** reset: the remaining cards become the whole deck again, shuffled. */
    method Reset()
      modifies this
      ensures cards == old(cards)
      ensures multiset(remaining) == multiset(cards)
      ensures |remaining| == |cards|
      ensures cards == FullDeck() ==> RemainingCount() == TOTAL_CARDS
    {
      remaining := cards;
      Shuffle();
      assert |multiset(remaining)| == |multiset(cards)|;
    }
  }
}
