/** A playing card (core/card.py): a value 1..10 in lower (small) or upper (big) case. */
module Cards {
  import opened Common
  import opened Config

  /** The values a card may carry; the source's constructor rejects every other. */
  type CardValue = v: int | MIN_VALUE <= v <= MAX_VALUE witness MIN_VALUE

  /** Equality of this datatype is the source's exact equality: same value and same case. */
  datatype Card = Card(value: CardValue, upper: bool)

  /** Constructing a card validates its value. */
  function NewCard(value: int, upper: bool): (r: Result<Card>)
    ensures r.Ok? <==> 1 <= value <= 10
    ensures r.Ok? ==> r.value.value == value && r.value.upper == upper
    ensures r.Err? ==> r.error == InvalidTileValue
  {
    if MIN_VALUE <= value <= MAX_VALUE then Ok(Card(value, upper)) else Err(InvalidTileValue)
  }

  /** Exact equality: value and case both match. */
  predicate Equal(a: Card, b: Card)
    ensures Equal(a, b) <==> a == b
  {
    a.value == b.value && a.upper == b.upper
  }

  /** Same value, case ignored. */
  predicate SameValue(a: Card, b: Card)
    ensures a == b ==> SameValue(a, b)
    ensures SameValue(a, b) && a.upper == b.upper ==> a == b
  {
    a.value == b.value
  }

  /** The red cards are those valued 2, 7 and 10. */
  predicate IsRed(c: Card)
    ensures IsRed(c) <==> c.value == 2 || c.value == 7 || c.value == 10
  {
    c.value in RED_CARD_VALUES
  }

  /** Display order: by value, lower case before upper case on equal values. */
  predicate Less(a: Card, b: Card)
    ensures a.value < b.value ==> Less(a, b)
    ensures a.value == b.value ==> (Less(a, b) <==> !a.upper && b.upper)
  {
    if a.value != b.value then a.value < b.value else !a.upper && b.upper
  }

  /** Less is a strict total order on cards. */
  lemma LessIsStrictTotalOrder(a: Card, b: Card, c: Card)
    ensures !Less(a, a)
    ensures a != b ==> (Less(a, b) <==> !Less(b, a))
    ensures a == b ==> !Less(a, b) && !Less(b, a)
    ensures Less(a, b) && Less(b, c) ==> Less(a, c)
  {
  }

  /** Same value does not imply equality: the two cases of one value differ. */
  lemma SameValueIgnoresCase(v: CardValue)
    ensures SameValue(Card(v, false), Card(v, true)) && Card(v, false) != Card(v, true)
  {
  }
}
