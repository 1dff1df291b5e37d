/** The game's fixed parameters (config/game_config.py). */
module Config {

  const TOTAL_CARDS: nat := 80
  const INITIAL_HAND_SIZE: nat := 20
  const DEALER_EXTRA_CARD: nat := 1

  /** The number of cards a winning hand is checked on. */
  const WIN_HAND_SIZE: nat := 21

  const MIN_HUXI_TO_WIN: nat := 15
  const BASE_SCORE: nat := 1
  const HUXI_PER_EXTRA_SCORE: nat := 3

  const MIN_VALUE: int := 1
  const MAX_VALUE: int := 10

  /** CARD_VALUES = range(1, 11). */
  const CARD_VALUES: seq<int> := [1, 2, 3, 4, 5, 6, 7, 8, 9, 10]
  const RED_CARD_VALUES: seq<int> := [2, 7, 10]

  /** The two sequences that are valid although they are not (only) consecutive. */
  const SPECIAL_SEQUENCES: seq<seq<int>> := [[1, 2, 3], [2, 7, 10]]

  /** Each special sequence is three strictly ascending card values. */
  lemma SpecialSequencesAscending()
    ensures forall s :: s in SPECIAL_SEQUENCES ==>
      |s| == 3 && MIN_VALUE <= s[0] < s[1] < s[2] <= MAX_VALUE
  {
  }

  /** The deck holds eight cards per value, and a dealer's hand is the size a win is checked on. */
  lemma ConstantsAgree()
    ensures TOTAL_CARDS == |CARD_VALUES| * 8
    ensures INITIAL_HAND_SIZE + DEALER_EXTRA_CARD == WIN_HAND_SIZE
    ensures forall v :: v in RED_CARD_VALUES ==> v in CARD_VALUES
    ensures forall i :: 0 <= i < |CARD_VALUES| ==> CARD_VALUES[i] == MIN_VALUE + i
    ensures MIN_HUXI_TO_WIN == 15 && BASE_SCORE == 1 && HUXI_PER_EXTRA_SCORE == 3
  {
  }
}
