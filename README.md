# Paohuzi rule engine in Dafny

This project models the rule engine of a three-player Paohuzi card game and proves
properties of the model. The engine is the Python package made of `core/card.py`,
`core/deck.py`, `core/hand.py`, `core/player.py`, `rules/pattern_matcher.py`,
`rules/win_checker.py`, `rules/huxi_calculator.py`, `rules/score_calculator.py` and
`config/game_config.py`. The model covers:

- the 80 cards, values 1 to 10 in a lower (small) and an upper (big) case, and the deck they
  are dealt and drawn from;
- a player's hand: the concealed cards, at most one pending drawn card, and the committed
  groups;
- the group-forming actions:
  - wei: two concealed copies plus the drawn card, kept concealed;
  - ti: four of a kind from one's own draw, or a wei upgraded with the drawn card;
  - peng: two concealed copies plus another player's discard;
  - pao: four of a kind with another player's discard, possibly upgrading a wei;
  - chi: a sequence with another player's discard;
- their legality tests and the discard;
- the pattern queries: classes of identical cards, sequence validity, sequence candidates;
- the win test: forced triplets, then one pair and sequences for the rest;
- huxi, the points a group is worth;
- the match score computed from huxi.

## Layout

- `common.dfy` (`Common`): `Option`, `Result`, `Outcome` and the error kinds.
  Every Python `raise` of the core becomes one of these error values.
- `config.dfy` (`Config`): the game constants.
- `card.dfy` (`Cards`): the card datatype.
  - Its value is a subset type 1..10.
  - `NewCard` is the validating constructor.
- `lists.dfy` (`Lists`): `list.remove` and its loops.
  - `RemoveAll` skips absent cards, as `remove_cards_from_list` does.
  - `RemoveEach` stops at the first absent card, as a loop whose `list.remove` raises does.
- `pattern_matcher.dfy` (`Patterns`): find_triplets / quadruplets / pairs / sequences, and
  the sequence tests.
- `deck.dfy` (`Decks`): class `Deck`.
  - Fields: `cards` and `remaining`.
  - The specification functions are `FullDeck`, `DealOf` and `DrawOf`.
- `hand.dfy` (`Hands`): class `Hand`.
  - Fields: `cards`, `drawn` and `groups`.
  - Groups are values of datatype `Group(kind, cards, concealed)`.
- `player.dfy` (`Players`): class `Player`, which holds a `Hand`, with the commits and
  the legality tests.
- `huxi_calculator.dfy` (`Huxi`): the scoring table, the sums, and the two summing methods.
- `score_calculator.dfy` (`Scoring`): `CalculateScore`.
- `win_checker.dfy` (`WinChecking`): the searches, the forced extraction and `CanWin`.

**Where each source function lives.** Besides the members in the table below, these
functions are the definitions that the methods are proved equal to and that the lemmas
are about:

- `WinChecking.TryFormSequences` is `_try_form_sequences_recursive`.
- `WinChecking.CanFormAllSequences` is `_can_form_all_sequences`.
- `WinChecking.PairSearch` is `_try_find_sequences_and_pair`.
- `WinChecking.ForcedExtraction`, with `Extract` and `ExtractStep`, is the extraction loop
  of `_find_win_combination`.
- `WinChecking.CanWinOf` is `can_win`.
- `Huxi.WinHuxi` is `calculate_win_huxi`.
- `Huxi.ConcealedHuxi` is the concealed part of `calculate_hand_huxi`.
- `Players.ChiCandidates` is the scan of `can_chi`.

**How the loops are modelled.** The loops of the state-changing and summing operations
are Dafny methods, proved equal to recursive specification functions (`ensures r ==
Spec(inputs)`). The pure queries (the grouping and selection loops of the pattern finders,
the counting and scanning comprehensions of the legality tests, and the candidate loops of
the sequence search) are recursive functions. The properties are lemmas about those
functions. State changes are methods of the `Deck`, `Hand` and `Player`
classes, with `modifies` clauses; their postconditions give the whole new state.

**Where the code departs from the design description.** The model follows the code:

- **can_win never succeeds.** The win test counts only the concealed cards and the drawn
  card, not the cards in committed groups. It runs only on exactly 21 of them. Each forced
  triplet removes three cards, so the remainder always has a multiple of three cards. The
  branch that needs "2 more than a multiple of three" is therefore never taken, and
  `can_win` returns (false, 0, none) for every hand. `WinChecking.NoWinCombination` and
  `WinChecking.NeverWins` prove this. The pair-and-sequences search is still modelled and
  proved on its own.
- **Wrong size is not an error.** A hand of the wrong size gives a negative answer.
- **can_pao counts.** It tests that the concealed copies plus the size of the first
  matching wei group make exactly three. The design's "three concealed copies, or a wei
  group" is not what the code checks.
- **Removals are not all atomic.**
  - `remove_cards` checks membership card by card, not by multiplicity.
  - `do_chi` raises part way through its removal loop and keeps the removals already made.
  - Both are modelled as they are (`RemoveEach`).

## Model

| member | source | states |
|---|---|---|
| Config.SpecialSequencesAscending | config/game_config.py:37-40 | both special sequences are three strictly ascending values within 1..10 |
| Config.ConstantsAgree | config/game_config.py:12-23 | 80 cards = 10 values x 8; 20 + 1 = 21, the win-test size; the red values are card values; CARD_VALUES is 1..10; thresholds 15, 1 and 3 |
| Cards.NewCard | core/card.py:30-33 | a card is made exactly when 1 <= value <= 10, keeping value and case; otherwise InvalidTileValue |
| Cards.Equal | core/card.py:74-78 | two cards are equal iff value and case both match |
| Cards.SameValue | core/card.py:52-56 | equal cards have the same value; same value and same case means equal |
| Cards.IsRed | core/card.py:48-50 | red iff the value is 2, 7 or 10 |
| Cards.Less | core/card.py:67-72 | a smaller value comes first; on equal values lower case comes before upper case |
| Cards.LessIsStrictTotalOrder | core/card.py:67-72 | the order is irreflexive and transitive, and exactly one direction holds for distinct cards |
| Cards.SameValueIgnoresCase | core/card.py:52-56 | the two cases of a value have the same value but are different cards |
| Lists.RemoveFirst | rules/pattern_matcher.py:209-210 | list.remove takes one copy of x out of the multiset, shortening the list by one when x is present and leaving it unchanged otherwise |
| Lists.RemoveAll | rules/pattern_matcher.py:196-211 | the result is the input minus the cards to remove, as a multiset difference; absent cards are skipped |
| Lists.RemoveEachOf | rules/pattern_matcher.py:207-211 | the copy-then-remove loop computes RemoveAll |
| Lists.RemoveAllAppend | rules/pattern_matcher.py:207-211 | removing a ++ b is removing a, then b |
| Lists.RemoveEachSucceeds | core/hand.py:97-99 | the removal loop that stops at an absent card succeeds iff the cards fit in the list as a multiset; it then agrees with RemoveAll and removes exactly that many cards |
| Lists.Count | core/hand.py:196 | counting equal cards one by one is the multiset multiplicity |
| Patterns.Distinct | rules/pattern_matcher.py:35-39 | the keys of the class dictionary: exactly the cards present, each once |
| Patterns.Members | rules/pattern_matcher.py:35-39 | the class of k holds exactly as many copies of k as the input |
| Patterns.Classes | rules/pattern_matcher.py:41-43 | a group is reported iff it is n copies of a key whose class qualifies |
| Patterns.FindTriplets | rules/pattern_matcher.py:22-45 | each triplet is three copies of a card present at least three times |
| Patterns.TripletsFoundExactly | rules/pattern_matcher.py:41-43 | three copies of c are reported iff c occurs at least three times |
| Patterns.FindQuadruplets | rules/pattern_matcher.py:48-71 | each quadruplet is four copies of a card present exactly four times |
| Patterns.QuadsFoundExactly | rules/pattern_matcher.py:67-69 | four copies of c are reported iff c occurs exactly four times |
| Patterns.FindPairs | rules/pattern_matcher.py:170-193 | each pair is two copies of a card present at least twice |
| Patterns.PairsFoundExactly | rules/pattern_matcher.py:189-191 | two copies of c are reported iff c occurs at least twice |
| Patterns.ClassesCount | rules/pattern_matcher.py:35-43 | over distinct keys, n copies of c are reported once when c is a key whose class qualifies and not at all otherwise |
| Patterns.TripletsOnce | rules/pattern_matcher.py:22-45 | three copies of c are reported once if c occurs at least three times, never otherwise |
| Patterns.QuadsOnce | rules/pattern_matcher.py:48-71 | four copies of c are reported once if c occurs exactly four times, never otherwise |
| Patterns.PairsOnce | rules/pattern_matcher.py:170-193 | two copies of c are reported once if c occurs at least twice, never otherwise |
| Patterns.SortedValues | rules/pattern_matcher.py:97 | the three values in ascending order |
| Patterns.SortedValuesPermutes | rules/pattern_matcher.py:97 | sorting keeps the three values as a multiset |
| Patterns.IsValidSequence | rules/pattern_matcher.py:74-104 | a valid sequence is three cards of one case |
| Patterns.ValidSequenceByValues | rules/pattern_matcher.py:89-104 | the sorted-list test holds iff the three values are distinct, of one case, and either all red or spanning exactly 2 |
| Patterns.IsSpecialSequence | rules/pattern_matcher.py:107-124 | every special sequence is a valid sequence |
| Patterns.PresentValues | rules/pattern_matcher.py:144-158 | the sorted keys of the value dictionary of one case: ascending, in range, exactly the values present |
| Patterns.Triple | rules/pattern_matcher.py:154 | three distinct cards of one case with the given ascending values |
| Patterns.SpecialHits | rules/pattern_matcher.py:151-155 | each special hit is a valid sequence of the case whose values are all present |
| Patterns.Runs | rules/pattern_matcher.py:158-165 | each run is a valid sequence of the case whose values are all present |
| Patterns.CaseSequences | rules/pattern_matcher.py:140-165 | every candidate of one case is a valid sequence whose cards are in the input |
| Patterns.FindSequences | rules/pattern_matcher.py:127-167 | every candidate is a valid sequence whose cards are in the input |
| Patterns.RunsShape | rules/pattern_matcher.py:159-165 | runs are consecutive values other than 1-2-3, starting at strictly increasing values |
| Patterns.CaseSequencesDistinct | rules/pattern_matcher.py:140-165 | within one case no candidate is proposed twice, and all are of that case |
| Patterns.FindSequencesDistinct | rules/pattern_matcher.py:127-167 | no candidate is proposed twice |
| Patterns.DistinctMembersIncluded | rules/pattern_matcher.py:154 | three distinct cards that each occur form a sub-multiset of the input |
| Decks.Rounds | core/deck.py:36-38 | k rounds for one value append 2k cards |
| Decks.DeckThrough | core/deck.py:34-38 | after the values up to v, 8v cards have been appended |
| Decks.RoundsCount | core/deck.py:36-38 | k rounds hold k lower and k upper copies of the value and no other card |
| Decks.DeckThroughCount | core/deck.py:34-38 | after the values up to v, every card of those values occurs four times and no other card occurs |
| Decks.FullDeckShape | core/deck.py:33-43 | the deck has 80 cards with four copies of each card, so the size check never raises |
| Decks.SliceCut | core/deck.py:69-70 | where a Python slice cuts: num itself when in range, counted from the end when negative, clamped to the list |
| Decks.DealSplits | core/deck.py:64-71 | a deal fails iff more cards are asked for than remain; otherwise dealt ++ rest is the old pile, and a non-negative request gets exactly num cards |
| Decks.DrawIsDealOne | core/deck.py:83-88 | drawing fails on an empty pile and otherwise takes the head and leaves the tail, as dealing one card does |
| Decks.DealTwice | core/deck.py:69-70 | dealing a then b cards is dealing a + b cards |
| Decks.Deck.constructor | core/deck.py:22-43 | the cards are built value by value, four lower/upper rounds each, and the remaining pile is the whole deck |
| Decks.Deck.RemainingCount | core/deck.py:90-97 | the size of the remaining pile |
| Decks.Deck.IsEmpty | core/deck.py:99-106 | empty iff the remaining count is 0 |
| Decks.Deck.Deal | core/deck.py:51-71 | refused with nothing changed when num exceeds the remaining count; otherwise returns the prefix and keeps the suffix; the deck's cards never change |
| Decks.Deck.Draw | core/deck.py:73-88 | refused on an empty pile; otherwise returns the head and keeps the tail |
| Decks.Deck.Shuffle | core/deck.py:45-49 | the remaining cards are permuted |
| Decks.Deck.Reset | core/deck.py:108-111 | the remaining pile is a permutation of all cards: 80 cards again for a fresh deck |
| Hands.GroupSizes | core/hand.py:153 | the summed group sizes are the number of cards held in groups |
| Hands.GroupTilesAppend | core/hand.py:245-249 | the cards of the groups distribute over appending groups |
| Hands.WeiIndex | core/hand.py:230-232 | the index of the first wei group whose first card is c, or none when no group qualifies |
| Hands.CountValueIn | core/hand.py:180 | counting cards of one value is the lower plus the upper copies, and 0 for a value outside 1..10 |
| Hands.DiscardKeepsOthers | core/hand.py:124-130 | discarding a concealed card while folding the drawn card in loses exactly that card |
| Hands.Hand.constructor | core/hand.py:25-29 | a new hand is empty with nothing drawn |
| Hands.Hand.Tiles | core/hand.py:146-155 | the cards a hand owns are its concealed cards, its drawn card and its group cards |
| Hands.Hand.AddCard | core/hand.py:31-38 | appends one concealed card and nothing else changes |
| Hands.Hand.AddCards | core/hand.py:40-47 | appends the cards and nothing else changes |
| Hands.Hand.DrawCard | core/hand.py:49-58 | a second pending draw fails; otherwise the card is held apart and the concealed cards and groups are unchanged |
| Hands.Hand.ClearDrawnCard | core/hand.py:60-62 | drops the drawn card only |
| Hands.Hand.RemoveCard | core/hand.py:68-81 | succeeds iff the card is present, removing exactly one copy; otherwise changes nothing |
| Hands.Hand.RemoveCards | core/hand.py:83-99 | returns false with nothing changed when a listed card is absent; otherwise removes card by card and fails part way when a card is listed more often than held |
| Hands.Hand.DiscardDrawnCard | core/hand.py:101-112 | fails with nothing pending; otherwise returns the drawn card and clears it |
| Hands.Hand.DiscardHandCard | core/hand.py:114-131 | fails on an absent card; otherwise removes one copy, folds the drawn card in, and the hand loses exactly that card |
| Hands.Hand.TotalCount | core/hand.py:146-155 | concealed cards + 1 for a draw + group sizes = the number of cards the hand owns |
| Hands.Hand.CountValue | core/hand.py:169-183 | cards of a value in either case, the drawn card counted only on request |
| Hands.Hand.CountExact | core/hand.py:185-199 | copies of the card, the drawn card counted only on request |
| Hands.Hand.CanWei | core/hand.py:201-211 | wei is legal iff a card was drawn and exactly two concealed copies are held |
| Hands.Hand.CanTi | core/hand.py:213-234 | ti is legal iff a card was drawn and either exactly three concealed copies are held or a wei group starts with it |
| Hands.Hand.AddExposedGroup | core/hand.py:236-249 | appends the group and the hand gains exactly its cards |
| Hands.Hand.Clear | core/hand.py:277-281 | the hand is emptied; total count 0 |
| Hands.DrawThenDiscard | core/hand.py:101-112 | drawing a card and discarding it returns that card and restores the hand exactly |
| Players.FirstEqual | core/player.py:150 | the first n copies of x, or all of them when there are fewer |
| Players.Without | core/player.py:184 | list.pop(i): the groups before i unchanged, those after shifted down by one |
| Players.ChiSound | core/player.py:129-139 | every candidate of ChiCandidates (can_chi's nested scan) is two of the hand's cards, at distinct positions, that form a sequence with c, so both of c's case |
| Players.ChiComplete | core/player.py:129-139 | every pair of positions i < j forming a sequence with c is among ChiCandidates |
| Players.Player.constructor | core/player.py:21-35 | a player starts with a fresh empty hand |
| Players.Player.CanPeng | core/player.py:71-81 | peng is legal iff at least two concealed copies are held, the drawn card not counted |
| Players.Player.CanPao | core/player.py:83-112 | pao is legal iff the concealed copies plus the size of the first matching wei group are exactly three |
| Players.Player.CanChi | core/player.py:114-139 | the nested loop returns exactly ChiCandidates, in loop order |
| Players.Player.RemoveFromHand | core/player.py:153-154 | the remove_card loop is the skipping removal; drawn card and groups unchanged |
| Players.Player.CommitCopies | core/player.py:148-161 | removes the copies, appends the group of copies plus x, clears the drawn card when x was drawn; the hand keeps its cards, or gains x when it came from outside |
| Players.Player.UpgradeGroup | core/player.py:179-184 | pops wei group i and appends its cards plus x as an exposed group; card conservation as for CommitCopies |
| Players.Player.DoWei | core/player.py:141-161 | refused unless wei is legal; then two copies leave the concealed cards, a concealed wei of three copies is appended, nothing is drawn, and the hand owns the same cards |
| Players.Player.DoTi | core/player.py:163-199 | refused unless ti is legal; upgrades the first matching wei group or commits three concealed copies plus the drawn card; the drawn card is cleared and the hand owns the same cards |
| Players.Player.DoPeng | core/player.py:201-220 | refused unless peng is legal; two copies leave, a peng of three is appended, the drawn card is untouched, and the hand gains exactly the discard |
| Players.Player.DoPao | core/player.py:222-256 | refused unless pao is legal; upgrades the matching wei group or commits three concealed copies plus the card; the hand gains exactly the card |
| Players.Player.DoChi | core/player.py:258-280 | refused with nothing changed unless the three cards form a sequence; a missing card fails after the earlier removals |
| Players.Player.CommitChi | core/player.py:273-280 | on success the two cards were held and a chi group is appended, and the hand gains exactly the discard |
| Players.Player.RemoveEachFromHand | core/player.py:274-276 | the stopping removal loop of do_chi |
| Players.Player.DiscardCard | core/player.py:282-299 | discards the drawn card, or a concealed copy with the drawn card folded in, or fails; on success the hand loses exactly that card and its total drops by one |
| Huxi.HuxiTable | rules/huxi_calculator.py:23-82 | upper beats lower, held beats exposed, four beat three; exposed upper equals held lower |
| Huxi.TripletHuxi | rules/huxi_calculator.py:23-51 | succeeds iff three identical cards; exposed 3/1, held 6/3 (upper/lower) |
| Huxi.QuadHuxi | rules/huxi_calculator.py:54-82 | succeeds iff four identical cards; exposed 9/6, held 12/9 |
| Huxi.SequenceHuxi | rules/huxi_calculator.py:85-112 | positive iff a special sequence, then 6 upper / 3 lower; 0 otherwise |
| Huxi.GroupHuxi | rules/huxi_calculator.py:131-146 | fails exactly on a malformed group; peng/wei as exposed/held triplets, pao/ti as exposed/held fours, chi as a sequence, other tags 0 |
| Huxi.UpgradeGain | rules/huxi_calculator.py:136-144 | wei to ti adds 6 huxi; peng to pao adds 6 (upper) or 5 (lower) |
| Huxi.GroupsTotalAppend | rules/huxi_calculator.py:131-146 | group worth is additive over concatenation |
| Huxi.HeldTotalsBounds | rules/huxi_calculator.py:154-163 | held triplets are worth 3..6 each, held fours 9..12 each |
| Huxi.SequencesHuxiPositive | rules/huxi_calculator.py:211-212 | sequences score iff one of them is special |
| Huxi.SequencesAtMostSix | rules/huxi_calculator.py:211-212 | each sequence is worth at most 6 |
| Huxi.WinHuxiBounds | rules/huxi_calculator.py:189-216 | with well-formed parts WinHuxi (calculate_win_huxi's total) is at least groups + 3 per triplet and at most groups + 6 per triplet and per sequence |
| Huxi.FoundQuadsScore | rules/huxi_calculator.py:154-156 | every four of a kind found scores |
| Huxi.FoundTripletsScore | rules/huxi_calculator.py:160-162 | every triplet found scores |
| Huxi.HandHuxiParts | rules/huxi_calculator.py:128-173 | the hand scoring fails exactly on a malformed committed group; otherwise it is the groups' worth plus the concealed worth, at least 9 per four of a kind |
| Huxi.ConcealedAtLeastQuads | rules/huxi_calculator.py:153-156 | ConcealedHuxi, the worth of the concealed cards in calculate_hand_huxi, is at least 9 per four of a kind |
| Huxi.QuadsNotRecounted | rules/huxi_calculator.py:153-163 | a four of a kind is scored once: none of its cards is left for the triplet pass |
| Huxi.FlattenIncludes | rules/huxi_calculator.py:155-157 | a removed group's cards are among all removed cards |
| Huxi.RemoveHead | rules/huxi_calculator.py:155-157 | removing groups one by one is removing their concatenation |
| Huxi.QuadsTotalStep | rules/huxi_calculator.py:155-156 | the running total of held fours grows by one four per step |
| Huxi.TripletsTotalStep | rules/huxi_calculator.py:161-162 | the running total of held triplets grows by one triplet per step |
| Huxi.SumGroupsHuxi | rules/huxi_calculator.py:131-146 | the loop over committed groups computes GroupsHuxi, stopping at the first malformed one |
| Huxi.SumTripletsHuxi | rules/huxi_calculator.py:207-208 | the loop over the combination's triplets computes their held worth |
| Huxi.SumSequencesHuxi | rules/huxi_calculator.py:211-212 | the loop over the combination's sequences computes their worth |
| Huxi.CalculateWinHuxi | rules/huxi_calculator.py:176-216 | computes WinHuxi: groups, then triplets held, then sequences; the pair adds nothing |
| Huxi.TakeQuads | rules/huxi_calculator.py:154-157 | the quad pass totals the fours and removes their cards |
| Huxi.TakeTriplets | rules/huxi_calculator.py:160-163 | the triplet pass totals the triplets and removes their cards |
| Huxi.TakeSpecialSequences | rules/huxi_calculator.py:166-171 | the last pass totals the special sequences of one candidate list |
| Huxi.ScoreConcealed | rules/huxi_calculator.py:151-171 | the three passes compute ConcealedHuxi |
| Huxi.CalculateHandHuxi | rules/huxi_calculator.py:115-173 | the hand scoring computes HandHuxi |
| Scoring.CalculateScore | rules/score_calculator.py:41-47 | 0 below 15 huxi; otherwise at least 1, with exactly one more point per full 3 huxi above 15 |
| Scoring.DocumentedExamples | rules/score_calculator.py:35-39 | 15, 18, 22 and 27 huxi give 1, 2, 3 and 5 points; 14 gives 0 |
| Scoring.ScoreMonotone | rules/score_calculator.py:41-47 | more huxi never gives fewer points |
| Scoring.ScoreStep | rules/score_calculator.py:44-47 | above the threshold 3 more huxi give exactly one more point |
| WinChecking.FindAllSequences | rules/win_checker.py:211-236 | [] on no cards, none on a count not divisible by 3, and any result splits the cards into valid sequences, one per three cards, with the same multiset |
| WinChecking.FoundFrom | rules/win_checker.py:229-236 | any result of the candidate loop splits the cards |
| WinChecking.Prepended | rules/win_checker.py:230-234 | a valid sequence taken out, plus a split of the rest, splits the cards |
| WinChecking.FormsIffFound | rules/win_checker.py:182-236 | TryFormSequences (_try_form_sequences_recursive, the yes/no recursion) succeeds iff FindAllSequences (the list-returning recursion) does |
| WinChecking.FormsFromIffFoundFrom | rules/win_checker.py:202-234 | the two candidate loops succeed together |
| WinChecking.CanFormIffFound | rules/win_checker.py:162-236 | CanFormAllSequences (_can_form_all_sequences) holds iff FindAllSequences (_find_all_sequences) finds a split, and that split covers the cards exactly |
| WinChecking.PairsFrom | rules/win_checker.py:145-157 | a found pair is one of find_pairs' and its sequences, at least one, split the rest |
| WinChecking.PairSearchSound | rules/win_checker.py:129-159 | PairSearch (_try_find_sequences_and_pair) gives none for fewer than 2 cards; otherwise a result is two identical cards plus at least one valid sequence, together exactly the input, so 3m + 2 cards |
| WinChecking.PairAndRest | rules/win_checker.py:145-157 | a pair from the cards plus a split of what it leaves make up the cards |
| WinChecking.TryFindSequencesAndPair | rules/win_checker.py:129-159 | the pair loop computes PairSearch, the first-success pair search |
| WinChecking.Prefix | rules/win_checker.py:99 | a Python slice [:n] |
| WinChecking.ExtractCount | rules/win_checker.py:94-108 | after the extraction a card of four copies keeps 1, of three keeps 0, any other keeps all |
| WinChecking.ExtractLength | rules/win_checker.py:94-108 | each forced triplet removes exactly three cards |
| WinChecking.ExtractTriplet | rules/win_checker.py:94-108 | each forced triplet is three copies of a card occurring three or four times |
| WinChecking.ExtractTripletCount | rules/win_checker.py:94-108 | the triplet of a card is extracted exactly once when the card is visited and present three or four times, and never otherwise |
| WinChecking.ForcedExtractionShape | rules/win_checker.py:92-108 | ForcedExtraction (Extract over the distinct cards in Counter order, one ExtractStep per card): exactly one triplet per card present three or four times and none for any other card, every triplet three copies of one card, the leftover counts and the size as above |
| WinChecking.NoWinCombination | rules/win_checker.py:83-126 | _find_win_combination returns none for every input |
| WinChecking.FindWinCombination | rules/win_checker.py:65-126 | the extraction loop and pair search compute WinCombinationOf |
| WinChecking.NeverWins | rules/win_checker.py:30-62 | CanWinOf, can_win's answer, is (false, 0, none) for every hand |
| WinChecking.CanWin | rules/win_checker.py:30-62 | computes CanWinOf on the concealed cards plus the drawn card, reading the hand without changing it |

## Left out

- core/game.py, ai/ai_player.py, ui/cli_interface.py and main.py are not part of this model.
  They hold the turn loop, response arbitration, the computer opponent's random policy and
  console I/O.
- `WinChecker.estimate_win_probability`: it computes with floating point.
- Decks.Deck.Shuffle: `random.shuffle` is not modelled. Its contract says only that the
  result is some permutation, and the order is left open.
- Presentation is not modelled:
  - `Card.display_name`, `color`, `__str__` and `__repr__`;
  - `Hand.__str__` and `__repr__`, and `Hand.sort_cards`, which only reorders for display;
  - `Deck.__str__`;
  - `ScoreCalculator.get_score_description`;
  - `Player.__str__`.
- `Card.__hash__` is not modelled. Dafny's datatype equality is the source's `__eq__`.
  `isinstance` checks against non-cards cannot arise in the typed model.
- Small Hand queries that no modelled rule uses are not modelled: `has_drawn_card`,
  `get_card_count`, `has_card`, `get_cards_by_value` and `group_by_value`.
- Player bookkeeping is not modelled: `player_id`, `name`, `is_human`, `score`,
  `add_score`, `is_dealer` and `set_dealer`.
- Player methods that only forward to the hand or to the win checker are not modelled
  separately: `draw_card`, `can_win`, `can_wei`, `can_ti`, `reset_hand` and
  `get_total_cards`. They are `Hand.DrawCard`, `WinChecking.CanWin`, `Hand.CanWei`,
  `Hand.CanTi`, `Hand.Clear` and `Hand.TotalCount`.
- Python exceptions are not modelled as exceptions. Each `raise` is an `Err` or `Fail`
  value. The state at that point is what the source leaves behind.
- Three raises that cannot fire are not modelled as error paths:
  - the size check in `_create_cards` (Decks.FullDeckShape);
  - `list.remove` in the extraction loop of `_find_win_combination` (WinChecking.ExtractCount);
  - `calculate_triplet_huxi` and `calculate_quadruplet_huxi` on found groups
    (Huxi.FoundQuadsScore, Huxi.FoundTripletsScore).
- Group dictionaries are values, so aliasing between a group's card list and other lists
  is not modelled. `add_exposed_group` copies the list anyway.
- A group's `type` string is a datatype. Any tag other than the five the game uses is
  `Other(tag)`, and the type of `tag` excludes those five strings, so a group tagged
  "peng" is always `Peng`.
- `calculate_win_huxi`'s `all_cards` parameter is accepted and ignored, as in the source.
  `calculate_hand_huxi` reads `is_concealed` but never uses it, so the model does not read it.
- Patterns.FindSequences: its contract states soundness only, that every candidate is a
  valid sequence of the input's cards. Which candidates appear, and in which order, is
  given by its definition, and Patterns.FindSequencesDistinct states that none repeats.
- The `sys.path` lines and the `__init__.py` re-exports are not modelled.
