/** Results, options and the error kinds the rule engine reports instead of raising. */
module Common {

  /** The ways an operation of the rule engine can fail. */
  datatype Error =
    | InvalidTileValue        // a card value outside 1..10
    | DuplicatePendingDraw    // a second draw while a drawn card is still pending
    | NoPendingDraw           // discarding the drawn card when there is none
    | IllegalGroupFormation   // wei/ti/peng/pao/chi attempted when it is not legal
    | TileNotOwned            // removing or discarding a card the hand does not hold
    | NotEnoughCards          // dealing or drawing more cards than the deck holds
    | MalformedGroup          // scoring a group whose cards do not have the required shape

  datatype Option<+T> = None | Some(value: T)

  datatype Result<+T> = Ok(value: T) | Err(error: Error)

  /** The outcome of an operation that returns nothing on success. */
  datatype Outcome = Done | Fail(error: Error)
}
