/** Failure-carrying values shared by the rest of the model. */
module Wrappers {

  datatype Option<+T> = None | Some(value: T)

  /** The ValueError kinds the dice roller raises, with what their messages
      carry: the offending string, nothing, nothing, and the digit count. */
  datatype RollError =
    | InvalidPattern(raw: string)        // Roller: 'Invalid dice roll pattern "<raw>".'
    | UnknownPattern                     // DiceRoll validation: 'Unknown dice roll pattern'
    | InvalidDie                         // Dice: 'Dice needs more than one side to be a dice!'
    | DigitLimitExceeded(digits: nat)    // int(): 'Exceeds the limit (4300 digits) ...: value has <digits> digits'

  datatype Result<+T> = Ok(value: T) | Err(error: RollError)
}
