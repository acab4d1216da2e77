/**
 * The value types shared by the strategy engine and its callers: card ranks
 * and suits, the card record, the actions the engine can recommend and the
 * advice record it returns.
 */
module Types {

  /** A card's suit. Displayed only; the strategy never looks at it. */
  datatype Suit = Hearts | Diamonds | Clubs | Spades

  /** The thirteen ranks, written "2" … "10", "J", "Q", "K", "A" in the program. */
  datatype Rank = Two | Three | Four | Five | Six | Seven | Eight | Nine | Ten
                | Jack | Queen | King | Ace

  /** A card: its suit, its rank and an identity token used only by the user interface. */
  datatype Card = Card(suit: Suit, rank: Rank, id: string)

  /** The actions the advice can name; in the program Bust is the string "BUSTED". */
  datatype ActionType = Hit | Stand | Double | Split | Surrender | Bust

  /** An optional field of a record. */
  datatype Option<T> = None | Some(value: T)

  /** The advice record: the action, a confidence and a win probability in percent, and a text. */
  datatype AIAdvice = AIAdvice(
    action: ActionType,
    confidence: int,
    winProbability: Option<int>,
    explanation: string)
}
