/**
 * Application events appended by the game logic and consumed by the UI loop
 * (Event.py is not part of this model: an event is its numeric ID plus the
 * keyword data the core passes with it).
 */
module Events {
  import opened Wrappers
  import opened Position

  /** How a game ended, for the game-over display; `Message` is the text shown. */
  datatype Ending = BlackWins | WhiteWins | Stalemate | InsufficientMaterial
  {
    function Message(): string {
      match this
      case BlackWins => "Black wins"
      case WhiteWins => "White wins"
      case Stalemate => "Stalemate"
      case InsufficientMaterial => "Insufficient material"
    }
  }

  datatype Event =
    | GoTo(positionKey: Key)                          // ID 0: take the UI to this existing position
    | Takeback(direction: int)                        // ID 1: the move was refused; take it back
    | BoardState(board: int, winner: Option<Ending>)  // ID 50: 0 normal, 1 check, 2 mate, 3 drawn
    | DrawClaim                                       // ID 51: a threefold repetition may be claimed
  {
    function ID(): (id: int)
      ensures GoTo? <==> id == 0
      ensures Takeback? <==> id == 1
      ensures BoardState? <==> id == 50
      ensures DrawClaim? <==> id == 51
    {
      match this
      case GoTo(_) => 0
      case Takeback(_) => 1
      case BoardState(_, _) => 50
      case DrawClaim => 51
    }
  }
}
