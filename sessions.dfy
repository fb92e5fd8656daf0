/**
  The shared game session. Each locked region of main.go is one
  method call here; the lock itself is left out.
*/
module Sessions {
  import opened Board
  import opened Game

  class GameSession {
    var board: array2<Cell>
    var currentPlayer: int
    var winner: Outcome
    var winningCells: seq<Coord>
    var playerCount: int
    var playerDisconnected: bool
    var restartRequested: bool

    ghost predicate Valid()
      reads this
    {
      board.Length0 == BoardSize && board.Length1 == BoardSize && 0 <= currentPlayer <= 1
    }

    /** The fields as a value. */
    function State(): SessionState
      reads this, board
    {
      SessionState(Contents(board), currentPlayer, winner, winningCells, playerCount,
                   playerDisconnected, restartRequested)
    }

    /** The session the first participant of a pair creates: an empty
        board, X to move, one participant, no flags set. */
    constructor ()
      ensures Valid() && fresh(board)
      ensures State() == NewSession()
    {
      var b := CreateEmptyBoard();
      board := b;
      currentPlayer := 0;
      winner := Undecided;
      winningCells := [];
      playerCount := 1;
      playerDisconnected := false;
      restartRequested := false;
    }

    /** The session half of resetGame: a fresh empty board, X to move, no
        result, both flags cleared; the player count is kept. */
    method Reset()
      modifies this
      ensures Valid() && fresh(board)
      ensures State() == ResetSession(old(State()))
    {
      var b := CreateEmptyBoard();
      board, currentPlayer, winner, winningCells, playerDisconnected, restartRequested :=
        b, 0, Undecided, [], false, false;
    }

    /** The "r" key's request to the other participant. */
    method RequestRestart()
      modifies this
      ensures board == old(board) && Valid() == old(Valid())
      ensures State() == old(State()).(restartRequested := true)
    {
      restartRequested := true;
    }

    /** The session half of a placement: write `p` at row `y`, column `x`,
        then record the win, the draw, or pass the turn. Nothing here checks
        whose turn it is or whether the cell is free. */
    method Place(y: int, x: int, p: Player)
      requires Valid() && 0 <= y < BoardSize && 0 <= x < BoardSize
      modifies this, board
      ensures Valid() && board == old(board)
      ensures State() == PlaceOnSession(old(State()), y, x, p)
    {
      ghost var before := State();
      WriteCell(board, y, x, Mark(p));
      var g := Contents(board);
      assert g == SetCell(before.board, y, x, Mark(p));

      var cells := CheckWinner(g, p);
      if cells != [] {
        winner, winningCells := Won(p), cells;
      } else if IsDraw(g) {
        winner := Draw;
      } else {
        currentPlayer := 1 - currentPlayer;
      }
      assert State().board == g;
    }

    /** The effect of a participant's connection ending: the flag is set and nothing else changes. */
    method MarkDisconnected()
      modifies this
      ensures board == old(board) && Valid() == old(Valid())
      ensures State() == old(State()).(playerDisconnected := true)
    {
      playerDisconnected := true;
    }
  }
}
