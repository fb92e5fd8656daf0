/**
  One participant's view (`model` in the Go program): its own board copy,
  cursor and derived flags, and an optional reference to the shared session.
  The terminal runtime replaces the model with the one `Update` returns, so
  `Update` is an in-place update here; its contract ties the new fields to
  `Game.Step` on the old ones.
*/
module Views {
  import opened Wrappers
  import opened Board
  import opened Game
  import opened Sessions

  class Model {
    var board: array2<Cell>
    var cursorX: int
    var cursorY: int
    var currentPlayer: Player
    var winner: Outcome
    var winningCells: seq<Coord>
    var playerSymbol: Cell
    var isMyTurn: bool
    var waitingForPlayer: bool
    var session: GameSession?
    var disconnectTimer: Option<int>

    /** The view's board is 3x3 and never the session's own board, the cursor
        is on the board, and a view over a session has a symbol of its own. */
    ghost predicate Valid()
      reads this, session
    {
      board.Length0 == BoardSize && board.Length1 == BoardSize &&
      0 <= cursorX < BoardSize && 0 <= cursorY < BoardSize &&
      (session != null ==> session.Valid() && session.board != board && playerSymbol.Mark?)
    }

    /** The objects an update may write. */
    ghost function Repr(): set<object>
      reads this, session
    {
      {this, board} + if session == null then {} else {session as object, session.board}
    }

    /** The view's fields as a value. */
    function State(): ViewState
      reads this, board
    {
      ViewState(Contents(board), cursorX, cursorY, currentPlayer, winner, winningCells,
                playerSymbol, isMyTurn, waitingForPlayer, disconnectTimer)
    }

    /** The shared session as a value, None when playing alone. */
    function Shared(): Option<SessionState>
      reads this, session, if session == null then {} else {session.board}
    {
      if session == null then None else Some(session.State())
    }

    /** initialModel. */
    constructor Initial()
      ensures Valid() && fresh(board) && session == null
      ensures State() == InitialView()
    {
      var b := CreateEmptyBoard();
      board := b;
      cursorX, cursorY := 0, 0;
      currentPlayer := X;
      winner := Undecided;
      winningCells := [];
      playerSymbol := Empty;
      isMyTurn := false;
      waitingForPlayer := false;
      session := null;
      disconnectTimer := None;
    }

    /** switchPlayer: X becomes O and anything else becomes X; nothing else changes. */
    method SwitchPlayer()
      modifies this
      ensures board == old(board) && session == old(session)
      ensures State() == old(State()).(currentPlayer := Opponent(old(currentPlayer)))
    {
      if currentPlayer == X {
        currentPlayer := O;
      } else {
        currentPlayer := X;
      }
    }

    /** resetGame: fresh empty boards for the view and the session, X to move,
        no result, cursor home, timer cleared, session flags cleared. */
    method ResetGame()
      requires Valid()
      modifies this, if session == null then {} else {session}
      ensures Valid() && session == old(session) && fresh(board)
      ensures State() == ResetView(old(State()))
      ensures session != null ==> fresh(session.board)
      ensures Shared() == if old(session) == null then None else Some(ResetSession(old(session.State())))
    {
      ResetOwnFields();
      if session != null {
        session.Reset();
      }
    }

    /** The view half of resetGame. */
    method ResetOwnFields()
      requires Valid()
      modifies this
      ensures Valid() && session == old(session) && fresh(board)
      ensures State() == ResetView(old(State()))
    {
      var b := CreateEmptyBoard();
      board, currentPlayer, winner, winningCells, cursorX, cursorY, isMyTurn, disconnectTimer :=
        b, X, Undecided, [], 0, 0, playerSymbol == Mark(X), None;
    }

    /** The tick: sync from the session, then the restart and disconnect checks. */
    method OnTick(now: int) returns (cmd: Cmd)
      requires Valid()
      modifies this
      ensures Valid() && session == old(session)
      ensures board == old(board) || fresh(board)
      ensures StepResult(State(), Shared(), cmd) == TickStep(old(State()), old(Shared()), now)
    {
      if session != null {
        SyncFromSession();

        if session.restartRequested {
          winner := session.winner;
          winningCells := session.winningCells;
          return ClearScreen;
        }

        if session.playerDisconnected {
          if disconnectTimer.None? {
            disconnectTimer := Some(now);
          } else if now - disconnectTimer.value > DisconnectTimeout {
            return Quit;
          }
        }
      }
      return Tick;
    }

    /** The first half of a tick: copy the session's board, turn, result and
        player count into the view. */
    method SyncFromSession()
      requires Valid() && session != null
      modifies this
      ensures Valid() && session == old(session) && fresh(board)
      ensures State() == Synced(old(State()), session.State())
    {
      var b := CopyBoard(session.board);
      var current := if session.currentPlayer == 0 then X else O;
      board, currentPlayer, winner, winningCells, isMyTurn, waitingForPlayer :=
        b, current, session.winner, session.winningCells, playerSymbol == Mark(current),
        session.playerCount < 2;
      assert Contents(board) == session.State().board;
    }

    /** The cursor keys, bounded by the board's dimensions. */
    method OnCursorKey(key: Key)
      requires Valid() && IsCursorKey(key)
      modifies this
      ensures Valid() && session == old(session) && board == old(board)
      ensures State() == MoveCursor(old(State()), key)
    {
      match key
      case KeyUp =>
        if cursorY > 0 {
          cursorY := cursorY - 1;
        }
      case KeyDown =>
        if cursorY < board.Length0 - 1 {
          cursorY := cursorY + 1;
          var x, width := cursorX, board.Length1;
          if x >= width {
            x := width - 1;
          }
          cursorX := x;
        }
      case KeyRight =>
        if cursorX < board.Length1 - 1 {
          cursorX := cursorX + 1;
        }
      case KeyLeft =>
        if cursorX > 0 {
          cursorX := cursorX - 1;
        }
    }

    /** "r": reset, then flag the restart on the session. */
    method OnRestart() returns (cmd: Cmd)
      requires Valid()
      modifies this, if session == null then {} else {session}
      ensures Valid() && session == old(session) && fresh(board)
      ensures session != null ==> fresh(session.board)
      ensures StepResult(State(), Shared(), cmd) == RestartStep(old(State()), old(Shared()))
    {
      ResetGame();
      if session != null {
        session.RequestRestart();
      }
      return ClearScreen;
    }

    /** enter / space: the three guards on the view's own copy, then the
        placement on the view's board and, over a session, on the shared one. */
    method OnPlace() returns (cmd: Cmd)
      requires Valid()
      modifies this, board, if session == null then {} else {session, session.board}
      ensures Valid() && session == old(session) && board == old(board)
      ensures session != null ==> session.board == old(session.board)
      ensures StepResult(State(), Shared(), cmd) == PlaceStep(old(State()), old(Shared()))
    {
      cmd := NoCmd;
      if winner != Undecided {
        return;
      }
      if session != null && !isMyTurn {
        return;
      }
      ContentsCells(board);
      if board[cursorY, cursorX] != Empty {
        return;
      }

      if session != null {
        PlaceShared();
      } else {
        PlaceSolo();
      }
    }

    /** A placement that passed the guards, over a session. */
    method PlaceShared()
      requires Valid() && session != null && !PlacementIgnored(State(), true)
      modifies board, session, session.board
      ensures Valid()
      ensures State() == old(State()).(board := SetCell(old(Contents(board)), cursorY, cursorX, playerSymbol))
      ensures session.board == old(session.board)
      ensures session.State() ==
                PlaceOnSession(old(session.State()), cursorY, cursorX, playerSymbol.player)
    {
      WriteCell(board, cursorY, cursorX, playerSymbol);
      session.Place(cursorY, cursorX, playerSymbol.player);
    }

    /** A placement that passed the guards, playing alone. */
    method PlaceSolo()
      requires Valid() && session == null && !PlacementIgnored(State(), false)
      modifies this, board
      ensures Valid() && session == null && board == old(board)
      ensures State() == PlaceAlone(old(State()))
    {
      WriteCell(board, cursorY, cursorX, Mark(currentPlayer));

      var cells := CheckWinner(Contents(board), currentPlayer);
      if cells != [] {
        winner := Won(currentPlayer);
        winningCells := cells;
      } else if IsDraw(Contents(board)) {
        winner := Draw;
      } else {
        SwitchPlayer();
      }
    }

    /** The end of the participant's connection: the shared session, if
        any, is marked as disconnected; nothing else changes. */
    method OnConnectionClosed()
      requires Valid()
      modifies if session == null then {} else {session}
      ensures Valid() && session == old(session) && State() == old(State())
      ensures session != null ==> session.board == old(session.board)
      ensures Shared() == if old(session) == null then None
                          else Some(old(session.State()).(playerDisconnected := true))
    {
      if session != null {
        session.MarkDisconnected();
      }
    }

    /** Update: dispatch one message. */
    method Update(msg: Msg, now: int) returns (cmd: Cmd)
      requires Valid()
      modifies Repr()
      ensures Valid() && session == old(session)
      ensures board == old(board) || fresh(board)
      ensures session != null ==> session.board == old(session.board) || fresh(session.board)
      ensures StepResult(State(), Shared(), cmd) == Step(old(State()), old(Shared()), msg, now)
    {
      match msg
      case TickMsg =>
        cmd := OnTick(now);
      case KeyMsg(key) =>
        if key == KeyQuit {
          cmd := Quit;
        } else if IsCursorKey(key) {
          OnCursorKey(key);
          cmd := NoCmd;
        } else if key == KeyRestart {
          cmd := OnRestart();
        } else if key == KeyPlace {
          cmd := OnPlace();
        } else {
          cmd := NoCmd;
        }
      case OtherMsg =>
        cmd := NoCmd;
    }
  }
}
