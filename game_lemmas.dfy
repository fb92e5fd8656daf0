/**
  Properties of the board engine and of `Game.Step`, the reference
  definition that `Views.Model.Update` follows.
*/
module GameProperties {
  import opened Wrappers
  import opened Board
  import opened Game

  // ----- Board engine -----

  /** Every line of the scan order is three positions on the board. */
  lemma ScanLineOnBoard(k: int)
    requires 0 <= k < |ScanOrder|
    ensures |ScanOrder[k]| == 3 && forall j :: 0 <= j < 3 ==> OnBoard(ScanOrder[k][j])
  {
    if k < 3 {
      ScanOrderRow(k);
    } else if k < 6 {
      ScanOrderColumn(k - 3);
    }
  }

  /** The fresh board has no line for either player and is not a draw. */
  lemma EmptyBoardUndecided(p: Player)
    ensures !HasLine(EmptyGrid(), p) && CheckWinner(EmptyGrid(), p) == []
    ensures !IsDraw(EmptyGrid())
  {
    var g := EmptyGrid();
    forall k | 0 <= k < |ScanOrder|
      ensures !Completes(g, ScanOrder[k], p)
    {
      ScanLineOnBoard(k);
      assert CellAt(g, ScanOrder[k][0]) == Empty;
    }
    assert g[0][0] == Empty;
  }

  /** A line complete for `p` after `p` was written at row `y`, column `x`
      either goes through that cell or was already complete before. */
  lemma LineThroughWrite(g: Grid, y: int, x: int, p: Player, line: seq<Coord>)
    requires IsBoard(g) && OnBoard(Coord(y, x))
    requires forall j :: 0 <= j < |line| ==> OnBoard(line[j])
    requires Completes(SetCell(g, y, x, Mark(p)), line, p)
    ensures Coord(y, x) in line || Completes(g, line, p)
  {
    if Coord(y, x) !in line {
      forall j | 0 <= j < |line|
        ensures CellAt(g, line[j]) == Mark(p)
      {
        assert CellAt(SetCell(g, y, x, Mark(p)), line[j]) == Mark(p);
        assert line[j] != Coord(y, x);
      }
    }
  }

  /** A placement that completes a line for `p` on a board where `p` had
      none puts the placed cell on the reported line. */
  lemma WinningLineHoldsLastMove(g: Grid, y: int, x: int, p: Player)
    requires IsBoard(g) && OnBoard(Coord(y, x)) && !HasLine(g, p)
    ensures var cells := CheckWinner(SetCell(g, y, x, Mark(p)), p);
            cells != [] ==> Coord(y, x) in cells
  {
    var h := SetCell(g, y, x, Mark(p));
    var cells := CheckWinner(h, p);
    if cells != [] {
      var k :| FirstCompleteFrom(h, p, cells, 0, k);
      ScanLineOnBoard(k);
      LineThroughWrite(g, y, x, p, ScanOrder[k]);
    }
  }

  // ----- Cursor keys -----

  /** Each cursor key moves one coordinate by one step towards its edge and
      does nothing at the edge; no other field changes, the Down key's
      column clamp never fires on a 3x3 board, and the cursor stays on it. */
  lemma CursorKeyEffect(m: ViewState, key: Key, multiplayer: bool)
    requires ValidView(m, multiplayer) && IsCursorKey(key)
    ensures var r := MoveCursor(m, key);
            ValidView(r, multiplayer) &&
            (key == KeyUp ==>
               r == if m.cursorY == 0 then m else m.(cursorY := m.cursorY - 1)) &&
            (key == KeyDown ==>
               r == if m.cursorY == BoardSize - 1 then m else m.(cursorY := m.cursorY + 1)) &&
            (key == KeyRight ==>
               r == if m.cursorX == BoardSize - 1 then m else m.(cursorX := m.cursorX + 1)) &&
            (key == KeyLeft ==>
               r == if m.cursorX == 0 then m else m.(cursorX := m.cursorX - 1))
  {
  }

  // ----- Placement -----

  /** A placement leaves everything as it was, and hands back no command,
      exactly when one of the three guards on the view's own copy holds. */
  lemma IgnoredPlacementChangesNothing(m: ViewState, s: Option<SessionState>)
    requires ValidPair(m, s)
    ensures PlaceStep(m, s).cmd == NoCmd
    ensures PlacementIgnored(m, s.Some?) <==> PlaceStep(m, s) == StepResult(m, s, NoCmd)
  {
    if !PlacementIgnored(m, s.Some?) {
      var r := PlaceStep(m, s);
      assert m.board[m.cursorY][m.cursorX] == Empty;
      assert r.view.board[m.cursorY][m.cursorX] != Empty;
    }
  }

  /** A placement on the shared session writes only the chosen cell and then
      does exactly one of: record `p` as the winner with the line the win
      check reports, record a draw on a full board, or pass the turn. The
      turn stays 0 or 1, and the player count and the two flags are kept. */
  lemma SessionPlacementOutcome(ss: SessionState, y: int, x: int, p: Player)
    requires ValidSession(ss) && OnBoard(Coord(y, x))
    ensures var b := SetCell(ss.board, y, x, Mark(p));
            var r := PlaceOnSession(ss, y, x, p);
            ValidSession(r) && r.board == b &&
            r.playerCount == ss.playerCount &&
            r.playerDisconnected == ss.playerDisconnected &&
            r.restartRequested == ss.restartRequested &&
            (HasLine(b, p) ==>
               r.winner == Won(p) && r.winningCells == CheckWinner(b, p) &&
               Completes(b, r.winningCells, p) && r.currentPlayer == ss.currentPlayer) &&
            (!HasLine(b, p) && IsDraw(b) ==>
               r.winner == Draw && r.winningCells == ss.winningCells &&
               r.currentPlayer == ss.currentPlayer) &&
            (!HasLine(b, p) && !IsDraw(b) ==>
               r.winner == ss.winner && r.winningCells == ss.winningCells &&
               r.currentPlayer == 1 - ss.currentPlayer &&
               TurnPlayer(r.currentPlayer) == Opponent(TurnPlayer(ss.currentPlayer)))
  {
  }

  /** The same three outcomes for a placement when playing alone, where the
      player to move is the mover and passing the turn is switchPlayer. */
  lemma SoloPlacementOutcome(m: ViewState)
    requires ValidView(m, false)
    ensures var p := m.currentPlayer;
            var b := SetCell(m.board, m.cursorY, m.cursorX, Mark(p));
            var r := PlaceAlone(m);
            ValidView(r, false) && r.board == b &&
            r.(board := m.board, winner := m.winner, winningCells := m.winningCells,
               currentPlayer := m.currentPlayer) == m &&
            (HasLine(b, p) ==>
               r.winner == Won(p) && r.winningCells == CheckWinner(b, p) &&
               Completes(b, r.winningCells, p) && r.currentPlayer == p) &&
            (!HasLine(b, p) && IsDraw(b) ==>
               r.winner == Draw && r.winningCells == m.winningCells && r.currentPlayer == p) &&
            (!HasLine(b, p) && !IsDraw(b) ==>
               r.winner == m.winner && r.winningCells == m.winningCells &&
               r.currentPlayer == Opponent(p))
  {
  }

  /** Over a session, an accepted placement marks the view's own board but
      leaves its turn flag, result and player to move as they were: the view
      learns of the new turn only at the next tick. */
  lemma SharedPlacementLeavesViewStale(m: ViewState, ss: SessionState)
    requires ValidPair(m, Some(ss)) && !PlacementIgnored(m, true)
    ensures var r := PlaceStep(m, Some(ss));
            r.view.board == SetCell(m.board, m.cursorY, m.cursorX, m.playerSymbol) &&
            r.view.(board := m.board) == m &&
            r.session == Some(PlaceOnSession(ss, m.cursorY, m.cursorX, m.playerSymbol.player))
  {
  }

  /** Over a session, a win leaves the turn with the winner, and the flag
      the next tick derives ignores that the game is over: the winner's
      view reads that it is its turn. */
  lemma WinnerKeepsTurnFlag(m: ViewState, ss: SessionState, now: int)
    requires ValidPair(m, Some(ss)) && !PlacementIgnored(m, true)
    requires m.playerSymbol == Mark(TurnPlayer(ss.currentPlayer))
    requires HasLine(SetCell(ss.board, m.cursorY, m.cursorX, m.playerSymbol), m.playerSymbol.player)
    ensures var placed := PlaceStep(m, Some(ss));
            var r := TickStep(placed.view, placed.session, now);
            r.view.winner == Won(m.playerSymbol.player) && r.view.isMyTurn
  {
    SessionPlacementOutcome(ss, m.cursorY, m.cursorX, m.playerSymbol.player);
  }

  // ----- Reset and restart -----

  /** The reset session is the one a first arrival creates, with the player
      count kept; the reset view is the initial one, with the symbol and the
      waiting flag kept and the turn flag derived. Both resets are idempotent. */
  lemma ResetValues(m: ViewState, s: SessionState)
    ensures ResetSession(s) == NewSession().(playerCount := s.playerCount)
    ensures ResetView(m) == InitialView().(playerSymbol := m.playerSymbol,
                                          isMyTurn := m.playerSymbol == Mark(X),
                                          waitingForPlayer := m.waitingForPlayer)
    ensures ResetSession(ResetSession(s)) == ResetSession(s)
    ensures ResetView(ResetView(m)) == ResetView(m)
  {
  }

  /** "r" leaves the session reset with the restart flag set, whatever the
      flag was, and asks for a clear screen. */
  lemma RestartEffect(m: ViewState, s: Option<SessionState>)
    ensures var r := RestartStep(m, s);
            r.cmd == ClearScreen && r.view == ResetView(m) && r.session.Some? == s.Some? &&
            (s.Some? ==> r.session == Some(NewSession().(playerCount := s.value.playerCount,
                                                         restartRequested := true)))
  {
  }

  /** Both participants pressing "r" before either tick leaves the session
      as one press does. */
  lemma DoubleRestart(m1: ViewState, m2: ViewState, ss: SessionState)
    ensures var first := RestartStep(m1, Some(ss));
            RestartStep(m2, first.session).session == first.session
  {
  }

  /** "r" takes two locked regions: the reset, then setting the flag. A tick
      of the other view between them sees the reset session with the flag
      clear: it copies the empty board and keeps ticking rather than clearing
      its screen. */
  lemma TickBetweenResetAndFlag(m: ViewState, ss: SessionState, now: int)
    ensures var reset := ResetSession(ss);
            TickStep(m, Some(reset), now) == StepResult(Synced(m, reset), Some(reset), Tick) &&
            Synced(m, reset).board == EmptyGrid() && Synced(m, reset).winner == Undecided
  {
  }

  // ----- Tick -----

  /** A tick over a session leaves the session as it is and copies its
      board, turn, result and player count into the view; the turn flag is
      the view's symbol against the player to move, whatever the result. */
  lemma TickSyncsView(m: ViewState, ss: SessionState, now: int)
    ensures var r := TickStep(m, Some(ss), now);
            r.session == Some(ss) &&
            r.view.board == ss.board &&
            (r.view.currentPlayer == X <==> ss.currentPlayer == 0) &&
            r.view.winner == ss.winner && r.view.winningCells == ss.winningCells &&
            r.view.isMyTurn == (m.playerSymbol == Mark(r.view.currentPlayer)) &&
            r.view.waitingForPlayer == (ss.playerCount < 2) &&
            r.view.(board := m.board, currentPlayer := m.currentPlayer, winner := m.winner,
                    winningCells := m.winningCells, isMyTurn := m.isMyTurn,
                    waitingForPlayer := m.waitingForPlayer,
                    disconnectTimer := m.disconnectTimer) == m
  {
  }

  /** The command a tick over a session hands back: a clear screen (and no
      further tick) exactly when a restart was requested, Quit exactly when,
      with no restart pending, the other side is disconnected and more than
      the grace period has passed since the first tick that saw it, and
      otherwise the next tick. The first tick that sees the disconnect
      records the time. */
  lemma TickCommand(m: ViewState, ss: SessionState, now: int)
    ensures var r := TickStep(m, Some(ss), now);
            var quits := !ss.restartRequested && ss.playerDisconnected &&
                         m.disconnectTimer.Some? && now - m.disconnectTimer.value > DisconnectTimeout;
            (r.cmd == ClearScreen <==> ss.restartRequested) &&
            (r.cmd == Quit <==> quits) &&
            (r.cmd == Tick <==> !ss.restartRequested && !quits) &&
            r.view.disconnectTimer ==
              (if !ss.restartRequested && ss.playerDisconnected && m.disconnectTimer.None?
               then Some(now) else m.disconnectTimer)
  {
  }

  /** Once the other side is gone, the first tick only starts the countdown,
      and a later tick quits exactly when more than 5 seconds have passed. */
  lemma DisconnectCountdown(m: ViewState, ss: SessionState, t1: int, t2: int)
    requires ss.playerDisconnected && !ss.restartRequested && m.disconnectTimer.None?
    ensures var first := TickStep(m, Some(ss), t1);
            first.cmd == Tick && first.view.disconnectTimer == Some(t1) &&
            (TickStep(first.view, first.session, t2).cmd == Quit <==> t2 - t1 > 5000)
  {
  }

  /** Without a session a tick changes nothing and only asks for the next one. */
  lemma SoloTickNoChange(m: ViewState, now: int)
    ensures TickStep(m, None, now) == StepResult(m, None, Tick)
  {
  }

  // ----- Every message -----

  /** The invariants every message keeps: the view and the session stay
      well formed (the turn 0 or 1, the cursor on the board), the view keeps
      its symbol and whether it has a session, the session keeps its player
      count, and a pending restart request is never cleared. */
  predicate Kept(m: ViewState, s: Option<SessionState>, r: StepResult) {
    ValidPair(r.view, r.session) &&
    r.view.playerSymbol == m.playerSymbol &&
    r.session.Some? == s.Some? &&
    (s.Some? ==> r.session.value.playerCount == s.value.playerCount) &&
    (s.Some? && s.value.restartRequested ==> r.session.value.restartRequested)
  }

  /** A placement keeps the invariants. */
  lemma PlacementKeeps(m: ViewState, s: Option<SessionState>)
    requires ValidPair(m, s)
    ensures Kept(m, s, PlaceStep(m, s))
  {
    if !PlacementIgnored(m, s.Some?) {
      if s.Some? {
        SessionPlacementOutcome(s.value, m.cursorY, m.cursorX, m.playerSymbol.player);
      } else {
        SoloPlacementOutcome(m);
      }
    }
  }

  /** Every message keeps the invariants, and only "r" and a placement
      write the session. */
  lemma StepInvariants(m: ViewState, s: Option<SessionState>, msg: Msg, now: int)
    requires ValidPair(m, s)
    ensures Kept(m, s, Step(m, s, msg, now))
    ensures msg != KeyMsg(KeyRestart) && msg != KeyMsg(KeyPlace) ==> Step(m, s, msg, now).session == s
  {
    match msg
    case TickMsg =>
      if s.Some? {
        TickSyncsView(m, s.value, now);
      }
    case KeyMsg(key) =>
      if IsCursorKey(key) {
        CursorKeyEffect(m, key, s.Some?);
      } else if key == KeyPlace {
        PlacementKeeps(m, s);
      }
    case OtherMsg =>
  }

  /** The quit key and messages the view does not know change nothing. */
  lemma QuitAndOtherChangeNothing(m: ViewState, s: Option<SessionState>, now: int)
    requires ValidPair(m, s)
    ensures Step(m, s, KeyMsg(KeyQuit), now) == StepResult(m, s, Quit)
    ensures Step(m, s, KeyMsg(KeyOther), now) == StepResult(m, s, NoCmd)
    ensures Step(m, s, OtherMsg, now) == StepResult(m, s, NoCmd)
  {
  }
}
