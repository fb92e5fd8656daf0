/**
  The game logic of one participant's view as pure functions over values:
  the shared session's fields, the view's fields, the messages the view
  reacts to and the commands it hands back to the terminal runtime.
  `Step` is the reference definition that the in-memory `Views.Model.Update`
  is proved to follow.
*/
module Game {
  import opened Wrappers
  import opened Board

  /** The disconnect grace period, 5 seconds; times are integers in milliseconds. */
  const DisconnectTimeout: int := 5000

  /** The `Winner` field: "" (no result yet), "X" or "O", or "draw". */
  datatype Outcome = Undecided | Won(winner: Player) | Draw

  /** The fields of the shared GameSession (its lock left out). */
  datatype SessionState = SessionState(
    board: Grid,
    currentPlayer: int,        // 0 for X to move, 1 for O
    winner: Outcome,
    winningCells: seq<Coord>,  // [] for nil
    playerCount: int,
    playerDisconnected: bool,
    restartRequested: bool)

  /** The fields of one participant's `model` (its session reference is the
      `Option<SessionState>` passed beside it). */
  datatype ViewState = ViewState(
    board: Grid,
    cursorX: int,
    cursorY: int,
    currentPlayer: Player,
    winner: Outcome,
    winningCells: seq<Coord>,
    playerSymbol: Cell,            // Empty ("") when playing alone
    isMyTurn: bool,
    waitingForPlayer: bool,
    disconnectTimer: Option<int>)  // None for the zero time.Time

  /** The keys the view distinguishes. */
  datatype Key =
    | KeyQuit      // "ctrl+c", "q"
    | KeyUp        // "up", "k"
    | KeyDown      // "down", "j"
    | KeyRight     // "right", "l"
    | KeyLeft      // "left", "h"
    | KeyRestart   // "r"
    | KeyPlace     // "enter", " "
    | KeyOther     // any other key

  /** The messages the view receives. */
  datatype Msg = TickMsg | KeyMsg(key: Key) | OtherMsg

  /** The command handed back to the runtime: nil, tea.Quit, tea.ClearScreen, a new tea.Tick. */
  datatype Cmd = NoCmd | Quit | ClearScreen | Tick

  datatype StepResult = StepResult(view: ViewState, session: Option<SessionState>, cmd: Cmd)

  /** The shared session is well formed: a 3x3 board and a turn of 0 or 1. */
  predicate ValidSession(s: SessionState) {
    IsBoard(s.board) && 0 <= s.currentPlayer <= 1
  }

  /** The view is well formed: a 3x3 board, the cursor on it, and a symbol
      of its own when it plays over a shared session. */
  predicate ValidView(m: ViewState, multiplayer: bool) {
    IsBoard(m.board) && 0 <= m.cursorX < BoardSize && 0 <= m.cursorY < BoardSize &&
    (multiplayer ==> m.playerSymbol.Mark?)
  }

  predicate ValidPair(m: ViewState, s: Option<SessionState>) {
    ValidView(m, s.Some?) && (s.Some? ==> ValidSession(s.value))
  }

  /** initialModel: an empty board with X to move, everything else at Go's zero value. */
  function InitialView(): ViewState {
    ViewState(EmptyGrid(), 0, 0, X, Undecided, [], Empty, false, false, None)
  }

  /** The session the first participant of a pair creates. */
  function NewSession(): SessionState {
    SessionState(EmptyGrid(), 0, Undecided, [], 1, false, false)
  }

  /** resetGame's effect on the view. */
  function ResetView(m: ViewState): ViewState {
    m.(board := EmptyGrid(), currentPlayer := X, winner := Undecided, winningCells := [],
       cursorX := 0, cursorY := 0, isMyTurn := m.playerSymbol == Mark(X),
       disconnectTimer := None)
  }

  /** resetGame's effect on the shared session. */
  function ResetSession(s: SessionState): SessionState {
    s.(board := EmptyGrid(), currentPlayer := 0, winner := Undecided, winningCells := [],
       playerDisconnected := false, restartRequested := false)
  }

  /** The player the session's turn counter names. */
  function TurnPlayer(currentPlayer: int): Player {
    if currentPlayer == 0 then X else O
  }

  /** The first half of a tick: the session's board, turn, result and
      player count copied into the view, and the turn flag derived from them. */
  function Synced(m: ViewState, ss: SessionState): ViewState {
    var current := TurnPlayer(ss.currentPlayer);
    m.(board := ss.board, currentPlayer := current, winner := ss.winner,
       winningCells := ss.winningCells,
       isMyTurn := m.playerSymbol == Mark(current),
       waitingForPlayer := ss.playerCount < 2)
  }

  /** The tick: copy the shared session into the view, then handle a restart
      request or a disconnect. */
  function TickStep(m: ViewState, s: Option<SessionState>, now: int): StepResult {
    if s.None? then StepResult(m, s, Tick)
    else
      var ss := s.value;
      var synced := Synced(m, ss);
      if ss.restartRequested then StepResult(synced, s, ClearScreen)
      else if ss.playerDisconnected && m.disconnectTimer.None? then
        StepResult(synced.(disconnectTimer := Some(now)), s, Tick)
      else if ss.playerDisconnected && now - m.disconnectTimer.value > DisconnectTimeout then
        StepResult(synced, s, Quit)
      else StepResult(synced, s, Tick)
  }

  /** The four cursor keys; `key` is one of them. */
  function MoveCursor(m: ViewState, key: Key): ViewState
    requires ValidView(m, false)
  {
    match key
    case KeyUp =>
      if m.cursorY > 0 then m.(cursorY := m.cursorY - 1) else m
    case KeyDown =>
      if m.cursorY < |m.board| - 1 then
        var y := m.cursorY + 1;
        var x := if m.cursorX >= |m.board[y]| then |m.board[y]| - 1 else m.cursorX;
        m.(cursorY := y, cursorX := x)
      else m
    case KeyRight =>
      if m.cursorX < |m.board[m.cursorY]| - 1 then m.(cursorX := m.cursorX + 1) else m
    case KeyLeft =>
      if m.cursorX > 0 then m.(cursorX := m.cursorX - 1) else m
    case _ => m
  }

  predicate IsCursorKey(key: Key) {
    key == KeyUp || key == KeyDown || key == KeyRight || key == KeyLeft
  }

  /** The three guards of a placement, all on the view's own copy. */
  predicate PlacementIgnored(m: ViewState, multiplayer: bool)
    requires ValidView(m, multiplayer)
  {
    m.winner != Undecided || (multiplayer && !m.isMyTurn) ||
    m.board[m.cursorY][m.cursorX] != Empty
  }

  /** A successful placement of `p` at row `y`, column `x` on the shared
      session: write the cell, then record the win, the draw, or pass the turn. */
  function PlaceOnSession(ss: SessionState, y: int, x: int, p: Player): SessionState
    requires ValidSession(ss) && 0 <= y < BoardSize && 0 <= x < BoardSize
  {
    var b := SetCell(ss.board, y, x, Mark(p));
    var cells := CheckWinner(b, p);
    if cells != [] then ss.(board := b, winner := Won(p), winningCells := cells)
    else if IsDraw(b) then ss.(board := b, winner := Draw)
    else ss.(board := b, currentPlayer := 1 - ss.currentPlayer)
  }

  /** A successful placement when playing alone: write the player to move at
      the cursor, then record the win, the draw, or switch the player. */
  function PlaceAlone(m: ViewState): ViewState
    requires ValidView(m, false)
  {
    var p := m.currentPlayer;
    var b := SetCell(m.board, m.cursorY, m.cursorX, Mark(p));
    var cells := CheckWinner(b, p);
    if cells != [] then m.(board := b, winner := Won(p), winningCells := cells)
    else if IsDraw(b) then m.(board := b, winner := Draw)
    else m.(board := b, currentPlayer := Opponent(p))
  }

  /** enter / space. Over a session the view writes its own symbol into its own
      board and into the session's, and leaves its other fields for the next tick. */
  function PlaceStep(m: ViewState, s: Option<SessionState>): StepResult
    requires ValidPair(m, s)
  {
    if PlacementIgnored(m, s.Some?) then StepResult(m, s, NoCmd)
    else
      match s
      case Some(ss) =>
        var p := m.playerSymbol.player;
        var local := m.(board := SetCell(m.board, m.cursorY, m.cursorX, Mark(p)));
        StepResult(local, Some(PlaceOnSession(ss, m.cursorY, m.cursorX, p)), NoCmd)
      case None =>
        StepResult(PlaceAlone(m), None, NoCmd)
  }

  /** "r": reset the view and the session, then flag the restart for the other player. */
  function RestartStep(m: ViewState, s: Option<SessionState>): StepResult {
    var shared := if s.Some? then Some(ResetSession(s.value).(restartRequested := true)) else None;
    StepResult(ResetView(m), shared, ClearScreen)
  }

  /** Update: one message handled by one view. */
  function Step(m: ViewState, s: Option<SessionState>, msg: Msg, now: int): StepResult
    requires ValidPair(m, s)
  {
    match msg
    case TickMsg => TickStep(m, s, now)
    case KeyMsg(key) =>
      if key == KeyQuit then StepResult(m, s, Quit)
      else if IsCursorKey(key) then StepResult(MoveCursor(m, key), s, NoCmd)
      else if key == KeyRestart then RestartStep(m, s)
      else if key == KeyPlace then PlaceStep(m, s)
      else StepResult(m, s, NoCmd)
    case OtherMsg => StepResult(m, s, NoCmd)
  }
}
