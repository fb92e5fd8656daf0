# Tic-tac-toe over SSH: a verified model of the game core

The program serves tic-tac-toe to terminal clients. The first connection of
a pair creates a shared `GameSession` and plays X. The second joins that
session and plays O. Each connection drives its own `model`, a view with its
own copy of the board, a cursor and a few derived flags. The view handles
key presses. A 100 ms tick copies the shared session into the view and
handles a pending restart or a disconnect. A placement is checked against
the view's own copy and then written into the shared session. There the win
check and the draw check run and the turn passes.

This project models that core in Dafny:

- `Board` (board.dfy): cells, the win check `CheckWinner` and the draw check
  `IsDraw` as pure functions over `Grid = seq<seq<Cell>>`. Also the in-memory
  boards, `array2<Cell>`, with `CreateEmptyBoard` and `CopyBoard`.
- `Game` (game.dfy): value snapshots of the session and of the view. `Step`
  handles one message; it is the reference definition of `Update`. Its
  pieces are `TickStep`, `MoveCursor`, `PlaceStep`, `PlaceOnSession`,
  `PlaceAlone` and `RestartStep`.
- `Sessions` (sessions.dfy): the `GameSession` class. Each locked region of
  the Go program is one method.
- `Views` (views.dfy): the `model` as class `Model`. `Update` mutates the view
  and the shared session in place. Its postcondition ties the new state to
  `Game.Step` on the old one.
- `Matchmaking` (matchmaking.dfy): the waiting slot of the session manager
  and the pairing step of the connection handler.
- `GameProperties` (game_lemmas.dfy): what `Step` and the board engine
  promise.
- `Scenarios` (scenarios.dfy): concrete games, pairing runs and a disconnect
  countdown.

Times are integers in milliseconds. The tick reads the clock through the
`now` parameter of `Update`, which stands for `time.Now()`. The grace period
`DisconnectTimeout` is 5000.

In four places the code does something a reader of a turn-based game might not
expect. The model follows the code:

- The turn flag is the view's symbol compared with the player to move. It
  does not look at whether the game is over (main.go:227); see
  `WinnerKeepsTurnFlag`.
- A tick never clears `RestartRequested`. Once set, every later tick of
  either view returns a clear-screen command and schedules no further tick
  (main.go:231-237). The "r" key resets the session, which clears the flag,
  and then sets it again (main.go:295-303); see `RestartEffect` and
  `StepInvariants`.
- The session does not check whose turn it is. The only turn check is on
  the view's own copy (main.go:314). A view that has not ticked since its
  own move can therefore place a second mark (`StaleTurnAllowsSecondMove`).
- A reset keeps `PlayerCount` and clears `PlayerDisconnected` (main.go:141-150).

## Model

| member | source | states |
|---|---|---|
| Board.CheckWinner | main.go:172-197 | the result is empty exactly when no row, column or diagonal is all `p`; otherwise it is three cells, all `p`, and the first complete line in the order rows, columns, main diagonal, anti-diagonal |
| Board.CheckRows | main.go:173-178 | the row scan from row `y`: empty exactly when no row from `y` on is complete, else the first complete one |
| Board.CheckColumns | main.go:181-185 | the column scan from column `x`: empty exactly when no column from `x` on is complete, else the first complete one |
| Board.IsDraw | main.go:200-209 | true exactly when no cell of the board is empty, whatever its shape |
| Board.RowFilled | main.go:202-206 | one row's cells from index `j` on are all non-empty, both directions |
| Board.RowsFilled | main.go:201-207 | the rows from index `i` on hold no empty cell, both directions |
| Board.EmptyGrid | main.go:102-111 | the value of a fresh board: 3x3 with every cell empty |
| Board.Contents | main.go:89 | a 3x3 in-memory board's value is a 3x3 grid |
| Board.ContentsCells | main.go:89 | each cell of that value is the board's cell at the same position |
| Board.CreateEmptyBoard | main.go:102-111 | a freshly allocated 3x3 board whose value is the empty grid |
| Board.CopyBoard | main.go:114-121 | a freshly allocated board of the same shape holding the same cells, so equal in value and sharing nothing with the board it copies |
| Board.WriteCell | main.go:324-333 | writing one cell changes the board's value at that cell only |
| Sessions.GameSession.constructor | main.go:530-534 | the new session: an empty fresh board, X to move, one participant, both flags false |
| Sessions.GameSession.Reset | main.go:141-150 | a fresh empty board, turn 0, no result, no winning line, both flags cleared, player count kept |
| Sessions.GameSession.RequestRestart | main.go:297-301 | only the restart flag changes, and it becomes true |
| Sessions.GameSession.Place | main.go:331-345 | the new session state is `PlaceOnSession` of the old one: the cell written, then a win with its line, or a draw, or the turn passed |
| Sessions.GameSession.MarkDisconnected | main.go:553-556 | only the disconnect flag changes, and it becomes true |
| Views.Model.Initial | main.go:123-128 | the initial view: a fresh empty board, X to move, no session, every other field at its zero value |
| Views.Model.SwitchPlayer | main.go:154-160 | the player to move becomes the opponent; nothing else changes |
| Views.Model.ResetGame | main.go:131-151 | the view becomes `ResetView` of the old view and the session, if any, `ResetSession` of the old session, both on fresh boards |
| Views.Model.ResetOwnFields | main.go:132-138 | the view half of the reset: `ResetView` of the old view on a fresh board |
| Views.Model.OnTick | main.go:215-255 | the view, the session and the command are those of `TickStep` on the old state and `now` |
| Views.Model.SyncFromSession | main.go:217-229 | the view is `Synced` with the session: a fresh copy of its board, its turn as X or O, its result and line, the turn flag and the waiting flag |
| Views.Model.OnCursorKey | main.go:268-292 | the view is `MoveCursor` of the old view for that key, the board untouched |
| Views.Model.OnRestart | main.go:295-303 | the view, the session and the command are those of `RestartStep` |
| Views.Model.OnPlace | main.go:307-357 | the view, the session and the command are those of `PlaceStep`; the boards are written in place |
| Views.Model.PlaceShared | main.go:323-345 | after the guards, over a session: the view's board gets the view's symbol and the session becomes `PlaceOnSession` with that symbol; nothing else in the view changes |
| Views.Model.PlaceSolo | main.go:326-357 | after the guards, playing alone: the write of the player to move (lines 326-327), then the solo branch (lines 346-357); the view becomes `PlaceAlone` of the old view |
| Views.Model.OnConnectionClosed | main.go:550-558 | the session, if any, gets its disconnect flag set and nothing else changes; the view is unchanged |
| Views.Model.Update | main.go:211-364 | the new view, session and command are `Step` of the old view and session, the message and `now` |
| Matchmaking.JoinedView | main.go:519-545 | a new connection's view: the empty board and X to move, with the given symbol; the turn flag and the waiting flag hold exactly for X |
| Matchmaking.NextRole | main.go:525-545 | the next arrival plays X exactly when nobody is waiting |
| Matchmaking.SessionManager.constructor | main.go:63-68 | at start-up nobody is waiting, so the manager's invariant holds |
| Matchmaking.SessionManager.Connect | main.go:518-547 | with nobody waiting: a new session, waiting in the slot, and a view playing X over it; otherwise: the waiting session with two participants, a view playing O over it, and an empty slot; a session left waiting in the slot is well formed |
| GameProperties.ScanLineOnBoard | main.go:172-197 | every line the win check scans is three cells on the board |
| GameProperties.EmptyBoardUndecided | main.go:102-111 | on the fresh board neither player has a line and the board is not a draw |
| GameProperties.LineThroughWrite | main.go:333-336 | a line complete after a write either passes through the written cell or was complete before |
| GameProperties.WinningLineHoldsLastMove | main.go:333-338 | if `p` had no line before a placement, the line the win check reports afterwards contains the placed cell |
| GameProperties.CursorKeyEffect | main.go:268-292 | each cursor key moves the cursor one step towards its edge, or does nothing at the edge; no other field changes, the Down key's column clamp never fires on a 3x3 board, and the cursor stays on the board |
| GameProperties.IgnoredPlacementChangesNothing | main.go:307-321 | a placement returns no command, and it leaves the view and the session unchanged exactly when the game is over, or it is a session game and not our turn, or the cell is taken (both directions) |
| GameProperties.SessionPlacementOutcome | main.go:331-345 | a placement on the session writes exactly the chosen cell and then does exactly one of: a win for the mover with the reported line, a draw on a full board with the turn kept, or the turn passed to the opponent; the turn stays 0 or 1, and the count and both flags are kept |
| GameProperties.SoloPlacementOutcome | main.go:346-357 | the same three outcomes when playing alone, with switchPlayer passing the turn; only the board, the result, the line and the player to move change |
| GameProperties.SharedPlacementLeavesViewStale | main.go:323-345 | over a session, the view's own board gets the mark but its turn flag, result and player to move stay as they were until the next tick |
| GameProperties.WinnerKeepsTurnFlag | main.go:217-227 | after a winning placement, the next tick reports the win and the winner's turn flag still true |
| GameProperties.ResetValues | main.go:131-151 | the reset session is the new session with the player count kept; the reset view is the initial view with the symbol and the waiting flag kept and the turn flag derived; both resets are idempotent |
| GameProperties.RestartEffect | main.go:295-303 | "r" returns a clear-screen command, resets the view, and leaves the session reset with the restart flag set |
| GameProperties.TickBetweenResetAndFlag | main.go:141-149 | a tick that falls between the reset and the setting of the restart flag sees the empty board with the flag clear and returns the next tick, not a clear screen |
| GameProperties.DoubleRestart | main.go:295-303 | a second "r" from the other view before any tick leaves the session exactly as the first one did |
| GameProperties.TickSyncsView | main.go:217-229 | a tick leaves the session untouched and copies its board, turn, result, line and count into the view; the turn flag compares the symbol with the player to move, ignoring the result; the cursor and the symbol do not change |
| GameProperties.TickCommand | main.go:231-255 | a tick returns a clear screen exactly when a restart is pending; Quit exactly when, with no restart pending, the other side is gone and more than 5000 ms have passed since the recorded time; otherwise the next tick. The first tick that sees the disconnect records `now` |
| GameProperties.DisconnectCountdown | main.go:240-249 | once the other side is gone, the first tick starts the countdown and a later tick quits exactly when more than 5000 ms have passed |
| GameProperties.SoloTickNoChange | main.go:216-255 | without a session a tick changes nothing and schedules the next tick |
| GameProperties.PlacementKeeps | main.go:307-357 | a placement keeps the invariants of `Kept` |
| GameProperties.StepInvariants | main.go:211-364 | every message keeps the view and the session well formed, the view's symbol, whether it has a session, the session's player count, and a pending restart request; only "r" and a placement write the session |
| GameProperties.QuitAndOtherChangeNothing | main.go:264-265 | the quit key returns Quit and changes nothing; other keys and other messages change nothing and return no command |
| Scenarios.Paired | main.go:518-547 | the table after two arrivals is well formed |
| Scenarios.Deliver | main.go:211-364 | one message to one view keeps the table well formed, leaves the other view untouched and keeps the player count |
| Scenarios.StartIsJoinedSession | main.go:530-543 | the start of a paired game is the new session with two participants |
| Scenarios.Move1 | main.go:331-345 | X at (0,0) on the fresh session: the mark is written and the turn passes to O |
| Scenarios.Move2 | main.go:331-345 | O at (1,1): the mark is written and the turn passes back to X |
| Scenarios.Move3 | main.go:331-345 | X at (0,1): the mark is written and the turn passes to O |
| Scenarios.Move4 | main.go:331-345 | O at (2,2): the mark is written, the game stays undecided, and X is to move |
| Scenarios.OpeningLeavesNoResult | main.go:172-209 | after that opening neither player has a line and the board is not full |
| Scenarios.Move5 | main.go:331-345 | X at (0,2) after that opening: X wins with the top row, reported as (0,0), (0,1), (0,2), and the turn stays with X |
| Scenarios.TopRowWin | main.go:331-345 | from the paired session, the opening X (0,0), O (1,1), X (0,1), O (2,2) passes the turn each time, and X at (0,2) then wins with the top row as the reported line, the turn staying with X |
| Scenarios.LastCellDraws | main.go:333-340 | X filling the last empty cell with no line for either player gives a draw, and the turn stays with X |
| Scenarios.SecondMoverRejectedFirst | main.go:314-316 | O's placement before X has moved is ignored and changes nothing |
| Scenarios.StaleMove1 | main.go:323-345 | X's first placement, as seen by both views and the session |
| Scenarios.StaleMove2 | main.go:323-345 | X's second placement, before X's view has ticked, is accepted by the session |
| Scenarios.StaleTurnAllowsSecondMove | main.go:314-345 | after X's first placement the session says O is to move while X's view still says X is; one step right and a second placement by X lands on the session's board, and the turn passes back to X |
| Scenarios.ThreeArrivals | main.go:518-547 | three connections in a row play X and O on the same two-participant session, then X on a new session of its own |
| Scenarios.PairThenClose | main.go:518-558 | after two arrivals and the first one's disconnect, the second view plays O with the initial fields, over a two-participant session flagged as disconnected |
| Scenarios.DisconnectTimesOut | main.go:240-249 | the surviving view's ticks at `t0` and `t0 + 5000` keep ticking, and the tick at `t0 + 5001` quits |

## Left out

- Rendering is not modelled: the styles, `View`, cell rendering and the win and draw screens (main.go:47-55, 366-515).
- The SSH server start-up in `main` (main.go:567-602) is not modelled. It is I/O.
- Locks are not modelled. Each locked region of `GameSession` is one method call, and each message a view handles is one `Step`.
- Goroutines and the Bubble Tea runtime are not modelled: message delivery, `Init` and scheduling.
- `Init` is not modelled: it only starts the first tick, and it is runtime scheduling.
- The tick's own timestamp is not modelled. The code reads `time.Now()` and `time.Since`, which are the `now` parameter here.
- Time is an integer in milliseconds, not a `time.Time` or `Duration`. The zero `time.Time` is `None`.
- Key strings are folded into the `Key` datatype, since two keys share each action.
- Go's nil slice and the empty slice are both `[]`.
- `Board.Contents` gives the value of 3x3 boards only, the only shape the program creates. `CopyBoard` also states its cellwise copy for any shape.
- `Views.Model.OnTick`: the view shares the session's winning-line slice, which is not modelled. A new sequence is immutable.
- The concrete games `Scenarios.Move1` to `Scenarios.Move5`, `Scenarios.TopRowWin` and `Scenarios.LastCellDraws` apply `Game.PlaceOnSession` directly, so they do not exercise the view-side guards (main.go:309-321). Only `SecondMoverRejectedFirst` and the `StaleMove` lemmas go through `Game.Step`. The class-level scenarios cover the pairing and the disconnect countdown.
- Game.RestartStep: the "r" key's two locked regions, the reset (main.go:142-149) and the setting of the flag (main.go:299-301), are one step. The other view ticking between them is a separate lemma, `GameProperties.TickBetweenResetAndFlag`. In that interleaving the other view copies the reset board with the flag clear and returns a tick, not a clear screen.
- Scenarios.Deliver: a consequence of `Game.RestartStep` being one step. No sequence of delivered events has the other view tick between the reset and the flag.
