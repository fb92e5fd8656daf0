/**
  End-to-end runs: two participants' views over one shared session, each
  message delivered to one view at a time and handled as one atomic step,
  and the pairing of successive arrivals. The two locked regions of the "r"
  key are one step here, so no tick of the other view falls between them.
*/
module Scenarios {
  import opened Wrappers
  import opened Board
  import opened Game
  import opened GameProperties
  import opened Sessions
  import opened Views
  import opened Matchmaking

  /** Both participants' views and the session they share. */
  datatype Table = Table(x: ViewState, o: ViewState, session: SessionState)

  /** One message delivered to the view of the participant playing `to`, at time `now`.
      Keys do not look at the time. */
  datatype Event = Event(to: Player, msg: Msg, now: int)

  predicate ValidTable(t: Table) {
    ValidPair(t.x, Some(t.session)) && ValidPair(t.o, Some(t.session))
  }

  /** The table right after the second arrival joined the first one's session. */
  function Paired(): (t: Table)
    ensures ValidTable(t)
  {
    Table(JoinedView(X), JoinedView(O), NewSession().(playerCount := 2))
  }

  /** One event: `Step` on the addressed view and the shared session; the
      other view is untouched. */
  function Deliver(t: Table, e: Event): (r: Table)
    requires ValidTable(t)
    ensures ValidTable(r)
    ensures e.to == X ==> r.o == t.o
    ensures e.to == O ==> r.x == t.x
    ensures r.session.playerCount == t.session.playerCount
  {
    var view := if e.to == X then t.x else t.o;
    var step := Step(view, Some(t.session), e.msg, e.now);
    StepInvariants(view, Some(t.session), e.msg, e.now);
    if e.to == X then Table(step.view, t.o, step.session.value)
    else Table(t.x, step.view, step.session.value)
  }

  function Key(to: Player, key: Key): Event {
    Event(to, KeyMsg(key), 0)
  }

  // ----- Placements as the shared session sees them -----

  const B0: Grid := [[Empty, Empty, Empty], [Empty, Empty, Empty], [Empty, Empty, Empty]]
  const B1: Grid := [[Mark(X), Empty, Empty], [Empty, Empty, Empty], [Empty, Empty, Empty]]
  const B2: Grid := [[Mark(X), Empty, Empty], [Empty, Mark(O), Empty], [Empty, Empty, Empty]]
  const B3: Grid := [[Mark(X), Mark(X), Empty], [Empty, Mark(O), Empty], [Empty, Empty, Empty]]
  const B4: Grid := [[Mark(X), Mark(X), Empty], [Empty, Mark(O), Empty], [Empty, Empty, Mark(O)]]
  const B5: Grid := [[Mark(X), Mark(X), Mark(X)], [Empty, Mark(O), Empty], [Empty, Empty, Mark(O)]]

  /** The session of a fresh pair: the first arrival's session after the second joined. */
  const Start: SessionState := SessionState(B0, 0, Undecided, [], 2, false, false)

  lemma StartIsJoinedSession()
    ensures Start == NewSession().(playerCount := 2)
  {
  }

  // The opening X (0,0), O (1,1), X (0,1), O (2,2): each placement passes
  // the turn and leaves the game undecided.

  lemma Move1()
    ensures PlaceOnSession(Start, 0, 0, X) == Start.(board := B1, currentPlayer := 1)
  {
    SameGrid(SetCell(B0, 0, 0, Mark(X)), B1);
  }

  lemma Move2()
    ensures PlaceOnSession(Start.(board := B1, currentPlayer := 1), 1, 1, O) == Start.(board := B2)
  {
    SameGrid(SetCell(B1, 1, 1, Mark(O)), B2);
  }

  lemma Move3()
    ensures PlaceOnSession(Start.(board := B2), 0, 1, X) == Start.(board := B3, currentPlayer := 1)
  {
    SameGrid(SetCell(B2, 0, 1, Mark(X)), B3);
  }

  lemma Move4()
    ensures PlaceOnSession(Start.(board := B3, currentPlayer := 1), 2, 2, O) == Start.(board := B4)
  {
    SameGrid(SetCell(B3, 2, 2, Mark(O)), B4);
  }

  /** After the opening neither player has a line and the board is not full. */
  lemma OpeningLeavesNoResult()
    ensures CheckWinner(B4, X) == [] && CheckWinner(B4, O) == [] && !IsDraw(B4)
  {
  }

  lemma Move5()
    ensures PlaceOnSession(Start.(board := B4), 0, 2, X) ==
              Start.(board := B5, winner := Won(X), winningCells := [Coord(0, 0), Coord(0, 1), Coord(0, 2)])
  {
    SameGrid(SetCell(B4, 0, 2, Mark(X)), B5);
  }

  /** The whole second game: the opening, each placement passing the turn,
      then X at (0,2) wins with the top row, which is the line reported, and
      the turn stays with X. `s1` to `s4` name the sessions after each move. */
  lemma TopRowWin(s1: SessionState, s2: SessionState, s3: SessionState, s4: SessionState)
    requires s1 == Start.(board := B1, currentPlayer := 1) && s2 == Start.(board := B2)
    requires s3 == Start.(board := B3, currentPlayer := 1) && s4 == Start.(board := B4)
    requires ValidSession(s1) && ValidSession(s2) && ValidSession(s3) && ValidSession(s4)
    ensures PlaceOnSession(Start, 0, 0, X) == s1 && PlaceOnSession(s1, 1, 1, O) == s2 &&
            PlaceOnSession(s2, 0, 1, X) == s3 && PlaceOnSession(s3, 2, 2, O) == s4
    ensures PlaceOnSession(s4, 0, 2, X) ==
              s4.(board := B5, winner := Won(X), winningCells := [Coord(0, 0), Coord(0, 1), Coord(0, 2)])
  {
    Move1();
    Move2();
    Move3();
    Move4();
    Move5();
  }

  const B8: Grid := [[Mark(X), Mark(O), Mark(X)], [Mark(X), Mark(O), Mark(O)], [Mark(O), Mark(X), Empty]]
  const B9: Grid := [[Mark(X), Mark(O), Mark(X)], [Mark(X), Mark(O), Mark(O)], [Mark(O), Mark(X), Mark(X)]]

  /** X fills the last cell of a board where no line is complete for either
      player: the game is a draw and the turn does not pass. */
  lemma LastCellDraws()
    ensures CheckWinner(B9, X) == [] && CheckWinner(B9, O) == [] && IsDraw(B9) && !IsDraw(B8)
    ensures PlaceOnSession(Start.(board := B8), 2, 2, X) == Start.(board := B9, winner := Draw)
  {
    SameGrid(SetCell(B8, 2, 2, Mark(X)), B9);
  }

  // ----- The views -----

  /** O tries to move before X has: O's own turn flag rejects it and
      nothing changes. */
  lemma SecondMoverRejectedFirst()
    ensures Deliver(Paired(), Key(O, KeyPlace)) == Paired()
  {
  }

  const BB: Grid := [[Mark(X), Mark(X), Empty], [Empty, Empty, Empty], [Empty, Empty, Empty]]

  lemma StaleMove1()
    ensures Deliver(Paired(), Key(X, KeyPlace)) ==
              Table(JoinedView(X).(board := B1), JoinedView(O), Start.(board := B1, currentPlayer := 1))
  {
    SameGrid(SetCell(B0, 0, 0, Mark(X)), B1);
  }

  lemma StaleMove2()
    ensures Deliver(Table(JoinedView(X).(board := B1, cursorX := 1), JoinedView(O),
                          Start.(board := B1, currentPlayer := 1)), Key(X, KeyPlace)) ==
              Table(JoinedView(X).(board := BB, cursorX := 1), JoinedView(O), Start.(board := BB))
  {
    SameGrid(SetCell(B1, 0, 1, Mark(X)), BB);
  }

  /** Turn legality is checked on the view's own copy only: after X's first
      placement the session says it is O's turn, but until X's next tick
      X's view still says it is X's, and a second placement by X (after one
      step right) is accepted by the session. */
  lemma StaleTurnAllowsSecondMove()
    ensures var t1 := Deliver(Paired(), Key(X, KeyPlace));
            t1.session.currentPlayer == 1 && t1.x.isMyTurn
    ensures Deliver(Table(JoinedView(X).(board := B1), JoinedView(O),
                          Start.(board := B1, currentPlayer := 1)), Key(X, KeyRight)) ==
              Table(JoinedView(X).(board := B1, cursorX := 1), JoinedView(O),
                    Start.(board := B1, currentPlayer := 1))
    ensures var t3 := Deliver(Table(JoinedView(X).(board := B1, cursorX := 1), JoinedView(O),
                                    Start.(board := B1, currentPlayer := 1)), Key(X, KeyPlace));
            t3.session.board == BB && t3.session.currentPlayer == 0
  {
    StaleMove1();
    StaleMove2();
  }

  // ----- Objects -----

  /** Three arrivals in a row: X, then O on the same session (now with two
      participants), then X on a new session of its own. */
  method ThreeArrivals() returns (first: Model, second: Model, third: Model)
    ensures first.playerSymbol == Mark(X) && second.playerSymbol == Mark(O) &&
            third.playerSymbol == Mark(X)
    ensures first.session != null && second.session == first.session
    ensures third.session != null && third.session != first.session
    ensures first.session.playerCount == 2 && third.session.playerCount == 1
  {
    var manager := new SessionManager();
    first := manager.Connect();
    second := manager.Connect();
    third := manager.Connect();
  }

  /** Two arrivals, then the first one's connection ends: the second
      arrival's view, over a session flagged as disconnected. */
  method PairThenClose() returns (b: Model)
    ensures fresh(b) && fresh(b.board) && b.Valid() && b.session != null
    ensures fresh(b.session) && fresh(b.session.board)
    ensures b.State() == JoinedView(O)
    ensures b.Shared() == Some(NewSession().(playerCount := 2, playerDisconnected := true))
  {
    var manager := new SessionManager();
    var a := manager.Connect();
    b := manager.Connect();
    a.OnConnectionClosed();
  }

  /** One participant's connection ends: the other view's next tick starts
      the countdown at `t0`, a tick exactly 5 seconds later keeps ticking,
      and one a millisecond after that quits. */
  method DisconnectTimesOut(t0: int) returns (first: Cmd, atLimit: Cmd, past: Cmd)
    ensures first == Tick && atLimit == Tick && past == Quit
  {
    var b := PairThenClose();
    first := b.Update(TickMsg, t0);
    atLimit := b.Update(TickMsg, t0 + 5000);
    past := b.Update(TickMsg, t0 + 5001);
  }
}
