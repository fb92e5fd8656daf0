/**
  Pairing of incoming connections. The manager holds at most one session
  that waits for a second participant: the first arrival of a pair creates
  it and plays X, the second joins it, plays O and empties the slot. The
  manager's lock is left out; `Connect` is one atomic step.
*/
module Matchmaking {
  import opened Board
  import opened Game
  import opened Sessions
  import opened Views

  /** The view a connection starts with, for the symbol it was given. */
  function JoinedView(role: Player): (m: ViewState)
    ensures m.board == EmptyGrid() && m.currentPlayer == X
    ensures m.playerSymbol == Mark(role)
    ensures m.isMyTurn <==> role == X
    ensures m.waitingForPlayer <==> role == X
  {
    InitialView().(playerSymbol := Mark(role), isMyTurn := role == X, waitingForPlayer := role == X)
  }

  /** The role the next arrival gets: X when nobody waits, O otherwise. */
  function NextRole(waiting: bool): (role: Player)
    ensures role == X <==> !waiting
  {
    if waiting then O else X
  }

  class SessionManager {
    var waitingSession: GameSession?

    /** A session waiting in the slot is well formed. */
    ghost predicate Valid()
      reads this, waitingSession
    {
      waitingSession != null ==> waitingSession.Valid()
    }

    /** The global manager at start-up: nobody waits. */
    constructor ()
      ensures Valid() && waitingSession == null
    {
      waitingSession := null;
    }

    /** The pairing step of the connection handler: a new session and X when
        nobody waits, otherwise the waiting session, now with two
        participants, and O, and the slot emptied. */
    method Connect() returns (m: Model)
      requires Valid()
      modifies this, if waitingSession == null then {} else {waitingSession}
      ensures Valid()
      ensures fresh(m) && fresh(m.board) && m.Valid() && m.session != null
      ensures m.State() == JoinedView(NextRole(old(waitingSession) != null))
      ensures old(waitingSession) == null ==>
                fresh(m.session) && fresh(m.session.board) &&
                m.session.State() == NewSession() && waitingSession == m.session
      ensures old(waitingSession) != null ==>
                m.session == old(waitingSession) && waitingSession == null &&
                m.session.board == old(waitingSession.board) &&
                m.session.State() == old(waitingSession.State()).(playerCount := 2)
    {
      m := new Model.Initial();
      if waitingSession == null {
        var s := new GameSession();
        m.playerSymbol, m.isMyTurn, m.waitingForPlayer, m.session := Mark(X), true, true, s;
        waitingSession := s;
      } else {
        m.playerSymbol, m.isMyTurn, m.waitingForPlayer := Mark(O), false, false;
        waitingSession.playerCount := 2;
        m.session := waitingSession;
        waitingSession := null;
      }
    }
  }
}
