/** The TelegramClient as the backend sees it: a connection that EnsureConnected brings up,
    and a session that records whether the user is signed in and is saved to the session
    store. */
module Connection {
  import opened Wrappers
  import opened Errors

  /** What one reconnection attempt meets: whether the cancellation token has fired before
      and after the connect call, what WrapperConnectAsync does, and whether the client
      reports itself connected afterwards. */
  datatype ConnectAttempt = ConnectAttempt(
    cancelledBefore: bool,
    connect: Outcome<Error>,
    linkUp: bool,
    cancelledAfter: bool)

  /** The connection state after EnsureConnected, and whether it returned or threw. */
  datatype Link = Link(connected: bool, outcome: Outcome<Error>)

  /** EnsureConnected. A connected client is left alone. Otherwise it throws on
      cancellation, reconnects, throws on cancellation again, and throws a WebException
      when the client is still not connected. It returns exactly when the client ends up
      connected and no cancellation or connect error intervened. */
  function Connect(connected: bool, a: ConnectAttempt): (r: Link)
    ensures connected ==> r == Link(true, Pass)
    ensures r.outcome.Pass? ==> r.connected
    ensures !connected ==>
              (r.outcome.Pass? <==> !a.cancelledBefore && a.connect.Pass? && a.linkUp && !a.cancelledAfter)
    ensures !connected && r.outcome.Fail? ==>
              r.outcome.error in {Cancelled, Connection} || Fail(r.outcome.error) == a.connect
    ensures !connected && !a.cancelledBefore && a.connect.Pass? && !a.cancelledAfter && !a.linkUp ==>
              r == Link(false, Fail(Connection))
  {
    if connected then Link(true, Pass)
    else if a.cancelledBefore then Link(false, Fail(Cancelled))
    else if a.connect.Fail? then Link(false, a.connect)
    else if a.cancelledAfter then Link(a.linkUp, Fail(Cancelled))
    else if !a.linkUp then Link(false, Fail(Connection))
    else Link(true, Pass)
  }

  /** Once EnsureConnected has returned, calling it again changes nothing and returns,
      whatever the second attempt would have met. */
  lemma ConnectIdempotent(connected: bool, a: ConnectAttempt, b: ConnectAttempt)
    requires Connect(connected, a).outcome.Pass?
    ensures Connect(Connect(connected, a).connected, b) == Connect(connected, a)
  {
  }

  /** The TelegramClient and its session. */
  class Client {
    var connected: bool
    /** IsUserAuthorized: the session holds a signed-in user. */
    var authorized: bool
    /** How many times the session has been written to the session store. */
    var saves: nat

    constructor (restoredAuthorized: bool)
      ensures !connected && authorized == restoredAuthorized && saves == 0
    {
      connected := false;
      authorized := restoredAuthorized;
      saves := 0;
    }

    method EnsureConnected(a: ConnectAttempt) returns (r: Outcome<Error>)
      modifies this`connected
      ensures Link(connected, r) == Connect(old(connected), a)
    {
      if connected {
        return Pass;
      }
      if a.cancelledBefore {
        return Fail(Cancelled);
      }
      if a.connect.Fail? {
        return a.connect;
      }
      connected := a.linkUp;
      if a.cancelledAfter {
        return Fail(Cancelled);
      }
      if !connected {
        return Fail(Connection);
      }
      return Pass;
    }
  }
}
