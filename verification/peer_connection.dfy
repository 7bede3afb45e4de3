/** The connection hook (src/hooks/usePeerConnection.ts). Its React state
    (`myPeerId`, `connection`, `connectionStatus`, `connected`,
    `peerLoaded`) and the ref `peerRef` become fields of one object, each
    `setX` a plain assignment, and every callback PeerJS would invoke a
    method. Calls into PeerJS are appended to `calls`; the address bar's
    `connect` query parameter is the field `connectParam`. */
module PeerConnection {
  import opened Common
  import opened Protocol

  const StatusNotConnected: string := "Not connected"
  const StatusOnline: string := "Online, waiting for connection"
  const StatusConnecting: string := "Connecting..."
  const StatusClosed: string := "Connection closed"
  const StatusConnectionError: string := "Connection error"
  const StatusTimedOut: string := "Connection timed out, please try again"
  const StatusReconnecting: string := "Connection lost, attempting to reconnect..."
  const StatusInitFailed: string := "Initialization failed"

  function ConnectedTo(peer: string): string {
    "Connected to " + peer
  }

  /** The timeout armed by `setupConnection`, in milliseconds. */
  const ConnectTimeoutMs: nat := 20000

  /** The PeerJS error types that get a message of their own. */
  predicate IsNamedPeerError(errorType: string) {
    errorType == "peer-unavailable" || errorType == "network"
    || errorType == "disconnected" || errorType == "server-error"
  }

  /** The status shown for a peer-level `error` event of type `errorType`:
      four named types get their own message and every other type falls
      back to the generic one. */
  function PeerErrorMessage(errorType: string): (msg: string)
    ensures errorType == "peer-unavailable" <==> msg == "Remote device unavailable"
    ensures errorType == "network" <==> msg == "Network connection issue"
    ensures errorType == "disconnected" <==> msg == "Disconnected from server"
    ensures errorType == "server-error" <==> msg == "Server error"
    ensures !IsNamedPeerError(errorType) <==> msg == StatusConnectionError
  {
    if errorType == "peer-unavailable" then "Remote device unavailable"
    else if errorType == "network" then "Network connection issue"
    else if errorType == "disconnected" then "Disconnected from server"
    else if errorType == "server-error" then "Server error"
    else StatusConnectionError
  }

  class PeerSession {
    var myPeerId: string
    var connection: Option<Conn>
    var status: string
    var connected: bool
    var peerLoaded: bool
    /** `peerRef.current !== null`. */
    var peerReady: bool
    var calls: seq<TransportCall>
    var connectParam: Option<string>

    /** First render: nothing loaded, nothing held. */
    constructor (connectParam: Option<string>)
      ensures myPeerId == "" && connection == None && status == StatusNotConnected
      ensures !connected && !peerLoaded && !peerReady && calls == []
      ensures this.connectParam == connectParam
    {
      myPeerId := "";
      connection := None;
      status := StatusNotConnected;
      connected := false;
      peerLoaded := false;
      peerReady := false;
      calls := [];
      this.connectParam := connectParam;
    }

    /** `window.Peer` became available: `peerLoaded` is set and the
        initialisation effect runs once; `constructed` says whether
        `new Peer(...)` returned or threw. Later calls change nothing,
        because the effect depends on `peerLoaded` only. */
    method LoadPeerLibrary(constructed: bool)
      modifies this`peerLoaded, this`peerReady, this`status
      ensures old(peerLoaded) ==> unchanged(this)
      ensures !old(peerLoaded) ==>
        (peerLoaded
         && peerReady == (old(peerReady) || constructed)
         && status == (if constructed then old(status) else StatusInitFailed))
    {
      if !peerLoaded {
        peerLoaded := true;
        if constructed {
          peerReady := true;
        } else {
          status := StatusInitFailed;
        }
      }
    }

    /** Peer `open`: the broker assigned the local id. */
    method PeerOpen(id: string)
      modifies this`myPeerId, this`status
      ensures myPeerId == id && status == StatusOnline
    {
      myPeerId := id;
      status := StatusOnline;
    }

    /** Peer `connection`: a remote peer connected to us. The connection is
        held and the status already reads "Connected to ..." although
        `connected` stays as it was until that connection's `open`. */
    method PeerConnection(conn: Conn)
      modifies this`connection, this`status
      ensures connection == Some(conn) && status == ConnectedTo(conn.peer)
    {
      SetupConnection(conn);
      status := ConnectedTo(conn.peer);
    }

    /** Peer `error`: only the status changes. */
    method PeerError(errorType: string)
      modifies this`status
      ensures status == PeerErrorMessage(errorType)
    {
      status := PeerErrorMessage(errorType);
    }

    /** Peer `disconnected`: `peer.reconnect()` is called every time, with
        no counter, delay or limit. */
    method PeerDisconnected()
      modifies this`status, this`calls
      ensures status == StatusReconnecting
      ensures calls == old(calls) + [Reconnect]
    {
      status := StatusReconnecting;
      calls := calls + [Reconnect];
    }

    /** The initialisation effect's cleanup: destroy the peer if there is one. */
    method Unmount()
      modifies this`peerReady, this`calls
      ensures !peerReady
      ensures calls == old(calls) + (if old(peerReady) then [Destroy] else [])
    {
      if peerReady {
        calls := calls + [Destroy];
        peerReady := false;
      }
    }

    /** `connectToPeer(peerId)`; `handle` names the connection object
        `peer.connect` returns. Without a peer nothing happens. Otherwise
        the new connection replaces the held one, which is not closed. */
    method ConnectToPeer(peerId: string, handle: nat)
      modifies this`status, this`connection, this`calls
      ensures !old(peerReady) ==> unchanged(this)
      ensures old(peerReady) ==>
        (status == StatusConnecting
         && connection == Some(Conn(handle, peerId))
         && calls == old(calls) + [Connect(peerId, true)])
    {
      if !peerReady {
        return;
      }
      status := StatusConnecting;
      calls := calls + [Connect(peerId, true)];
      SetupConnection(Conn(handle, peerId));
    }

    /** `setupConnection(conn)`: the connection is held at once; its event
        handlers are the Connection* methods below. */
    method SetupConnection(conn: Conn)
      modifies this`connection
      ensures connection == Some(conn)
    {
      connection := Some(conn);
    }

    /** Connection `open`: the only place `connected` becomes true. */
    method ConnectionOpen(conn: Conn)
      modifies this`status, this`connected
      ensures connected && status == ConnectedTo(conn.peer)
    {
      status := ConnectedTo(conn.peer);
      connected := true;
    }

    /** Connection `close`, from whichever connection fires it: the held
        connection is dropped even if `conn` is an older one it replaced. */
    method ConnectionClose(conn: Conn)
      modifies this`status, this`connected, this`connection
      ensures status == StatusClosed && !connected && connection == None
    {
      status := StatusClosed;
      connected := false;
      connection := None;
    }

    /** Connection `error`: the connection stays held and `connected` keeps
        its value. */
    method ConnectionError(conn: Conn)
      modifies this`status
      ensures status == StatusConnectionError
    {
      status := StatusConnectionError;
    }

    /** The 20 s timer of `setupConnection`; `isOpen` is `conn.open` when it
        fires. It rewrites the status only, and does so for any connection,
        current or replaced, that is not open when the timer fires. */
    method ConnectionTimeout(conn: Conn, isOpen: bool)
      modifies this`status
      ensures status == (if isOpen then old(status) else StatusTimedOut)
    {
      if !isOpen {
        status := StatusTimedOut;
      }
    }

    /** `sendData(data)`: sends iff a connection is held, whether or not it
        has opened. */
    method SendData(data: Payload) returns (sent: bool)
      modifies this`calls
      ensures sent <==> connection.Some?
      ensures calls == if sent then old(calls) + [Send(connection.value, data)] else old(calls)
    {
      if connection.Some? {
        calls := calls + [Send(connection.value, data)];
        return true;
      }
      return false;
    }

    /** The effect that runs when `myPeerId` changes: with a local id and a
        non-empty `connect` parameter it connects (`handle` is the new
        connection) and clears the query from the address. */
    method CheckUrlForConnection(handle: nat)
      modifies this`status, this`connection, this`calls, this`connectParam
      ensures (myPeerId == "" || old(connectParam).None? || old(connectParam) == Some(""))
        ==> unchanged(this)
      ensures myPeerId != "" && old(connectParam).Some? && old(connectParam).value != "" ==>
        (connectParam == None
         && (peerReady ==> connection == Some(Conn(handle, old(connectParam).value))
                           && calls == old(calls) + [Connect(old(connectParam).value, true)]
                           && status == StatusConnecting)
         && (!peerReady ==> connection == old(connection) && calls == old(calls) && status == old(status)))
    {
      if myPeerId == "" {
        return;
      }
      match connectParam
      case Some(connectId) =>
        if connectId != "" {
          ConnectToPeer(connectId, handle);
          connectParam := None;
        }
      case None =>
    }
  }

  /** Two `connectToPeer` calls in a row: the second connection is held,
      and the first one is never closed — the only transport calls are the
      two connects. The call log has no `close` call at all, since the hook
      never closes a connection, so that half holds by construction of
      `TransportCall`; what is proved is that nothing but the two connects
      is logged. */
  method ConnectTwice(first: string, second: string) returns (held: Option<Conn>, made: seq<TransportCall>)
    ensures held == Some(Conn(2, second))
    ensures made == [Connect(first, true), Connect(second, true)]
  {
    var s := new PeerSession(None);
    s.LoadPeerLibrary(true);
    s.ConnectToPeer(first, 1);
    s.ConnectToPeer(second, 2);
    held, made := s.connection, s.calls;
  }

  /** `sendData` succeeds on a connection that has not opened yet. */
  method SendBeforeOpen(peer: string, data: Payload) returns (sent: bool, isConnected: bool, made: seq<TransportCall>)
    ensures sent && !isConnected
    ensures made == [Connect(peer, true), Send(Conn(1, peer), data)]
  {
    var s := new PeerSession(None);
    s.LoadPeerLibrary(true);
    s.ConnectToPeer(peer, 1);
    sent := s.SendData(data);
    isConnected, made := s.connected, s.calls;
  }

  /** A `close` from a replaced connection drops the current one: after it,
      nothing can be sent although the newer connection is open. */
  method StaleCloseDropsCurrent(first: string, second: string, data: Payload) returns (sent: bool, held: Option<Conn>)
    ensures !sent && held == None
  {
    var s := new PeerSession(None);
    s.LoadPeerLibrary(true);
    s.ConnectToPeer(first, 1);
    s.ConnectToPeer(second, 2);
    s.ConnectionOpen(Conn(2, second));
    s.ConnectionClose(Conn(1, first));
    sent := s.SendData(data);
    held := s.connection;
  }

  /** Any number of broker disconnections: each one calls `reconnect()`,
      so `n` of them make exactly `n` attempts; there is no cap. */
  method ReconnectIsUncapped(n: nat) returns (attempts: nat, lastStatus: string)
    ensures attempts == n
    ensures n > 0 ==> lastStatus == StatusReconnecting
  {
    var s := new PeerSession(None);
    s.LoadPeerLibrary(true);
    var i := 0;
    while i < n
      invariant 0 <= i <= n
      invariant ReconnectCount(s.calls) == i
      invariant i > 0 ==> s.status == StatusReconnecting
    {
      ghost var before := s.calls;
      s.PeerDisconnected();
      assert s.calls[..|s.calls| - 1] == before;
      i := i + 1;
    }
    attempts, lastStatus := ReconnectCount(s.calls), s.status;
  }
}
