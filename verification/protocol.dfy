/** The values that cross the PeerJS data channel and the calls the
    program makes on the transport. The transport itself (WebRTC, the
    PeerJS broker) is outside the model: a connection is an opaque handle
    and every call into PeerJS is recorded as a `TransportCall`. */
module Protocol {

  /** A PeerJS `DataConnection`: its identity and the remote peer id
      (`conn.peer`). */
  datatype Conn = Conn(handle: nat, peer: string)

  /** What `conn.send` carries and the `data` event delivers. The JavaScript
      objects are discriminated by their `type` field: `'file'`, `'text'`,
      or any other value (`Unknown`, whose tag is neither of those). */
  datatype Payload =
    | FileData(name: string, size: nat, dataType: string, bytes: seq<bv8>)
    | TextData(content: string, timestamp: string)
    | Unknown(tag: string)

  /** A call into the PeerJS library. */
  datatype TransportCall =
    | Connect(peerId: string, reliable: bool)  // peer.connect(id, {reliable})
    | Send(conn: Conn, data: Payload)          // conn.send(data)
    | Reconnect                                // peer.reconnect()
    | Destroy                                  // peer.destroy()

  /** How many entries of `calls` are `Reconnect`. */
  function ReconnectCount(calls: seq<TransportCall>): nat {
    if calls == [] then 0
    else (if calls[|calls| - 1].Reconnect? then 1 else 0) + ReconnectCount(calls[..|calls| - 1])
  }
}
