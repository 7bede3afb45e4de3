/** The earlier single-page client (public/app.js). Its global variables
    and the DOM state the handlers read back (input values, button
    `disabled` flags, the appended received items) become fields of one
    object; every event listener and PeerJS callback is a method. Unlike
    the React hook, the connection handlers here use the global
    `connection` at the time they run, not the connection that fired. */
module LegacyApp {
  import opened Common
  import opened Text
  import opened Protocol
  import opened FileSize
  import opened Transfer

  const StatusOnline: string := "在线，等待连接"
  const StatusPeerError: string := "连接错误"
  const StatusConnecting: string := "正在连接..."
  const StatusClosed: string := "连接已关闭"
  const StatusConnectionError: string := "连接出错"

  function ConnectedTo(peer: string): string {
    "已连接到 " + peer
  }

  /** A received file as shown in the received-files pane. */
  datatype FileView = FileView(name: string, sizeText: string, isImage: bool, url: string)
  /** A received text as shown in the received-text pane. */
  datatype TextView = TextView(content: string, timestamp: string)

  /** `selectedFiles.splice(index, 1)` for a non-negative index: exactly the
      element at `index` leaves, the others keep their order; an index past
      the end removes nothing. */
  function SpliceOne<T>(s: seq<T>, index: nat): (r: seq<T>)
    ensures index < |s| ==> |r| == |s| - 1 && multiset(r) + multiset{s[index]} == multiset(s)
    ensures index < |s| ==> forall k :: 0 <= k < index ==> r[k] == s[k]
    ensures index < |s| ==> forall k :: index <= k < |r| ==> r[k] == s[k + 1]
    ensures index >= |s| ==> r == s
  {
    if index < |s| then
      assert s == s[..index] + [s[index]] + s[index + 1..];
      s[..index] + s[index + 1..]
    else s
  }

  class LegacyApp {
    var connection: Option<Conn>
    var myPeerId: string
    var selectedFiles: seq<LocalFile>
    var transferInProgress: bool
    var status: string
    var peerIdInput: string
    var textInput: string
    var calls: seq<TransportCall>
    /** Files whose `FileReader` has started and not yet fired `onload`. */
    var pendingReads: seq<LocalFile>
    var receivedFiles: seq<FileView>
    var receivedTexts: seq<TextView>
    var sendFilesDisabled: bool
    var sendTextDisabled: bool

    /** After `DOMContentLoaded`: the peer exists, nothing is selected or
        held, and both send buttons are disabled. */
    constructor ()
      ensures connection == None && myPeerId == "" && selectedFiles == []
      ensures !transferInProgress && calls == [] && pendingReads == []
      ensures receivedFiles == [] && receivedTexts == []
      ensures sendFilesDisabled && sendTextDisabled
    {
      connection := None;
      myPeerId := "";
      selectedFiles := [];
      transferInProgress := false;
      status := "";
      peerIdInput := "";
      textInput := "";
      calls := [];
      pendingReads := [];
      receivedFiles := [];
      receivedTexts := [];
      sendFilesDisabled := true;
      sendTextDisabled := true;
    }

    /** The send-files button is disabled exactly when there is nothing to
        send or no one to send it to. */
    ghost predicate FilesButtonAgrees()
      reads this
    {
      sendFilesDisabled == (connection.None? || |selectedFiles| == 0)
    }

    /** `updateSendButtonState()`. */
    method UpdateSendButtonState()
      modifies this`sendFilesDisabled
      ensures FilesButtonAgrees()
    {
      sendFilesDisabled := connection.None? || |selectedFiles| == 0;
    }

    /** Peer `open`. */
    method PeerOpen(id: string)
      modifies this`myPeerId, this`status
      ensures myPeerId == id && status == StatusOnline
    {
      myPeerId := id;
      status := StatusOnline;
    }

    /** Peer `connection`: the inbound connection replaces the global one. */
    method PeerConnection(conn: Conn)
      modifies this`connection, this`status
      ensures connection == Some(conn) && status == ConnectedTo(conn.peer)
    {
      connection := Some(conn);
      status := ConnectedTo(conn.peer);
    }

    /** Peer `error`. */
    method PeerError()
      modifies this`status
      ensures status == StatusPeerError
    {
      status := StatusPeerError;
    }

    /** `connectToPeer()`, the connect button: a blank id only raises an
        alert; otherwise the global connection is replaced by a reliable
        connection to the trimmed id (`handle` names it). */
    method ConnectToPeer(handle: nat)
      modifies this`status, this`connection, this`calls
      ensures Trim(peerIdInput) == [] ==> unchanged(this)
      ensures Trim(peerIdInput) != [] ==>
        (status == StatusConnecting
         && connection == Some(Conn(handle, Trim(peerIdInput)))
         && calls == old(calls) + [Connect(Trim(peerIdInput), true)])
    {
      var peerId := Trim(peerIdInput);
      if peerId == [] {
        return;
      }
      status := StatusConnecting;
      connection := Some(Conn(handle, peerId));
      calls := calls + [Connect(peerId, true)];
    }

    /** One tick of `checkUrlForConnection()`'s wait for the peer: once this
        device has an id, a `connect` parameter from the page URL is typed
        into the id box and the connect button is clicked. */
    method UrlConnectTick(connectId: string, handle: nat)
      modifies this`peerIdInput, this`status, this`connection, this`calls
      ensures connectId == [] || myPeerId == [] ==> unchanged(this)
      ensures connectId != [] && myPeerId != [] ==>
        (peerIdInput == connectId
         && (Trim(connectId) == [] ==>
               status == old(status) && connection == old(connection) && calls == old(calls))
         && (Trim(connectId) != [] ==>
               status == StatusConnecting
               && connection == Some(Conn(handle, Trim(connectId)))
               && calls == old(calls) + [Connect(Trim(connectId), true)]))
    {
      if connectId == [] || myPeerId == [] {
        return;
      }
      peerIdInput := connectId;
      ConnectToPeer(handle);
    }

    /** Connection `open`. It reads `connection.peer` from the global, so
        with no connection held it throws before changing anything. */
    method ConnectionOpen()
      modifies this`status, this`sendTextDisabled, this`sendFilesDisabled
      ensures old(connection).None? ==> unchanged(this)
      ensures old(connection).Some? ==>
        (status == ConnectedTo(connection.value.peer) && !sendTextDisabled && FilesButtonAgrees())
    {
      if connection.None? {
        return;
      }
      status := ConnectedTo(connection.value.peer);
      sendTextDisabled := false;
      UpdateSendButtonState();
    }

    /** Connection `close`: both buttons disabled and the global cleared. */
    method ConnectionClose()
      modifies this`status, this`sendFilesDisabled, this`sendTextDisabled, this`connection
      ensures status == StatusClosed && sendFilesDisabled && sendTextDisabled && connection == None
      ensures FilesButtonAgrees()
    {
      status := StatusClosed;
      sendFilesDisabled := true;
      sendTextDisabled := true;
      connection := None;
    }

    /** Connection `error`. */
    method ConnectionError()
      modifies this`status
      ensures status == StatusConnectionError
    {
      status := StatusConnectionError;
    }

    /** The file input's `change` event: a non-empty choice replaces the
        selection. */
    method HandleFileSelect(files: seq<LocalFile>)
      modifies this`selectedFiles, this`sendFilesDisabled
      ensures files == [] ==> unchanged(this)
      ensures files != [] ==> selectedFiles == files && FilesButtonAgrees()
    {
      if files == [] {
        return;
      }
      selectedFiles := files;
      UpdateSendButtonState();
    }

    /** The remove mark of a listed file. */
    method RemoveSelected(index: nat)
      modifies this`selectedFiles, this`sendFilesDisabled
      ensures selectedFiles == SpliceOne(old(selectedFiles), index)
      ensures FilesButtonAgrees()
    {
      selectedFiles := SpliceOne(selectedFiles, index);
      UpdateSendButtonState();
    }

    /** `sendFiles()`: with a connection and a selection, a reader starts for
        every selected file and the selection is emptied at once; nothing is
        sent until a reader loads. */
    method SendFiles()
      modifies this`transferInProgress, this`pendingReads, this`selectedFiles, this`sendFilesDisabled
      ensures old(connection).None? || old(selectedFiles) == [] ==> unchanged(this)
      ensures old(connection).Some? && old(selectedFiles) != [] ==>
        (pendingReads == old(pendingReads) + old(selectedFiles)
         && selectedFiles == [] && sendFilesDisabled && !transferInProgress)
    {
      if connection.None? || |selectedFiles| == 0 {
        return;
      }
      transferInProgress := true;
      pendingReads := pendingReads + selectedFiles;
      selectedFiles := [];
      UpdateSendButtonState();
      transferInProgress := false;
    }

    /** A `FileReader` `onload` for pending file `i`: the payload goes out on
        whatever connection is held by then; with none, `connection.send`
        throws and nothing is sent. */
    method ReaderLoad(i: nat, bytes: seq<bv8>)
      requires i < |pendingReads|
      modifies this`pendingReads, this`calls
      ensures pendingReads == SpliceOne(old(pendingReads), i)
      ensures calls == old(calls)
        + (if connection.Some? then [Send(connection.value, FilePayload(old(pendingReads)[i], bytes))] else [])
    {
      var file := pendingReads[i];
      pendingReads := SpliceOne(pendingReads, i);
      if connection.Some? {
        calls := calls + [Send(connection.value, FilePayload(file, bytes))];
      }
    }

    /** `sendText()`: needs a connection and a non-blank text; sends the
        trimmed text stamped with `iso` and clears the input. */
    method SendText(iso: string)
      modifies this`calls, this`textInput
      ensures connection.None? || Trim(old(textInput)) == [] ==> unchanged(this)
      ensures connection.Some? && Trim(old(textInput)) != [] ==>
        (calls == old(calls) + [Send(connection.value, TextData(Trim(old(textInput)), iso))]
         && textInput == "")
    {
      var text := Trim(textInput);
      if connection.None? || text == [] {
        return;
      }
      calls := calls + [Send(connection.value, TextData(text, iso))];
      textInput := "";
    }

    /** `receiveData(data)`: a file or a text is appended to its pane; any
        other type is ignored. */
    method ReceiveData(data: Payload, url: string, toFixed2: real -> string, toLocale: string -> string)
      modifies this`receivedFiles, this`receivedTexts
      ensures data.FileData? ==>
        (receivedFiles == old(receivedFiles)
           + [FileView(data.name, FormatFileSize(data.size, toFixed2), StartsWith(data.dataType, "image/"), url)]
         && receivedTexts == old(receivedTexts))
      ensures data.TextData? ==>
        (receivedTexts == old(receivedTexts) + [TextView(data.content, toLocale(data.timestamp))]
         && receivedFiles == old(receivedFiles))
      ensures data.Unknown? ==> unchanged(this)
    {
      match data
      case FileData(name, size, dataType, _) =>
        receivedFiles := receivedFiles
          + [FileView(name, FormatFileSize(size, toFixed2), StartsWith(dataType, "image/"), url)];
      case TextData(content, timestamp) =>
        receivedTexts := receivedTexts + [TextView(content, toLocale(timestamp))];
      case Unknown(_) =>
    }
  }

  /** A file chosen in the old client leaves the selection at once and is
      sent only when its reader loads; if the connection closed in between,
      it is never sent and nothing reports it. */
  method CloseBeforeLoadLosesFile(conn: Conn, file: LocalFile, bytes: seq<bv8>)
      returns (made: seq<TransportCall>, selected: seq<LocalFile>, pending: seq<LocalFile>)
    ensures made == [] && selected == [] && pending == []
  {
    var app := new LegacyApp();
    app.PeerConnection(conn);
    app.HandleFileSelect([file]);
    app.SendFiles();
    assert app.pendingReads == [file];
    app.ConnectionClose();
    app.ReaderLoad(0, bytes);
    made, selected, pending := app.calls, app.selectedFiles, app.pendingReads;
  }
}
