/** The receiving side of the two page components (src/components/FileTransfer.tsx
    and src/app/page.tsx, whose `handleReceivedData` are the same apart from
    a toast): each incoming payload is sorted by its `type` tag into one of
    two append-only lists; the clock, the blob URL and `toLocaleString` are
    inputs. Also the choice between the connection screen and the transfer
    screen. */
module Receive {
  import opened Common
  import opened Text
  import opened Protocol
  import opened PeerConnection

  datatype ReceivedFile = ReceivedFile(name: string, size: nat, url: string, mime: string, id: string)
  datatype ReceivedText = ReceivedText(content: string, timestamp: string, id: string)

  datatype Lists = Lists(files: seq<ReceivedFile>, texts: seq<ReceivedText>)

  ghost predicate IsPrefix<T>(a: seq<T>, b: seq<T>) {
    |a| <= |b| && b[..|a|] == a
  }

  /** `handleReceivedData(data)` at clock `now`: a file goes to the end of
      `files` carrying the payload's name, size and `dataType`; a text goes
      to the end of `texts` with its content unchanged; any other tag is
      dropped. A file carries the blob URL `url`, a text the sender's
      timestamp as `toLocale` renders it. Ids are the decimal clock value. */
  function Dispatch(lists: Lists, data: Payload, now: nat, url: string, toLocale: string -> string): (r: Lists)
    ensures IsPrefix(lists.files, r.files) && IsPrefix(lists.texts, r.texts)
    ensures |r.files| + |r.texts| == |lists.files| + |lists.texts| + (if data.Unknown? then 0 else 1)
    ensures data.FileData? ==>
      (r.texts == lists.texts
       && r.files[|r.files| - 1].name == data.name
       && r.files[|r.files| - 1].size == data.size
       && r.files[|r.files| - 1].mime == data.dataType
       && r.files[|r.files| - 1].url == url
       && ParseInt(r.files[|r.files| - 1].id) == Some(now))
    ensures data.TextData? ==>
      (r.files == lists.files
       && r.texts[|r.texts| - 1].content == data.content
       && r.texts[|r.texts| - 1].timestamp == toLocale(data.timestamp)
       && ParseInt(r.texts[|r.texts| - 1].id) == Some(now))
    ensures data.Unknown? ==> r == lists
  {
    ParseIntDecimalString(now);
    match data
    case FileData(name, size, dataType, _) =>
      Lists(lists.files + [ReceivedFile(name, size, url, dataType, DecimalString(now))], lists.texts)
    case TextData(content, timestamp) =>
      Lists(lists.files, lists.texts + [ReceivedText(content, toLocale(timestamp), DecimalString(now))])
    case Unknown(_) =>
      lists
  }

  /** Receiving a sequence of payloads: every file and every text arrives,
      in order, and nothing else does. */
  function ReceiveAll(lists: Lists, data: seq<Payload>, clock: seq<nat>, url: string, toLocale: string -> string): Lists
    requires |clock| == |data|
    decreases |data|
  {
    if data == [] then lists
    else ReceiveAll(Dispatch(lists, data[0], clock[0], url, toLocale), data[1..], clock[1..], url, toLocale)
  }

  function CountFiles(data: seq<Payload>): nat {
    if data == [] then 0 else (if data[0].FileData? then 1 else 0) + CountFiles(data[1..])
  }

  function CountTexts(data: seq<Payload>): nat {
    if data == [] then 0 else (if data[0].TextData? then 1 else 0) + CountTexts(data[1..])
  }

  /** After any run of `data` events the lists hold exactly one new entry per
      file and per text payload, behind the old entries. */
  lemma {:induction false} ReceiveAllCounts(lists: Lists, data: seq<Payload>, clock: seq<nat>, url: string, toLocale: string -> string)
    requires |clock| == |data|
    ensures var r := ReceiveAll(lists, data, clock, url, toLocale);
      IsPrefix(lists.files, r.files) && IsPrefix(lists.texts, r.texts)
      && |r.files| == |lists.files| + CountFiles(data)
      && |r.texts| == |lists.texts| + CountTexts(data)
    decreases |data|
  {
    if data != [] {
      var next := Dispatch(lists, data[0], clock[0], url, toLocale);
      ReceiveAllCounts(next, data[1..], clock[1..], url, toLocale);
      var r := ReceiveAll(next, data[1..], clock[1..], url, toLocale);
      assert r.files[..|lists.files|] == r.files[..|next.files|][..|lists.files|];
      assert r.texts[..|lists.texts|] == r.texts[..|next.texts|][..|lists.texts|];
    }
  }

  /** The two lists of received items that a page component owns. */
  class Inbox {
    var receivedFiles: seq<ReceivedFile>
    var receivedTexts: seq<ReceivedText>

    constructor ()
      ensures receivedFiles == [] && receivedTexts == []
    {
      receivedFiles := [];
      receivedTexts := [];
    }

    function Contents(): Lists
      reads this
    {
      Lists(receivedFiles, receivedTexts)
    }

    /** `handleReceivedData(data)`: at most one of the lists grows, at its end. */
    method HandleReceivedData(data: Payload, now: nat, url: string, toLocale: string -> string)
      modifies this
      ensures Contents() == Dispatch(old(Contents()), data, now, url, toLocale)
    {
      match data
      case FileData(name, size, dataType, _) =>
        receivedFiles := receivedFiles + [ReceivedFile(name, size, url, dataType, DecimalString(now))];
      case TextData(content, timestamp) =>
        receivedTexts := receivedTexts + [ReceivedText(content, toLocale(timestamp), DecimalString(now))];
      case Unknown(_) =>
    }
  }

  datatype Screen = ConnectionScreen | TransferScreen

  /** `!connected ? <Connection…/> : <TransferPage/>`. */
  function ScreenFor(connected: bool): (screen: Screen)
    ensures screen == ConnectionScreen <==> !connected
    ensures screen == TransferScreen <==> connected
  {
    if !connected then ConnectionScreen else TransferScreen
  }

  /** The screen follows the hook's `connected` flag through a connection's
      life: the connection screen while it is being set up, the transfer
      screen once it opens, and the connection screen again after it
      closes. */
  method ScreenFollowsConnection(peer: string) returns (beforeOpen: Screen, afterOpen: Screen, afterClose: Screen)
    ensures beforeOpen == ConnectionScreen
    ensures afterOpen == TransferScreen
    ensures afterClose == ConnectionScreen
  {
    var s := new PeerSession(None);
    s.LoadPeerLibrary(true);
    s.ConnectToPeer(peer, 1);
    beforeOpen := ScreenFor(s.connected);
    s.ConnectionOpen(Conn(1, peer));
    afterOpen := ScreenFor(s.connected);
    s.ConnectionClose(Conn(1, peer));
    afterClose := ScreenFor(s.connected);
  }

  /** Connecting to A and then B, a late `close` from A followed by B's
      `open` leaves the hook connected with no connection held: the
      transfer screen shows, yet every send is refused. */
  method StaleCloseThenOpen(first: string, second: string, data: Payload)
    returns (screen: Screen, sent: bool, held: Option<Conn>)
    ensures screen == TransferScreen
    ensures !sent && held == None
  {
    var s := new PeerSession(None);
    s.LoadPeerLibrary(true);
    s.ConnectToPeer(first, 1);
    s.ConnectToPeer(second, 2);
    s.ConnectionClose(Conn(1, first));
    s.ConnectionOpen(Conn(2, second));
    screen := ScreenFor(s.connected);
    sent := s.SendData(data);
    held := s.connection;
  }
}
