/** The connection screens' small decisions (src/components/ConnectionPage.tsx,
    src/components/ConnectionPanel.tsx and the QR code of public/app.js):
    which status style to show, which URL the QR code carries, when a typed
    id is sent to the connection hook, and when the QR code is drawn. */
module ConnectionUi {
  import opened Common
  import opened Text
  import PeerConnection

  datatype StatusStyle = StatusConnected | StatusError | StatusConnecting | Plain

  /** `getStatusClassName()`: case-sensitive substring tests, checked in the
      order connected, error or failed, connecting. */
  function StatusClass(status: string): (style: StatusStyle)
    ensures style == StatusConnected <==> Contains(status, "Connected")
    ensures style == StatusError <==>
      !Contains(status, "Connected") && (Contains(status, "Error") || Contains(status, "Failed"))
    ensures style == StatusConnecting <==>
      !Contains(status, "Connected") && !Contains(status, "Error") && !Contains(status, "Failed")
      && Contains(status, "Connecting")
  {
    if Includes(status, "Connected") then StatusConnected
    else if Includes(status, "Error") || Includes(status, "Failed") then StatusError
    else if Includes(status, "Connecting") then StatusConnecting
    else Plain
  }

  /** A status text without a capital E or F is never styled as an error. */
  lemma NoCapitalsNoErrorStyle(status: string)
    requires 'E' !in status && 'F' !in status
    ensures StatusClass(status) != StatusError
  {
    AbsentCharNotContained(status, "Error", 'E');
    AbsentCharNotContained(status, "Failed", 'F');
  }

  // How the connection hook's statuses meet these tests: a connected status
  // is always styled as connected and the connecting status as connecting,
  // but no status the hook sets on a failure is styled as an error, because
  // each of those texts is written with a lower-case "error" or "failed",
  // or with neither word.

  lemma ConnectedStyle(peer: string)
    ensures StatusClass(PeerConnection.ConnectedTo(peer)) == StatusConnected
  {
    assert OccursAt(PeerConnection.ConnectedTo(peer), "Connected", 0);
  }

  lemma InitFailedStyle()
    ensures StatusClass(PeerConnection.StatusInitFailed) != StatusError
  {
    NoCapitalsNoErrorStyle(PeerConnection.StatusInitFailed);
  }

  lemma TimedOutStyle()
    ensures StatusClass(PeerConnection.StatusTimedOut) != StatusError
  {
    NoCapitalsNoErrorStyle(PeerConnection.StatusTimedOut);
  }

  lemma ConnectionErrorStyle()
    ensures StatusClass(PeerConnection.StatusConnectionError) != StatusError
  {
    NoCapitalsNoErrorStyle(PeerConnection.StatusConnectionError);
  }

  /** Each of the five peer-error texts, the generic fallback included. */
  lemma PeerErrorStyle(errorType: string)
    ensures StatusClass(PeerConnection.PeerErrorMessage(errorType)) != StatusError
  {
    if errorType == "peer-unavailable" {
      UnavailableStyle();
    } else if errorType == "network" {
      NetworkStyle();
    } else if errorType == "disconnected" {
      DisconnectedStyle();
    } else if errorType == "server-error" {
      ServerErrorStyle();
    } else {
      ConnectionErrorStyle();
    }
  }

  lemma UnavailableStyle()
    ensures StatusClass("Remote device unavailable") != StatusError
  {
    NoCapitalsNoErrorStyle("Remote device unavailable");
  }

  lemma NetworkStyle()
    ensures StatusClass("Network connection issue") != StatusError
  {
    NoCapitalsNoErrorStyle("Network connection issue");
  }

  lemma DisconnectedStyle()
    ensures StatusClass("Disconnected from server") != StatusError
  {
    NoCapitalsNoErrorStyle("Disconnected from server");
  }

  lemma ServerErrorStyle()
    ensures StatusClass("Server error") != StatusError
  {
    NoCapitalsNoErrorStyle("Server error");
  }

  lemma ConnectingStyle()
    ensures StatusClass(PeerConnection.StatusConnecting) == StatusConnecting
  {
    assert OccursAt(PeerConnection.StatusConnecting, "Connecting", 0);
    AbsentCharNotContained(PeerConnection.StatusConnecting, "Connected", 'd');
    AbsentCharNotContained(PeerConnection.StatusConnecting, "Error", 'E');
    AbsentCharNotContained(PeerConnection.StatusConnecting, "Failed", 'F');
  }

  /** The directory part of a URL: everything up to and including its last
      slash, or nothing when it has no slash. */
  function BasePath(baseUrl: string): (dir: string)
    ensures StartsWith(baseUrl, dir)
    ensures dir == [] || dir[|dir| - 1] == '/'
    ensures '/' !in baseUrl[|dir|..]
  {
    var last := LastIndexOf(baseUrl, '/');
    baseUrl[..last + 1]
  }

  /** The page a QR code sends the scanning device to: "scan" in the React
      pages, "scan.html" in the old client. */
  datatype ScanPage = ReactScan | LegacyScan

  function PageName(page: ScanPage): string {
    match page
    case ReactScan => "scan"
    case LegacyScan => "scan.html"
  }

  /** The URL encoded in the QR code: the scan page in the same directory as
      the current page, carrying this device's id as the `connect` query
      parameter. */
  function ScanUrl(origin: string, pathname: string, page: ScanPage, id: string): (url: string)
    ensures StartsWith(url, BasePath(origin + pathname))
    ensures EndsWith(url, PageName(page) + "?connect=" + id)
  {
    var prefix := BasePath(origin + pathname);
    var tail := PageName(page) + "?connect=" + id;
    assert (prefix + tail)[..|prefix|] == prefix;
    assert (prefix + tail)[|prefix|..] == tail;
    prefix + tail
  }

  /** Whatever the current page is called, the QR code points to the scan
      page beside it. */
  lemma ScanUrlIsSibling(origin: string, dir: string, leaf: string, page: ScanPage, id: string)
    requires (origin + dir == [] || (origin + dir)[|origin + dir| - 1] == '/') && '/' !in leaf
    ensures ScanUrl(origin, dir + leaf, page, id) == origin + dir + PageName(page) + "?connect=" + id
  {
    var base := origin + dir + leaf;
    assert origin + (dir + leaf) == base;
    var b := BasePath(base);
    var d := origin + dir;
    assert base[..|d|] == d;
    if |b| < |d| {
      assert false;
    } else if |b| > |d| {
      assert false;
    }
    assert b == d;
  }

  /** The QR code effect: drawn only once this device has an id, the QR
      library is loaded and the canvas exists; the URL it draws. */
  function QrTarget(id: string, hasLibrary: bool, hasCanvas: bool,
                    origin: string, pathname: string, page: ScanPage): (target: Option<string>)
    ensures target.Some? <==> id != [] && hasLibrary && hasCanvas
    ensures target.Some? ==>
      StartsWith(target.value, BasePath(origin + pathname))
      && EndsWith(target.value, PageName(page) + "?connect=" + id)
  {
    if id == [] || !hasLibrary || !hasCanvas then None
    else Some(ScanUrl(origin, pathname, page, id))
  }

  /** `handleConnect()`: the id handed to the connection hook, if any. */
  function ConnectRequest(input: string): (request: Option<string>)
    ensures request.Some? <==> !AllWhitespace(input)
    ensures request.Some? ==> request.value == Trim(input) && request.value != []
    ensures request.Some? ==> ConnectRequest(request.value) == request
  {
    var id := Trim(input);
    TrimIdempotent(input);
    if id == [] then None else Some(id)
  }

  /** `handleKeyDown()`: only the Enter key connects, and it connects to
      the trimmed input unless that is blank. */
  function KeyDownRequest(key: string, input: string): (request: Option<string>)
    ensures request.Some? <==> key == "Enter" && !AllWhitespace(input)
    ensures request.Some? ==> request.value == Trim(input) && request.value != []
    ensures key == "Enter" ==> request == ConnectRequest(input)
  {
    if key == "Enter" then ConnectRequest(input) else None
  }
}
