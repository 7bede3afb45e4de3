# transfer-files, modelled in Dafny

transfer-files is a browser tool that lets two devices exchange files and
text directly over a WebRTC data channel brokered by PeerJS. One device
shows the peer id the PeerJS broker assigned it, as text and as a QR code
linking to the scan page. The other device enters or scans that id and connects. From then on
either side can send files and text messages. Each side shows its own
timeline of sent and received items.

This project models the client's session and transfer logic and a handful
of pure helpers:

- `PeerConnection` (`peer_connection.dfy`): the connection hook as a class `PeerSession`. It has one method per PeerJS event, per hook action and per effect. Calls into PeerJS (`connect`, `send`, `reconnect`, `destroy`) are appended to a log `calls`. A connection object is the value `Conn(handle, peer)`.
- `Transfer` (`transfer.dfy`):
  - the timeline merge (a stable sort by the numeric id);
  - the MIME-type icon rule;
  - the send pipeline, as a class `TransferPanel` with `sendText`, `handleKeyPress`, `handleFileSelect` and `sendFiles`.
- `Receive` (`receive.dfy`): the `handleReceivedData` dispatch, shared by both page components, as the class `Inbox`. It is specified by the pure `Dispatch`. Also the choice between the connection screen and the transfer screen.
- `LegacyApp` (`legacy_app.dfy`): the older global-variable client `public/app.js` as one class over its globals and the DOM state its handlers read back.
- `ConnectionUi` (`connection_ui.dfy`): the status style, the QR code URL and the connect-input guard.
- `PeerId` (`peer_id.dfy`): the helper `generatePeerId`, which no part of the program calls. It is an imperative 8-step loop over given random draws.
- `FileSize` (`file_size.dfy`): the unit bands of `formatFileSize`.
- `Blog` (`blog.dfy`): slug derivation, listing, newest-first order and lookup of the markdown blog.
- `FriendLinks` (`friend_links.dfy`): the friend-link fetch fallbacks and the domain filter.
- `LocalIp` (`local_ip.dfy`): the development server's first-reachable-address search.
- `Text` (`text.dfy`), `Sorting` (`sorting.dfy`), `Protocol` (`protocol.dfy`) and `Common` (`common.dfy`): the JavaScript string built-ins the code relies on, the stable sort, the payload and transport-call types, and Option/Result.

The environment is taken as inputs:

- `Date.now()`;
- `toISOString` and `toLocaleString`;
- `Math.random`;
- `URL.createObjectURL`;
- the outcome of `file.arrayBuffer()`;
- the `connect` query parameter;
- directory listings;
- fetch outcomes;
- `os.networkInterfaces()`.

Where the code and the design description of the system differ, the model follows the code:

- The code has no reconnect counter, backoff or attempt cap.
- Connecting does not close the connection already held.
- The merge has no de-duplication and no random tie-break.
- The hook has no `disconnect` operation.
- `generatePeerId` is never called: both clients construct their peer without an id (src/hooks/usePeerConnection.ts:51, public/app.js:28), so the id shown is the one the broker assigns.
- Payloads are plain objects; there is no envelope codec and no validation.
- In the hook, an inbound connection sets the status to "Connected to …" at once. `connected` becomes true only on that connection's `open`.

## Model

| member | source | states |
|---|---|---|
| PeerConnection.PeerErrorMessage | src/hooks/usePeerConnection.ts:80-96 | each of the four named PeerJS error types maps to its own message and every other type to "Connection error", both directions |
| PeerConnection.PeerSession.constructor | src/hooks/usePeerConnection.ts:13-18 | initial state: no id, no connection, "Not connected", not connected, library not loaded, no peer |
| PeerConnection.PeerSession.LoadPeerLibrary | src/hooks/usePeerConnection.ts:44-66 | the peer is created once, when the library first becomes available; a failed construction leaves no peer and shows "Initialization failed" |
| PeerConnection.PeerSession.PeerOpen | src/hooks/usePeerConnection.ts:68-72 | the assigned id is stored and the status becomes "Online, waiting for connection"; nothing else changes |
| PeerConnection.PeerSession.PeerConnection | src/hooks/usePeerConnection.ts:74-78 | an inbound connection is held and the status reads "Connected to <peer>"; `connected` is left as it was |
| PeerConnection.PeerSession.PeerError | src/hooks/usePeerConnection.ts:80-96 | a peer error changes only the status, to the message for its type |
| PeerConnection.PeerSession.PeerDisconnected | src/hooks/usePeerConnection.ts:99-105 | every broker disconnection sets the reconnecting status and makes exactly one reconnect call |
| PeerConnection.PeerSession.Unmount | src/hooks/usePeerConnection.ts:107-112 | cleanup destroys the peer if one exists and leaves none |
| PeerConnection.PeerSession.ConnectToPeer | src/hooks/usePeerConnection.ts:120-132 | without a peer nothing changes; otherwise status "Connecting...", one reliable connect call, and the new connection replaces the held one without closing it |
| PeerConnection.PeerSession.SetupConnection | src/hooks/usePeerConnection.ts:135-136 | the connection is held immediately, before it opens |
| PeerConnection.PeerSession.ConnectionOpen | src/hooks/usePeerConnection.ts:140-145 | `open` is what sets `connected`, with status "Connected to <peer>" |
| PeerConnection.PeerSession.ConnectionClose | src/hooks/usePeerConnection.ts:152-158 | `close` sets status "Connection closed", clears `connected` and drops the held connection; nothing else changes |
| PeerConnection.PeerSession.ConnectionError | src/hooks/usePeerConnection.ts:160-164 | a connection error changes only the status; the connection and `connected` are kept |
| PeerConnection.PeerSession.ConnectionTimeout | src/hooks/usePeerConnection.ts:166-172 | the 20 s timer rewrites only the status, to the timeout message, for any connection, current or replaced, that is not open when the timer fires; an open one leaves it unchanged |
| PeerConnection.PeerSession.SendData | src/hooks/usePeerConnection.ts:176-182 | returns true iff a connection is held, whether or not it is open; then exactly one send call on that connection, otherwise none |
| PeerConnection.PeerSession.CheckUrlForConnection | src/hooks/usePeerConnection.ts:185-202 | with a local id and a non-empty `connect` parameter it connects to that id and clears the parameter; otherwise nothing changes |
| PeerConnection.ConnectTwice | src/hooks/usePeerConnection.ts:120-132 | two connects in a row hold the second connection and make only the two connect calls: the first is never closed |
| PeerConnection.SendBeforeOpen | src/hooks/usePeerConnection.ts:176-182 | sending succeeds on a connection that has not opened, while `connected` is still false |
| PeerConnection.StaleCloseDropsCurrent | src/hooks/usePeerConnection.ts:152-158 | a `close` from a replaced connection drops the newer, open one, after which sending fails |
| PeerConnection.ReconnectIsUncapped | src/hooks/usePeerConnection.ts:99-105 | n disconnections make exactly n reconnect attempts, for every n |
| Transfer.MapSent | src/components/TransferPage.tsx:77-80 | each sent message keeps all its fields and gets `parseInt(id)` as sort key, one entry per message in order |
| Transfer.MapTexts | src/components/TransferPage.tsx:56-63 | one received, non-file entry per received text, in order |
| Transfer.MapFiles | src/components/TransferPage.tsx:66-74 | one received file entry per received file, in order, with the file name as content |
| Transfer.Merge | src/components/TransferPage.tsx:54-88 | the timeline has exactly the sent, received-text and received-file items, each as often as it occurs there, and is non-decreasing by timestamp |
| Transfer.MergeKeepsTieOrder | src/components/TransferPage.tsx:83-85 | items with equal timestamps keep concatenation order: sent, then texts, then files, each in its own order |
| Transfer.MergeShowsReceivedTexts | src/components/TransferPage.tsx:56-63 | every received text appears on the timeline as a received non-file item with its content |
| Transfer.MergeShowsReceivedFiles | src/components/TransferPage.tsx:66-74 | every received file appears on the timeline as a received file item named after the file |
| Transfer.TimestampOfClockId | src/components/TransferPage.tsx:60 | the sort key of an id made by `Date.now().toString()` is that clock value |
| Transfer.FileIcon | src/components/TransferPage.tsx:290-295 | the icon is chosen by the first matching rule: image/ prefix, pdf, word, excel or sheet, video, audio, else generic (each icon iff its rule is the first to match) |
| Transfer.FilePayload | src/components/TransferPage.tsx:126-132 | the payload carries the file's name, size and bytes; its data type is the file type or, when empty, application/octet-stream, so never empty |
| Transfer.FirstUnread | src/components/TransferPage.tsx:120-123 | the index of the first file whose read fails, all earlier reads having succeeded |
| Transfer.CompletedIs | src/components/TransferPage.tsx:118-163 | a run that sent n files and then stopped, or ran out of files, sent exactly `Completed` files |
| Transfer.TextArrivesTrimmed | src/components/TransferPage.tsx:176-180 | a text sent through the pipeline arrives on the other side with the trimmed, non-blank content |
| Transfer.FileArrivesAsSent | src/components/TransferPage.tsx:126-132 | a sent file arrives as a received file with the sender's name, size and type (or the octet-stream default) |
| Transfer.TransferPanel.constructor | src/components/TransferPage.tsx:43-47 | an empty selection, input and sent list, no progress, not transferring |
| Transfer.TransferPanel.SendText | src/components/TransferPage.tsx:172-197 | blank input does nothing; otherwise the trimmed text is offered to `sendData`, and only when it is accepted is one sent record appended and the input cleared |
| Transfer.TransferPanel.HandleKeyPress | src/components/TransferPage.tsx:259-264 | Enter without Shift sends as `sendText` does; any other key changes nothing |
| Transfer.TransferPanel.SendNext | src/components/TransferPage.tsx:134-157 | one file goes out iff a connection is held, with one sent record and the progress updated; a refusal changes nothing |
| Transfer.TransferPanel.SendInOrder | src/components/TransferPage.tsx:120-163 | files go out in order until the first failed read or refused send; the sends and records are exactly those of the files before that point |
| Transfer.TransferPanel.SendFiles | src/components/TransferPage.tsx:113-169 | an empty list changes nothing; otherwise exactly `Completed` files are sent and recorded, the selection is cleared and progress reset only when all were sent, and the run ends not transferring |
| Transfer.TransferPanel.HandleFileSelect | src/components/TransferPage.tsx:98-110 | a non-empty choice becomes the selection and is sent at once as `SendFiles` does; it stays selected unless every file went out; progress is reset when all went out, kept when none did, and otherwise shows the share sent |
| Receive.Dispatch | src/components/FileTransfer.tsx:34-61 | a file payload appends one file with its name, size and data type, a text payload appends one text with its content, anything else changes nothing; earlier entries are kept, a file gets the blob URL made for it, a text the local time of its timestamp, and ids read back as the clock |
| Receive.ReceiveAllCounts | src/components/FileTransfer.tsx:48-58 | after any run of payloads each list has grown, behind its old entries, by exactly the number of file and of text payloads |
| Receive.Inbox.constructor | src/app/page.tsx:10-11 | both received lists start empty |
| Receive.Inbox.HandleReceivedData | src/app/page.tsx:14-35 | the page's lists change exactly as `Dispatch` says: at most one list grows, at its end |
| Receive.ScreenFollowsConnection | src/app/page.tsx:52-68 | the page shows the connection screen until the connection opens, the transfer screen while it is open, and the connection screen again once it closes (the same in src/components/FileTransfer.tsx:98-113) |
| Receive.StaleCloseThenOpen | src/hooks/usePeerConnection.ts:140-158 | connect to A, connect to B, A closes, B opens: the transfer screen is shown, yet no connection is held and sending is refused |
| LegacyApp.SpliceOne | public/app.js:393-397 | `splice(index, 1)` removes exactly the element at the index and keeps the others in order; an index past the end removes nothing |
| LegacyApp.LegacyApp.constructor | public/app.js:530-538 | after load nothing is selected or held and both send buttons are disabled |
| LegacyApp.LegacyApp.UpdateSendButtonState | public/app.js:403-405 | afterwards the send-files button is disabled iff there is no connection or no selected file |
| LegacyApp.LegacyApp.PeerOpen | public/app.js:30-35 | the id is stored and the status shows online |
| LegacyApp.LegacyApp.PeerConnection | public/app.js:37-41 | an inbound connection replaces the global one and the status names its peer |
| LegacyApp.LegacyApp.PeerError | public/app.js:43-46 | a peer error changes only the status |
| LegacyApp.LegacyApp.ConnectToPeer | public/app.js:114-127 | a blank id changes nothing; otherwise the global connection becomes a reliable connection to the trimmed id, with one connect call |
| LegacyApp.LegacyApp.UrlConnectTick | public/app.js:442-459 | once the peer has an id, a `connect` parameter is typed into the id box and connected to as the connect button would: a non-blank id shows "Connecting…" and connects to the trimmed id; a blank one changes neither status, connection nor calls |
| LegacyApp.LegacyApp.ConnectionOpen | public/app.js:133-136 | with a global connection the status names its peer, text sending is enabled and the file button agrees with the state; with none nothing changes |
| LegacyApp.LegacyApp.ConnectionClose | public/app.js:142-146 | the global connection is cleared and both send buttons are disabled |
| LegacyApp.LegacyApp.ConnectionError | public/app.js:148-151 | a connection error changes only the status |
| LegacyApp.LegacyApp.HandleFileSelect | public/app.js:359-366 | a non-empty choice replaces the selection and updates the button; an empty one changes nothing |
| LegacyApp.LegacyApp.RemoveSelected | public/app.js:393-397 | the selection loses exactly the element at the index and the button agrees with the new state |
| LegacyApp.LegacyApp.SendFiles | public/app.js:160-191 | without a connection or a selection nothing changes; otherwise a read starts for every selected file and the selection ends empty before anything is sent |
| LegacyApp.LegacyApp.ReaderLoad | public/app.js:166-183 | a finished read is sent on the global connection held at that moment, with the octet-stream default type; with none held nothing is sent |
| LegacyApp.LegacyApp.SendText | public/app.js:194-210 | with a connection and non-blank text the trimmed text is sent and the input cleared; otherwise nothing changes |
| LegacyApp.LegacyApp.ReceiveData | public/app.js:213-282 | a file is appended to the file pane with its size label and image flag, a text to the text pane, any other type is ignored |
| LegacyApp.CloseBeforeLoadLosesFile | public/app.js:160-191 | a file whose read finishes after the connection closed is never sent, and it is no longer selected either |
| ConnectionUi.StatusClass | src/components/ConnectionPage.tsx:90-95 | connected iff the status contains "Connected"; else error iff it contains "Error" or "Failed"; else connecting iff it contains "Connecting" (case-sensitive) |
| ConnectionUi.NoCapitalsNoErrorStyle | src/components/ConnectionPage.tsx:92 | a status without a capital E or F is never styled as an error |
| ConnectionUi.ConnectedStyle | src/components/ConnectionPage.tsx:91 | every "Connected to <peer>" status is styled as connected |
| ConnectionUi.ConnectingStyle | src/components/ConnectionPage.tsx:93 | the hook's "Connecting..." status is styled as connecting |
| ConnectionUi.PeerErrorStyle | src/hooks/usePeerConnection.ts:80-96 | none of the hook's peer-error messages, the generic fallback included, is styled as an error |
| ConnectionUi.ConnectionErrorStyle | src/hooks/usePeerConnection.ts:160-162 | the status a connection's `error` event sets, "Connection error", is not styled as an error |
| ConnectionUi.InitFailedStyle | src/hooks/usePeerConnection.ts:115 | "Initialization failed" is not styled as an error (lower-case "failed") |
| ConnectionUi.TimedOutStyle | src/hooks/usePeerConnection.ts:170 | the timeout status is not styled as an error |
| ConnectionUi.BasePath | src/components/ConnectionPage.tsx:49-50 | the base path is the prefix of the URL through its last slash: a prefix, ending in a slash or empty, with no slash after it |
| ConnectionUi.ScanUrl | src/components/ConnectionPage.tsx:49-53 | the QR URL starts with the base path and ends with the scan page, `?connect=` and the id ("scan" here and in src/components/ConnectionPanel.tsx:42-46, "scan.html" in public/app.js:67-71) |
| ConnectionUi.ScanUrlIsSibling | src/components/ConnectionPanel.tsx:42-46 | whatever the current page is called, the QR URL is the scan page in the same directory |
| ConnectionUi.QrTarget | src/components/ConnectionPanel.tsx:32-46 | a QR code is drawn iff there is an id, the QR library and a canvas, and it ends with `?connect=` and the id |
| ConnectionUi.ConnectRequest | src/components/ConnectionPage.tsx:77-81 | the hook is asked to connect iff the input is not blank, with the trimmed input, which is already in trimmed form |
| ConnectionUi.KeyDownRequest | src/components/ConnectionPanel.tsx:76-80 | a connect request is made iff the key is Enter and the input is not blank, and then for the trimmed, non-empty input |
| PeerId.AlphabetIsUnambiguous | src/utils/generatePeerId.ts:6 | the alphabet has 32 distinct characters and none of 0, o, 1, l |
| PeerId.CharIndex | src/utils/generatePeerId.ts:9 | for a draw in [0, 1) the index floor(r*32) is a valid alphabet index |
| PeerId.GeneratePeerId | src/utils/generatePeerId.ts:5-12 | the id has 8 characters, the k-th chosen by the k-th draw, all from the alphabet, none a look-alike |
| PeerId.ReachableAt | src/utils/generatePeerId.ts:9-10 | the draw made from a character's position in the alphabet is in [0, 1) and selects that character again |
| PeerId.EveryIdIsReachable | src/utils/generatePeerId.ts:6-10 | every 8-character string over the alphabet is produced by some draws, so the id space is all 32^8 strings |
| FileSize.FormatFileSize | src/utils/helpers.ts:8-13 | the label ends with a space and the unit of the selected band (also public/app.js:420-425) |
| FileSize.UnitFor | src/utils/helpers.ts:9-12 | the unit chosen is the largest the size holds at least one of: bytes, or a unit of which it holds at least one, and, below GB, fewer than 1024 |
| FileSize.BandsPartitionSizes | src/utils/helpers.ts:8-13 | the thresholds are 1024, 1024^2, 1024^3, and a unit is chosen iff the size is at least one of it and, below GB, less than 1024 of it, so exactly one band applies |
| FileSize.ScaledValueInRange | src/utils/helpers.ts:10-12 | the quotient `bytes / unit` that `toFixed(2)` receives lies in [1, 1024) for KB and MB; for GB it is at least 1 and unbounded |
| FileSize.ByteLabelReadsBack | src/utils/helpers.ts:9 | below 1024 the label is the exact integer followed by " B", and `parseInt` reads the integer back |
| Blog.BareName | src/lib/markdown.ts:30 | removing the trailing ".md" gives a name that, with ".md" appended, is the file name again |
| Blog.SlugOf | src/lib/markdown.ts:30 | the slug is the front-matter slug when that is a non-empty string, else the bare file name; a markdown file is then matched by its own slug |
| Blog.MarkdownFiles | src/lib/markdown.ts:19 | exactly the files whose name ends in ".md" are processed, never more than were listed |
| Blog.MarkdownFilesInOrder | src/lib/markdown.ts:19 | the markdown files keep directory order, and each occurs as often as it was listed, the others not at all |
| Blog.SlugsFollowListing | src/lib/markdown.ts:50-69 | the slugs of an empty listing are empty, and a file added to the listing adds its slug at the end iff it is a markdown file |
| Blog.GetAllBlogs | src/lib/markdown.ts:13-47 | the index holds one summary (slug and front-matter fields) per markdown post, as a multiset exactly those, ordered newest date first |
| Blog.IndexMatchesSlugs | src/lib/markdown.ts:13-69 | the slugs on the index are, as a multiset, exactly the slugs post pages are generated for |
| Blog.FirstMatch | src/lib/markdown.ts:77-88 | the first markdown file, in directory order, whose front-matter slug or bare name equals the slug, if any |
| Blog.GetBlogData | src/lib/markdown.ts:72-115 | fails with "Blog with slug … not found" iff no markdown file matches; otherwise renders the first match, and the post carries the requested slug |
| Blog.EverySlugResolves | src/lib/markdown.ts:65 | every slug a post page is generated for is found by the lookup |
| FriendLinks.FilterLinks | src/components/FriendLinks.tsx:41-44 | with no site domain every link is kept; otherwise a link is kept iff its URL does not contain the domain; the kept links are a subsequence of the input, each kept link as often as it occurs there |
| FriendLinks.FriendLinksView | src/components/FriendLinks.tsx:10-49 | nothing is rendered iff no link survives the filter; a thrown error, a non-ok response or an unreadable body give no links and so render nothing |
| LocalIp.FirstReachable | server.js:13-17 | none iff no address is a non-internal IPv4 address; otherwise the address of the first such entry, no earlier entry qualifying |
| LocalIp.GetLocalIP | server.js:8-21 | the first non-internal IPv4 address, scanning interfaces in key order and addresses in order, else "localhost"; so always "localhost" or a qualifying address |
| LocalIp.FoundAt | server.js:10-18 | the address the nested loops stop at is the first qualifying one overall |
| Sorting.SortBy | src/components/TransferPage.tsx:83-85 | sorting gives a permutation of its input, ordered by key |
| Sorting.SortByIsStable | src/components/TransferPage.tsx:83-85 | elements with equal keys keep their relative order |
| Sorting.SortBySortedIsIdentity | src/components/TransferPage.tsx:83-85 | a list already in key order is left as it is |
| Text.Trim | src/components/TransferPage.tsx:173 | `trim()` removes exactly the leading and trailing whitespace: the result sits in the input with only whitespace before and after it, does not itself start or end with whitespace, and is empty iff the input is all whitespace |
| Text.TrimIdempotent | src/components/ConnectionPanel.tsx:71-72 | trimming twice is trimming once |
| Text.Includes | src/components/FriendLinks.tsx:43 | `includes` is true iff the needle occurs at some position |
| Text.LastIndexOf | src/components/ConnectionPage.tsx:50 | the last position of the character, or -1 when it does not occur |
| Text.DecimalString | src/utils/helpers.ts:9 | a number's decimal form is non-empty digits without a leading zero |
| Text.ParseInt | src/components/TransferPage.tsx:60 | for strings without sign, leading blanks or `0x` prefix, as the program's decimal ids are: `parseInt` fails iff the string does not start with a digit, and otherwise reads the value of the maximal leading run of digits |
| Text.ParseIntDecimalString | src/components/TransferPage.tsx:60 | `parseInt` reads back the decimal form of every natural number |
| Text.DecimalStringInjective | src/components/FileTransfer.tsx:45 | distinct clock values give distinct ids |

## Left out

- The PeerJS/WebRTC transport itself: peer construction with its ICE configuration, and the effects of `connect`, `send`, `reconnect` and `destroy`. Connections are opaque handles and these calls are recorded as a log.
- The 100 ms polling for `window.Peer` in the hook and the 500 ms polling of `checkUrlForConnection` in public/app.js. One tick of each is modelled (`LoadPeerLibrary`, `UrlConnectTick`), not the timers.
- React rendering: every state setter is a plain assignment. Batching, stale closures over `connection` and the dependency arrays of the effects are not modelled.
- `disconnect`: src/components/FileTransfer.tsx:71 destructures a `disconnect` the hook never returns, so the disconnect button never renders. The model has no such operation.
- Floating point:
  - `toFixed(2)` in `formatFileSize` is a parameter;
  - the progress percentage is an exact rational;
  - `Math.floor(Math.random() * 32)` is exact real arithmetic on draws in [0, 1).
- `parseInt` on an id that is not a decimal number (NaN as a sort key). Every id the program creates is `Date.now().toString()`. `Transfer.TimestampMs` maps a non-number to 0.
- Blog.GetAllBlogs: the order of posts with equal dates is not stated. The source comparator never returns 0, so JavaScript leaves their order to the engine. The model picks one order, and only the newest-first property is proved.
- Blog.EverySlugResolves: front-matter slugs are strings and dates integers in the model. A non-string slug (src/lib/markdown.ts:30 and :65 use it as is, while :84 compares it with `===`) or a date compared as a string or `Date` by the comparator at src/lib/markdown.ts:38-44 is not modelled, so a numeric front-matter slug that the lookup would miss is not covered.
- The file system, gray-matter and remark. The listing comes with parsed front matter, and the markdown-to-HTML conversion is a parameter.
- FriendLinks.FriendLinksView: a body that is not a JSON array, or an entry without a `link` string, makes `filter` or `includes` throw at src/components/FriendLinks.tsx:41-44; the model types the body as a list of links, so that failure is not modelled.
- The network request of the friend links, beyond its outcome; Express routing and `listen` in server.js.
- The DOM, clipboard, toasts, QR canvas drawing, blob URLs, `history.pushState`, drag-and-drop highlighting and tabs in public/app.js. The fields model only the state the handlers read back.
- LegacyApp.LegacyApp.HandleFileSelect: models the file input's `change` event only. A drop calls `handleFileSelect` with an object that has no `target` (public/app.js:512-516), so `event.target.files` at public/app.js:360 throws and a drop selects nothing; that path is not modelled.
- The "share link" of the React pages, `/scan?connect=<id>` under the site root (src/components/ConnectionPanel.tsx:106-107, src/components/ConnectionPage.tsx:144), is not modelled; only the QR code URL (`ScanUrl`) is, which lies in the current page's directory and differs from the share link when the site is deployed under a sub-path.
- public/app.js `transferInProgress` is set and reset within `sendFiles` and never read; it is kept only as a field.
- The static pages, layout, header and footer, avatar helpers and type declarations.
