/** The transfer page (src/components/TransferPage.tsx): the merge of sent
    and received items into one timeline, the file icon chosen from a MIME
    type, and the send pipeline for text and files. The pipeline sends
    through the connection hook's `sendData`. */
module Transfer {
  import opened Common
  import opened Text
  import opened Sorting
  import opened Protocol
  import opened Receive
  import opened PeerConnection

  datatype Direction = Sent | Received

  datatype FileInfo = FileInfo(name: string, size: nat, mime: string, url: string)

  /** One item of the timeline (the objects in `sentMessages` and `messages`). */
  datatype Message = Message(
    id: string, content: string, timestamp: string,
    direction: Direction, isFile: bool, fileData: Option<FileInfo>)

  /** A timeline item with the sort key the merge adds to it. */
  datatype Entry = Entry(msg: Message, timestampMs: int)

  /** `parseInt(id)`; every id the program creates is a decimal clock value. */
  function TimestampMs(id: string): int {
    ParseInt(id).GetOr(0)
  }

  function TimeKey(e: Entry): int {
    e.timestampMs
  }

  function FromSent(m: Message): Entry {
    Entry(m, TimestampMs(m.id))
  }

  function FromText(t: ReceivedText): Entry {
    Entry(Message(t.id, t.content, t.timestamp, Received, false, None), TimestampMs(t.id))
  }

  /** `toLocale(ms)` stands for `new Date(ms).toLocaleString()`. */
  function FromFile(f: ReceivedFile, toLocale: int -> string): Entry {
    Entry(Message(f.id, f.name, toLocale(TimestampMs(f.id)), Received, true,
                  Some(FileInfo(f.name, f.size, f.mime, f.url))),
          TimestampMs(f.id))
  }

  function MapSent(s: seq<Message>): (r: seq<Entry>)
    ensures |r| == |s| && forall i :: 0 <= i < |s| ==> r[i] == FromSent(s[i])
  {
    if s == [] then [] else [FromSent(s[0])] + MapSent(s[1..])
  }

  function MapTexts(s: seq<ReceivedText>): (r: seq<Entry>)
    ensures |r| == |s| && forall i :: 0 <= i < |s| ==> r[i] == FromText(s[i])
  {
    if s == [] then [] else [FromText(s[0])] + MapTexts(s[1..])
  }

  function MapFiles(s: seq<ReceivedFile>, toLocale: int -> string): (r: seq<Entry>)
    ensures |r| == |s| && forall i :: 0 <= i < |s| ==> r[i] == FromFile(s[i], toLocale)
  {
    if s == [] then [] else [FromFile(s[0], toLocale)] + MapFiles(s[1..], toLocale)
  }

  /** `[...sentMessagesWithMs, ...textMessages, ...fileMessages]`. */
  function Combined(sent: seq<Message>, texts: seq<ReceivedText>, files: seq<ReceivedFile>,
                    toLocale: int -> string): seq<Entry>
  {
    MapSent(sent) + MapTexts(texts) + MapFiles(files, toLocale)
  }

  /** The merge effect: the combined list sorted by `timestampMs` with the
      stable `Array.prototype.sort`. The timeline holds every sent message,
      received text and received file exactly once, and nothing else, in
      non-decreasing timestamp order. */
  function Merge(sent: seq<Message>, texts: seq<ReceivedText>, files: seq<ReceivedFile>,
                 toLocale: int -> string): (timeline: seq<Entry>)
    ensures |timeline| == |sent| + |texts| + |files|
    ensures multiset(timeline) == multiset(Combined(sent, texts, files, toLocale))
    ensures SortedBy(timeline, TimeKey)
  {
    SortBy(Combined(sent, texts, files, toLocale), TimeKey)
  }

  /** Items with the same timestamp keep the concatenation order: sent
      messages, then received texts, then received files, each list in its
      own order. */
  lemma MergeKeepsTieOrder(sent: seq<Message>, texts: seq<ReceivedText>,
                           files: seq<ReceivedFile>, toLocale: int -> string, ms: int)
    ensures WithKey(Merge(sent, texts, files, toLocale), TimeKey, ms)
      == WithKey(MapSent(sent), TimeKey, ms) + WithKey(MapTexts(texts), TimeKey, ms)
         + WithKey(MapFiles(files, toLocale), TimeKey, ms)
  {
    SortByIsStable(Combined(sent, texts, files, toLocale), TimeKey, ms);
    WithKeyAppend(MapSent(sent) + MapTexts(texts), MapFiles(files, toLocale), TimeKey, ms);
    WithKeyAppend(MapSent(sent), MapTexts(texts), TimeKey, ms);
  }

  lemma {:induction false} WithKeyAppend<T>(a: seq<T>, b: seq<T>, key: T -> int, k: int)
    ensures WithKey(a + b, key, k) == WithKey(a, key, k) + WithKey(b, key, k)
  {
    if a != [] {
      WithKeyAppend(a[1..], b, key, k);
      assert (a + b)[1..] == a[1..] + b;
    } else {
      assert a + b == b;
    }
  }

  /** Anything in the combined list is on the timeline. */
  lemma MergeKeepsItem(sent: seq<Message>, texts: seq<ReceivedText>,
                       files: seq<ReceivedFile>, toLocale: int -> string, e: Entry)
    requires e in Combined(sent, texts, files, toLocale)
    ensures e in Merge(sent, texts, files, toLocale)
  {
    assert e in multiset(Combined(sent, texts, files, toLocale));
  }

  /** Each received text appears as a received non-file item with its
      content. */
  lemma MergeShowsReceivedTexts(sent: seq<Message>, texts: seq<ReceivedText>,
                                files: seq<ReceivedFile>, toLocale: int -> string)
    ensures forall t :: t in texts ==>
      var e := FromText(t);
      e in Merge(sent, texts, files, toLocale)
      && e.msg.direction == Received && !e.msg.isFile && e.msg.content == t.content
  {
    forall t | t in texts ensures FromText(t) in Merge(sent, texts, files, toLocale) {
      var i :| 0 <= i < |texts| && texts[i] == t;
      var c := Combined(sent, texts, files, toLocale);
      assert c[|sent| + i] == MapTexts(texts)[i];
      MergeKeepsItem(sent, texts, files, toLocale, c[|sent| + i]);
    }
  }

  /** Each received file appears as a received file item named after the
      file. */
  lemma MergeShowsReceivedFiles(sent: seq<Message>, texts: seq<ReceivedText>,
                                files: seq<ReceivedFile>, toLocale: int -> string)
    ensures forall f :: f in files ==>
      var e := FromFile(f, toLocale);
      e in Merge(sent, texts, files, toLocale)
      && e.msg.direction == Received && e.msg.isFile && e.msg.content == f.name
  {
    forall f | f in files ensures FromFile(f, toLocale) in Merge(sent, texts, files, toLocale) {
      var i :| 0 <= i < |files| && files[i] == f;
      var c := Combined(sent, texts, files, toLocale);
      assert c[|sent| + |texts| + i] == MapFiles(files, toLocale)[i];
      MergeKeepsItem(sent, texts, files, toLocale, c[|sent| + |texts| + i]);
    }
  }

  /** The sort key of an item whose id is `Date.now().toString()` is that
      clock value, so the timeline is in order of local observation. */
  lemma TimestampOfClockId(now: nat)
    ensures TimestampMs(DecimalString(now)) == now
  {
    ParseIntDecimalString(now);
  }

  datatype Icon = ImageIcon | PdfIcon | WordIcon | SheetIcon | VideoIcon | AudioIcon | GenericIcon

  /** The file icon of a timeline item, chosen by the first rule that
      matches: `image/` prefix, then `pdf`, `word`, `excel` or `sheet`,
      `video`, `audio` anywhere in the type; otherwise the generic icon. */
  function FileIcon(mime: string): (icon: Icon)
    ensures icon == ImageIcon <==> StartsWith(mime, "image/")
    ensures icon == PdfIcon <==> !StartsWith(mime, "image/") && Contains(mime, "pdf")
    ensures icon == WordIcon <==>
      !StartsWith(mime, "image/") && !Contains(mime, "pdf") && Contains(mime, "word")
    ensures icon == SheetIcon <==>
      !StartsWith(mime, "image/") && !Contains(mime, "pdf") && !Contains(mime, "word")
      && (Contains(mime, "excel") || Contains(mime, "sheet"))
    ensures icon == VideoIcon <==>
      !StartsWith(mime, "image/") && !Contains(mime, "pdf") && !Contains(mime, "word")
      && !Contains(mime, "excel") && !Contains(mime, "sheet") && Contains(mime, "video")
    ensures icon == AudioIcon <==>
      !StartsWith(mime, "image/") && !Contains(mime, "pdf") && !Contains(mime, "word")
      && !Contains(mime, "excel") && !Contains(mime, "sheet") && !Contains(mime, "video")
      && Contains(mime, "audio")
  {
    if StartsWith(mime, "image/") then ImageIcon
    else if Includes(mime, "pdf") then PdfIcon
    else if Includes(mime, "word") then WordIcon
    else if Includes(mime, "excel") || Includes(mime, "sheet") then SheetIcon
    else if Includes(mime, "video") then VideoIcon
    else if Includes(mime, "audio") then AudioIcon
    else GenericIcon
  }

  /** A file the user picked (the browser `File`): name, size and type. */
  datatype LocalFile = LocalFile(name: string, size: nat, mime: string)
  datatype FileItem = FileItem(file: LocalFile, id: string)

  /** What the environment supplies while one file is being sent: the
      result of `file.arrayBuffer()` (None when it rejects), `Date.now()`,
      `toLocaleString()` and the blob URL. */
  datatype SendStep = SendStep(read: Option<seq<bv8>>, now: nat, localeTime: string, objectUrl: string)

  const OctetStream: string := "application/octet-stream"

  /** The file payload: `dataType` is the file's type, or
      `application/octet-stream` when that is empty; it is never empty. */
  function FilePayload(file: LocalFile, bytes: seq<bv8>): (p: Payload)
    ensures p.FileData? && p.name == file.name && p.size == file.size && p.bytes == bytes
    ensures p.dataType != ""
    ensures file.mime != "" ==> p.dataType == file.mime
    ensures file.mime == "" ==> p.dataType == OctetStream
  {
    FileData(file.name, file.size, if file.mime == "" then OctetStream else file.mime, bytes)
  }

  function SentFileRecord(file: LocalFile, step: SendStep): Message {
    Message(DecimalString(step.now), file.name, step.localeTime, Sent, true,
            Some(FileInfo(file.name, file.size, file.mime, step.objectUrl)))
  }

  function SentTextRecord(content: string, now: nat, localeTime: string): Message {
    Message(DecimalString(now), content, localeTime, Sent, false, None)
  }

  /** The index of the first file whose read fails, or the number of files. */
  function FirstUnread(steps: seq<SendStep>): (n: nat)
    ensures n <= |steps|
    ensures forall k :: 0 <= k < n ==> steps[k].read.Some?
    ensures n < |steps| ==> steps[n].read.None?
  {
    if steps == [] || steps[0].read.None? then 0 else 1 + FirstUnread(steps[1..])
  }

  /** How many files `sendFiles` gets out: none without a connection,
      otherwise those before the first failed read. */
  function Completed(held: bool, steps: seq<SendStep>): nat {
    if held then FirstUnread(steps) else 0
  }

  /** A run that sent `n` files and then stopped, or ran out of files,
      sent exactly `Completed` of them. */
  lemma {:induction false} CompletedIs(held: bool, steps: seq<SendStep>, n: nat)
    requires n <= |steps|
    requires forall k :: 0 <= k < n ==> steps[k].read.Some?
    requires n < |steps| ==> steps[n].read.None? || !held
    requires n > 0 ==> held
    ensures Completed(held, steps) == n
  {
    if held && n > 0 {
      CompletedIs(held, steps[1..], n - 1);
    }
  }

  function FileSends(conn: Conn, files: seq<FileItem>, steps: seq<SendStep>, n: nat): seq<TransportCall>
    requires n <= |files| && n <= |steps|
    requires forall k :: 0 <= k < n ==> steps[k].read.Some?
  {
    if n == 0 then []
    else FileSends(conn, files, steps, n - 1)
         + [Send(conn, FilePayload(files[n - 1].file, steps[n - 1].read.value))]
  }

  function FileRecords(files: seq<FileItem>, steps: seq<SendStep>, n: nat): seq<Message>
    requires n <= |files| && n <= |steps|
  {
    if n == 0 then [] else FileRecords(files, steps, n - 1) + [SentFileRecord(files[n - 1].file, steps[n - 1])]
  }

  lemma AppendAssoc<T>(a: seq<T>, b: seq<T>, c: seq<T>)
    ensures a + (b + c) == (a + b) + c
  {
  }

  /** One more file sent: one more record and one more transport call. */
  lemma FileStep(conn: Conn, files: seq<FileItem>, steps: seq<SendStep>, n: nat)
    requires n < |files| && n < |steps|
    requires forall k :: 0 <= k <= n ==> steps[k].read.Some?
    ensures FileRecords(files, steps, n + 1) == FileRecords(files, steps, n) + [SentFileRecord(files[n].file, steps[n])]
    ensures FileSends(conn, files, steps, n + 1)
      == FileSends(conn, files, steps, n) + [Send(conn, FilePayload(files[n].file, steps[n].read.value))]
  {
  }

  function Percent(done: nat, total: nat): real
    requires total > 0
  {
    (done as real / total as real) * 100.0
  }

  /** A text sent through the hook arrives on the other side with the
      trimmed content, never blank. */
  lemma TextArrivesTrimmed(lists: Lists, input: string, iso: string, now: nat, url: string,
                           toLocale: string -> string)
    requires Trim(input) != []
    ensures var r := Dispatch(lists, TextData(Trim(input), iso), now, url, toLocale);
      r.texts[|r.texts| - 1].content == Trim(input) && !AllWhitespace(r.texts[|r.texts| - 1].content)
  {
  }

  /** A file sent through the pipeline arrives as a received file with the
      sender's name and size, and with its type or the octet-stream
      default. */
  lemma FileArrivesAsSent(lists: Lists, file: LocalFile, bytes: seq<bv8>, now: nat, url: string,
                          toLocale: string -> string)
    ensures var r := Dispatch(lists, FilePayload(file, bytes), now, url, toLocale);
      var last := r.files[|r.files| - 1];
      r.texts == lists.texts && last.name == file.name && last.size == file.size
      && last.mime == (if file.mime == "" then OctetStream else file.mime)
  {
  }

  /** The state of the transfer page. */
  class TransferPanel {
    var selectedFiles: seq<FileItem>
    var textInput: string
    var progress: real
    var isTransferring: bool
    var sentMessages: seq<Message>

    constructor ()
      ensures selectedFiles == [] && textInput == "" && progress == 0.0
      ensures !isTransferring && sentMessages == []
    {
      selectedFiles := [];
      textInput := "";
      progress := 0.0;
      isTransferring := false;
      sentMessages := [];
    }

    /** The effect of `sendText()` at clock `now`, with `iso` and
        `localeTime` the two renderings of the current date. */
    twostate predicate SentText(hook: PeerSession, now: nat, iso: string, localeTime: string)
      reads this, hook
    {
      var t := Trim(old(textInput));
      var held := old(hook.connection);
      if t == [] || held.None? then
        sentMessages == old(sentMessages) && textInput == old(textInput)
        && hook.calls == old(hook.calls)
      else
        hook.calls == old(hook.calls) + [Send(held.value, TextData(t, iso))]
        && sentMessages == old(sentMessages) + [SentTextRecord(t, now, localeTime)]
        && textInput == ""
    }

    /** `sendText()`: a blank input does nothing; otherwise the trimmed text
        is offered to `sendData`, and only if that accepts it is one sent
        record appended and the input cleared. */
    method SendText(hook: PeerSession, now: nat, iso: string, localeTime: string)
      modifies this`sentMessages, this`textInput, hook`calls
      ensures SentText(hook, now, iso, localeTime)
    {
      var t := Trim(textInput);
      if t == [] {
        return;
      }
      var ok := hook.SendData(TextData(t, iso));
      if ok {
        sentMessages := sentMessages + [SentTextRecord(t, now, localeTime)];
        textInput := "";
      }
    }

    /** `handleKeyPress`: Enter without Shift sends, any other key does nothing. */
    method HandleKeyPress(key: string, shiftKey: bool, hook: PeerSession, now: nat, iso: string, localeTime: string)
      modifies this`sentMessages, this`textInput, hook`calls
      ensures key == "Enter" && !shiftKey ==> SentText(hook, now, iso, localeTime)
      ensures !(key == "Enter" && !shiftKey) ==> unchanged(this) && unchanged(hook)
    {
      if key == "Enter" && !shiftKey {
        SendText(hook, now, iso, localeTime);
      }
    }

    /** The body of the `sendFiles` loop once file `i` has been read. */
    method SendNext(hook: PeerSession, files: seq<FileItem>, steps: seq<SendStep>, i: nat)
      returns (ok: bool)
      requires i < |files| == |steps| && steps[i].read.Some?
      modifies this`sentMessages, this`progress, hook`calls
      ensures ok <==> hook.connection.Some?
      ensures ok ==>
        && sentMessages == old(sentMessages) + [SentFileRecord(files[i].file, steps[i])]
        && hook.calls == old(hook.calls) + [Send(hook.connection.value, FilePayload(files[i].file, steps[i].read.value))]
        && progress == Percent(i + 1, |files|)
      ensures !ok ==> unchanged(this) && hook.calls == old(hook.calls)
    {
      ok := hook.SendData(FilePayload(files[i].file, steps[i].read.value));
      if ok {
        sentMessages := sentMessages + [SentFileRecord(files[i].file, steps[i])];
        progress := Percent(i + 1, |files|);
      }
    }

    /** The loop of `sendFiles`: it stops at the first failed read or
        refused `sendData` and returns how many files went out. */
    method SendInOrder(hook: PeerSession, files: seq<FileItem>, steps: seq<SendStep>)
      returns (completed: nat)
      requires 0 < |files| == |steps|
      modifies this`sentMessages, this`progress, hook`calls
      ensures completed <= |files|
      ensures forall k :: 0 <= k < completed ==> steps[k].read.Some?
      ensures completed > 0 ==> hook.connection.Some?
      ensures completed < |files| ==> steps[completed].read.None? || hook.connection.None?
      ensures sentMessages == old(sentMessages) + FileRecords(files, steps, completed)
      ensures hook.calls == old(hook.calls)
        + (if completed == 0 then [] else FileSends(hook.connection.value, files, steps, completed))
      ensures progress == (if completed == 0 then old(progress) else Percent(completed, |files|))
    {
      var total := |files|;
      ghost var conn := if hook.connection.Some? then hook.connection.value else Conn(0, "");
      completed := 0;
      while completed < total
        invariant 0 <= completed <= total
        invariant forall k :: 0 <= k < completed ==> steps[k].read.Some?
        invariant completed > 0 ==> hook.connection == Some(conn)
        invariant hook.connection == old(hook.connection)
        invariant sentMessages == old(sentMessages) + FileRecords(files, steps, completed)
        invariant hook.calls == old(hook.calls) + FileSends(conn, files, steps, completed)
        invariant progress == (if completed == 0 then old(progress) else Percent(completed, total))
      {
        if steps[completed].read.None? {
          return;
        }
        var ok := SendNext(hook, files, steps, completed);
        if !ok {
          return;
        }
        FileStep(conn, files, steps, completed);
        AppendAssoc(old(sentMessages), FileRecords(files, steps, completed), [SentFileRecord(files[completed].file, steps[completed])]);
        AppendAssoc(old(hook.calls), FileSends(conn, files, steps, completed),
          [Send(conn, FilePayload(files[completed].file, steps[completed].read.value))]);
        completed := completed + 1;
      }
    }

    /** `sendFiles(files)`: files go out one at a time in order; the first
        failed read or refused `sendData` ends the run with the selection
        kept; after the last file the selection is cleared and the progress
        reset. Each file sent adds one sent record. */
    method SendFiles(hook: PeerSession, files: seq<FileItem>, steps: seq<SendStep>)
      requires |steps| == |files|
      modifies this`sentMessages, this`selectedFiles, this`progress, this`isTransferring, hook`calls
      ensures files == [] ==> unchanged(this) && unchanged(hook)
      ensures files != [] ==>
        var n := Completed(hook.connection.Some?, steps);
        && sentMessages == old(sentMessages) + FileRecords(files, steps, n)
        && hook.calls == old(hook.calls) + (if n == 0 then [] else FileSends(hook.connection.value, files, steps, n))
        && selectedFiles == (if n == |files| then [] else old(selectedFiles))
        && progress == (if n == |files| then 0.0 else if n == 0 then old(progress) else Percent(n, |files|))
        && !isTransferring
    {
      if |files| == 0 {
        return;
      }
      isTransferring := true;
      var completed := SendInOrder(hook, files, steps);
      CompletedIs(hook.connection.Some?, steps, completed);
      if completed == |files| {
        selectedFiles := [];
        progress := 0.0;
      }
      isTransferring := false;
    }
  
    /** `handleFileSelect(files)`: a non-empty choice becomes the selection
        and is sent at once; it stays selected unless every file went out.
        The files arrive with their ids already made. */
    method HandleFileSelect(hook: PeerSession, files: seq<FileItem>, steps: seq<SendStep>)
      requires |steps| == |files|
      modifies this`sentMessages, this`selectedFiles, this`progress, this`isTransferring, hook`calls
      ensures files == [] ==> unchanged(this) && unchanged(hook)
      ensures files != [] ==>
        var n := Completed(hook.connection.Some?, steps);
        && sentMessages == old(sentMessages) + FileRecords(files, steps, n)
        && hook.calls == old(hook.calls) + (if n == 0 then [] else FileSends(hook.connection.value, files, steps, n))
        && selectedFiles == (if n == |files| then [] else files)
        && progress == (if n == |files| then 0.0 else if n == 0 then old(progress) else Percent(n, |files|))
        && !isTransferring
    {
      if |files| == 0 {
        return;
      }
      selectedFiles := files;
      SendFiles(hook, files, steps);
    }
  }
}
