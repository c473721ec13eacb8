/** The log ingestion endpoints: the checks `stream_logs` makes before it
    accepts a batch, the single-entry variant, the export-format check, and
    the newline framing of the continuous stream. */
module LogRoutes {
  import opened LogTypes
  import opened Strings
  import LP = LogProcessor
  import HR = HealthRoutes

  // ---------------------------------------------------------------------------
  // Batches
  // ---------------------------------------------------------------------------

  const MAX_SERVICE_NAME_LENGTH: nat := 100
  const INTERNAL_ERROR := "Internal server error"

  /** `LogStreamResponse`. */
  datatype StreamAck = StreamAck(message: string, logsReceived: nat, processingStarted: bool, timestamp: int)

  /** The three checks of `stream_logs`, in the order it makes them: the
      detail of the 400 it raises, or None when the batch is accepted. */
  function BatchRejection(serviceName: string, size: nat): Option<string> {
    if serviceName == [] || |serviceName| > MAX_SERVICE_NAME_LENGTH then Some("Invalid service name")
    else if size == 0 then Some("Empty log batch")
    else if size > MAX_LOG_BATCH_SIZE then Some("Batch size exceeds maximum of " + Decimal(MAX_LOG_BATCH_SIZE))
    else None
  }

  /** The answer of `stream_logs` for a batch of `size` entries. */
  function StreamResponse(serviceName: string, size: nat, now: int): HR.Response<StreamAck> {
    match BatchRejection(serviceName, size)
    case Some(detail) => HR.HttpError(400, detail)
    case None => HR.Ok(StreamAck("Successfully received " + Decimal(size) + " logs", size, true, now))
  }

  /** A batch is accepted exactly when the name has 1 to 100 characters and
      the batch 1 to MAX_LOG_BATCH_SIZE entries; a bad name is reported
      before a bad size, and an accepted batch is acknowledged in full. */
  lemma StreamResponseSpec(serviceName: string, size: nat, now: int)
    ensures StreamResponse(serviceName, size, now).Ok?
            <==> 1 <= |serviceName| <= 100 && 1 <= size <= MAX_LOG_BATCH_SIZE
    ensures StreamResponse(serviceName, size, now).HttpError? ==> StreamResponse(serviceName, size, now).status == 400
    ensures !(1 <= |serviceName| <= 100) ==>
      StreamResponse(serviceName, size, now) == HR.HttpError(400, "Invalid service name")
    ensures 1 <= |serviceName| <= 100 && size == 0 ==>
      StreamResponse(serviceName, size, now) == HR.HttpError(400, "Empty log batch")
    ensures StreamResponse(serviceName, size, now).Ok? ==>
      var a := StreamResponse(serviceName, size, now).value;
      a.logsReceived == size && a.processingStarted && a.timestamp == now
  {
  }

  /** `stream_logs`: a rejected batch leaves the processor alone; an accepted
      one registers the service and then, as the background task, appends
      the batch to the service's queue. */
  method StreamLogs(p: LP.LogProcessorService, serviceName: string, logs: seq<LP.LogEntry>, now: int)
    returns (r: HR.Response<StreamAck>)
    requires p.Valid()
    modifies p
    ensures p.Valid()
    ensures r == StreamResponse(serviceName, |logs|, now)
    ensures r.HttpError? ==>
      && p.registered == old(p.registered) && p.logBuffer == old(p.logBuffer)
      && p.bufferKeys == old(p.bufferKeys) && p.serviceHealth == old(p.serviceHealth)
    ensures r.Ok? ==>
      && p.registered == old(p.registered) + {serviceName}
      && p.logBuffer == old(p.logBuffer)[serviceName := old(p.Queue(serviceName)) + logs]
      && p.bufferKeys == KeysAfter(old(p.bufferKeys), serviceName in old(p.logBuffer), serviceName, logs)
      && p.serviceHealth == HealthAfter(old(p.serviceHealth), serviceName, logs, now)
    ensures p.stats == old(p.stats) && p.processedLogsCount == old(p.processedLogsCount)
  {
    r := StreamResponse(serviceName, |logs|, now);
    if r.HttpError? {
      return;
    }
    ghost var q0 := p.Queue(serviceName);
    p.RegisterService(serviceName);
    assert p.Queue(serviceName) == q0;
    p.AddLogBatch(serviceName, logs, now);
  }

  /** `stream_single_log` as written: it wraps the entry in a one-entry batch,
      but its `except Exception` also catches the 400 that `stream_logs`
      raises for a bad name and answers 500 instead. */
  function SingleLogResponseAsWritten(serviceName: string, now: int): HR.Response<StreamAck> {
    match StreamResponse(serviceName, 1, now)
    case HttpError(_, _) => HR.HttpError(500, INTERNAL_ERROR)
    case Ok(a) => HR.Ok(a)
  }

  /** A name longer than 100 characters, which the route does deliver: the
      batch endpoint answers 400, the single-entry endpoint as written 500. */
  lemma SingleLogMasksBadName(serviceName: string, now: int)
    requires |serviceName| > MAX_SERVICE_NAME_LENGTH
    ensures StreamResponse(serviceName, 1, now) == HR.HttpError(400, "Invalid service name")
    ensures SingleLogResponseAsWritten(serviceName, now) == HR.HttpError(500, INTERNAL_ERROR)
    ensures SingleLogResponseAsWritten(serviceName, now) != SingleLogResponse(serviceName, now)
  {
  }

  /** `stream_single_log` with the 400 passed through, as the other handlers
      do with `except HTTPException: raise`. */
  function SingleLogResponse(serviceName: string, now: int): HR.Response<StreamAck> {
    StreamResponse(serviceName, 1, now)
  }

  /** A single entry can only be refused for its service name, with the 400
      of the batch endpoint; the two versions agree on every accepted one. */
  lemma SingleLogResponseSpec(serviceName: string, now: int)
    ensures SingleLogResponse(serviceName, now).Ok? <==> 1 <= |serviceName| <= 100
    ensures SingleLogResponse(serviceName, now).HttpError? ==>
      SingleLogResponse(serviceName, now) == HR.HttpError(400, "Invalid service name")
    ensures SingleLogResponse(serviceName, now).Ok? ==>
      && SingleLogResponse(serviceName, now).value.logsReceived == 1
      && SingleLogResponseAsWritten(serviceName, now) == SingleLogResponse(serviceName, now)
  {
    StreamResponseSpec(serviceName, 1, now);
  }

  /** `stream_single_log`, corrected: the batch endpoint on `[entry]`. */
  method StreamSingleLog(p: LP.LogProcessorService, serviceName: string, entry: LP.LogEntry, now: int)
    returns (r: HR.Response<StreamAck>)
    requires p.Valid()
    modifies p
    ensures p.Valid()
    ensures r == SingleLogResponse(serviceName, now)
    ensures r.HttpError? ==>
      && p.registered == old(p.registered) && p.logBuffer == old(p.logBuffer)
      && p.bufferKeys == old(p.bufferKeys) && p.serviceHealth == old(p.serviceHealth)
    ensures r.Ok? ==>
      && p.registered == old(p.registered) + {serviceName}
      && p.logBuffer == old(p.logBuffer)[serviceName := old(p.Queue(serviceName)) + [entry]]
      && p.bufferKeys == KeysAfter(old(p.bufferKeys), serviceName in old(p.logBuffer), serviceName, [entry])
      && p.serviceHealth == HealthAfter(old(p.serviceHealth), serviceName, [entry], now)
    ensures p.stats == old(p.stats) && p.processedLogsCount == old(p.processedLogsCount)
  {
    r := StreamLogs(p, serviceName, [entry], now);
  }

  // ---------------------------------------------------------------------------
  // Export
  // ---------------------------------------------------------------------------

  const EXPORT_FORMATS: seq<string> := ["json", "csv", "txt"]

  /** `export_logs`: the format check and the message for each format. */
  function ExportLogs(format: string): HR.Response<string> {
    if format !in EXPORT_FORMATS then HR.HttpError(400, "Unsupported export format")
    else if format == "json" then HR.Ok("JSON export not yet implemented")
    else if format == "csv" then HR.Ok("CSV export not yet implemented")
    else HR.Ok("TXT export not yet implemented")
  }

  /** Exactly the three formats are accepted, each with its own message;
      every other format is a 400. */
  lemma ExportLogsSpec(format: string)
    ensures ExportLogs(format).Ok? <==> format == "json" || format == "csv" || format == "txt"
    ensures ExportLogs(format).HttpError? ==> ExportLogs(format) == HR.HttpError(400, "Unsupported export format")
    ensures forall f :: f in EXPORT_FORMATS && f != format && ExportLogs(format).Ok? ==>
      ExportLogs(f).value != ExportLogs(format).value
  {
  }

  // ---------------------------------------------------------------------------
  // The continuous stream
  // ---------------------------------------------------------------------------

  /** What `json.loads` followed by `LogEntry(**data)` makes of one stripped,
      non-blank line: an entry, one of the two errors the loop catches
      (`JSONDecodeError`, `ValueError`), or any other exception, which
      escapes the loop and ends the request with a 500. */
  datatype LineParse = Parsed(entry: LP.LogEntry) | Invalid | Raises

  predicate NoNewline(s: string) {
    forall j :: 0 <= j < |s| ==> s[j] != '\n'
  }

  /** The text these newline-terminated lines were cut from. */
  function Frame(ls: seq<string>): string {
    if ls == [] then "" else ls[0] + "\n" + Frame(ls[1..])
  }

  /** The position of the first newline, or the length when there is none
      (the `'\n' in buffer` test and the cut of `split('\n', 1)`). */
  function FindNewline(t: string): (i: nat)
    ensures i <= |t|
    ensures forall j :: 0 <= j < i ==> t[j] != '\n'
    ensures i < |t| ==> t[i] == '\n'
    decreases |t|
  {
    if t == [] || t[0] == '\n' then 0 else FindNewline(t[1..]) + 1
  }

  /** The complete lines of the text: everything up to each newline. */
  function Lines(t: string): seq<string>
    decreases |t|
  {
    var i := FindNewline(t);
    if i == |t| then [] else [t[..i]] + Lines(t[i + 1..])
  }

  /** The text after the last newline: what is left in the buffer. */
  function Rest(t: string): string
    decreases |t|
  {
    var i := FindNewline(t);
    if i == |t| then t else Rest(t[i + 1..])
  }

  lemma {:induction false} FrameSnoc(ls: seq<string>, l: string)
    ensures Frame(ls + [l]) == Frame(ls) + l + "\n"
    decreases |ls|
  {
    if ls == [] {
      assert ls + [l] == [l];
    } else {
      assert (ls + [l])[0] == ls[0] && (ls + [l])[1..] == ls[1..] + [l];
      FrameSnoc(ls[1..], l);
    }
  }

  lemma NewlineAfter(l: string, x: string)
    requires NoNewline(l)
    ensures FindNewline(l + "\n" + x) == |l|
    ensures (l + "\n" + x)[..|l|] == l && (l + "\n" + x)[|l| + 1..] == x
  {
    assert (l + "\n" + x)[|l|] == '\n';
  }

  /** A text without a newline is no complete line and all rest. */
  lemma LinesNone(t: string)
    requires NoNewline(t)
    ensures Lines(t) == [] && Rest(t) == t
  {
  }

  /** One framed line cut off the front. */
  lemma FrameHead(ls: seq<string>, x: string)
    requires ls != [] && NoNewline(ls[0])
    ensures Lines(Frame(ls) + x) == [ls[0]] + Lines(Frame(ls[1..]) + x)
    ensures Rest(Frame(ls) + x) == Rest(Frame(ls[1..]) + x)
  {
    var y := Frame(ls[1..]) + x;
    assert Frame(ls) + x == ls[0] + "\n" + y;
    NewlineAfter(ls[0], y);
  }

  /** Cutting framed lines off the front of a text gives them back, in order,
      and leaves the remainder's own lines and buffer. */
  lemma {:induction false} LinesFrame(ls: seq<string>, x: string)
    requires forall j :: 0 <= j < |ls| ==> NoNewline(ls[j])
    ensures Lines(Frame(ls) + x) == ls + Lines(x)
    ensures Rest(Frame(ls) + x) == Rest(x)
    decreases |ls|
  {
    if ls == [] {
      assert Frame(ls) + x == x;
    } else {
      var tail := ls[1..];
      assert forall j :: 0 <= j < |tail| ==> tail[j] == ls[j + 1];
      FrameHead(ls, x);
      LinesFrame(tail, x);
      ConsAppend(ls, Lines(x));
    }
  }

  lemma ConsAppend(ls: seq<string>, ys: seq<string>)
    requires ls != []
    ensures [ls[0]] + (ls[1..] + ys) == ls + ys
  {
    assert ls == [ls[0]] + ls[1..];
  }

  /** The framing round trip: a text is its complete lines, each closed by a
      newline, followed by the rest; neither holds a newline. */
  lemma {:induction false} LinesSpec(t: string)
    ensures Frame(Lines(t)) + Rest(t) == t
    ensures forall j :: 0 <= j < |Lines(t)| ==> NoNewline(Lines(t)[j])
    ensures NoNewline(Rest(t))
    decreases |t|
  {
    var i := FindNewline(t);
    if i < |t| {
      var l := t[..i];
      var u := t[i + 1..];
      LinesSpec(u);
      LinesUnfold(t, i);
      FrameConsLine(l, Lines(u));
      Associative(l + "\n", Frame(Lines(u)), Rest(u));
      LinesConsNoNewline(l, Lines(u));
    }
  }

  lemma LinesUnfold(t: string, i: nat)
    requires i == FindNewline(t) && i < |t|
    ensures Lines(t) == [t[..i]] + Lines(t[i + 1..]) && Rest(t) == Rest(t[i + 1..])
    ensures t == t[..i] + "\n" + t[i + 1..] && NoNewline(t[..i])
  {
    SplitAt(t, i);
  }

  /** A text is what comes before a newline, the newline, and what follows. */
  lemma SplitAt(t: string, i: nat)
    requires i < |t| && t[i] == '\n'
    ensures t == t[..i] + "\n" + t[i + 1..]
  {
  }

  lemma FrameConsLine(l: string, ls: seq<string>)
    ensures Frame([l] + ls) == l + "\n" + Frame(ls)
  {
    assert ([l] + ls)[0] == l && ([l] + ls)[1..] == ls;
  }

  lemma LinesConsNoNewline(l: string, ls: seq<string>)
    requires NoNewline(l) && forall j :: 0 <= j < |ls| ==> NoNewline(ls[j])
    ensures forall j :: 0 <= j < |[l] + ls| ==> NoNewline(([l] + ls)[j])
  {
    forall j | 0 <= j < |[l] + ls|
      ensures NoNewline(([l] + ls)[j])
    {
      if j > 0 {
        assert ([l] + ls)[j] == ls[j - 1];
      }
    }
  }

  /** The text of the chunks received so far. */
  function Concat(chunks: seq<string>): string {
    if chunks == [] then "" else Concat(chunks[..|chunks| - 1]) + chunks[|chunks| - 1]
  }

  lemma {:induction false} ConcatSplit(chunks: seq<string>, k: nat)
    requires k <= |chunks|
    ensures Concat(chunks) == Concat(chunks[..k]) + Concat(chunks[k..])
    decreases |chunks| - k
  {
    if k == |chunks| {
      assert chunks[..k] == chunks && chunks[k..] == [];
    } else {
      ConcatSplit(chunks, k + 1);
      var tail := chunks[k + 1..];
      assert chunks[..k + 1][..k] == chunks[..k];
      assert chunks[k..][..|chunks[k..]| - 1] == chunks[k..|chunks| - 1];
      ConcatFront(chunks[k..]);
      assert chunks[k..][0] == chunks[k] && chunks[k..][1..] == tail;
    }
  }

  lemma {:induction false} ConcatFront(cs: seq<string>)
    requires cs != []
    ensures Concat(cs) == cs[0] + Concat(cs[1..])
    decreases |cs|
  {
    if |cs| > 1 {
      var n := |cs| - 1;
      ConcatFront(cs[..n]);
      assert cs[..n][0] == cs[0] && cs[..n][1..] == cs[1..][..n - 1];
      assert cs[1..][n - 1] == cs[n];
    } else {
      assert cs[..0] == [] && cs[1..] == [];
    }
  }

  /** What the loop body does with one complete line. */
  function LineOutcome(line: string, parse: string -> LineParse): Option<LineParse> {
    var s := Strip(line);
    if s == "" then None else Some(parse(s))
  }

  /** The entries handed to `add_log_batch`, in order, and whether an
      exception the loop does not catch ended the stream. */
  datatype Ingested = Ingested(added: seq<LP.LogEntry>, aborted: bool)

  /** The loop body on one line, after the lines before it. */
  function Step(prev: Ingested, outcome: Option<LineParse>): Ingested {
    if prev.aborted then prev
    else match outcome
      case None => prev
      case Some(Parsed(e)) => Ingested(prev.added + [e], false)
      case Some(Invalid) => prev
      case Some(Raises) => Ingested(prev.added, true)
  }

  function Ingest(lines: seq<string>, parse: string -> LineParse): Ingested {
    if lines == [] then Ingested([], false)
    else Step(Ingest(lines[..|lines| - 1], parse), LineOutcome(lines[|lines| - 1], parse))
  }

  lemma IngestSnoc(lines: seq<string>, line: string, parse: string -> LineParse)
    ensures Ingest(lines + [line], parse) == Step(Ingest(lines, parse), LineOutcome(line, parse))
  {
    assert (lines + [line])[..|lines|] == lines;
  }

  /** Once a line has ended the stream, later lines change nothing. */
  lemma {:induction false} IngestSticky(a: seq<string>, b: seq<string>, parse: string -> LineParse)
    requires Ingest(a, parse).aborted
    ensures Ingest(a + b, parse) == Ingest(a, parse)
    decreases |b|
  {
    if b == [] {
      assert a + b == a;
    } else {
      var n := |b| - 1;
      IngestSticky(a, b[..n], parse);
      assert a + b == (a + b[..n]) + [b[n]];
      IngestSnoc(a + b[..n], b[n], parse);
    }
  }

  predicate RaisesAt(lines: seq<string>, parse: string -> LineParse, j: int) {
    0 <= j < |lines| && LineOutcome(lines[j], parse) == Some(Raises)
  }

  /** The stream is cut short exactly when some line raises an exception the
      loop does not catch; blank and rejected lines never end it. */
  lemma {:induction false} IngestAborted(lines: seq<string>, parse: string -> LineParse)
    ensures Ingest(lines, parse).aborted <==> exists j :: RaisesAt(lines, parse, j)
    decreases |lines|
  {
    if lines != [] {
      var n := |lines| - 1;
      var init := lines[..n];
      IngestAborted(init, parse);
      var o := LineOutcome(lines[n], parse);
      assert Ingest(lines, parse) == Step(Ingest(init, parse), o);
      if exists j :: RaisesAt(init, parse, j) {
        var j :| RaisesAt(init, parse, j);
        assert lines[j] == init[j];
        assert RaisesAt(lines, parse, j);
      } else if o == Some(Raises) {
        assert RaisesAt(lines, parse, n);
      } else {
        forall j | 0 <= j < |lines|
          ensures !RaisesAt(lines, parse, j)
        {
          if j < n {
            assert lines[j] == init[j];
            assert !RaisesAt(init, parse, j);
          }
        }
      }
    }
  }

  /** The number of lines that parse to an entry. */
  function CountParsed(lines: seq<string>, parse: string -> LineParse): nat {
    if lines == [] then 0
    else
      var n := |lines| - 1;
      var o := LineOutcome(lines[n], parse);
      CountParsed(lines[..n], parse) + (if o.Some? && o.value.Parsed? then 1 else 0)
  }

  /** A stream that is not cut short adds one entry per line that parses:
      the count the endpoint reports. */
  lemma {:induction false} IngestCount(lines: seq<string>, parse: string -> LineParse)
    requires !Ingest(lines, parse).aborted
    ensures |Ingest(lines, parse).added| == CountParsed(lines, parse)
    decreases |lines|
  {
    if lines != [] {
      var n := |lines| - 1;
      assert !Ingest(lines[..n], parse).aborted;
      IngestCount(lines[..n], parse);
    }
  }

  /** `process_stream`: each chunk is appended to the buffer, every complete
      line in it is cut off and handled, and whatever follows the last
      newline waits for the next chunk. `added` are the entries handed to
      `add_log_batch`, `leftover` the buffer when the stream ends. */
  method ProcessStream(chunks: seq<string>, parse: string -> LineParse)
    returns (added: seq<LP.LogEntry>, aborted: bool, leftover: string)
    ensures Ingested(added, aborted) == Ingest(Lines(Concat(chunks)), parse)
    ensures !aborted ==> leftover == Rest(Concat(chunks))
  {
    var buffer := "";
    ghost var lines: seq<string> := [];
    added := [];
    for k := 0 to |chunks|
      invariant Concat(chunks[..k]) == Frame(lines) + buffer
      invariant forall j :: 0 <= j < |lines| ==> NoNewline(lines[j])
      invariant NoNewline(buffer)
      invariant Ingest(lines, parse) == Ingested(added, false)
    {
      ghost var text := Concat(chunks[..k + 1]);
      AppendChunk(chunks, k, Frame(lines), buffer);
      buffer := buffer + chunks[k];
      var i := FindNewline(buffer);
      while i < |buffer|
        invariant i == FindNewline(buffer)
        invariant text == Frame(lines) + buffer
        invariant forall j :: 0 <= j < |lines| ==> NoNewline(lines[j])
        invariant Ingest(lines, parse) == Ingested(added, false)
        decreases |buffer|
      {
        var line := buffer[..i];
        CutLine(text, lines, buffer, i);
        IngestSnoc(lines, line, parse);
        lines := lines + [line];
        buffer := buffer[i + 1..];
        var stripped := Strip(line);
        if stripped != "" {
          match parse(stripped)
          case Parsed(e) =>
            added := added + [e];
          case Invalid =>
          case Raises =>
            aborted := true;
            leftover := buffer;
            AbortedStream(chunks, k, lines, buffer, parse);
            return;
        }
        i := FindNewline(buffer);
      }
    }
    aborted := false;
    leftover := buffer;
    assert chunks[..|chunks|] == chunks;
    FinishedStream(Concat(chunks), lines, buffer);
  }

  /** The stream ended with no newline in the buffer: every line was handled. */
  lemma FinishedStream(text: string, lines: seq<string>, buffer: string)
    requires text == Frame(lines) + buffer
    requires forall j :: 0 <= j < |lines| ==> NoNewline(lines[j])
    requires NoNewline(buffer)
    ensures Lines(text) == lines && Rest(text) == buffer
  {
    LinesFrame(lines, buffer);
    LinesNone(buffer);
    assert lines + [] == lines;
  }

  /** The next chunk joins the buffer. */
  lemma AppendChunk(chunks: seq<string>, k: nat, framed: string, buffer: string)
    requires k < |chunks| && Concat(chunks[..k]) == framed + buffer
    ensures Concat(chunks[..k + 1]) == framed + (buffer + chunks[k])
  {
    assert chunks[..k + 1][..k] == chunks[..k];
    Associative(framed, buffer, chunks[k]);
  }

  /** Cutting the first line off the buffer moves it to the handled lines. */
  lemma CutLine(text: string, lines: seq<string>, buffer: string, i: nat)
    requires text == Frame(lines) + buffer
    requires i == FindNewline(buffer) && i < |buffer|
    ensures text == Frame(lines + [buffer[..i]]) + buffer[i + 1..]
    ensures NoNewline(buffer[..i])
  {
    var line := buffer[..i];
    FrameSnoc(lines, line);
    assert buffer == line + "\n" + buffer[i + 1..];
  }

  /** The stream ends at a line that raises: what was added up to it is what
      the whole text yields. */
  lemma AbortedStream(chunks: seq<string>, k: nat, lines: seq<string>, buffer: string, parse: string -> LineParse)
    requires k < |chunks|
    requires Concat(chunks[..k + 1]) == Frame(lines) + buffer
    requires forall j :: 0 <= j < |lines| ==> NoNewline(lines[j])
    requires Ingest(lines, parse).aborted
    ensures Ingest(Lines(Concat(chunks)), parse) == Ingest(lines, parse)
  {
    var more := Concat(chunks[k + 1..]);
    WholeText(chunks, k, Frame(lines), buffer);
    LinesFrame(lines, buffer + more);
    var later := Lines(buffer + more);
    IngestSticky(lines, later, parse);
  }

  /** The whole stream is what was buffered so far followed by the chunks
      not yet read. */
  lemma WholeText(chunks: seq<string>, k: nat, framed: string, buffer: string)
    requires k < |chunks| && Concat(chunks[..k + 1]) == framed + buffer
    ensures Concat(chunks) == framed + (buffer + Concat(chunks[k + 1..]))
  {
    ConcatSplit(chunks, k + 1);
    Associative(framed, buffer, Concat(chunks[k + 1..]));
  }

  lemma Associative(a: string, b: string, c: string)
    ensures (a + b) + c == a + (b + c)
  {
  }

  /** The answer of `stream_logs_continuously`. */
  datatype ContinuousAck = ContinuousAck(message: string, serviceName: string, logsProcessed: nat, timestamp: int)

  /** `stream_logs_continuously`: the service is registered first; each entry
      of the stream is then added to its queue as a batch of its own, in
      order; an exception the loop does not catch turns into a 500 after the
      entries before it were added. */
  method StreamContinuously(p: LP.LogProcessorService, serviceName: string, chunks: seq<string>,
                            parse: string -> LineParse, now: int)
    returns (r: HR.Response<ContinuousAck>)
    requires p.Valid()
    modifies p
    ensures p.Valid()
    ensures var g := Ingest(Lines(Concat(chunks)), parse);
      && (r.HttpError? <==> g.aborted)
      && (r.HttpError? ==> r == HR.HttpError(500, INTERNAL_ERROR))
      && (r.Ok? ==> r.value == ContinuousAck("Processed " + Decimal(|g.added|) + " logs from continuous stream",
                                             serviceName, |g.added|, now))
      && p.Queue(serviceName) == old(p.Queue(serviceName)) + g.added
      && p.bufferKeys == KeysAfter(old(p.bufferKeys), serviceName in old(p.logBuffer), serviceName, g.added)
      && p.serviceHealth == HealthAfterEach(old(p.serviceHealth), serviceName, g.added, now)
    ensures p.registered == old(p.registered) + {serviceName}
    ensures forall s :: s != serviceName ==> p.Queue(s) == old(p.Queue(s))
    ensures p.stats == old(p.stats) && p.processedLogsCount == old(p.processedLogsCount)
  {
    p.RegisterService(serviceName);
    var added, aborted, _ := ProcessStream(chunks, parse);
    AddEach(p, serviceName, added, now);
    if aborted {
      r := HR.HttpError(500, INTERNAL_ERROR);
    } else {
      r := HR.Ok(ContinuousAck("Processed " + Decimal(|added|) + " logs from continuous stream",
                               serviceName, |added|, now));
    }
  }

  /** The buffer's key order after `add_log_batch(name, logs)`: the name is
      appended when a non-empty batch creates its queue. */
  function KeysAfter(keys: seq<string>, present: bool, name: string, logs: seq<LP.LogEntry>): seq<string> {
    if logs != [] && !present then keys + [name] else keys
  }

  /** The old record of `name`, if any. */
  function Prior(hm: map<string, LP.ServiceHealth>, name: string): Option<LP.ServiceHealth> {
    if name in hm then Some(hm[name]) else None
  }

  /** The health records after `add_log_batch(name, logs)`. */
  function HealthAfter(hm: map<string, LP.ServiceHealth>, name: string, logs: seq<LP.LogEntry>, now: int)
    : map<string, LP.ServiceHealth>
  {
    if logs == [] then hm else hm[name := LP.UpdatedHealth(Prior(hm, name), name, logs, now)]
  }

  /** The health records after one `add_log_batch(name, [e])` per entry `e`,
      in order. */
  function HealthAfterEach(hm: map<string, LP.ServiceHealth>, name: string, es: seq<LP.LogEntry>, now: int)
    : map<string, LP.ServiceHealth>
    decreases |es|
  {
    if es == [] then hm
    else
      var n := |es| - 1;
      HealthAfter(HealthAfterEach(hm, name, es[..n], now), name, [es[n]], now)
  }

  /** Batches of one entry add up the totals, but the error rate and the
      status are recomputed from each one-entry batch, so after the stream
      they describe its last entry alone: an error as the last line makes the
      service critical whatever came before, and a clean last line makes it
      healthy. Other services' records are untouched. */
  lemma {:induction false} PerEntryHealth(hm: map<string, LP.ServiceHealth>, name: string, es: seq<LP.LogEntry>, now: int)
    requires es != []
    ensures var h := HealthAfterEach(hm, name, es, now);
      var last := [es[|es| - 1]];
      && name in h
      && h[name].totalLogs == (if name in hm then hm[name].totalLogs else 0) + |es|
      && h[name].errorCount == (if name in hm then hm[name].errorCount else 0) + LP.CountErrors(es)
      && h[name].warningCount == (if name in hm then hm[name].warningCount else 0) + LP.CountWarnings(es)
      && h[name].errorRate == LP.BatchRate(LP.CountErrors(last), 1)
      && h[name].status == LP.BatchStatus(h[name].errorRate, LP.CountWarnings(last))
      && h[name].lastSeen == now
    ensures forall k :: k != name ==>
      (k in HealthAfterEach(hm, name, es, now) <==> k in hm)
      && (k in hm ==> HealthAfterEach(hm, name, es, now)[k] == hm[k])
    decreases |es|
  {
    var n := |es| - 1;
    var last := [es[n]];
    assert last[..0] == [];
    assert es[..n] + last == es;
    CountSnoc(es[..n], es[n]);
    if n > 0 {
      PerEntryHealth(hm, name, es[..n], now);
    } else {
      assert es[..n] == [];
    }
  }

  lemma CountSnoc(a: seq<LP.LogEntry>, x: LP.LogEntry)
    ensures LP.CountErrors(a + [x]) == LP.CountErrors(a) + LP.CountErrors([x])
    ensures LP.CountWarnings(a + [x]) == LP.CountWarnings(a) + LP.CountWarnings([x])
  {
    assert (a + [x])[..|a|] == a;
    assert [x][..0] == [];
  }

  /** One `add_log_batch(service_name, [entry])` per entry, in order. */
  method AddEach(p: LP.LogProcessorService, serviceName: string, entries: seq<LP.LogEntry>, now: int)
    requires p.Valid()
    modifies p
    ensures p.Valid()
    ensures p.Queue(serviceName) == old(p.Queue(serviceName)) + entries
    ensures p.registered == old(p.registered) + (if entries == [] then {} else {serviceName})
    ensures forall s :: s != serviceName ==> p.Queue(s) == old(p.Queue(s))
    ensures p.bufferKeys == KeysAfter(old(p.bufferKeys), serviceName in old(p.logBuffer), serviceName, entries)
    ensures p.serviceHealth == HealthAfterEach(old(p.serviceHealth), serviceName, entries, now)
    ensures p.stats == old(p.stats) && p.processedLogsCount == old(p.processedLogsCount)
  {
    ghost var present := serviceName in p.logBuffer;
    ghost var q0, reg0, keys0, health0 := p.Queue(serviceName), p.registered, p.bufferKeys, p.serviceHealth;
    ghost var stats0, count0 := p.stats, p.processedLogsCount;
    for k := 0 to |entries|
      invariant p.Valid()
      invariant p.Queue(serviceName) == q0 + entries[..k]
      invariant p.registered == reg0 + (if k == 0 then {} else {serviceName})
      invariant forall s :: s != serviceName ==> p.Queue(s) == old(p.Queue(s))
      invariant (serviceName in p.logBuffer) == (present || k > 0)
      invariant p.bufferKeys == KeysAfter(keys0, present, serviceName, entries[..k])
      invariant p.serviceHealth == HealthAfterEach(health0, serviceName, entries[..k], now)
      invariant p.stats == stats0 && p.processedLogsCount == count0
    {
      AddNext(p, serviceName, entries, k, now, present, q0, keys0, health0);
    }
    assert entries[..|entries|] == entries;
  }

  /** The body of the loop of `AddEach`: entry k is added, and the queue, key
      order and health records move on from `entries[..k]` to
      `entries[..k + 1]`. */
  method AddNext(p: LP.LogProcessorService, serviceName: string, entries: seq<LP.LogEntry>, k: nat, now: int,
                 ghost present: bool, ghost q0: seq<LP.LogEntry>, ghost keys0: seq<string>,
                 ghost health0: map<string, LP.ServiceHealth>)
    requires p.Valid() && k < |entries|
    requires p.Queue(serviceName) == q0 + entries[..k]
    requires (serviceName in p.logBuffer) == (present || k > 0)
    requires p.bufferKeys == KeysAfter(keys0, present, serviceName, entries[..k])
    requires p.serviceHealth == HealthAfterEach(health0, serviceName, entries[..k], now)
    modifies p
    ensures p.Valid()
    ensures p.Queue(serviceName) == q0 + entries[..k + 1]
    ensures p.registered == old(p.registered) + {serviceName}
    ensures forall s :: s != serviceName ==> p.Queue(s) == old(p.Queue(s))
    ensures serviceName in p.logBuffer
    ensures p.bufferKeys == KeysAfter(keys0, present, serviceName, entries[..k + 1])
    ensures p.serviceHealth == HealthAfterEach(health0, serviceName, entries[..k + 1], now)
    ensures p.stats == old(p.stats) && p.processedLogsCount == old(p.processedLogsCount)
  {
    EachStep(keys0, present, health0, serviceName, entries, k, now);
    AddOne(p, serviceName, entries[k], now);
  }

  /** One more entry: the folds over `entries[..k + 1]` are one step past
      those over `entries[..k]`. */
  lemma EachStep(keys: seq<string>, present: bool, hm: map<string, LP.ServiceHealth>, name: string,
                 entries: seq<LP.LogEntry>, k: nat, now: int)
    requires k < |entries|
    ensures entries[..k + 1] == entries[..k] + [entries[k]]
    ensures KeysAfter(keys, present, name, entries[..k + 1])
            == KeysAfter(KeysAfter(keys, present, name, entries[..k]), present || k > 0, name, [entries[k]])
    ensures HealthAfterEach(hm, name, entries[..k + 1], now)
            == HealthAfter(HealthAfterEach(hm, name, entries[..k], now), name, [entries[k]], now)
  {
    assert entries[..k + 1][..k] == entries[..k];
  }

  /** `add_log_batch(service_name, [entry])`, seen from the queues. */
  method AddOne(p: LP.LogProcessorService, serviceName: string, entry: LP.LogEntry, now: int)
    requires p.Valid()
    modifies p
    ensures p.Valid()
    ensures p.Queue(serviceName) == old(p.Queue(serviceName)) + [entry]
    ensures p.registered == old(p.registered) + {serviceName}
    ensures forall s :: s != serviceName ==> p.Queue(s) == old(p.Queue(s))
    ensures serviceName in p.logBuffer
    ensures p.bufferKeys == KeysAfter(old(p.bufferKeys), serviceName in old(p.logBuffer), serviceName, [entry])
    ensures p.serviceHealth == HealthAfter(old(p.serviceHealth), serviceName, [entry], now)
    ensures p.stats == old(p.stats) && p.processedLogsCount == old(p.processedLogsCount)
  {
    p.AddLogBatch(serviceName, [entry], now);
  }
}
