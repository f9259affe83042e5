/**
  From the readers' channel to the output table and back: the passes that drain the channel
  into rows, and the grouping that puts an attempt's rows together again.
 */
module OutputLogs {
  import opened Utf8
  import opened StreamCaptures
  import opened StreamOutputs
  import opened StreamReaders

  datatype Stream = Stdout | Stderr

  datatype Piece = Piece(stream: Stream, content: Bytes)

  /** `note` is no column: it tells flowlite's own words from what a reader delivered. */
  datatype Row = Row(attempt: nat, stream: Stream, content: Bytes, note: bool)

  datatype Streams = Streams(stdout: Bytes, stderr: Bytes)

  function On(streams: Streams, stream: Stream): Bytes {
    if stream.Stdout? then streams.stdout else streams.stderr
  }

  /** What pieces say on one stream. */
  function Of(pieces: seq<Piece>, stream: Stream): Bytes {
    if pieces == [] then []
    else
      var last := pieces[|pieces| - 1];
      Of(pieces[..|pieces| - 1], stream) + (if last.stream == stream then last.content else [])
  }

  /** What the rows of an attempt say on one stream; with `notes` false, only what readers delivered. */
  function Grouped(rows: seq<Row>, attempt: nat, stream: Stream, notes: bool): Bytes {
    if rows == [] then []
    else
      var last := rows[|rows| - 1];
      Grouped(rows[..|rows| - 1], attempt, stream, notes)
      + (if last.attempt == attempt && last.stream == stream && (notes || !last.note) then last.content else [])
  }

  function RowFor(attempt: nat, stream: Stream, content: Bytes, note: bool): seq<Row> {
    if content == [] then [] else [Row(attempt, stream, content, note)]
  }

  lemma {:induction false} OfFirst(piece: Piece, pieces: seq<Piece>, stream: Stream)
    ensures Of([piece] + pieces, stream) == (if piece.stream == stream then piece.content else []) + Of(pieces, stream)
    decreases |pieces|
  {
    var all, first := [piece] + pieces, if piece.stream == stream then piece.content else [];
    if pieces == [] {
      assert all[..|all| - 1] == [];
      assert [] + first == first + [];
    } else {
      var before, last := pieces[..|pieces| - 1], pieces[|pieces| - 1];
      var text := if last.stream == stream then last.content else [];
      assert all[..|all| - 1] == [piece] + before && all[|all| - 1] == last;
      OfFirst(piece, before, stream);
      assert (first + Of(before, stream)) + text == first + (Of(before, stream) + text);
    }
  }

  lemma GroupedMore(rows: seq<Row>, row: Row, attempt: nat, stream: Stream, notes: bool)
    ensures Grouped(rows + [row], attempt, stream, notes) == Grouped(rows, attempt, stream, notes)
      + (if row.attempt == attempt && row.stream == stream && (notes || !row.note) then row.content else [])
  {}

  lemma GroupedRowFor(rows: seq<Row>, owner: nat, on: Stream, content: Bytes, note: bool, attempt: nat, stream: Stream, notes: bool)
    ensures Grouped(rows + RowFor(owner, on, content, note), attempt, stream, notes) == Grouped(rows, attempt, stream, notes)
      + (if owner == attempt && on == stream && (notes || !note) then content else [])
  {
    if content == [] {
      assert rows + [] == rows && Grouped(rows, attempt, stream, notes) + [] == Grouped(rows, attempt, stream, notes);
    } else {
      GroupedMore(rows, Row(owner, on, content, note), attempt, stream, notes);
    }
  }

  // ---- The log ----

  /** What one pass adds for what it drained: at most one row per stream, none for silence. */
  function Inserted(rows: seq<Row>, attempt: nat, stdout: Bytes, stderr: Bytes, note: bool): seq<Row> {
    rows + RowFor(attempt, Stdout, stdout, note) + RowFor(attempt, Stderr, stderr, note)
  }

  class OutputLog {
    /** What the attempt's two readers have delivered and no pass has recorded yet. */
    var channel: seq<Piece>
    var rows: seq<Row>

    constructor ()
      ensures channel == [] && rows == []
    {
      channel, rows := [], [];
    }

    method Send(piece: Piece)
      modifies this`channel
      ensures channel == old(channel) + [piece]
    {
      channel := channel + [piece];
    }

    method InsertOutput(attempt: nat, stdout: Bytes, stderr: Bytes, note: bool)
      modifies this`rows
      ensures rows == Inserted(old(rows), attempt, stdout, stderr, note)
    {
      if stdout != [] {
        rows := rows + [Row(attempt, Stdout, stdout, note)];
      }
      if stderr != [] {
        rows := rows + [Row(attempt, Stderr, stderr, note)];
      }
    }

    /**
      Drains the channel into at most one row per stream. The last drain of an attempt is the
      same, made once both readers have closed the channel.
     */
    method RecordOutput(attempt: nat)
      modifies this
      ensures channel == []
      ensures rows == Inserted(old(rows), attempt, Of(old(channel), Stdout), Of(old(channel), Stderr), false)
    {
      var stdout: Bytes, stderr: Bytes := [], [];
      while channel != []
        invariant rows == old(rows)
        invariant stdout + Of(channel, Stdout) == Of(old(channel), Stdout)
        invariant stderr + Of(channel, Stderr) == Of(old(channel), Stderr)
        decreases |channel|
      {
        var piece := channel[0];
        MovedOver(stdout, channel, Stdout);
        MovedOver(stderr, channel, Stderr);
        channel := channel[1..];
        match piece.stream {
          case Stdout => stdout := stdout + piece.content;
          case Stderr => stderr := stderr + piece.content;
        }
      }
      assert stdout + [] == stdout && stderr + [] == stderr;
      InsertOutput(attempt, stdout, stderr, false);
    }
  }

  /** Taking the first piece off the channel and appending it to its stream changes nothing. */
  lemma MovedOver(text: Bytes, channel: seq<Piece>, stream: Stream)
    requires channel != []
    ensures text + Of(channel, stream) ==
      (if channel[0].stream == stream then text + channel[0].content else text) + Of(channel[1..], stream)
  {
    assert channel == [channel[0]] + channel[1..];
    OfFirst(channel[0], channel[1..], stream);
    var rest := Of(channel[1..], stream);
    assert [] + rest == rest;
    assert text + (channel[0].content + rest) == (text + channel[0].content) + rest;
  }

  // ---- Any number of passes ----

  datatype Event = Sent(piece: Piece) | Pass | Note(text: Bytes) | Elsewhere(row: Row)

  datatype Log = Log(channel: seq<Piece>, rows: seq<Row>)

  function After(log: Log, attempt: nat, event: Event): Log {
    match event
    case Sent(piece) => log.(channel := log.channel + [piece])
    case Pass => Log([], Inserted(log.rows, attempt, Of(log.channel, Stdout), Of(log.channel, Stderr), false))
    case Note(text) => log.(rows := Inserted(log.rows, attempt, [], text, true))
    case Elsewhere(row) => if row.attempt == attempt then log else log.(rows := log.rows + [row])
  }

  function AfterFrom(log: Log, attempt: nat, events: seq<Event>): Log {
    if events == [] then log
    else After(AfterFrom(log, attempt, events[..|events| - 1]), attempt, events[|events| - 1])
  }

  function AfterAll(attempt: nat, events: seq<Event>): Log {
    AfterFrom(Log([], []), attempt, events)
  }

  function SentIn(events: seq<Event>): seq<Piece> {
    if events == [] then []
    else
      var last := events[|events| - 1];
      SentIn(events[..|events| - 1]) + (if last.Sent? then [last.piece] else [])
  }

  lemma GroupedInserted(rows: seq<Row>, attempt: nat, stdout: Bytes, stderr: Bytes, note: bool, stream: Stream, notes: bool)
    ensures Grouped(Inserted(rows, attempt, stdout, stderr, note), attempt, stream, notes) ==
      Grouped(rows, attempt, stream, notes) + (if notes || !note then On(Streams(stdout, stderr), stream) else [])
  {
    GroupedRowFor(rows, attempt, Stdout, stdout, note, attempt, stream, notes);
    GroupedRowFor(rows + RowFor(attempt, Stdout, stdout, note), attempt, Stderr, stderr, note, attempt, stream, notes);
    var grouped := Grouped(rows, attempt, stream, notes);
    assert grouped + [] == grouped;
  }

  /** All there is of a stream: what the rows say, and then what no pass has recorded yet. */
  function Reads(log: Log, attempt: nat, stream: Stream, notes: bool): Bytes {
    Grouped(log.rows, attempt, stream, notes) + Of(log.channel, stream)
  }

  predicate NoNotes(events: seq<Event>) {
    forall i :: 0 <= i < |events| ==> !events[i].Note?
  }

  lemma Nothing(a: Bytes)
    ensures a + [] == a
  {}

  lemma Associate(a: Bytes, b: Bytes, c: Bytes)
    ensures a + (b + c) == (a + b) + c
  {}

  lemma PassReads(log: Log, attempt: nat, stream: Stream, notes: bool)
    ensures Reads(After(log, attempt, Pass), attempt, stream, notes) == Reads(log, attempt, stream, notes)
  {
    GroupedInserted(log.rows, attempt, Of(log.channel, Stdout), Of(log.channel, Stderr), false, stream, notes);
    Nothing(Reads(log, attempt, stream, notes));
  }

  lemma NoteReads(rows: seq<Row>, attempt: nat, text: Bytes, stream: Stream, notes: bool)
    ensures Grouped(Inserted(rows, attempt, [], text, true), attempt, stream, notes) ==
      Grouped(rows, attempt, stream, notes) + (if notes && stream.Stderr? then text else [])
  {
    GroupedInserted(rows, attempt, [], text, true, stream, notes);
  }

  lemma StepReads(log: Log, attempt: nat, event: Event, stream: Stream, notes: bool)
    requires notes && stream.Stderr? ==> !event.Note?
    ensures Reads(After(log, attempt, event), attempt, stream, notes) == Reads(log, attempt, stream, notes)
      + (if event.Sent? && event.piece.stream == stream then event.piece.content else [])
  {
    var grouped := Grouped(log.rows, attempt, stream, notes);
    Nothing(Reads(log, attempt, stream, notes));
    Nothing(grouped);
    match event
    case Sent(piece) =>
      OfMore(log.channel, piece, stream);
      Associate(grouped, Of(log.channel, stream), if piece.stream == stream then piece.content else []);
    case Pass => PassReads(log, attempt, stream, notes);
    case Note(text) => NoteReads(log.rows, attempt, text, stream, notes);
    case Elsewhere(row) => if row.attempt != attempt { GroupedMore(log.rows, row, attempt, stream, notes); }
  }

  lemma OfMore(pieces: seq<Piece>, piece: Piece, stream: Stream)
    ensures Of(pieces + [piece], stream) == Of(pieces, stream) + (if piece.stream == stream then piece.content else [])
  {
    assert (pieces + [piece])[..|pieces|] == pieces;
  }

  lemma SentMore(events: seq<Event>, event: Event, stream: Stream)
    ensures Of(SentIn(events + [event]), stream) ==
      Of(SentIn(events), stream) + (if event.Sent? && event.piece.stream == stream then event.piece.content else [])
  {
    assert (events + [event])[..|events|] == events;
    Nothing(Of(SentIn(events), stream));
    if event.Sent? { OfMore(SentIn(events), event.piece, stream); } else { assert SentIn(events) + [] == SentIn(events); }
  }

  /**
    From any moment on, what the readers deliver follows in order on what there was, whenever
    passes come between and whatever other attempts' rows do.
   */
  lemma {:induction false} NothingLost(log: Log, attempt: nat, events: seq<Event>, stream: Stream, notes: bool)
    requires notes && stream.Stderr? ==> NoNotes(events)
    ensures Reads(AfterFrom(log, attempt, events), attempt, stream, notes) ==
      Reads(log, attempt, stream, notes) + Of(SentIn(events), stream)
    decreases |events|
  {
    var all := Reads(log, attempt, stream, notes);
    if events == [] {
      Nothing(all);
    } else {
      var before, event := events[..|events| - 1], events[|events| - 1];
      var text := if event.Sent? && event.piece.stream == stream then event.piece.content else [];
      assert events == before + [event] && (NoNotes(events) ==> NoNotes(before));
      NothingLost(log, attempt, before, stream, notes);
      StepReads(AfterFrom(log, attempt, before), attempt, event, stream, notes);
      SentMore(before, event, stream);
      Associate(all, Of(SentIn(before), stream), text);
    }
  }

  lemma AfterMore(log: Log, attempt: nat, events: seq<Event>, event: Event)
    ensures AfterFrom(log, attempt, events + [event]) == After(AfterFrom(log, attempt, events), attempt, event)
  {
    assert (events + [event])[..|events|] == events;
  }

  lemma {:induction false} AfterThen(log: Log, attempt: nat, events: seq<Event>, more: seq<Event>)
    ensures AfterFrom(log, attempt, events + more) == AfterFrom(AfterFrom(log, attempt, events), attempt, more)
    decreases |more|
  {
    if more == [] {
      assert events + more == events;
    } else {
      var before, last := more[..|more| - 1], more[|more| - 1];
      AfterThen(log, attempt, events, before);
      AfterMore(log, attempt, events + before, last);
      assert events + more == (events + before) + [last];
    }
  }

  /**
    Over any number of passes, and with any other attempt's rows between them: once the last
    pass has drained the channel, the rows group to exactly what the readers sent, in order.
   */
  lemma LogIsComplete(attempt: nat, events: seq<Event>, stream: Stream)
    ensures var log := AfterAll(attempt, events + [Pass]);
      && Grouped(log.rows, attempt, stream, false) == Of(SentIn(events), stream)
      && (stream.Stdout? || NoNotes(events) ==> Grouped(log.rows, attempt, stream, true) == Of(SentIn(events), stream))
  {
    DrainedReads(attempt, events, stream, false);
    if stream.Stdout? || NoNotes(events) { DrainedReads(attempt, events, stream, true); }
  }

  lemma DrainedReads(attempt: nat, events: seq<Event>, stream: Stream, notes: bool)
    requires notes && stream.Stderr? ==> NoNotes(events)
    ensures Grouped(AfterAll(attempt, events + [Pass]).rows, attempt, stream, notes) == Of(SentIn(events), stream)
  {
    var log := AfterAll(attempt, events);
    AfterMore(Log([], []), attempt, events, Pass);
    NothingLost(Log([], []), attempt, events, stream, notes);
    PassReads(log, attempt, stream, notes);
    Nothing(Grouped(After(log, attempt, Pass).rows, attempt, stream, notes));
    assert [] + Of(SentIn(events), stream) == Of(SentIn(events), stream);
  }

  /**
    A note stands on stderr after all that had been recorded when it was made, and before all
    that the readers had delivered unrecorded by then or delivered later.
   */
  lemma NotePlaced(attempt: nat, before: seq<Event>, text: Bytes, after: seq<Event>)
    requires NoNotes(after)
    ensures var log := AfterAll(attempt, before);
      Grouped(AfterAll(attempt, before + [Note(text)] + after + [Pass]).rows, attempt, Stderr, true) ==
        Grouped(log.rows, attempt, Stderr, true) + text + (Of(log.channel, Stderr) + Of(SentIn(after), Stderr))
  {
    var log := AfterAll(attempt, before);
    var noted := After(log, attempt, Note(text));
    var last := AfterFrom(noted, attempt, after);
    AfterMore(Log([], []), attempt, before, Note(text));
    AfterThen(Log([], []), attempt, before + [Note(text)], after);
    AfterMore(Log([], []), attempt, before + [Note(text)] + after, Pass);
    NoteReads(log.rows, attempt, text, Stderr, true);
    NothingLost(noted, attempt, after, Stderr, true);
    PassReads(last, attempt, Stderr, true);
    Nothing(Grouped(After(last, attempt, Pass).rows, attempt, Stderr, true));
    Associate(Grouped(noted.rows, attempt, Stderr, true), Of(log.channel, Stderr), Of(SentIn(after), Stderr));
  }

  /** A pass adds at most one row of reader output per stream, and none for a silent one. */
  lemma OneRowPerStream(log: Log, attempt: nat)
    ensures var added := After(log, attempt, Pass).rows[|log.rows|..];
      && |After(log, attempt, Pass).rows| >= |log.rows| && After(log, attempt, Pass).rows[..|log.rows|] == log.rows
      && (forall i, k :: 0 <= i < k < |added| ==> added[i].stream != added[k].stream)
      && (forall i :: 0 <= i < |added| ==> added[i].content == Of(log.channel, added[i].stream) != [] && !added[i].note)
  {}

  // ---- Grouping ----

  function StreamsOf(rows: seq<Row>, attempt: nat): Streams {
    Streams(Grouped(rows, attempt, Stdout, true), Grouped(rows, attempt, Stderr, true))
  }

  ghost predicate HasRow(rows: seq<Row>, attempt: nat) {
    exists i :: 0 <= i < |rows| && rows[i].attempt == attempt
  }

  /** One pass over rows in id order, appending each to its attempt's stream. */
  method GroupTaskRunAttemptOutput(rows: seq<Row>) returns (grouped: map<nat, Streams>)
    ensures forall attempt :: attempt in grouped <==> HasRow(rows, attempt)
    ensures forall attempt :: attempt in grouped ==> grouped[attempt] == StreamsOf(rows, attempt)
  {
    grouped := map[];
    for i := 0 to |rows|
      invariant forall attempt :: attempt in grouped <==> HasRow(rows[..i], attempt)
      invariant forall attempt: nat ::
        (if attempt in grouped then grouped[attempt] else Streams([], [])) == StreamsOf(rows[..i], attempt)
    {
      var row := rows[i];
      assert rows[..i + 1] == rows[..i] + [row];
      forall attempt ensures HasRow(rows[..i + 1], attempt) <==> HasRow(rows[..i], attempt) || attempt == row.attempt {
        HasRowMore(rows[..i], row, attempt);
      }
      forall attempt: nat ensures StreamsOf(rows[..i + 1], attempt) == Pushed(StreamsOf(rows[..i], attempt), row, attempt) {
        StreamsMore(rows[..i], row, attempt);
      }
      var streams := if row.attempt in grouped then grouped[row.attempt] else Streams([], []);
      match row.stream {
        case Stdout => streams := streams.(stdout := streams.stdout + row.content);
        case Stderr => streams := streams.(stderr := streams.stderr + row.content);
      }
      grouped := grouped[row.attempt := streams];
    }
    assert rows[..|rows|] == rows;
  }

  function Pushed(streams: Streams, row: Row, attempt: nat): Streams {
    if row.attempt != attempt then streams
    else if row.stream.Stdout? then streams.(stdout := streams.stdout + row.content)
    else streams.(stderr := streams.stderr + row.content)
  }

  lemma HasRowMore(rows: seq<Row>, row: Row, attempt: nat)
    ensures HasRow(rows + [row], attempt) <==> HasRow(rows, attempt) || attempt == row.attempt
  {
    var all := rows + [row];
    assert all[|rows|] == row;
    assert forall i :: 0 <= i < |rows| ==> all[i] == rows[i];
  }

  lemma StreamsMore(rows: seq<Row>, row: Row, attempt: nat)
    ensures StreamsOf(rows + [row], attempt) == Pushed(StreamsOf(rows, attempt), row, attempt)
  {}

  // ---- From a command's bytes to what is read back ----

  /** The stream's share of what was sent is what its reader let through, chunk by chunk. */
  ghost predicate SentBy(m: Marks, pieces: seq<Piece>, stream: Stream, chunks: seq<Chunk>) {
    Of(pieces, stream) == Output(m, chunks)
  }

  /**
    Reader, channel, passes and grouping together: what is read back of a stream is decided by
    the bytes the command wrote on it and the budget alone, where the head fills exactly. On
    stderr that is so of all but flowlite's own notes.
   */
  lemma StreamReadsBack(m: Marks, maxBytes: nat, written: seq<Bytes>, stream: Stream, attempt: nat, events: seq<Event>)
    requires SentBy(m, SentIn(events), stream, Flushed(Captured(maxBytes, RecordedPieces([], written))))
    requires StreamFits(maxBytes, Decode(Flatten(written)))
    ensures var rows := AfterAll(attempt, events + [Pass]).rows;
      && Grouped(rows, attempt, stream, false) == Expected(m, maxBytes, Decode(Flatten(written)))
      && (stream.Stdout? || NoNotes(events) ==> Grouped(rows, attempt, stream, true) == Expected(m, maxBytes, Decode(Flatten(written))))
  {
    StreamRecorded(m, maxBytes, written);
    LogIsComplete(attempt, events, stream);
  }

  /** With one note of flowlite's own, made whenever, it stands in one place of that text. */
  lemma StderrReadsBack(m: Marks, maxBytes: nat, written: seq<Bytes>, attempt: nat, before: seq<Event>, text: Bytes, after: seq<Event>)
    requires NoNotes(before) && NoNotes(after) && StreamFits(maxBytes, Decode(Flatten(written)))
    requires Of(SentIn(before), Stderr) + Of(SentIn(after), Stderr)
      == Output(m, Flushed(Captured(maxBytes, RecordedPieces([], written))))
    ensures var log := AfterAll(attempt, before);
      var recorded := Grouped(log.rows, attempt, Stderr, true);
      var rest := Of(log.channel, Stderr) + Of(SentIn(after), Stderr);
      && recorded + rest == Expected(m, maxBytes, Decode(Flatten(written)))
      && Grouped(AfterAll(attempt, before + [Note(text)] + after + [Pass]).rows, attempt, Stderr, true) == recorded + text + rest
  {
    var log := AfterAll(attempt, before);
    StreamRecorded(m, maxBytes, written);
    NotePlaced(attempt, before, text, after);
    NothingLost(Log([], []), attempt, before, Stderr, true);
    assert [] + Of(SentIn(before), Stderr) == Of(SentIn(before), Stderr);
    Associate(Grouped(log.rows, attempt, Stderr, true), Of(log.channel, Stderr), Of(SentIn(after), Stderr));
  }
}
