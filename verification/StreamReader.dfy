/** The reader of one stream: its loop, the capture it keeps, and what the two come to. */
module StreamReaders {
  import opened Options
  import opened Utf8
  import opened Boundaries
  import opened StreamCaptures
  import opened StreamOutputs

  /** What of a text fits `max` bytes without splitting a character. */
  method TruncateAtCharBoundary(content: Bytes, max: nat) returns (head: Bytes)
    ensures head == content[..HeadCut(max, content)]
  {
    if max >= |content| {
      assert HeadCut(max, content) == |content|;
      return content;
    }
    var end: nat := max;
    while end > 0 && !IsBoundary(content, end)
      invariant end <= max && CutBelow(content, end) == CutBelow(content, max)
    {
      end := end - 1;
    }
    return content[..end];
  }

  /** Shortens a text from the left to fit `max` bytes, again without splitting a character. */
  method TrimToTail(tail: Bytes, max: nat) returns (kept: Bytes)
    ensures kept == Suffix(tail, max)
  {
    if |tail| <= max {
      return tail;
    }
    var start: nat := |tail| - max;
    while !IsBoundary(tail, start)
      invariant |tail| - max <= start <= |tail| && CutAbove(tail, start) == CutAbove(tail, |tail| - max)
      decreases |tail| - start
    {
      start := start + 1;
    }
    return tail[start..];
  }

  // ---- A receiver that may go away ----

  /** What arrives of what is sent to a receiver that takes so many and then is gone. */
  function Received(takes: Option<nat>, sent: seq<Chunk>): seq<Chunk> {
    if takes.Some? && |sent| > takes.value then sent[..takes.value] else sent
  }

  predicate Arrives(takes: Option<nat>, sent: seq<Chunk>) {
    takes.Some? ==> |sent| <= takes.value
  }

  predicate IsPrefix(a: seq<Chunk>, b: seq<Chunk>) {
    |a| <= |b| && b[..|a|] == a
  }

  lemma ReceivedEarly(takes: Option<nat>, a: seq<Chunk>, b: seq<Chunk>)
    requires IsPrefix(a, b) && !Arrives(takes, a)
    ensures Received(takes, a) == Received(takes, b)
  {
    assert b[..takes.value] == b[..|a|][..takes.value];
  }

  lemma PrefixThen(a: seq<Chunk>, b: seq<Chunk>, c: seq<Chunk>)
    requires IsPrefix(a, b) && IsPrefix(b, c)
    ensures IsPrefix(a, c)
  {
    assert c[..|a|] == c[..|b|][..|a|];
  }

  lemma OneMore(a: seq<Chunk>, chunk: Chunk)
    ensures IsPrefix(a, a + [chunk])
  {}

  lemma RecordedGrows(c: Capture, piece: Bytes)
    ensures IsPrefix(c.sent, Recorded(c, piece).sent)
  {
    var cut := HeadCut(c.headRoom, piece);
    var d := c.(headRoom := c.headRoom - cut, sent := SentHead(c.sent, piece[..cut]));
    OneMore(c.sent, Text(piece));
    OneMore(c.sent, Text(piece[..cut]));
    OneMore(d.sent, Over(c.maxBytes, c.tailBytes));
    if |piece| > c.headRoom { PrefixThen(c.sent, d.sent, Held(d, piece[cut..]).sent); }
  }

  lemma FlushedGrows(c: Capture)
    ensures IsPrefix(c.sent, Flushed(c))
  {
    OneMore(c.sent, Dropped(Missing(c)));
    OneMore(Marked(c), Text(c.tail));
    PrefixThen(c.sent, Marked(c), Flushed(c));
  }

  class StreamCapture {
    const maxBytes: nat
    const tailBytes: nat
    /** How many sends the receiver lives to take, if it goes away at all. */
    const takes: Option<nat>
    var headRoom: nat
    var tail: Bytes
    var held: nat
    var capped: bool
    /** The channel to the monitor. */
    var sent: seq<Chunk>

    function View(): Capture
      reads this
    {
      Capture(maxBytes, headRoom, tailBytes, tail, held, capped, sent)
    }

    constructor (maxBytes: nat, takes: Option<nat>)
      ensures View() == New(maxBytes) && this.takes == takes
    {
      this.maxBytes, this.takes := maxBytes, takes;
      tailBytes := maxBytes - maxBytes / 2;
      headRoom := maxBytes / 2;
      tail, held, capped, sent := [], 0, false, [];
    }

    method Send(chunk: Chunk) returns (ok: bool)
      requires Arrives(takes, sent)
      modifies this`sent
      ensures ok == Arrives(takes, old(sent) + [chunk])
      ensures sent == Received(takes, old(sent) + [chunk])
    {
      if takes.Some? && |sent| == takes.value {
        return false;
      }
      sent := sent + [chunk];
      return true;
    }

    /**
      Spends head room on the piece as far as it goes; the remainder is held back. It fails once
      the receiver is gone, with nothing sent after that.
     */
    method Record(content: Bytes) returns (ok: bool)
      requires Arrives(takes, sent)
      modifies this
      ensures ok == Arrives(takes, Recorded(old(View()), content).sent)
      ensures sent == Received(takes, Recorded(old(View()), content).sent)
      ensures ok ==> View() == Recorded(old(View()), content)
    {
      if |content| <= headRoom {
        headRoom := headRoom - |content|;
        ok := Send(Text(content));
        return;
      }
      var head := TruncateAtCharBoundary(content, headRoom);
      var rest := content[|head|..];
      if head != [] {
        headRoom := headRoom - |head|;
        ok := Send(Text(head));
        if !ok {
          GoneAtTheHead(old(View()), content, takes);
          return;
        }
      }
      ok := Hold(rest);
    }

    method Hold(rest: Bytes) returns (ok: bool)
      requires Arrives(takes, sent)
      modifies this
      ensures ok == Arrives(takes, Held(old(View()), rest).sent)
      ensures sent == Received(takes, Held(old(View()), rest).sent)
      ensures ok ==> View() == Held(old(View()), rest)
    {
      held := held + |rest|;
      tail := tail + rest;
      tail := TrimToTail(tail, tailBytes);
      if !capped && |tail| < held {
        capped := true;
        ok := Send(Over(maxBytes, tailBytes));
        return;
      }
      return true;
    }

    /** At end of stream: the count of lost bytes if there are any, and then what was held. */
    method FlushTail()
      requires Arrives(takes, sent)
      modifies this
      ensures sent == Received(takes, Flushed(old(View())))
    {
      if capped {
        var ok := Send(Dropped(if held >= |tail| then held - |tail| else 0));
        assert ok ==> sent == Marked(old(View()));
        if !ok {
          FlushedGrows(old(View()));
          MarkedGrows(old(View()));
          ReceivedEarly(takes, Marked(old(View())), Flushed(old(View())));
          return;
        }
      }
      if tail != [] {
        var ok := Send(Text(tail));
      }
    }
  }

  lemma MarkedGrows(c: Capture)
    ensures IsPrefix(Marked(c), Flushed(c))
  {
    OneMore(Marked(c), Text(c.tail));
  }

  lemma GoneAtTheHead(c: Capture, piece: Bytes, takes: Option<nat>)
    requires |piece| > c.headRoom && HeadCut(c.headRoom, piece) > 0
    requires var head := piece[..HeadCut(c.headRoom, piece)]; !Arrives(takes, c.sent + [Text(head)])
    ensures var head := piece[..HeadCut(c.headRoom, piece)];
      && !Arrives(takes, Recorded(c, piece).sent)
      && Received(takes, Recorded(c, piece).sent) == Received(takes, c.sent + [Text(head)])
  {
    var cut := HeadCut(c.headRoom, piece);
    var d := c.(headRoom := c.headRoom - cut, sent := SentHead(c.sent, piece[..cut]));
    OneMore(d.sent, Over(c.maxBytes, c.tailBytes));
    ReceivedEarly(takes, d.sent, Held(d, piece[cut..]).sent);
  }

  // ---- The read loop ----

  function NonEmpty(pieces: seq<Bytes>): seq<Bytes> {
    if pieces == [] then [] else (if pieces[0] == [] then [] else [pieces[0]]) + NonEmpty(pieces[1..])
  }

  /** What the reader records of a stream that came in these reads. */
  function RecordedPieces(carry: Bytes, chunks: seq<Bytes>): seq<Bytes> {
    NonEmpty(Pieces(carry, chunks))
  }

  lemma RecordedFirst(carry: Bytes, chunks: seq<Bytes>)
    requires chunks != []
    ensures var taken := Take(carry + chunks[0]);
      RecordedPieces(carry, chunks) ==
        (if taken.content == [] then [] else [taken.content]) + RecordedPieces(taken.carry, chunks[1..])
  {}

  lemma CapturedMore(maxBytes: nat, pieces: seq<Bytes>, piece: Bytes)
    ensures Captured(maxBytes, pieces + [piece]) == Recorded(Captured(maxBytes, pieces), piece)
  {}

  function RecordedSome(c: Capture, content: Bytes): Capture {
    if content == [] then c else Recorded(c, content)
  }

  /** The capture after the rest of a stream, of which `carry` has been read already. */
  function ReadOn(c: Capture, carry: Bytes, chunks: seq<Bytes>): Capture
    decreases |chunks|
  {
    if chunks == [] then RecordedSome(c, AtEnd(carry))
    else
      var taken := Take(carry + chunks[0]);
      ReadOn(RecordedSome(c, taken.content), taken.carry, chunks[1..])
  }

  function RecordAll(c: Capture, pieces: seq<Bytes>): Capture
    decreases |pieces|
  {
    if pieces == [] then c else RecordAll(Recorded(c, pieces[0]), pieces[1..])
  }

  lemma RecordSomeFirst(c: Capture, content: Bytes, rest: seq<Bytes>)
    ensures RecordAll(c, (if content == [] then [] else [content]) + rest) == RecordAll(RecordedSome(c, content), rest)
  {
    if content == [] { assert [] + rest == rest; } else { assert ([content] + rest)[1..] == rest; }
  }

  lemma {:induction false} ReadOnRecords(c: Capture, carry: Bytes, chunks: seq<Bytes>)
    ensures ReadOn(c, carry, chunks) == RecordAll(c, RecordedPieces(carry, chunks))
    decreases |chunks|
  {
    if chunks == [] {
      AtTheEnd(carry);
    } else {
      var taken := Take(carry + chunks[0]);
      RecordedFirst(carry, chunks);
      RecordSomeFirst(c, taken.content, RecordedPieces(taken.carry, chunks[1..]));
      ReadOnRecords(RecordedSome(c, taken.content), taken.carry, chunks[1..]);
    }
  }

  lemma {:induction false} RecordAllCaptures(maxBytes: nat, done: seq<Bytes>, pieces: seq<Bytes>)
    ensures RecordAll(Captured(maxBytes, done), pieces) == Captured(maxBytes, done + pieces)
    decreases |pieces|
  {
    if pieces == [] {
      assert done + pieces == done;
    } else {
      CapturedMore(maxBytes, done, pieces[0]);
      RecordAllCaptures(maxBytes, done + [pieces[0]], pieces[1..]);
      assert (done + [pieces[0]]) + pieces[1..] == done + pieces;
    }
  }

  lemma {:induction false} ReadOnGrows(c: Capture, carry: Bytes, chunks: seq<Bytes>)
    ensures IsPrefix(c.sent, ReadOn(c, carry, chunks).sent)
    decreases |chunks|
  {
    var content := if chunks == [] then AtEnd(carry) else Take(carry + chunks[0]).content;
    var n := RecordedSome(c, content);
    RecordedGrows(c, content);
    if chunks != [] {
      ReadOnGrows(n, Take(carry + chunks[0]).carry, chunks[1..]);
      PrefixThen(c.sent, n.sent, ReadOn(c, carry, chunks).sent);
    }
  }

  /** Once a send has failed nothing that would have followed matters. */
  lemma GoneEarly(takes: Option<nat>, c: Capture, carry: Bytes, chunks: seq<Bytes>)
    requires !Arrives(takes, c.sent)
    ensures Received(takes, c.sent) == Received(takes, Flushed(ReadOn(c, carry, chunks)))
  {
    ReadOnGrows(c, carry, chunks);
    FlushedGrows(ReadOn(c, carry, chunks));
    PrefixThen(c.sent, ReadOn(c, carry, chunks).sent, Flushed(ReadOn(c, carry, chunks)));
    ReceivedEarly(takes, c.sent, Flushed(ReadOn(c, carry, chunks)));
  }

  lemma GoneAtTheEnd(takes: Option<nat>, c: Capture)
    requires !Arrives(takes, c.sent)
    ensures Received(takes, c.sent) == Received(takes, Flushed(c))
  {
    FlushedGrows(c);
    ReceivedEarly(takes, c.sent, Flushed(c));
  }

  /**
    Reads the stream to its end, carrying an unfinished character from one read to the next,
    and leaves everything the capture let through in the channel; or ends early, once the
    receiver is gone, with all that it lived to take.
   */
  method ReadStream(maxBytes: nat, stream: seq<Bytes>, takes: Option<nat>) returns (sent: seq<Chunk>)
    ensures sent == Received(takes, Flushed(Captured(maxBytes, RecordedPieces([], stream))))
  {
    var left, carry: Bytes := stream, [];
    var capture := new StreamCapture(maxBytes, takes);
    StreamCaptured(maxBytes, stream);
    ghost var all := Flushed(ReadOn(New(maxBytes), [], stream));
    while left != []
      invariant Arrives(takes, capture.sent) && capture.takes == takes
      invariant all == Flushed(ReadOn(capture.View(), carry, left))
      decreases |left|
    {
      var content;
      content, carry := TakeValidUtf8(carry + left[0]);
      left := left[1..];
      if content != [] {
        ghost var recorded := Recorded(capture.View(), content);
        var ok := capture.Record(content);
        if !ok {
          GoneEarly(takes, recorded, carry, left);
          return capture.sent;
        }
      }
    }
    if carry != [] {
      ghost var recorded := Recorded(capture.View(), REPLACEMENT);
      var ok := capture.Record(REPLACEMENT);
      if !ok {
        GoneAtTheEnd(takes, recorded);
        return capture.sent;
      }
    }
    capture.FlushTail();
    return capture.sent;
  }

  lemma StreamCaptured(maxBytes: nat, stream: seq<Bytes>)
    ensures ReadOn(New(maxBytes), [], stream) == Captured(maxBytes, RecordedPieces([], stream))
  {
    ReadOnRecords(New(maxBytes), [], stream);
    RecordAllCaptures(maxBytes, [], RecordedPieces([], stream));
    assert [] + RecordedPieces([], stream) == RecordedPieces([], stream);
  }

  lemma AtTheEnd(carry: Bytes)
    ensures RecordedPieces(carry, []) == if carry == [] then [] else [REPLACEMENT]
  {
    assert [AtEnd(carry)][1..] == [];
    assert NonEmpty([]) == [];
  }

  // ---- From bytes written to bytes recorded ----

  lemma {:induction false} PiecesAreWhole(carry: Bytes, chunks: seq<Bytes>)
    ensures Whole(RecordedPieces(carry, chunks))
    decreases |chunks|
  {
    if chunks == [] {
      AtTheEnd(carry);
      CharIsValid(REPLACEMENT);
    } else {
      CarryIsShort(carry + chunks[0]);
      PiecesAreWhole(Take(carry + chunks[0]).carry, chunks[1..]);
      RecordedFirst(carry, chunks);
    }
  }

  lemma {:induction false} JoinedFirst(piece: Bytes, pieces: seq<Bytes>)
    ensures Joined([piece] + pieces) == piece + Joined(pieces)
    decreases |pieces|
  {
    var all := [piece] + pieces;
    if pieces == [] {
      assert all[..|all| - 1] == [] && piece + Joined(pieces) == piece;
    } else {
      var last := pieces[|pieces| - 1];
      assert all[..|all| - 1] == [piece] + pieces[..|pieces| - 1];
      JoinedFirst(piece, pieces[..|pieces| - 1]);
      assert (piece + Joined(pieces[..|pieces| - 1])) + last == piece + (Joined(pieces[..|pieces| - 1]) + last);
    }
  }

  lemma {:induction false} NonEmptyJoins(pieces: seq<Bytes>)
    ensures Joined(NonEmpty(pieces)) == Flatten(pieces)
    decreases |pieces|
  {
    if pieces != [] {
      NonEmptyJoins(pieces[1..]);
      if pieces[0] == [] {
        assert [] + NonEmpty(pieces[1..]) == NonEmpty(pieces[1..]);
        assert pieces[0] + Flatten(pieces[1..]) == Flatten(pieces[1..]);
      } else {
        JoinedFirst(pieces[0], NonEmpty(pieces[1..]));
      }
    }
  }

  /** What is recorded of a stream, however it was read, adds up to its one decoding. */
  lemma RecordedIsDecoded(chunks: seq<Bytes>)
    ensures Whole(RecordedPieces([], chunks))
    ensures Joined(RecordedPieces([], chunks)) == Decode(Flatten(chunks))
  {
    PiecesAreWhole([], chunks);
    NonEmptyJoins(Pieces([], chunks));
    DecodedWhole(chunks);
  }

  /** The head ends between two characters, or is not filled at all. */
  predicate StreamFits(maxBytes: nat, text: Bytes) {
    |text| <= maxBytes / 2 || IsBoundary(text, maxBytes / 2)
  }

  /**
    Whatever a command writes and however it is read: where the head of its decoding ends
    between two characters, what is recorded depends on what was written alone.
   */
  lemma StreamRecorded(m: Marks, maxBytes: nat, chunks: seq<Bytes>)
    requires StreamFits(maxBytes, Decode(Flatten(chunks)))
    ensures Output(m, Flushed(Captured(maxBytes, RecordedPieces([], chunks)))) == Expected(m, maxBytes, Decode(Flatten(chunks)))
  {
    var pieces := RecordedPieces([], chunks);
    RecordedIsDecoded(chunks);
    assert Joined(pieces)[..|Joined(pieces)|] == Joined(pieces);
    HeadFillsExactly(maxBytes / 2, pieces, Joined(pieces));
    ExactOutput(m, maxBytes, pieces);
  }
  // ---- Where the head does not fill exactly ----

  lemma HalvesMore(room: nat, pieces: seq<Bytes>, piece: Bytes)
    ensures HalvesOf(room, pieces + [piece]) == Halve(HalvesOf(room, pieces), piece)
    ensures Joined(pieces + [piece]) == Joined(pieces) + piece
  {}

  /** Text that leaves one byte of the head, a two-byte character, and a one-byte one after it. */
  ghost predicate Misfit(maxBytes: nat, a: Bytes, wide: Bytes, narrow: Bytes) {
    && Valid(a) && a != [] && |a| == maxBytes / 2 - 1
    && IsChar(wide) && |wide| == 2 && IsChar(narrow) && |narrow| == 1
  }

  lemma MisfitHalves(maxBytes: nat, a: Bytes, wide: Bytes, narrow: Bytes)
    requires Misfit(maxBytes, a, wide, narrow)
    ensures HalvesOf(maxBytes / 2, [a] + [wide] + [narrow]) == Halves(a + narrow, wide, 0)
    ensures Joined([a] + [wide] + [narrow]) == a + wide + narrow
  {
    var room := maxBytes / 2;
    HalvesMore(room, [], a);
    assert [] + [a] == [a];
    HalvesMore(room, [a], wide);
    HalvesMore(room, [a] + [wide], narrow);
    assert Halve(Halves([], [], room), a) == Halves(a, [], 1);
    assert Halve(Halves(a, [], 1), wide) == Halves(a, wide, 1);
    assert Halve(Halves(a, wide, 1), narrow) == Halves(a + narrow, wide, 0);
  }

  /** Such a stream, two bytes over half the budget, is kept whole but recorded out of order. */
  lemma RecordedOutOfOrder(m: Marks, maxBytes: nat, a: Bytes, wide: Bytes, narrow: Bytes)
    requires Misfit(maxBytes, a, wide, narrow)
    ensures var pieces := [a] + [wide] + [narrow];
      && Whole(pieces) && |Joined(pieces)| <= maxBytes && !Captured(maxBytes, pieces).capped
      && Output(m, Flushed(Captured(maxBytes, pieces))) == a + narrow + wide != Joined(pieces)
  {
    var pieces := [a] + [wide] + [narrow];
    CharIsValid(wide);
    CharIsValid(narrow);
    MisfitHalves(maxBytes, a, wide, narrow);
    CapturedHolds(maxBytes, pieces);
    OutputAtEnd(m, Captured(maxBytes, pieces), Halves(a + narrow, wide, 0), maxBytes);
    OutputIsText(m, Captured(maxBytes, pieces).sent);
    assert (a + narrow + wide)[|a|] == narrow[0] && (a + wide + narrow)[|a|] == wide[0];
  }

  /** "abc", "é" and "x", six bytes within a budget of eight, are recorded as "abcxé". */
  lemma MisfitExists()
    ensures Misfit(8, [0x61, 0x62, 0x63], [0xC3, 0xA9], [0x78])
  {
    var a: Bytes := [0x61];
    ThreeLetters(a, [0x62], [0x63]);
    assert a + [0x62] + [0x63] == [0x61, 0x62, 0x63];
  }

  lemma ThreeLetters(a: Bytes, b: Bytes, c: Bytes)
    requires IsChar(a) && IsChar(b) && IsChar(c)
    ensures Valid(a + b + c)
  {
    CharIsValid(a);
    CharIsValid(b);
    CharIsValid(c);
    ValidConcat(a, b);
    ValidConcat(a + b, c);
  }

  /** One read within the budget of which something is dropped all the same. */
  lemma DroppedWithinBudget(m: Marks, maxBytes: nat, text: Bytes)
    requires Wordy(m) && Valid(text) && text != [] && |text| <= maxBytes
    requires |text| - |Head(text, maxBytes / 2)| > maxBytes - maxBytes / 2
    ensures Whole([text]) && NoneLate(maxBytes / 2, [text]) && Joined([text]) == text
    ensures Captured(maxBytes, [text]).capped && Output(m, Flushed(Captured(maxBytes, [text]))) != text
  {
    assert [text][..0] == [] && Joined([]) + text == text;
    assert HalvesOf(maxBytes / 2, []).past == [];
    HeadIsOfText(maxBytes / 2, [text]);
    TailIsLongestSuffix(maxBytes, [text]);
    KeptWholeIff(m, maxBytes, [text]);
  }

  /** "abc" and "éé1" in one read: eight bytes within a budget of eight. */
  lemma DroppedExists(text: Bytes)
    requires text == [0x61, 0x62, 0x63] + [0xC3, 0xA9] + [0xC3, 0xA9] + [0x31]
    ensures Valid(text) && |text| == 8 && |text| - |Head(text, 4)| > 4
  {
    var abc: Bytes, wide: Bytes, one: Bytes := [0x61, 0x62, 0x63], [0xC3, 0xA9], [0x31];
    MisfitExists();
    CharIsValid(wide);
    CharIsValid(one);
    ValidConcat(abc, wide);
    ValidConcat(abc + wide, wide);
    ValidConcat(abc + wide + wide, one);
    assert text == abc + wide + wide + one;
    assert !IsBoundary(text, 4) && IsBoundary(text, 3);
  }
}
