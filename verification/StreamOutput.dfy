/**
  What a captured stream reads like once it is put together: when it is in order, when it is
  whole, and that it does not depend on how the stream was split.
 */
module StreamOutputs {
  import opened Options
  import opened Utf8
  import opened Boundaries
  import opened StreamCaptures

  // ---- Pieces that come late ----

  /** The tail has opened, and the piece starts with a character that still fits the head. */
  ghost predicate LateAt(room: nat, pieces: seq<Bytes>, i: nat)
    requires i < |pieces|
  {
    var h := HalvesOf(room, pieces[..i]);
    h.past != [] && pieces[i] != [] && Width(pieces[i][0]) <= h.room
  }

  ghost predicate NoneLate(room: nat, pieces: seq<Bytes>) {
    forall i :: 0 <= i < |pieces| ==> !LateAt(room, pieces, i)
  }

  lemma NoneLateBefore(room: nat, pieces: seq<Bytes>)
    requires pieces != []
    ensures NoneLate(room, pieces) <==>
      NoneLate(room, pieces[..|pieces| - 1]) && !LateAt(room, pieces, |pieces| - 1)
  {
    var before := pieces[..|pieces| - 1];
    forall i | 0 <= i < |before| ensures LateAt(room, before, i) <==> LateAt(room, pieces, i) {
      assert before[..i] == pieces[..i];
    }
  }

  lemma HeadTakesNothing(room: nat, piece: Bytes)
    requires Valid(piece) && piece != []
    ensures HeadCut(room, piece) == 0 <==> Width(piece[0]) > room
    ensures Width(piece[0]) > room ==> |piece| > room
  {
    ValidStarts(piece);
    var w := Width(piece[0]);
    assert IsBoundary(piece, w) by {
      CharAtIs(piece);
      assert w == CharAt(piece);
      if w < |piece| { ValidStarts(piece[w..]); }
    }
  }

  /** Once the tail is open it starts with a character the head has no room for. */
  ghost predicate PastIsWide(h: Halves) {
    Valid(h.past) && (h.past != [] ==> Width(h.past[0]) > h.room)
  }

  lemma CutLeavesWide(room: nat, piece: Bytes)
    requires Valid(piece) && HeadCut(room, piece) < |piece|
    ensures Valid(piece[HeadCut(room, piece)..]) && Width(piece[HeadCut(room, piece)]) > room - HeadCut(room, piece)
  {
    var cut := HeadCut(room, piece);
    PrefixIsLongest(piece, room);
    var rest := piece[cut..];
    HeadTakesNothing(room - cut, rest);
    if HeadCut(room - cut, rest) > 0 {
      BoundaryOfRest(piece, cut, HeadCut(room - cut, rest));
    }
  }

  lemma HalveKeepsWide(h: Halves, piece: Bytes)
    requires PastIsWide(h) && Valid(piece) && piece != []
    ensures PastIsWide(Halve(h, piece))
  {
    var cut := HeadCut(h.room, piece);
    if cut < |piece| {
      CutLeavesWide(h.room, piece);
      ValidConcat(h.past, piece[cut..]);
    } else {
      assert h.past + piece[cut..] == h.past;
    }
  }

  lemma {:induction false} AlwaysWide(room: nat, pieces: seq<Bytes>)
    requires Whole(pieces)
    ensures PastIsWide(HalvesOf(room, pieces))
    decreases |pieces|
  {
    if pieces != [] {
      AlwaysWide(room, pieces[..|pieces| - 1]);
      HalveKeepsWide(HalvesOf(room, pieces[..|pieces| - 1]), pieces[|pieces| - 1]);
    }
  }

  // ---- Order ----

  lemma {:induction false} NoneLateKeepsOrder(room: nat, pieces: seq<Bytes>)
    requires Whole(pieces) && NoneLate(room, pieces)
    ensures HalvesOf(room, pieces).head + HalvesOf(room, pieces).past == Joined(pieces)
    decreases |pieces|
  {
    if pieces != [] {
      var before, piece := pieces[..|pieces| - 1], pieces[|pieces| - 1];
      NoneLateBefore(room, pieces);
      NoneLateKeepsOrder(room, before);
      HeadTakesNothing(HalvesOf(room, before).room, piece);
      HalveInOrder(HalvesOf(room, before), piece);
    }
  }

  lemma HalveInOrder(h: Halves, piece: Bytes)
    requires h.past != [] ==> HeadCut(h.room, piece) == 0
    ensures Halve(h, piece).head + Halve(h, piece).past == (h.head + h.past) + piece
  {}

  ghost predicate Differ(a: Bytes, b: Bytes, k: nat) {
    k < |a| && k < |b| && a[k] != b[k]
  }

  lemma {:induction false} LateBreaksOrder(room: nat, pieces: seq<Bytes>) returns (k: nat)
    requires Whole(pieces) && !NoneLate(room, pieces)
    ensures Differ(HalvesOf(room, pieces).head, Joined(pieces), k)
    decreases |pieces|
  {
    var before, piece := pieces[..|pieces| - 1], pieces[|pieces| - 1];
    var h := HalvesOf(room, before);
    NoneLateBefore(room, pieces);
    if !NoneLate(room, before) {
      k := LateBreaksOrder(room, before);
    } else {
      AlwaysWide(room, before);
      NoneLateKeepsOrder(room, before);
      HeadTakesNothing(h.room, piece);
      k := |h.head|;
      assert (h.head + h.past)[k] == h.past[0];
      assert (h.head + piece[..HeadCut(h.room, piece)])[k] == piece[0];
    }
  }

  /** Head and held text together are the stream, in order, exactly when no piece comes late. */
  lemma OrderKeptIff(room: nat, pieces: seq<Bytes>)
    requires Whole(pieces)
    ensures HalvesOf(room, pieces).head + HalvesOf(room, pieces).past == Joined(pieces) <==> NoneLate(room, pieces)
  {
    if NoneLate(room, pieces) {
      NoneLateKeepsOrder(room, pieces);
    } else {
      var k := LateBreaksOrder(room, pieces);
      var h := HalvesOf(room, pieces);
      assert (h.head + h.past)[k] == h.head[k];
    }
  }

  // ---- The head does not depend on the split ----

  function Head(text: Bytes, room: nat): Bytes {
    text[..HeadCut(room, text)]
  }

  lemma HeadIsOfText(room: nat, pieces: seq<Bytes>)
    requires Whole(pieces) && NoneLate(room, pieces)
    ensures HalvesOf(room, pieces).head == Head(Joined(pieces), room)
    ensures HalvesOf(room, pieces).past == Joined(pieces)[|Head(Joined(pieces), room)|..]
  {
    var h := HalvesOf(room, pieces);
    NoneLateKeepsOrder(room, pieces);
    AlwaysWide(room, pieces);
    RoomIsLeft(room, pieces);
    HeadOfHalves(h, room);
  }

  lemma {:induction false} RoomIsLeft(room: nat, pieces: seq<Bytes>)
    ensures HalvesOf(room, pieces).room + |HalvesOf(room, pieces).head| == room
    decreases |pieces|
  {
    if pieces != [] { RoomIsLeft(room, pieces[..|pieces| - 1]); }
  }

  lemma HeadOfHalves(h: Halves, room: nat)
    requires PastIsWide(h) && h.room + |h.head| == room
    ensures Head(h.head + h.past, room) == h.head && (h.head + h.past)[|h.head|..] == h.past
  {
    var text := h.head + h.past;
    if h.past != [] {
      ValidStarts(h.past);
      forall b | |h.head| < b <= room ensures !IsBoundary(text, b) {
        assert text[b] == h.past[b - |h.head|];
      }
      assert IsBoundary(text, |h.head|);
    }
  }

  // ---- What it reads like ----

  /** How the two marks are worded. */
  datatype Marks = Marks(over: (nat, nat) -> Bytes, dropped: nat -> Bytes)

  function Rendered(m: Marks, chunk: Chunk): Bytes {
    match chunk
    case Text(text) => text
    case Over(maxBytes, tailBytes) => m.over(maxBytes, tailBytes)
    case Dropped(bytes) => m.dropped(bytes)
  }

  function Output(m: Marks, sent: seq<Chunk>): Bytes {
    if sent == [] then [] else Output(m, sent[..|sent| - 1]) + Rendered(m, sent[|sent| - 1])
  }

  lemma OutputMore(m: Marks, sent: seq<Chunk>, chunk: Chunk)
    ensures Output(m, sent + [chunk]) == Output(m, sent) + Rendered(m, chunk)
  {}

  function OverMark(m: Marks, c: Capture): Bytes {
    if c.capped then Rendered(m, Over(c.maxBytes, c.tailBytes)) else []
  }

  /** With nothing late, all that is ever sent before the end is the head and then the mark. */
  ghost predicate HeadThenMark(m: Marks, c: Capture, h: Halves) {
    Output(m, c.sent) == h.head + OverMark(m, c)
  }

  lemma {:induction false} SentHeadThenMark(m: Marks, maxBytes: nat, pieces: seq<Bytes>)
    requires Whole(pieces) && NoneLate(maxBytes / 2, pieces)
    ensures HeadThenMark(m, Captured(maxBytes, pieces), HalvesOf(maxBytes / 2, pieces))
    decreases |pieces|
  {
    if pieces != [] {
      var before, piece := pieces[..|pieces| - 1], pieces[|pieces| - 1];
      NoneLateBefore(maxBytes / 2, pieces);
      SentHeadThenMark(m, maxBytes, before);
      CapturedHolds(maxBytes, before);
      HeadTakesNothing(HalvesOf(maxBytes / 2, before).room, piece);
      RecordedHeadThenMark(m, Captured(maxBytes, before), HalvesOf(maxBytes / 2, before), piece, maxBytes);
    }
  }

  lemma RecordedHeadThenMark(m: Marks, c: Capture, h: Halves, piece: Bytes, maxBytes: nat)
    requires Holds(c, h, maxBytes) && HeadThenMark(m, c, h) && piece != []
    requires h.past != [] ==> HeadCut(h.room, piece) == 0 && |piece| > h.room
    ensures HeadThenMark(m, Recorded(c, piece), Halve(h, piece))
  {
    var cut := HeadCut(h.room, piece);
    if |piece| <= h.room {
      OutputMore(m, c.sent, Text(piece));
      Appended(Output(m, c.sent), h.head, piece);
      assert piece[..cut] == piece;
    } else {
      var d := c.(headRoom := c.headRoom - cut, sent := SentHead(c.sent, piece[..cut]));
      HeadSent(m, c, h, piece[..cut]);
      HeldThenMark(m, d, Halve(h, piece).head, piece[cut..]);
    }
  }

  lemma Appended(output: Bytes, head: Bytes, text: Bytes)
    requires output == head + []
    ensures output + text == (head + text) + []
  {}

  lemma HeadSent(m: Marks, c: Capture, h: Halves, text: Bytes)
    requires HeadThenMark(m, c, h) && (c.capped ==> text == [])
    ensures Output(m, SentHead(c.sent, text)) == (h.head + text) + OverMark(m, c)
  {}

  lemma HeldThenMark(m: Marks, c: Capture, head: Bytes, rest: Bytes)
    requires Output(m, c.sent) == head + OverMark(m, c)
    ensures Output(m, Held(c, rest).sent) == head + OverMark(m, Held(c, rest))
  {}

  /** A head, and what came past it: whole, or its end under the two marks. */
  function Assembled(m: Marks, maxBytes: nat, head: Bytes, past: Bytes): Bytes {
    var tailBytes := maxBytes - maxBytes / 2;
    var tail := Suffix(past, tailBytes);
    if |tail| == |past| then head + past
    else head + Rendered(m, Over(maxBytes, tailBytes)) + Rendered(m, Dropped(|past| - |tail|)) + tail
  }

  /** What a whole text comes to within a budget, with no word of how it was split. */
  function Expected(m: Marks, maxBytes: nat, text: Bytes): Bytes {
    Assembled(m, maxBytes, Head(text, maxBytes / 2), text[|Head(text, maxBytes / 2)|..])
  }

  lemma OutputAtEnd(m: Marks, c: Capture, h: Halves, maxBytes: nat)
    requires Holds(c, h, maxBytes)
    ensures Output(m, Flushed(c)) ==
      Output(m, c.sent) + (if c.capped then Rendered(m, Dropped(Missing(c))) else []) + c.tail
  {}

  /** With nothing late, the output is the expected one of the text: independent of the split. */
  lemma ExactOutput(m: Marks, maxBytes: nat, pieces: seq<Bytes>)
    requires Whole(pieces) && NoneLate(maxBytes / 2, pieces)
    ensures Output(m, Flushed(Captured(maxBytes, pieces))) == Expected(m, maxBytes, Joined(pieces))
  {
    var c, h := Captured(maxBytes, pieces), HalvesOf(maxBytes / 2, pieces);
    CapturedHolds(maxBytes, pieces);
    SentHeadThenMark(m, maxBytes, pieces);
    OutputAtEnd(m, c, h, maxBytes);
    NoneLateKeepsOrder(maxBytes / 2, pieces);
    HeadIsOfText(maxBytes / 2, pieces);
    HalvesAssembled(m, c, h.head, h.past);
  }

  lemma HalvesAssembled(m: Marks, c: Capture, head: Bytes, past: Bytes)
    requires c.tailBytes == c.maxBytes - c.maxBytes / 2
    requires c.held == |past| && c.tail == Suffix(past, c.tailBytes) && (c.capped <==> |c.tail| < c.held)
    requires Output(m, c.sent) == head + OverMark(m, c)
    ensures Output(m, c.sent) + (if c.capped then Rendered(m, Dropped(Missing(c))) else []) + c.tail
      == Assembled(m, c.maxBytes, head, past)
  {
    if c.capped {
      assert Missing(c) == |past| - |c.tail|;
    } else {
      UncappedReads(Output(m, c.sent), head, past, c.tail, c.tailBytes);
    }
  }

  lemma UncappedReads(output: Bytes, head: Bytes, past: Bytes, tail: Bytes, max: nat)
    requires output == head + [] && tail == Suffix(past, max) && |tail| == |past|
    ensures output + [] + tail == head + past
  {
    NothingDropped(past, max);
    WithNothing(head, past);
  }

  lemma NothingDropped(past: Bytes, max: nat)
    requires |Suffix(past, max)| == |past|
    ensures Suffix(past, max) == past
  {}

  lemma WithNothing(head: Bytes, tail: Bytes)
    ensures ((head + []) + []) + tail == head + tail
  {}

  /** Nothing is late, however the text is split, where the head ends between two characters. */
  lemma {:induction false} HeadFillsExactly(room: nat, pieces: seq<Bytes>, text: Bytes)
    requires Whole(pieces) && |Joined(pieces)| <= |text| && Joined(pieces) == text[..|Joined(pieces)|]
    requires |text| <= room || IsBoundary(text, room)
    ensures NoneLate(room, pieces)
    decreases |pieces|
  {
    if pieces != [] {
      var before := pieces[..|pieces| - 1];
      assert Joined(before) == text[..|Joined(before)|] by {
        assert Joined(before) == Joined(pieces)[..|Joined(before)|];
      }
      HeadFillsExactly(room, before, text);
      NoneLateBefore(room, pieces);
      NoRoomOncePast(room, before, text);
      HeadTakesNothing(HalvesOf(room, before).room, pieces[|pieces| - 1]);
    }
  }

  lemma NoRoomOncePast(room: nat, pieces: seq<Bytes>, text: Bytes)
    requires Whole(pieces) && NoneLate(room, pieces)
    requires |Joined(pieces)| <= |text| && Joined(pieces) == text[..|Joined(pieces)|]
    requires |text| <= room || IsBoundary(text, room)
    ensures HalvesOf(room, pieces).past != [] ==> HalvesOf(room, pieces).room == 0
  {
    HeadIsOfText(room, pieces);
    RoomIsLeft(room, pieces);
    var joined := Joined(pieces);
    if |joined| > room {
      assert IsBoundary(joined, room);
    }
  }

  /** So two splits of a text whose head fills exactly read the same. */
  lemma SplitDoesNotMatter(m: Marks, maxBytes: nat, pieces: seq<Bytes>, others: seq<Bytes>)
    requires Whole(pieces) && Whole(others) && Joined(pieces) == Joined(others)
    requires IsBoundary(Joined(pieces), maxBytes / 2) || |Joined(pieces)| <= maxBytes / 2
    ensures Output(m, Flushed(Captured(maxBytes, pieces))) == Output(m, Flushed(Captured(maxBytes, others)))
  {
    var text := Joined(pieces);
    assert text[..|text|] == text;
    HeadFillsExactly(maxBytes / 2, pieces, text);
    HeadFillsExactly(maxBytes / 2, others, text);
    ExactOutput(m, maxBytes, pieces);
    ExactOutput(m, maxBytes, others);
  }

  lemma UncappedWholeIff(m: Marks, maxBytes: nat, pieces: seq<Bytes>)
    requires Whole(pieces) && !Captured(maxBytes, pieces).capped
    ensures Output(m, Flushed(Captured(maxBytes, pieces))) == Joined(pieces) <==> NoneLate(maxBytes / 2, pieces)
  {
    var c, h := Captured(maxBytes, pieces), HalvesOf(maxBytes / 2, pieces);
    CapturedHolds(maxBytes, pieces);
    OutputAtEnd(m, c, h, maxBytes);
    OutputIsText(m, c.sent);
    NothingDropped(h.past, c.tailBytes);
    WithNothing(h.head, h.past);
    OrderKeptIff(maxBytes / 2, pieces);
  }

  /** The mark that the budget is exceeded is worded in more than six bytes. */
  ghost predicate Wordy(m: Marks) {
    forall maxBytes, tailBytes :: |m.over(maxBytes, tailBytes)| > 6
  }

  lemma {:induction false} OutputIsLong(m: Marks, sent: seq<Chunk>)
    requires Wordy(m)
    ensures |Output(m, sent)| >= |TextOf(sent)| + 7 * Overs(sent)
    decreases |sent|
  {
    if sent != [] { OutputIsLong(m, sent[..|sent| - 1]); }
  }

  /** A capture that drops anything of a text within the budget drops less than its own words add. */
  lemma CappedIsLonger(m: Marks, c: Capture, h: Halves, maxBytes: nat)
    requires Wordy(m) && Holds(c, h, maxBytes) && c.capped && PastIsWide(h) && |h.head| + |h.past| <= maxBytes
    ensures |Output(m, Flushed(c))| > |h.head| + |h.past|
  {
    OutputAtEnd(m, c, h, maxBytes);
    OutputIsLong(m, c.sent);
    HoldsTail(c, h, maxBytes);
    SuffixIsNear(h.past, c.tailBytes);
    assert Width(h.past[0]) <= 4;
  }

  /**
    A stream within the budget is recorded whole and in order exactly when no piece comes late
    and no more than the tail's half is past the whole characters that fit the head's.
   */
  lemma KeptWholeIff(m: Marks, maxBytes: nat, pieces: seq<Bytes>)
    requires Whole(pieces) && Wordy(m) && |Joined(pieces)| <= maxBytes
    ensures var text := Joined(pieces);
      Output(m, Flushed(Captured(maxBytes, pieces))) == text <==>
        NoneLate(maxBytes / 2, pieces) && |text| - |Head(text, maxBytes / 2)| <= maxBytes - maxBytes / 2
  {
    var h := HalvesOf(maxBytes / 2, pieces);
    TailIsLongestSuffix(maxBytes, pieces);
    if NoneLate(maxBytes / 2, pieces) { HeadIsOfText(maxBytes / 2, pieces); }
    if Captured(maxBytes, pieces).capped {
      CapturedHolds(maxBytes, pieces);
      AlwaysWide(maxBytes / 2, pieces);
      HalvesAddUp(maxBytes / 2, pieces);
      CappedIsLonger(m, Captured(maxBytes, pieces), h, maxBytes);
    } else {
      UncappedWholeIff(m, maxBytes, pieces);
    }
  }

  lemma {:induction false} OutputIsText(m: Marks, sent: seq<Chunk>)
    requires Overs(sent) == 0 && NoDropped(sent)
    ensures Output(m, sent) == TextOf(sent)
    decreases |sent|
  {
    if sent != [] {
      assert forall i :: 0 <= i < |sent| - 1 ==> sent[..|sent| - 1][i] == sent[i];
      OutputIsText(m, sent[..|sent| - 1]);
    }
  }
}
