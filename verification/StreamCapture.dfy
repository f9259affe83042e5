/**
  The capture of a stream within a budget. Half of the budget goes to how the stream begins,
  sent at once; the other half is for how it ends, which is known only at the end.
 */
module StreamCaptures {
  import opened Utf8
  import opened Boundaries

  /** What is sent to the channel: text, or one of the two marks the capture makes of its own. */
  datatype Chunk = Text(text: Bytes) | Over(maxBytes: nat, tailBytes: nat) | Dropped(bytes: nat)

  datatype Capture = Capture(
    maxBytes: nat, headRoom: nat, tailBytes: nat, tail: Bytes, held: nat, capped: bool, sent: seq<Chunk>)

  function New(maxBytes: nat): Capture {
    Capture(maxBytes, maxBytes / 2, maxBytes - maxBytes / 2, [], 0, false, [])
  }

  /** How much of a piece goes to the head. */
  function HeadCut(room: nat, piece: Bytes): (cut: nat)
    ensures cut <= |piece| && cut <= room && IsBoundary(piece, cut)
  {
    if |piece| <= room then |piece| else CutBelow(piece, room)
  }

  function SentHead(sent: seq<Chunk>, head: Bytes): seq<Chunk> {
    if head == [] then sent else sent + [Text(head)]
  }

  function Held(c: Capture, rest: Bytes): Capture {
    var tail := Suffix(c.tail + rest, c.tailBytes);
    var held := c.held + |rest|;
    var over := !c.capped && |tail| < held;
    c.(tail := tail, held := held, capped := c.capped || over,
       sent := if over then c.sent + [Over(c.maxBytes, c.tailBytes)] else c.sent)
  }

  function Recorded(c: Capture, piece: Bytes): Capture {
    if |piece| <= c.headRoom then c.(headRoom := c.headRoom - |piece|, sent := c.sent + [Text(piece)])
    else
      var cut := HeadCut(c.headRoom, piece);
      Held(c.(headRoom := c.headRoom - cut, sent := SentHead(c.sent, piece[..cut])), piece[cut..])
  }

  function Missing(c: Capture): nat {
    if c.held >= |c.tail| then c.held - |c.tail| else 0
  }

  function Marked(c: Capture): seq<Chunk> {
    if c.capped then c.sent + [Dropped(Missing(c))] else c.sent
  }

  function Flushed(c: Capture): seq<Chunk> {
    if c.tail == [] then Marked(c) else Marked(c) + [Text(c.tail)]
  }

  function Captured(maxBytes: nat, pieces: seq<Bytes>): Capture {
    if pieces == [] then New(maxBytes)
    else Recorded(Captured(maxBytes, pieces[..|pieces| - 1]), pieces[|pieces| - 1])
  }

  // ---- The two halves a split of the stream comes to ----

  /** All that went to the head, and all that came past it, whatever became of it since. */
  datatype Halves = Halves(head: Bytes, past: Bytes, room: nat)

  function Halve(h: Halves, piece: Bytes): Halves {
    var cut := HeadCut(h.room, piece);
    Halves(h.head + piece[..cut], h.past + piece[cut..], h.room - cut)
  }

  function HalvesOf(room: nat, pieces: seq<Bytes>): Halves {
    if pieces == [] then Halves([], [], room)
    else Halve(HalvesOf(room, pieces[..|pieces| - 1]), pieces[|pieces| - 1])
  }

  /** Pieces a reader records: whole characters, and never nothing. */
  ghost predicate Whole(pieces: seq<Bytes>) {
    forall i :: 0 <= i < |pieces| ==> pieces[i] != [] && Valid(pieces[i])
  }

  function Joined(pieces: seq<Bytes>): Bytes {
    if pieces == [] then [] else Joined(pieces[..|pieces| - 1]) + pieces[|pieces| - 1]
  }

  // ---- What was sent ----

  function TextOf(sent: seq<Chunk>): Bytes {
    if sent == [] then []
    else
      var last := sent[|sent| - 1];
      TextOf(sent[..|sent| - 1]) + (if last.Text? then last.text else [])
  }

  function Overs(sent: seq<Chunk>): nat {
    if sent == [] then 0 else Overs(sent[..|sent| - 1]) + (if sent[|sent| - 1].Over? then 1 else 0)
  }

  predicate NoDropped(sent: seq<Chunk>) {
    forall i :: 0 <= i < |sent| ==> !sent[i].Dropped?
  }

  lemma SentMore(sent: seq<Chunk>, chunk: Chunk)
    ensures TextOf(sent + [chunk]) == TextOf(sent) + (if chunk.Text? then chunk.text else [])
    ensures Overs(sent + [chunk]) == Overs(sent) + (if chunk.Over? then 1 else 0)
    ensures NoDropped(sent + [chunk]) <==> NoDropped(sent) && !chunk.Dropped?
  {}

  /** The capture holds exactly what its halves say. */
  ghost predicate Holds(c: Capture, h: Halves, maxBytes: nat) {
    && c.maxBytes == maxBytes && c.tailBytes == maxBytes - maxBytes / 2
    && c.headRoom == h.room && h.room + |h.head| == maxBytes / 2
    && TextOf(c.sent) == h.head
    && c.held == |h.past| && c.tail == Suffix(h.past, c.tailBytes)
    && (c.capped <==> |c.tail| < c.held)
    && Overs(c.sent) == (if c.capped then 1 else 0) && NoDropped(c.sent)
  }

  lemma SuffixGrows(a: Bytes, b: Bytes, max: nat)
    ensures |Suffix(a, max)| < |a| <==> |a| > max
    ensures |Suffix(a, max)| < |a| ==> |Suffix(a + b, max)| < |a + b|
  {}

  lemma HeldHolds(c: Capture, h: Halves, rest: Bytes, maxBytes: nat)
    requires Holds(c, h, maxBytes) && StartsWhole(rest)
    ensures Holds(Held(c, rest), h.(past := h.past + rest), maxBytes)
  {
    RollingSuffix(h.past, rest, c.tailBytes);
    SuffixGrows(h.past, rest, c.tailBytes);
    SentMore(c.sent, Over(c.maxBytes, c.tailBytes));
  }

  lemma HeadHolds(c: Capture, h: Halves, text: Bytes, maxBytes: nat)
    requires Holds(c, h, maxBytes) && |text| <= h.room
    ensures Holds(c.(headRoom := h.room - |text|, sent := c.sent + [Text(text)]),
                  h.(head := h.head + text, room := h.room - |text|), maxBytes)
  {}

  lemma RecordedHolds(c: Capture, h: Halves, piece: Bytes, maxBytes: nat)
    requires Holds(c, h, maxBytes) && piece != [] && Valid(piece)
    ensures Holds(Recorded(c, piece), Halve(h, piece), maxBytes)
  {
    var cut := HeadCut(h.room, piece);
    CutStartsWhole(h.room, piece);
    if |piece| <= h.room {
      WholeToHead(h, piece);
      HeadHolds(c, h, piece, maxBytes);
    } else if cut == 0 {
      assert h.head + piece[..cut] == h.head;
      HeldHolds(c, h, piece[cut..], maxBytes);
    } else {
      HeadHolds(c, h, piece[..cut], maxBytes);
      HeldHolds(c.(headRoom := h.room - cut, sent := c.sent + [Text(piece[..cut])]),
        h.(head := h.head + piece[..cut], room := h.room - cut), piece[cut..], maxBytes);
    }
  }

  lemma CutStartsWhole(room: nat, piece: Bytes)
    requires Valid(piece) && piece != []
    ensures StartsWhole(piece[HeadCut(room, piece)..])
  {
    ValidStarts(piece);
  }

  lemma WholeToHead(h: Halves, piece: Bytes)
    requires |piece| <= h.room
    ensures Halve(h, piece) == h.(head := h.head + piece, room := h.room - |piece|)
  {
    assert piece[..|piece|] == piece && h.past + piece[|piece|..] == h.past;
  }

  lemma {:induction false} CapturedHolds(maxBytes: nat, pieces: seq<Bytes>)
    requires Whole(pieces)
    ensures Holds(Captured(maxBytes, pieces), HalvesOf(maxBytes / 2, pieces), maxBytes)
    decreases |pieces|
  {
    if pieces != [] {
      CapturedHolds(maxBytes, pieces[..|pieces| - 1]);
      RecordedHolds(Captured(maxBytes, pieces[..|pieces| - 1]), HalvesOf(maxBytes / 2, pieces[..|pieces| - 1]),
        pieces[|pieces| - 1], maxBytes);
    }
  }

  /** The rolling tail is the longest whole-character suffix, within its half, of all that was held. */
  lemma TailIsLongestSuffix(maxBytes: nat, pieces: seq<Bytes>)
    requires Whole(pieces)
    ensures Captured(maxBytes, pieces).tail == Suffix(HalvesOf(maxBytes / 2, pieces).past, maxBytes - maxBytes / 2)
    ensures Captured(maxBytes, pieces).capped <==> |HalvesOf(maxBytes / 2, pieces).past| > maxBytes - maxBytes / 2
  {
    CapturedHolds(maxBytes, pieces);
    HoldsTail(Captured(maxBytes, pieces), HalvesOf(maxBytes / 2, pieces), maxBytes);
  }

  lemma HoldsTail(c: Capture, h: Halves, maxBytes: nat)
    requires Holds(c, h, maxBytes)
    ensures c.tail == Suffix(h.past, maxBytes - maxBytes / 2)
    ensures c.capped <==> |h.past| > maxBytes - maxBytes / 2
  {}

  // ---- The budget ----

  lemma {:induction false} HalvesAddUp(room: nat, pieces: seq<Bytes>)
    ensures |HalvesOf(room, pieces).head| + |HalvesOf(room, pieces).past| == |Joined(pieces)|
    decreases |pieces|
  {
    if pieces != [] { HalvesAddUp(room, pieces[..|pieces| - 1]); }
  }

  /**
    The stream's own bytes sent are at most the budget. A mark is made exactly when something
    was dropped, once each, and it names exactly the bytes written less the bytes recorded.
   */
  lemma BudgetKept(maxBytes: nat, pieces: seq<Bytes>)
    requires Whole(pieces)
    ensures var sent := Flushed(Captured(maxBytes, pieces));
      var missing := |Joined(pieces)| - |TextOf(sent)|;
      && |TextOf(sent)| <= maxBytes && 0 <= missing
      && Overs(sent) == (if missing > 0 then 1 else 0)
      && (if missing > 0 then forall i :: 0 <= i < |sent| && sent[i].Dropped? ==> sent[i] == Dropped(missing) else NoDropped(sent))
      && (missing > 0 ==> Dropped(missing) in sent)
  {
    var c, h := Captured(maxBytes, pieces), HalvesOf(maxBytes / 2, pieces);
    CapturedHolds(maxBytes, pieces);
    HalvesAddUp(maxBytes / 2, pieces);
    SuffixGrows(h.past, [], c.tailBytes);
    FlushedText(c);
    FlushedMarks(c);
  }

  lemma FlushedText(c: Capture)
    ensures TextOf(Flushed(c)) == TextOf(c.sent) + c.tail && Overs(Flushed(c)) == Overs(c.sent)
  {}

  lemma FlushedMarks(c: Capture)
    requires NoDropped(c.sent)
    ensures c.capped ==> Dropped(Missing(c)) in Flushed(c)
    ensures forall i :: 0 <= i < |Flushed(c)| && Flushed(c)[i].Dropped? ==> c.capped && Flushed(c)[i] == Dropped(Missing(c))
  {}
}
