/**
  UTF-8 as section 4 of RFC 3629 gives it, the lossy decoding of a whole byte sequence by
  substitution of maximal subparts (section 3.9 of the Unicode Standard), and the same
  decoding done read by read with a carry.
 */
module Utf8 {
  import opened Options

  newtype byte = x: int | 0 <= x < 256

  type Bytes = seq<byte>

  /** U+FFFD. */
  const REPLACEMENT: Bytes := [0xEF, 0xBF, 0xBD]

  // ---- Characters ----

  predicate IsTail(b: byte) { 0x80 <= b <= 0xBF }

  /** How many bytes a character that starts with this one has; 0 if none does. */
  function Width(b: byte): nat {
    if b <= 0x7F then 1
    else if 0xC2 <= b <= 0xDF then 2
    else if 0xE0 <= b <= 0xEF then 3
    else if 0xF0 <= b <= 0xF4 then 4
    else 0
  }

  /** Which second bytes a first byte allows. */
  predicate IsSecond(first: byte, b: byte) {
    if first == 0xE0 then 0xA0 <= b <= 0xBF
    else if first == 0xED then 0x80 <= b <= 0x9F
    else if first == 0xF0 then 0x90 <= b <= 0xBF
    else if first == 0xF4 then 0x80 <= b <= 0x8F
    else IsTail(b)
  }

  predicate TailsOk(s: Bytes) {
    && (|s| > 1 ==> IsSecond(s[0], s[1]))
    && (|s| > 2 ==> IsTail(s[2]))
    && (|s| > 3 ==> IsTail(s[3]))
  }

  predicate IsChar(s: Bytes) {
    |s| > 0 && |s| == Width(s[0]) && TailsOk(s)
  }

  /** More bytes could still make a character of it. */
  predicate IsOpen(s: Bytes) {
    0 < |s| && |s| < Width(s[0]) && TailsOk(s)
  }

  ghost predicate Completable(s: Bytes) {
    exists rest: Bytes :: |rest| > 0 && IsChar(s + rest)
  }

  /** An open sequence is a proper prefix of some character, and only such a sequence is. */
  lemma OpenIffCompletable(s: Bytes)
    requires |s| > 0
    ensures IsOpen(s) <==> Completable(s)
  {
    if IsOpen(s) { OpenIsCompletable(s); }
    forall rest: Bytes | |rest| > 0 && IsChar(s + rest) ensures IsOpen(s) {
      var whole := s + rest;
      assert forall i :: 0 <= i < |s| ==> whole[i] == s[i];
    }
  }

  lemma OpenIsCompletable(s: Bytes)
    requires IsOpen(s)
    ensures Completable(s)
  {
    var second: byte := if s[0] == 0xE0 || s[0] == 0xF0 then 0xA0 else 0x80;
    var rest: Bytes := seq(Width(s[0]) - |s|, i requires 0 <= i => if |s| + i == 1 then second else 0x80);
    assert TailsOk(s + rest);
    assert IsChar(s + rest);
  }

  /** The character a sequence starts with has this many bytes; 0 if it starts with none. */
  function CharAt(s: Bytes): (n: nat)
    ensures n <= |s| && n <= 4
  {
    if |s| > 0 && 0 < Width(s[0]) <= |s| && TailsOk(s[..Width(s[0])]) then Width(s[0]) else 0
  }

  lemma CharAtIs(s: Bytes)
    ensures CharAt(s) > 0 ==> IsChar(s[..CharAt(s)])
    ensures CharAt(s) == 0 ==> forall k :: 0 <= k <= |s| ==> !IsChar(s[..k])
  {}

  /** Whole characters, one after another. */
  predicate Valid(s: Bytes)
    decreases |s|
  {
    s == [] || (CharAt(s) > 0 && Valid(s[CharAt(s)..]))
  }

  // ---- The one-shot decoding ----

  /** How many bytes from the first on are open: the longest prefix a character could have. */
  function OpenLength(s: Bytes, n: nat): (k: nat)
    requires n <= |s|
    ensures k <= n
  {
    if n == 0 then 0 else if IsOpen(s[..n]) then n else OpenLength(s, n - 1)
  }

  lemma {:induction false} OpenLengthIs(s: Bytes, n: nat)
    requires n <= |s|
    ensures OpenLength(s, n) > 0 ==> IsOpen(s[..OpenLength(s, n)])
    ensures forall i :: OpenLength(s, n) < i <= n ==> !IsOpen(s[..i])
  {
    if n > 0 { OpenLengthIs(s, n - 1); }
  }

  /** The maximal subpart an undecodable sequence starts with: at least the one byte. */
  function Subpart(s: Bytes): (k: nat)
    requires |s| > 0
    ensures 0 < k <= |s|
  {
    if OpenLength(s, |s|) == 0 then 1 else OpenLength(s, |s|)
  }

  /** The longest start of a character there is, or a single byte that starts none. */
  lemma SubpartIsMaximal(s: Bytes)
    requires |s| > 0 && CharAt(s) == 0
    ensures Subpart(s) > 1 ==> Completable(s[..Subpart(s)])
    ensures forall k :: Subpart(s) < k <= |s| ==> !Completable(s[..k])
  {
    OpenLengthIs(s, |s|);
    OpenIffCompletable(s[..Subpart(s)]);
    forall k | Subpart(s) < k <= |s| ensures !Completable(s[..k]) {
      OpenIffCompletable(s[..k]);
    }
  }

  /** The bytes one step of decoding consumes, and what it makes of them. */
  datatype Step = Step(length: nat, output: Bytes)

  function FirstStep(s: Bytes): (step: Step)
    requires |s| > 0
    ensures 0 < step.length <= |s|
  {
    if CharAt(s) > 0 then Step(CharAt(s), s[..CharAt(s)]) else Step(Subpart(s), REPLACEMENT)
  }

  function Decode(s: Bytes): Bytes
    decreases |s|
  {
    if s == [] then [] else FirstStep(s).output + Decode(s[FirstStep(s).length..])
  }

  lemma CharThen(c: Bytes, s: Bytes)
    requires IsChar(c)
    ensures CharAt(c + s) == |c| && (c + s)[..|c|] == c && (c + s)[|c|..] == s
  {}

  lemma {:induction false} ValidConcat(a: Bytes, b: Bytes)
    requires Valid(a) && Valid(b)
    ensures Valid(a + b)
    decreases |a|
  {
    if a == [] {
      assert a + b == b;
    } else {
      var n := CharAt(a);
      assert a + b == a[..n] + (a[n..] + b);
      CharThen(a[..n], a[n..] + b);
      ValidConcat(a[n..], b);
    }
  }

  lemma CharIsValid(c: Bytes)
    requires IsChar(c)
    ensures Valid(c)
  {}

  lemma {:induction false} DecodedIsValid(s: Bytes)
    ensures Valid(Decode(s))
    decreases |s|
  {
    if s != [] {
      var step := FirstStep(s);
      CharAtIs(s);
      CharIsValid(step.output);
      DecodedIsValid(s[step.length..]);
      ValidConcat(step.output, Decode(s[step.length..]));
    }
  }

  lemma {:induction false} ValidIsKept(s: Bytes)
    requires Valid(s)
    ensures Decode(s) == s
    decreases |s|
  {
    if s != [] {
      ValidIsKept(s[CharAt(s)..]);
      assert s == s[..CharAt(s)] + s[CharAt(s)..];
    }
  }

  /** What is decoded is always whole characters, and it is the input exactly when that was. */
  lemma DecodeIsLossless(s: Bytes)
    ensures Valid(Decode(s))
    ensures Decode(s) == s <==> Valid(s)
  {}

  // ---- Read by read ----

  datatype Taken = Taken(content: Bytes, carry: Bytes)

  function After(before: Bytes, rest: Taken): Taken {
    Taken(before + rest.content, rest.carry)
  }

  /** Everything that is decided already, and the open sequence it ends in. */
  function Take(s: Bytes): Taken
    decreases |s|
  {
    if s == [] || IsOpen(s) then Taken([], s)
    else After(FirstStep(s).output, Take(s[FirstStep(s).length..]))
  }

  /** The carry is an open sequence, so never more than three bytes; what went is characters. */
  lemma {:induction false} CarryIsShort(s: Bytes)
    ensures Take(s).carry == [] || IsOpen(Take(s).carry)
    ensures |Take(s).carry| <= 3
    ensures Valid(Take(s).content)
    decreases |s|
  {
    if s != [] && !IsOpen(s) {
      var n := if CharAt(s) > 0 then CharAt(s) else Subpart(s);
      CarryIsShort(s[n..]);
      if CharAt(s) > 0 {
        CharIsValid(s[..n]);
        ValidConcat(s[..n], Take(s[n..]).content);
      } else {
        CharIsValid(REPLACEMENT);
        ValidConcat(REPLACEMENT, Take(s[n..]).content);
      }
    }
  }

  lemma OpenCut(s: Bytes, more: Bytes, k: nat)
    requires 0 < |s| <= k <= |s + more|
    ensures IsOpen((s + more)[..k]) || IsChar((s + more)[..k]) ==> IsOpen(s) || IsChar(s)
  {}

  /** More bytes do not change where the first undecodable sequence ends, once that is known. */
  lemma SubpartSettled(s: Bytes, more: Bytes)
    requires |s| > 0 && CharAt(s) == 0 && !IsOpen(s)
    ensures CharAt(s + more) == 0 && Subpart(s + more) == Subpart(s)
  {
    var whole := s + more;
    assert s[..|s|] == s;
    CharAtIs(s);
    CharAtIs(whole);
    OpenLengthIs(s, |s|);
    OpenLengthIs(whole, |whole|);
    forall k | 0 < k <= |whole|
      ensures !IsChar(whole[..k])
      ensures IsOpen(whole[..k]) ==> k < |s| && IsOpen(s[..k])
    {
      if k < |s| { assert whole[..k] == s[..k]; } else { OpenCut(s, more, k); }
    }
    forall k | 0 < k <= |s| && IsOpen(s[..k]) ensures IsOpen(whole[..k]) {
      assert whole[..k] == s[..k];
    }
  }

  lemma TakeChar(c: Bytes, s: Bytes)
    requires IsChar(c)
    ensures Take(c + s) == After(c, Take(s)) && Decode(c + s) == c + Decode(s)
  {}

  lemma {:induction false} TakeThenMore(s: Bytes, more: Bytes)
    ensures Decode(s + more) == Take(s).content + Decode(Take(s).carry + more)
    decreases |s|
  {
    if s == [] || IsOpen(s) {
      assert [] + Decode(s + more) == Decode(s + more);
    } else if CharAt(s) > 0 {
      var c, rest := s[..CharAt(s)], s[CharAt(s)..];
      assert s + more == c + (rest + more);
      TakeChar(c, rest + more);
      TakeThenMore(rest, more);
    } else {
      var k := Subpart(s);
      SubpartSettled(s, more);
      assert (s + more)[k..] == s[k..] + more;
      TakeThenMore(s[k..], more);
    }
  }

  /** An open sequence the stream ends in is one maximal subpart. */
  lemma OpenDecodesToOne(s: Bytes)
    requires IsOpen(s)
    ensures Decode(s) == REPLACEMENT
  {}

  // ---- A whole stream, however it is split ----

  function Flatten(chunks: seq<Bytes>): Bytes {
    if chunks == [] then [] else chunks[0] + Flatten(chunks[1..])
  }

  function AtEnd(carry: Bytes): Bytes {
    if carry == [] then [] else REPLACEMENT
  }

  /** The pieces a reader hands on, one for each read and one at the end. */
  function Pieces(carry: Bytes, chunks: seq<Bytes>): seq<Bytes>
    decreases |chunks|
  {
    if chunks == [] then [AtEnd(carry)]
    else [Take(carry + chunks[0]).content] + Pieces(Take(carry + chunks[0]).carry, chunks[1..])
  }

  lemma FlattenFirst(piece: Bytes, pieces: seq<Bytes>)
    ensures Flatten([piece] + pieces) == piece + Flatten(pieces)
  {}

  lemma {:induction false} PiecesDecode(carry: Bytes, chunks: seq<Bytes>)
    requires carry == [] || IsOpen(carry)
    ensures Flatten(Pieces(carry, chunks)) == Decode(carry + Flatten(chunks))
    decreases |chunks|
  {
    if chunks == [] {
      assert carry + [] == carry;
      FlattenFirst(AtEnd(carry), []);
      if carry != [] { OpenDecodesToOne(carry); }
    } else {
      var taken := Take(carry + chunks[0]);
      CarryIsShort(carry + chunks[0]);
      PiecesDecode(taken.carry, chunks[1..]);
      PiecesOfFirst(carry, chunks[0], chunks[1..]);
      DecodeOfFirst(carry, chunks[0], chunks[1..]);
      assert chunks == [chunks[0]] + chunks[1..];
    }
  }

  lemma PiecesOfFirst(carry: Bytes, first: Bytes, rest: seq<Bytes>)
    ensures var taken := Take(carry + first);
      Flatten(Pieces(carry, [first] + rest)) == taken.content + Flatten(Pieces(taken.carry, rest))
  {}

  lemma DecodeOfFirst(carry: Bytes, first: Bytes, rest: seq<Bytes>)
    ensures var taken := Take(carry + first);
      Decode(carry + Flatten([first] + rest)) == taken.content + Decode(taken.carry + Flatten(rest))
  {
    FlattenFirst(first, rest);
    TakeThenMore(carry + first, Flatten(rest));
    Regroup(carry, first, Flatten(rest));
  }

  lemma Regroup(a: Bytes, b: Bytes, c: Bytes)
    ensures a + (b + c) == (a + b) + c
  {}

  /** Chunk invariance: however a stream is split into reads, its pieces add up to the one decoding. */
  lemma DecodedWhole(chunks: seq<Bytes>)
    ensures Flatten(Pieces([], chunks)) == Decode(Flatten(chunks))
  {
    PiecesDecode([], chunks);
    assert [] + Flatten(chunks) == Flatten(chunks);
  }

  lemma SplitsAgree(chunks: seq<Bytes>, others: seq<Bytes>)
    requires Flatten(chunks) == Flatten(others)
    ensures Flatten(Pieces([], chunks)) == Flatten(Pieces([], others))
  {
    DecodedWhole(chunks);
    DecodedWhole(others);
  }

  // ---- The loop over what the standard library reports ----

  /** A report of the first undecodable place: where, and how long, unless the input ended in it. */
  datatype Report = AllValid | Bad(validUpTo: nat, errorLen: Option<nat>)

  /** What a report promises. */
  predicate Reports(s: Bytes, r: Report) {
    match r
    case AllValid => Valid(s)
    case Bad(k, errorLen) =>
      && k < |s| && Valid(s[..k]) && CharAt(s[k..]) == 0
      && (errorLen.None? <==> IsOpen(s[k..]))
      && (errorLen.Some? ==> errorLen.value == Subpart(s[k..]))
  }

  function FromUtf8(s: Bytes): Report
    decreases |s|
  {
    if s == [] then AllValid
    else if CharAt(s) == 0 then Bad(0, if IsOpen(s) then None else Some(Subpart(s)))
    else
      match FromUtf8(s[CharAt(s)..])
      case AllValid => AllValid
      case Bad(k, errorLen) => Bad(CharAt(s) + k, errorLen)
  }

  lemma {:induction false} FromUtf8Reports(s: Bytes)
    ensures Reports(s, FromUtf8(s))
    ensures FromUtf8(s).AllValid? <==> Valid(s)
    decreases |s|
  {
    if s != [] {
      if CharAt(s) == 0 {
        FirstIsBad(s);
      } else {
        FromUtf8Reports(s[CharAt(s)..]);
        ReportOfRest(s, s[CharAt(s)..]);
      }
    }
  }

  lemma FirstIsBad(s: Bytes)
    requires s != [] && CharAt(s) == 0
    ensures Reports(s, Bad(0, if IsOpen(s) then None else Some(Subpart(s)))) && !Valid(s)
  {
    assert s[0..] == s && s[..0] == [];
  }

  lemma ReportOfRest(s: Bytes, rest: Bytes)
    requires CharAt(s) > 0 && rest == s[CharAt(s)..] && Reports(rest, FromUtf8(rest))
    ensures FromUtf8(rest).Bad? ==> Reports(s, Bad(CharAt(s) + FromUtf8(rest).validUpTo, FromUtf8(rest).errorLen))
  {
    CharAtIs(s);
    assert s == s[..CharAt(s)] + rest;
    if FromUtf8(rest).Bad? { ReportShifted(s[..CharAt(s)], rest, FromUtf8(rest).validUpTo, FromUtf8(rest).errorLen); }
  }

  lemma ReportShifted(c: Bytes, s: Bytes, k: nat, errorLen: Option<nat>)
    requires IsChar(c) && Reports(s, Bad(k, errorLen))
    ensures Reports(c + s, Bad(|c| + k, errorLen))
  {
    assert (c + s)[|c| + k..] == s[k..];
    assert (c + s)[..|c| + k] == c + s[..k];
    CharThen(c, s[..k]);
  }

  lemma AfterAfter(a: Bytes, b: Bytes, rest: Taken)
    ensures After(a, After(b, rest)) == After(a + b, rest)
  {}

  lemma {:induction false} TakeAfterValid(valid: Bytes, s: Bytes)
    requires Valid(valid)
    ensures Take(valid + s) == After(valid, Take(s))
    decreases |valid|
  {
    if valid == [] {
      assert valid + s == s && [] + Take(s).content == Take(s).content;
    } else {
      var c, rest := valid[..CharAt(valid)], valid[CharAt(valid)..];
      assert valid + s == c + (rest + s) && valid == c + rest;
      TakeChar(c, rest + s);
      TakeAfterValid(rest, s);
      AfterAfter(c, rest, Take(s));
    }
  }

  /** The same, adding to what has been taken before. */
  function TakeOnto(content: Bytes, s: Bytes): Taken
    decreases |s|
  {
    if s == [] || IsOpen(s) then Taken(content, s)
    else TakeOnto(content + FirstStep(s).output, s[FirstStep(s).length..])
  }

  lemma {:induction false} TakeOntoIs(content: Bytes, s: Bytes)
    ensures TakeOnto(content, s) == After(content, Take(s))
    decreases |s|
  {
    if s == [] || IsOpen(s) {
      assert content + [] == content;
    } else {
      TakeOntoIs(content + FirstStep(s).output, s[FirstStep(s).length..]);
      AfterAfter(content, FirstStep(s).output, Take(s[FirstStep(s).length..]));
    }
  }

  lemma TakeOntoNothing(s: Bytes)
    ensures TakeOnto([], s) == Take(s)
  {
    TakeOntoIs([], s);
    assert [] + Take(s).content == Take(s).content;
  }

  /**
    Splits off everything that is complete, replacing what can never be, and leaves at most
    an open sequence behind (`CarryIsShort`).
   */
  method TakeValidUtf8(buffer: Bytes) returns (content: Bytes, carry: Bytes)
    ensures Taken(content, carry) == Take(buffer)
  {
    TakeOntoNothing(buffer);
    content, carry := [], buffer;
    while true
      invariant TakeOnto([], buffer) == TakeOnto(content, carry)
      decreases |carry|
    {
      var report := FromUtf8(carry);
      OneReport(content, carry, report);
      if report.AllValid? {
        content, carry := content + carry, [];
        return;
      }
      content := content + carry[..report.validUpTo];
      carry := carry[report.validUpTo..];
      if report.errorLen.None? {
        return;
      }
      content := content + REPLACEMENT;
      carry := carry[report.errorLen.value..];
    }
  }

  /** What a report on the rest means for what has been taken so far. */
  lemma OneReport(content: Bytes, rest: Bytes, report: Report)
    requires report == FromUtf8(rest)
    ensures report.AllValid? ==> TakeOnto(content, rest) == Taken(content + rest, [])
    ensures report.Bad? ==> report.validUpTo <= |rest|
    ensures report.Bad? && report.errorLen.None? ==>
      TakeOnto(content, rest) == Taken(content + rest[..report.validUpTo], rest[report.validUpTo..])
    ensures report.Bad? && report.errorLen.Some? ==>
      && 0 < report.errorLen.value <= |rest| - report.validUpTo
      && TakeOnto(content, rest) ==
           TakeOnto(content + rest[..report.validUpTo] + REPLACEMENT, rest[report.validUpTo..][report.errorLen.value..])
  {
    ReportIsSound(rest);
    TakeOntoIs(content, rest);
    if report.AllValid? {
      WholeIsTaken(rest);
    } else if report.errorLen.None? {
      ReportIsTaken(rest, report.validUpTo, None);
    } else {
      var k := report.validUpTo;
      BadIsReplaced(content, rest, k, report.errorLen.value);
      TakeOntoIs(content + rest[..k] + REPLACEMENT, rest[k..][report.errorLen.value..]);
    }
  }

  lemma ReportIsSound(s: Bytes)
    ensures FromUtf8(s).AllValid? ==> Valid(s)
    ensures FromUtf8(s).Bad? ==> Reports(s, FromUtf8(s))
    ensures FromUtf8(s).Bad? && FromUtf8(s).errorLen.Some? ==>
      0 < FromUtf8(s).errorLen.value && FromUtf8(s).validUpTo + FromUtf8(s).errorLen.value <= |s|
  {
    FromUtf8Reports(s);
  }

  lemma BadIsReplaced(before: Bytes, s: Bytes, validUpTo: nat, errorLen: nat)
    requires Reports(s, Bad(validUpTo, Some(errorLen)))
    ensures After(before, Take(s)) == After(before + s[..validUpTo] + REPLACEMENT, Take(s[validUpTo..][errorLen..]))
  {
    ReportIsTaken(s, validUpTo, Some(errorLen));
    var rest := s[validUpTo..][errorLen..];
    AfterAfter(before, s[..validUpTo] + REPLACEMENT, Take(rest));
    assert before + (s[..validUpTo] + REPLACEMENT) == before + s[..validUpTo] + REPLACEMENT;
  }

  lemma WholeIsTaken(s: Bytes)
    requires Valid(s)
    ensures Take(s) == Taken(s, [])
  {
    TakeAfterValid(s, []);
    assert s + [] == s;
  }

  lemma ReportIsTaken(s: Bytes, validUpTo: nat, errorLen: Option<nat>)
    requires Reports(s, Bad(validUpTo, errorLen))
    ensures errorLen.None? ==> Take(s) == Taken(s[..validUpTo], s[validUpTo..])
    ensures errorLen.Some? ==>
      Take(s) == After(s[..validUpTo] + REPLACEMENT, Take(s[validUpTo..][errorLen.value..]))
  {
    var valid, rest := s[..validUpTo], s[validUpTo..];
    assert s == valid + rest;
    TakeAfterValid(valid, rest);
    if errorLen.Some? {
      AfterAfter(valid, REPLACEMENT, Take(rest[errorLen.value..]));
    }
  }
}
