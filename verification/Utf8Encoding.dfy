/**
  The grammar of `Utf8` against the encoding itself: a byte sequence is a character exactly when
  it is how section 3 of RFC 3629 encodes one scalar value.
 */
module Utf8Encodings {
  import opened Utf8

  /** Any code point but the surrogates. */
  predicate IsScalar(v: int) { 0 <= v <= 0x10FFFF && !(0xD800 <= v <= 0xDFFF) }

  /** A tail byte carries six bits. */
  function Tail(bits: int): byte
    requires 0 <= bits < 64
  {
    (0x80 + bits) as byte
  }

  function Encode(v: int): Bytes
    requires IsScalar(v)
  {
    var high := v / 64;
    if v < 0x80 then [v as byte]
    else if v < 0x800 then [(0xC0 + high) as byte, Tail(v % 64)]
    else if v < 0x10000 then [(0xE0 + high / 64) as byte, Tail(high % 64), Tail(v % 64)]
    else [(0xF0 + high / 64 / 64) as byte, Tail(high / 64 % 64), Tail(high % 64), Tail(v % 64)]
  }

  /** The bits before, and six more from a tail byte. */
  function Then(before: int, tail: byte): int {
    before * 64 + (tail as int - 0x80)
  }

  /** The scalar value a character stands for. */
  function ValueOf(c: Bytes): int
    requires IsChar(c)
  {
    match |c|
    case 1 => c[0] as int
    case 2 => Then(c[0] as int - 0xC0, c[1])
    case 3 => Then(Then(c[0] as int - 0xE0, c[1]), c[2])
    case _ => Then(Then(Then(c[0] as int - 0xF0, c[1]), c[2]), c[3])
  }

  lemma ThenSplits(before: int, tail: byte)
    requires IsTail(tail) && 0 <= before
    ensures Then(before, tail) / 64 == before && Then(before, tail) % 64 == tail as int - 0x80
  {}

  lemma EncodedIsChar(v: int)
    requires IsScalar(v)
    ensures IsChar(Encode(v)) && ValueOf(Encode(v)) == v
  {
    if v < 0x800 {
    } else if v < 0x10000 {
      EncodedInThree(v, v / 64, v / 64 / 64);
    } else {
      EncodedInFour(v, v / 64, v / 64 / 64, v / 64 / 64 / 64);
    }
  }

  lemma EncodedInThree(v: int, high: int, top: int)
    requires IsScalar(v) && 0x800 <= v < 0x10000 && high == v / 64 && top == high / 64
    ensures IsChar(Encode(v)) && ValueOf(Encode(v)) == v
  {
    var c := Encode(v);
    assert |c| == 3 && c[0] as int == 0xE0 + top && c[1] as int == 0x80 + high % 64 && c[2] as int == 0x80 + v % 64;
    assert IsTail(c[1]) && IsTail(c[2]);
    assert IsSecond(c[0], c[1]);
    assert Width(c[0]) == 3;
  }

  lemma EncodedInFour(v: int, high: int, top: int, first: int)
    requires IsScalar(v) && 0x10000 <= v && high == v / 64 && top == high / 64 && first == top / 64
    ensures IsChar(Encode(v)) && ValueOf(Encode(v)) == v
  {
    var c := Encode(v);
    assert |c| == 4 && c[0] as int == 0xF0 + first && c[1] as int == 0x80 + top % 64;
    assert c[2] as int == 0x80 + high % 64 && c[3] as int == 0x80 + v % 64;
    assert IsTail(c[1]) && IsTail(c[2]) && IsTail(c[3]);
    assert IsSecond(c[0], c[1]);
    assert Width(c[0]) == 4;
  }

  lemma CharIsEncoded(c: Bytes)
    requires IsChar(c)
    ensures IsScalar(ValueOf(c)) && Encode(ValueOf(c)) == c
  {
    match |c|
    case 1 =>
    case 2 => ThenSplits(c[0] as int - 0xC0, c[1]);
    case 3 => ThreeIsEncoded(c, c[0] as int - 0xE0);
    case _ => FourIsEncoded(c, c[0] as int - 0xF0);
  }

  lemma ThreeIsEncoded(c: Bytes, first: int)
    requires IsChar(c) && |c| == 3 && first == c[0] as int - 0xE0
    ensures IsScalar(ValueOf(c)) && Encode(ValueOf(c)) == c
  {
    ThenSplits(first, c[1]);
    ThenSplits(Then(first, c[1]), c[2]);
  }

  lemma FourIsEncoded(c: Bytes, first: int)
    requires IsChar(c) && |c| == 4 && first == c[0] as int - 0xF0
    ensures IsScalar(ValueOf(c)) && Encode(ValueOf(c)) == c
  {
    ThenSplits(first, c[1]);
    ThenSplits(Then(first, c[1]), c[2]);
    ThenSplits(Then(Then(first, c[1]), c[2]), c[3]);
  }

  ghost predicate Encodes(v: int, c: Bytes) {
    IsScalar(v) && Encode(v) == c
  }

  /** The characters are exactly the encodings, and each stands for one scalar value. */
  lemma CharIffEncoded(c: Bytes)
    ensures IsChar(c) <==> exists v :: Encodes(v, c)
    ensures forall v, w :: Encodes(v, c) && Encodes(w, c) ==> v == w
  {
    if IsChar(c) {
      CharIsEncoded(c);
      assert Encodes(ValueOf(c), c);
    }
    forall v | Encodes(v, c) ensures IsChar(c) && v == ValueOf(c) {
      EncodedIsChar(v);
    }
  }

  function EncodeAll(values: seq<int>): Bytes
    requires forall i :: 0 <= i < |values| ==> IsScalar(values[i])
  {
    if values == [] then [] else Encode(values[0]) + EncodeAll(values[1..])
  }

  ghost predicate IsText(values: seq<int>, s: Bytes) {
    (forall i :: 0 <= i < |values| ==> IsScalar(values[i])) && EncodeAll(values) == s
  }

  lemma {:induction false} TextIsValid(values: seq<int>)
    requires forall i :: 0 <= i < |values| ==> IsScalar(values[i])
    ensures Valid(EncodeAll(values))
  {
    if values != [] {
      EncodedIsChar(values[0]);
      CharIsValid(Encode(values[0]));
      TextIsValid(values[1..]);
      ValidConcat(Encode(values[0]), EncodeAll(values[1..]));
    }
  }

  lemma {:induction false} ValidIsText(s: Bytes) returns (values: seq<int>)
    requires Valid(s)
    ensures IsText(values, s)
    decreases |s|
  {
    values := [];
    if s != [] {
      var c, rest := s[..CharAt(s)], s[CharAt(s)..];
      CharAtIs(s);
      CharIsEncoded(c);
      var more := ValidIsText(rest);
      values := [ValueOf(c)] + more;
      assert s == c + rest && values[1..] == more;
    }
  }

  /** A byte sequence is valid exactly when it encodes some text. */
  lemma ValidIffText(s: Bytes)
    ensures Valid(s) <==> exists values :: IsText(values, s)
  {
    if Valid(s) {
      var values := ValidIsText(s);
    }
    forall values | IsText(values, s) ensures Valid(s) {
      TextIsValid(values);
    }
  }

  // ---- The decoding, character by character ----

  /** The longest start of a character there, or one byte if not even that starts one. */
  ghost predicate IsBadPart(s: Bytes, k: nat) {
    && 0 < k <= |s| && (forall n :: 0 <= n <= |s| ==> !IsChar(s[..n]))
    && (k == 1 || Completable(s[..k]))
    && (forall n :: k < n <= |s| ==> !Completable(s[..n]))
  }

  /** A character is kept as it is. */
  lemma CharIsKept(c: Bytes, s: Bytes)
    requires IsChar(c)
    ensures Decode(c + s) == c + Decode(s)
  {
    CharThen(c, s);
  }

  /** The longest part that can never be a character is replaced by one U+FFFD. */
  lemma BadPartIsReplaced(s: Bytes, k: nat)
    requires IsBadPart(s, k)
    ensures Decode(s) == Encode(0xFFFD) + Decode(s[k..])
  {
    CharAtIs(s);
    SubpartIsMaximal(s);
    ThisPart(s, k);
    FirstIsReplaced(s);
    ReplacementIsFffd();
  }

  lemma FirstIsReplaced(s: Bytes)
    requires |s| > 0 && CharAt(s) == 0
    ensures Decode(s) == REPLACEMENT + Decode(s[Subpart(s)..])
  {}

  lemma ReplacementIsFffd()
    ensures Encode(0xFFFD) == REPLACEMENT
  {
    assert 0xFFFD / 64 == 1023 && 0xFFFD % 64 == 61;
    assert 1023 / 64 == 15 && 1023 % 64 == 63;
  }

  lemma ThisPart(s: Bytes, k: nat)
    requires IsBadPart(s, k) && CharAt(s) == 0
    requires Subpart(s) > 1 ==> Completable(s[..Subpart(s)])
    requires forall n :: Subpart(s) < n <= |s| ==> !Completable(s[..n])
    ensures Subpart(s) == k
  {
    assert Subpart(s) <= k && k <= Subpart(s);
  }
}
