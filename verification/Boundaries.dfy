/** Where a text can be cut: between two characters, as the bytes on either side tell. */
module Boundaries {
  import opened Utf8

  predicate IsBoundary(s: Bytes, i: nat) {
    i <= |s| && (i == 0 || i == |s| || !IsTail(s[i]))
  }

  /** The last boundary at or before `i`. */
  function CutBelow(s: Bytes, i: nat): (k: nat)
    requires i <= |s|
    ensures k <= i && IsBoundary(s, k)
    ensures forall b :: k < b <= i ==> !IsBoundary(s, b)
  {
    if IsBoundary(s, i) then i else CutBelow(s, i - 1)
  }

  /** The first boundary at or after `i`. */
  function CutAbove(s: Bytes, i: nat): (k: nat)
    requires i <= |s|
    ensures i <= k <= |s| && IsBoundary(s, k)
    ensures forall b :: i <= b < k ==> !IsBoundary(s, b)
    decreases |s| - i
  {
    if IsBoundary(s, i) then i else CutAbove(s, i + 1)
  }

  /** The longest end of a text that is whole characters and fits `max` bytes. */
  function Suffix(s: Bytes, max: nat): (r: Bytes)
    ensures |r| <= max && |r| <= |s|
  {
    if |s| <= max then s else s[CutAbove(s, |s| - max)..]
  }

  // ---- Boundaries are where characters meet ----

  lemma ValidStarts(s: Bytes)
    requires Valid(s) && s != []
    ensures !IsTail(s[0]) && 0 < Width(s[0]) <= |s|
    ensures forall i :: 0 < i < Width(s[0]) ==> IsTail(s[i])
  {}

  /** A valid text splits at a boundary into two valid texts, and nowhere else. */
  lemma {:induction false} BoundarySplits(s: Bytes, i: nat)
    requires Valid(s) && i <= |s|
    ensures IsBoundary(s, i) <==> Valid(s[..i]) && Valid(s[i..])
    decreases |s|
  {
    if i == 0 {
      assert s[..0] == [] && s[0..] == s;
    } else {
      ValidStarts(s);
      var n := CharAt(s);
      CharAtIs(s);
      if i < n {
        SplitInside(s, i);
      } else {
        BoundarySplits(s[n..], i - n);
        SplitAfter(s[..n], s[n..], i - n);
        assert s == s[..n] + s[n..];
      }
    }
  }

  lemma SplitInside(s: Bytes, i: nat)
    requires Valid(s) && 0 < i < CharAt(s)
    ensures !IsBoundary(s, i) && !Valid(s[..i])
  {}

  lemma SplitAfter(c: Bytes, s: Bytes, i: nat)
    requires IsChar(c) && Valid(s) && i <= |s|
    requires IsBoundary(s, i) <==> Valid(s[..i]) && Valid(s[i..])
    ensures IsBoundary(c + s, |c| + i) <==> Valid((c + s)[..|c| + i]) && Valid((c + s)[|c| + i..])
  {
    assert (c + s)[..|c| + i] == c + s[..i] && (c + s)[|c| + i..] == s[i..];
    CharThen(c, s[..i]);
    if s != [] { ValidStarts(s); }
  }

  /** What `Suffix` keeps is whole characters, and no longer suffix within `max` is. */
  lemma SuffixIsLongest(s: Bytes, max: nat)
    requires Valid(s)
    ensures Valid(Suffix(s, max))
    ensures forall i :: 0 <= i <= |s| && |s| - i <= max && Valid(s[..i]) && Valid(s[i..]) ==> |s| - i <= |Suffix(s, max)|
  {
    if |s| > max { BoundarySplits(s, CutAbove(s, |s| - max)); }
    forall i | 0 <= i <= |s| && |s| - i <= max && Valid(s[..i]) && Valid(s[i..])
      ensures |s| - i <= |Suffix(s, max)|
    {
      BoundarySplits(s, i);
    }
  }

  /** What is cut off the front within `max` is whole characters too, and as many as fit. */
  lemma PrefixIsLongest(s: Bytes, max: nat)
    requires Valid(s) && max <= |s|
    ensures Valid(s[..CutBelow(s, max)]) && Valid(s[CutBelow(s, max)..])
    ensures forall i :: 0 <= i <= max && Valid(s[..i]) && Valid(s[i..]) ==> i <= CutBelow(s, max)
  {
    BoundarySplits(s, CutBelow(s, max));
    forall i | 0 <= i <= max && Valid(s[..i]) && Valid(s[i..]) ensures i <= CutBelow(s, max) {
      BoundarySplits(s, i);
    }
  }

  // ---- Texts put together ----

  predicate StartsWhole(s: Bytes) {
    s == [] || !IsTail(s[0])
  }

  lemma BoundaryOfRest(s: Bytes, k: nat, i: nat)
    requires IsBoundary(s, k) && k + i <= |s|
    ensures IsBoundary(s[k..], i) <==> IsBoundary(s, k + i)
  {}

  lemma BoundaryOfStart(a: Bytes, b: Bytes, i: nat)
    requires i <= |a| && StartsWhole(b)
    ensures IsBoundary(a + b, i) <==> IsBoundary(a, i)
  {}

  /** Trimming as text arrives keeps what trimming once at the end would. */
  lemma RollingSuffix(a: Bytes, b: Bytes, max: nat)
    requires StartsWhole(b)
    ensures Suffix(Suffix(a, max) + b, max) == Suffix(a + b, max)
  {
    if |a| > max {
      var k := CutAbove(a, |a| - max);
      var s, kept := a + b, a[k..] + b;
      assert s[k..] == kept;
      BoundaryOfStart(a, b, k);
      if |kept| <= max {
        CutIsAt(s, |s| - max, k, a, b);
      } else {
        SuffixOfRest(s, k, max);
      }
    }
  }

  lemma CutIsAt(s: Bytes, i: nat, k: nat, a: Bytes, b: Bytes)
    requires s == a + b && StartsWhole(b) && i <= k <= |a| && IsBoundary(s, k)
    requires forall c :: i <= c < k ==> !IsBoundary(a, c)
    ensures CutAbove(s, i) == k
  {
    forall c | i <= c < k ensures !IsBoundary(s, c) { BoundaryOfStart(a, b, c); }
  }

  lemma SuffixOfRest(s: Bytes, k: nat, max: nat)
    requires IsBoundary(s, k) && |s| - k > max
    ensures Suffix(s[k..], max) == Suffix(s, max)
  {
    CutIsShifted(s, k, |s| - k - max);
    DropTwice(s, k, CutAbove(s[k..], |s| - k - max));
  }

  lemma DropTwice(s: Bytes, k: nat, i: nat)
    requires k + i <= |s|
    ensures s[k..][i..] == s[k + i..]
  {}

  lemma CutIsShifted(s: Bytes, k: nat, i: nat)
    requires IsBoundary(s, k) && k + i <= |s|
    ensures CutAbove(s, k + i) == k + CutAbove(s[k..], i)
  {
    var c := CutAbove(s[k..], i);
    BoundaryOfRest(s, k, c);
    forall b | k + i <= b < k + c ensures !IsBoundary(s, b) { BoundaryOfRest(s, k, b - k); }
  }

  /** Characters are short: the next boundary is never more than three bytes away. */
  lemma CutAboveNear(s: Bytes, i: nat)
    requires Valid(s) && i <= |s|
    ensures CutAbove(s, i) <= i + 3
  {
    var k := CutBelow(s, i);
    if k < i {
      BoundarySplits(s, k);
      var w := NextBoundary(s, k);
    }
  }

  lemma NextBoundary(s: Bytes, k: nat) returns (w: nat)
    requires k < |s| && IsBoundary(s, k) && Valid(s[k..])
    ensures 0 < w <= 4 && IsBoundary(s, k + w)
  {
    var rest := s[k..];
    w := CharAt(rest);
    CharAtIs(rest);
    assert Valid(rest[w..]);
    if rest[w..] != [] { ValidStarts(rest[w..]); }
    assert IsBoundary(rest, w);
    BoundaryOfRest(s, k, w);
  }

  lemma SuffixIsNear(s: Bytes, max: nat)
    requires Valid(s) && |s| > max
    ensures |Suffix(s, max)| + 3 >= max
  {
    CutAboveNear(s, |s| - max);
  }
}
