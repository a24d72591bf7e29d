/** Strings as JavaScript keeps them: sequences of 16-bit code units, read as UTF-16. */
module Utf16 {

  type Unit = u: int | 0 <= u <= 0xFFFF

  type Text = seq<Unit>

  predicate High(u: int) {
    0xD800 <= u <= 0xDBFF
  }

  predicate Low(u: int) {
    0xDC00 <= u <= 0xDFFF
  }

  predicate Surrogate(u: int) {
    High(u) || Low(u)
  }

  /** A high surrogate that no low one follows, or a low one that no high one precedes. */
  predicate Lone(s: Text, i: nat)
    requires i < |s|
  {
    || (High(s[i]) && !(i + 1 < |s| && Low(s[i + 1])))
    || (Low(s[i]) && !(0 < i && High(s[i - 1])))
  }

  /** Well-formed UTF-16, section 3.9 of the Unicode Standard: no lone surrogates. */
  ghost predicate WellFormed(s: Text) {
    forall i :: 0 <= i < |s| ==> !Lone(s, i)
  }

  /** The units of `s` from `i` on that are not lone surrogates of `s`. */
  function Paired(s: Text, i: nat): Text
    requires i <= |s|
    decreases |s| - i
  {
    if i == |s| then []
    else (if Lone(s, i) then [] else [s[i]]) + Paired(s, i + 1)
  }

  /** The string without its lone surrogates. */
  function RemoveLoneSurrogates(s: Text): Text {
    Paired(s, 0)
  }

  /** How many units the first character of a string takes when it is read by code points. */
  function Width(s: Text): (w: nat)
    requires s != []
    ensures 1 <= w <= |s|
  {
    if High(s[0]) && 1 < |s| && Low(s[1]) then 2 else 1
  }

  function FirstCodePoint(s: Text): int
    requires s != []
  {
    if Width(s) == 2 then 0x10000 + (s[0] as int - 0xD800) * 0x400 + (s[1] as int - 0xDC00) else s[0]
  }

  /** What a string iterator yields. */
  function CodePoints(s: Text): seq<int> {
    if s == [] then [] else [FirstCodePoint(s)] + CodePoints(s[Width(s)..])
  }

  // ----- Cutting and joining -----

  /** A position is a boundary when no character straddles it. */
  predicate Boundary(s: Text, i: nat)
    requires i <= |s|
  {
    i == |s| || !Low(s[i])
  }

  lemma WellFormedCut(s: Text, i: nat)
    requires WellFormed(s) && i <= |s| && Boundary(s, i)
    ensures WellFormed(s[..i]) && WellFormed(s[i..])
  {
    forall j | 0 <= j < i
      ensures !Lone(s[..i], j)
    {
      assert !Lone(s, j);
    }
    forall j | 0 <= j < |s| - i
      ensures !Lone(s[i..], j)
    {
      assert !Lone(s, i + j);
      assert s[i..][j] == s[i + j];
    }
  }

  lemma WellFormedJoin(a: Text, b: Text)
    requires WellFormed(a) && WellFormed(b)
    ensures WellFormed(a + b)
  {
    var s := a + b;
    forall i | 0 <= i < |s|
      ensures !Lone(s, i)
    {
      if i < |a| { assert !Lone(a, i); } else { assert !Lone(b, i - |a|); }
    }
  }

  lemma WellFormedFirst(s: Text)
    requires WellFormed(s) && s != []
    ensures WellFormed(s[Width(s)..]) && WellFormed(s[..Width(s)])
    ensures Boundary(s, Width(s))
    ensures Width(s) == 2 <==> Surrogate(s[0])
  {
    assert !Lone(s, 0);
    var w := Width(s);
    assert w < |s| ==> !Lone(s, w);
    WellFormedCut(s, w);
  }

  // ----- Removing lone surrogates -----

  lemma {:induction false} PairedIsWellFormed(s: Text, i: nat)
    requires i <= |s|
    requires i < |s| && 0 < i && High(s[i - 1]) ==> !Low(s[i])
    ensures WellFormed(Paired(s, i))
    decreases |s| - i
  {
    if i < |s| {
      if High(s[i]) && !Lone(s, i) {
        PairedIsWellFormed(s, i + 2);
        assert Paired(s, i) == [s[i], s[i + 1]] + Paired(s, i + 2);
        WellFormedJoin([s[i], s[i + 1]], Paired(s, i + 2));
      } else {
        PairedIsWellFormed(s, i + 1);
        if Lone(s, i) {
          assert Paired(s, i) == Paired(s, i + 1);
        } else {
          WellFormedJoin([s[i]], Paired(s, i + 1));
        }
      }
    }
  }

  lemma {:induction false} PairedKeeps(s: Text, i: nat)
    requires i <= |s| && WellFormed(s)
    ensures Paired(s, i) == s[i..]
    decreases |s| - i
  {
    if i < |s| { PairedKeeps(s, i + 1); }
  }

  /** Any sequence of code units becomes well-formed, and exactly the well-formed ones are unchanged. */
  lemma RemoveLoneSurrogatesIsRight(s: Text)
    ensures WellFormed(RemoveLoneSurrogates(s))
    ensures RemoveLoneSurrogates(s) == s <==> WellFormed(s)
  {
    PairedIsWellFormed(s, 0);
    if WellFormed(s) { PairedKeeps(s, 0); }
  }

  // ----- Reading by code points -----

  function NoSurrogates(codePoints: seq<int>): seq<int> {
    if codePoints == [] then []
    else (if Surrogate(codePoints[0]) then [] else [codePoints[0]]) + NoSurrogates(codePoints[1..])
  }

  lemma ReadFirst(a: Text, rest: Text)
    requires a != [] && Width(a + rest) == |a|
    ensures CodePoints(a + rest) == [FirstCodePoint(a + rest)] + CodePoints(rest)
  {
    assert (a + rest)[|a|..] == rest;
  }

  lemma NoSurrogatesFirst(c: int, rest: seq<int>)
    ensures NoSurrogates([c] + rest) == (if Surrogate(c) then [] else [c]) + NoSurrogates(rest)
  {
    assert ([c] + rest)[1..] == rest;
  }

  lemma {:induction false} PairedReads(s: Text, i: nat)
    requires i <= |s|
    requires i < |s| && 0 < i && High(s[i - 1]) ==> !Low(s[i])
    ensures CodePoints(Paired(s, i)) == NoSurrogates(CodePoints(s[i..]))
    decreases |s| - i
  {
    hide CodePoints, NoSurrogates;
    if i == |s| {
      NoneToRead();
    } else {
      var w := Width(s[i..]);
      PairedReads(s, i + w);
      PairedTakes(s, i);
      assert s[i..] == s[i..i + w] + s[i + w..];
      ReadFirst(s[i..i + w], s[i + w..]);
      NoSurrogatesFirst(FirstCodePoint(s[i..]), CodePoints(s[i + w..]));
      if Surrogate(FirstCodePoint(s[i..])) {
        assert Paired(s, i) == Paired(s, i + w);
      } else {
        ReadFirst(s[i..i + w], Paired(s, i + w));
      }
    }
  }

  lemma NoneToRead()
    ensures CodePoints([]) == [] && NoSurrogates([]) == []
  {
  }

  /** A step of the pass takes the character a reader takes, or drops it. */
  lemma PairedTakes(s: Text, i: nat)
    requires i < |s| && (0 < i && High(s[i - 1]) ==> !Low(s[i]))
    ensures var w, c := Width(s[i..]), FirstCodePoint(s[i..]);
            && (Surrogate(c) <==> Lone(s, i)) && (Surrogate(c) ==> w == 1)
            && Paired(s, i) == (if Surrogate(c) then [] else s[i..i + w]) + Paired(s, i + w)
            && (!Surrogate(c) ==>
                Width(s[i..i + w] + Paired(s, i + w)) == w && FirstCodePoint(s[i..i + w] + Paired(s, i + w)) == c)
  {
    if Width(s[i..]) == 2 {
      assert Paired(s, i + 1) == [s[i + 1]] + Paired(s, i + 2);
      assert s[i..i + 2] == [s[i], s[i + 1]];
    } else {
      assert s[i..i + 1] == [s[i]];
    }
  }

  /** Of any string exactly the characters survive, in their order: what is dropped is what a reader would see as a
      lone surrogate. */
  lemma RemovalKeepsCharacters(s: Text)
    ensures CodePoints(RemoveLoneSurrogates(s)) == NoSurrogates(CodePoints(s))
  {
    PairedReads(s, 0);
    assert s[0..] == s;
  }

  predicate Scalar(c: int) {
    0 <= c <= 0x10FFFF && !Surrogate(c)
  }

  function Encode(c: int): Text
    requires Scalar(c)
  {
    if c < 0x10000 then [c] else [0xD800 + (c - 0x10000) / 0x400, 0xDC00 + (c - 0x10000) % 0x400]
  }

  function EncodeAll(codePoints: seq<int>): Text
    requires forall i :: 0 <= i < |codePoints| ==> Scalar(codePoints[i])
  {
    if codePoints == [] then [] else Encode(codePoints[0]) + EncodeAll(codePoints[1..])
  }

  /** A well-formed string is read as Unicode scalar values, and encoding them gives it back. */
  lemma {:induction false} ReadingIsLossless(s: Text)
    requires WellFormed(s)
    ensures forall i :: 0 <= i < |CodePoints(s)| ==> Scalar(CodePoints(s)[i])
    ensures EncodeAll(CodePoints(s)) == s
  {
    if s != [] {
      WellFormedFirst(s);
      ReadingIsLossless(s[Width(s)..]);
      assert CodePoints(s)[1..] == CodePoints(s[Width(s)..]);
      assert Encode(FirstCodePoint(s)) == s[..Width(s)];
    }
  }
}
