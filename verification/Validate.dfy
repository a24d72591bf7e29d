/** Server-side text normalisation (src/messaging/validate.ts): a chain of rewriting passes over UTF-16. */
module Validate {
  import opened Utf16

  const LF: Unit := 0x0A
  const CR: Unit := 0x0D
  const SPACE: Unit := 0x20

  /** What the passes take from the Unicode tables: normalisation form C, the combining marks (\p{M}) and
      the visible characters (letters, numbers, symbols, punctuation). */
  datatype Unicode = Unicode(nfc: Text -> Text, mark: int -> bool, visible: int -> bool) {
    function Nfc(s: Text): Text { nfc(s) }

    predicate Mark(codePoint: int) { mark(codePoint) }

    predicate Visible(codePoint: int) { visible(codePoint) }

    /** Normalisation yields well-formed text, and no white space is a combining mark. */
    ghost predicate Sane() {
      && (forall s :: WellFormed(s) ==> WellFormed(Nfc(s)))
      && (forall c: Unit :: White(c) ==> !Mark(c))
    }
  }

  // ----- Character classes -----

  /** Tab, vertical tab, form feed, and the line and paragraph separators. */
  predicate Spacing(u: Unit) {
    u == 0x09 || u == 0x0B || u == 0x0C || u == 0x2028 || u == 0x2029
  }

  predicate Control(u: Unit) {
    u <= 0x09 || 0x0B <= u <= 0x1F || 0x7F <= u <= 0x9F
  }

  /** Bidi controls, zero-width and other invisible formatting; not the zero-width joiner. */
  predicate Invisible(u: Unit) {
    || u == 0xAD || u == 0x61C || u == 0x115F || u == 0x1160 || u == 0x17B4 || u == 0x17B5 || u == 0x180E
    || u == 0x200B || u == 0x200C || u == 0x200E || u == 0x200F || 0x202A <= u <= 0x202E || 0x2060 <= u <= 0x2064
    || 0x2066 <= u <= 0x206F || u == 0x3164 || u == 0xFEFF || u == 0xFFA0 || 0xFFF9 <= u <= 0xFFFB
  }

  /** White space and line terminators, as \s and trim() understand them. */
  predicate White(u: Unit) {
    || 0x09 <= u <= 0x0D || u == 0x20 || u == 0xA0 || u == 0x1680 || 0x2000 <= u <= 0x200A || u == 0x2028
    || u == 0x2029 || u == 0x202F || u == 0x205F || u == 0x3000 || u == 0xFEFF
  }

  predicate Clean(u: Unit) {
    !Spacing(u) && !Control(u) && !Invisible(u)
  }

  // ----- The passes -----

  /** Every \r\n and every other \r becomes \n. */
  function Newlines(s: Text): Text {
    if s == [] then []
    else if s[0] != CR then [s[0]] + Newlines(s[1..])
    else [LF] + Newlines(if 1 < |s| && s[1] == LF then s[2..] else s[1..])
  }

  function Respaced(s: Text): Text {
    seq(|s|, i requires 0 <= i < |s| =>
      if !Spacing(s[i]) then s[i] else if s[i] == 0x2028 || s[i] == 0x2029 then LF else SPACE)
  }

  datatype CharClass = CONTROL | INVISIBLE {
    predicate Has(u: Unit) { if this == CONTROL then Control(u) else Invisible(u) }
  }

  function Without(s: Text, class_: CharClass): Text {
    if s == [] then [] else (if class_.Has(s[0]) then [] else [s[0]]) + Without(s[1..], class_)
  }

  /** Keeps three marks of every run; `k` marks of the current run have been kept before `s`. */
  function CapMarks(s: Text, k: nat, u: Unicode): Text {
    if s == [] then []
    else
      var w := Width(s);
      if !u.Mark(FirstCodePoint(s)) then s[..w] + CapMarks(s[w..], 0, u)
      else if k < 3 then s[..w] + CapMarks(s[w..], k + 1, u)
      else CapMarks(s[w..], k, u)
  }

  /** The position of the first newline, or the length. */
  function LineEnd(s: Text): (n: nat)
    ensures n <= |s| && (forall i :: 0 <= i < n ==> s[i] != LF) && (n < |s| ==> s[n] == LF)
  {
    if s == [] || s[0] == LF then 0 else 1 + LineEnd(s[1..])
  }

  function Split(s: Text): (lines: seq<Text>)
    ensures lines != []
  {
    var n := LineEnd(s);
    if n == |s| then [s] else [s[..n]] + Split(s[n + 1..])
  }

  function Join(lines: seq<Text>, separator: Unit): Text
    requires lines != []
  {
    if |lines| == 1 then lines[0] else lines[0] + [separator] + Join(lines[1..], separator)
  }

  function TrimEnd(s: Text): (r: Text)
    ensures r <= s && (r == [] || !White(r[|r| - 1]))
    ensures |r| < |s| ==> White(s[|r|])
  {
    if s == [] || !White(s[|s| - 1]) then s else TrimEnd(s[..|s| - 1])
  }

  function TrimStart(s: Text): (r: Text)
    ensures |r| <= |s| && r == s[|s| - |r|..] && (r == [] || !White(r[0]))
    ensures |r| < |s| ==> White(s[|s| - |r| - 1])
  {
    if s == [] || !White(s[0]) then s else TrimStart(s[1..])
  }

  function TrimmedLines(lines: seq<Text>): (trimmed: seq<Text>)
    ensures |trimmed| == |lines|
  {
    seq(|lines|, i requires 0 <= i < |lines| => TrimEnd(lines[i]))
  }

  /** The end of the run of newlines that starts at `n`. */
  function RunEnd(s: Text, n: nat): (m: nat)
    requires n <= |s|
    ensures n <= m <= |s| && (forall i :: n <= i < m ==> s[i] == LF) && (m < |s| ==> s[m] != LF)
    decreases |s| - n
  {
    if n == |s| || s[n] != LF then n else RunEnd(s, n + 1)
  }

  /** Three newlines or more in a row become two. */
  function Collapse(s: Text): Text
    decreases |s|
  {
    var n := LineEnd(s);
    if n == |s| then s
    else
      var m := RunEnd(s, n);
      s[..if m - n < 3 then m else n + 2] + Collapse(s[m..])
  }

  /** Keeps the first lines and folds the rest into the last one. */
  function Fold(s: Text, maxLines: nat): Text
    requires 1 <= maxLines
  {
    var lines := Split(s);
    if |lines| <= maxLines then s
    else Join(lines[..maxLines - 1] + [Join(lines[maxLines - 1..], SPACE)], LF)
  }

  /** The string after every rewriting pass. */
  /** The passes over characters. */
  function Capped(raw: Text, u: Unicode): Text {
    var composed := u.Nfc(RemoveLoneSurrogates(raw));
    CapMarks(Without(Without(Respaced(Newlines(composed)), CONTROL), INVISIBLE), 0, u)
  }

  /** The passes over lines. */
  function Arranged(capped: Text, maxLines: nat): Text
    requires 1 <= maxLines
  {
    var trimmed := TrimEnd(TrimStart(Collapse(Join(TrimmedLines(Split(capped)), LF))));
    Fold(trimmed, maxLines)
  }

  function Rewritten(raw: Text, maxLines: nat, u: Unicode): Text
    requires 1 <= maxLines
  {
    Arranged(Capped(raw, u), maxLines)
  }

  predicate HasVisible(codePoints: seq<int>, u: Unicode) {
    exists i :: 0 <= i < |codePoints| && u.Visible(codePoints[i])
  }

  datatype Reason = TooLong | Invalid

  datatype ValidationResult = Accepted(text: Text) | Rejected(reason: Reason)

  datatype Limits = Limits(maxLength: nat, maxLines: nat)

  function Normalized(raw: Text, limits: Limits, u: Unicode): ValidationResult
    requires 1 <= limits.maxLines
  {
    var s := Rewritten(raw, limits.maxLines, u);
    if s == [] || !HasVisible(CodePoints(s), u) then Rejected(Invalid)
    else if limits.maxLength < |CodePoints(s)| then Rejected(TooLong)
    else Accepted(s)
  }

  method NormalizeText(raw: Text, limits: Limits, u: Unicode) returns (r: ValidationResult)
    requires 1 <= limits.maxLines
    ensures r == Normalized(raw, limits, u)
  {
    hide RemoveLoneSurrogates, Newlines, Respaced, Without, CapMarks, Split, Join, Collapse, Fold, TrimmedLines,
      TrimStart, TrimEnd, HasVisible, CodePoints;
    var s := RemoveLoneSurrogates(raw);
    s := u.Nfc(s);
    s := Newlines(s);
    s := Respaced(s);
    s := Without(s, CONTROL);
    s := Without(s, INVISIBLE);
    s := CapMarks(s, 0, u);
    s := Join(TrimmedLines(Split(s)), LF);
    s := Collapse(s);
    s := TrimEnd(TrimStart(s));
    s := Fold(s, limits.maxLines);
    if s == [] || !HasVisible(CodePoints(s), u) {
      return Rejected(Invalid);
    }
    var tooLong := Exceeds(s, limits.maxLength);
    r := if tooLong then Rejected(TooLong) else Accepted(s);
  }

  /** The counting loop: it stops at the first code point too many. */
  method Exceeds(s: Text, maxLength: nat) returns (tooLong: bool)
    ensures tooLong <==> maxLength < |CodePoints(s)|
  {
    var count := 0;
    var rest := s;
    while rest != []
      invariant count + |CodePoints(rest)| == |CodePoints(s)|
      invariant count <= maxLength
      decreases |rest|
    {
      count := count + 1;
      if maxLength < count {
        return true;
      }
      rest := rest[Width(rest)..];
    }
    return false;
  }

  // ----- The normal form -----

  ghost predicate AllClean(s: Text) {
    forall i :: 0 <= i < |s| ==> Clean(s[i])
  }

  /** No four combining marks in a row. */
  ghost predicate NoMarkFlood(codePoints: seq<int>, u: Unicode) {
    forall i :: 0 <= i && i + 3 < |codePoints| ==>
      !(u.Mark(codePoints[i]) && u.Mark(codePoints[i + 1]) && u.Mark(codePoints[i + 2]) && u.Mark(codePoints[i + 3]))
  }

  ghost predicate NoTripleNewline(s: Text) {
    forall i :: 0 <= i && i + 2 < |s| ==> !(s[i] == LF && s[i + 1] == LF && s[i + 2] == LF)
  }

  predicate Trimmed(line: Text) {
    line == [] || !White(line[|line| - 1])
  }

  ghost predicate AllTrimmed(lines: seq<Text>) {
    forall i :: 0 <= i < |lines| ==> Trimmed(lines[i])
  }

  /** What an accepted text looks like. */
  ghost predicate NormalForm(s: Text, limits: Limits, u: Unicode) {
    && WellFormed(s)
    && AllClean(s)
    && NoMarkFlood(CodePoints(s), u)
    && NoTripleNewline(s)
    && AllTrimmed(Split(s))
    && s != [] && !White(s[0]) && !White(s[|s| - 1])
    && |Split(s)| <= limits.maxLines
    && |CodePoints(s)| <= limits.maxLength
    && HasVisible(CodePoints(s), u)
  }

  // ----- Runs of marks, scanned from left to right -----

  /** No run of four marks, when `k` marks precede. */
  ghost predicate Calm(s: Text, k: nat, u: Unicode) {
    s == [] ||
    (if u.Mark(FirstCodePoint(s)) then k < 3 && Calm(s[Width(s)..], k + 1, u) else Calm(s[Width(s)..], 0, u))
  }

  ghost function LeadingMarks(codePoints: seq<int>, u: Unicode): nat {
    if codePoints == [] || !u.Mark(codePoints[0]) then 0 else 1 + LeadingMarks(codePoints[1..], u)
  }

  lemma {:induction false} CalmMeaning(s: Text, k: nat, u: Unicode)
    ensures k <= 3 ==> (Calm(s, k, u) <==> k + LeadingMarks(CodePoints(s), u) <= 3 && NoMarkFlood(CodePoints(s), u))
  {
    hide NoMarkFlood, FirstCodePoint, Width;
    if s != [] {
      var c, rest := CodePoints(s), s[Width(s)..];
      assert c[1..] == CodePoints(rest);
      FloodHead(c, u);
      if NoMarkFlood(CodePoints(rest), u) { FloodStart(CodePoints(rest), u); }
      CalmMeaning(rest, if u.Mark(c[0]) then k + 1 else 0, u);
      assert LeadingMarks(c, u) == if u.Mark(c[0]) then 1 + LeadingMarks(CodePoints(rest), u) else 0;
    } else {
      NothingFloods(u);
    }
  }

  lemma NothingFloods(u: Unicode)
    ensures NoMarkFlood([], u)
  {
  }

  lemma FloodHead(c: seq<int>, u: Unicode)
    requires c != []
    ensures NoMarkFlood(c, u) <==> LeadingMarks(c, u) <= 3 && NoMarkFlood(c[1..], u)
  {
    FourLeading(c, u);
    assert forall i :: 0 <= i < |c| - 1 ==> c[1..][i] == c[i + 1];
    if LeadingMarks(c, u) <= 3 && NoMarkFlood(c[1..], u) {
      forall i | 0 <= i && i + 3 < |c|
        ensures !(u.Mark(c[i]) && u.Mark(c[i + 1]) && u.Mark(c[i + 2]) && u.Mark(c[i + 3]))
      {
        if 0 < i { assert c[1..][i - 1] == c[i]; }
      }
    }
  }

  lemma FourLeading(c: seq<int>, u: Unicode)
    ensures LeadingMarks(c, u) <= 3 <==> !(3 < |c| && u.Mark(c[0]) && u.Mark(c[1]) && u.Mark(c[2]) && u.Mark(c[3]))
  {
    if 3 < |c| {
      var c1 := c[1..];
      var c2 := c1[1..];
      var c3 := c2[1..];
      assert LeadingMarks(c3, u) == 0 <==> !u.Mark(c[3]);
      assert LeadingMarks(c2, u) == if u.Mark(c[2]) then 1 + LeadingMarks(c3, u) else 0;
      assert LeadingMarks(c1, u) == if u.Mark(c[1]) then 1 + LeadingMarks(c2, u) else 0;
    } else {
      LeadingAtMost(c, u);
    }
  }

  lemma FloodStart(c: seq<int>, u: Unicode)
    requires NoMarkFlood(c, u)
    ensures LeadingMarks(c, u) <= 3
  {
    FourLeading(c, u);
    hide LeadingMarks;
    if 3 < |c| { assert !(u.Mark(c[0]) && u.Mark(c[0 + 1]) && u.Mark(c[0 + 2]) && u.Mark(c[0 + 3])); }
  }

  lemma LeadingAtMost(c: seq<int>, u: Unicode)
    ensures LeadingMarks(c, u) <= |c|
  {
  }
}
