/** What each pass of the normalisation (src/messaging/validate.ts) keeps, position by position: every unit of a
    result is read off the text before the pass, in order, and the positions that are left out are named. */
module Passes {
  import opened Utf16
  import opened Validate
  import opened NormalForm
  import opened Positions

  // ----- Newlines and spaces -----

  /** A carriage return reads as a line feed. */
  function AsNewline(s: Text): (r: Text)
    ensures |r| == |s| && forall i :: 0 <= i < |s| ==> r[i] == if s[i] == CR then LF else s[i]
  {
    seq(|s|, i requires 0 <= i < |s| => if s[i] == CR then LF else s[i])
  }

  /** Everything but the second half of a \r\n. */
  ghost function NotAfterCr(s: Text): (marked: seq<bool>)
    ensures |marked| == |s| && forall i :: 0 <= i < |s| ==> marked[i] == !(s[i] == LF && 0 < i && s[i - 1] == CR)
  {
    seq(|s|, i requires 0 <= i < |s| => !(s[i] == LF && 0 < i && s[i - 1] == CR))
  }

  lemma {:induction false} NewlinesKeep(s: Text) returns (pos: seq<nat>)
    ensures Keeps(AsNewline(s), Newlines(s), pos, NotAfterCr(s))
  {
    if s == [] {
      pos := [];
    } else {
      var d := if s[0] == CR && 1 < |s| && s[1] == LF then 2 else 1;
      var more := NewlinesKeep(s[d..]);
      NewlinesFirst(s, d);
      hide Newlines, Keeps;
      pos := KeepsOn(AsNewline(s), 1, d, Newlines(s[d..]), more, NotAfterCr(s[d..]), NotAfterCr(s));
    }
  }

  lemma NewlinesFirst(s: Text, d: nat)
    requires s != [] && d == if s[0] == CR && 1 < |s| && s[1] == LF then 2 else 1
    ensures AsNewline(s)[d..] == AsNewline(s[d..]) && NotAfterCr(s) == First(1, d) + NotAfterCr(s[d..])
    ensures Newlines(s) == AsNewline(s)[..1] + Newlines(s[d..])
  {
    hide *;
    NewlinesUnfolds(s, d);
    AsNewlineFirst(s, d);
    CrFirst(s, d);
  }

  lemma AsNewlineFirst(s: Text, d: nat)
    requires 1 <= d <= |s|
    ensures AsNewline(s)[d..] == AsNewline(s[d..]) && AsNewline(s)[..1] == [if s[0] == CR then LF else s[0]]
  {
    var all, tail, rest := AsNewline(s), AsNewline(s[d..]), s[d..];
    forall i | d <= i < |s|
      ensures all[i] == tail[i - d]
    {
      assert rest[i - d] == s[i];
    }
    hide AsNewline;
    assert |all[d..]| == |tail| && forall i :: 0 <= i < |tail| ==> all[d..][i] == tail[i];
  }

  lemma CrFirst(s: Text, d: nat)
    requires s != [] && d == if s[0] == CR && 1 < |s| && s[1] == LF then 2 else 1
    ensures NotAfterCr(s) == First(1, d) + NotAfterCr(s[d..])
  {
    var all, head, tail, rest := NotAfterCr(s), First(1, d), NotAfterCr(s[d..]), s[d..];
    forall i | d <= i < |s|
      ensures all[i] == tail[i - d]
    {
      assert rest[i - d] == s[i] && (d < i ==> rest[i - d - 1] == s[i - 1]);
    }
    assert forall i :: 0 <= i < d ==> all[i] == head[i];
    hide NotAfterCr, First;
    assert |all| == |head + tail| && forall i :: 0 <= i < |all| ==> all[i] == (head + tail)[i];
  }

  lemma NewlinesUnfolds(s: Text, d: nat)
    requires s != [] && d == if s[0] == CR && 1 < |s| && s[1] == LF then 2 else 1
    ensures Newlines(s) == [if s[0] == CR then LF else s[0]] + Newlines(s[d..])
  {
  }

  /** The line feeds that follow a carriage return are left out; of the rest, a carriage return reads as a line feed
      and every other unit as itself. */
  lemma NewlinesByPosition(s: Text) returns (pos: seq<nat>)
    ensures forall a, b :: 0 <= a < b < |pos| ==> pos[a] < pos[b]
    ensures forall i: nat :: i in pos <==> i < |s| && !(s[i] == LF && 0 < i && s[i - 1] == CR)
    ensures |Newlines(s)| == |pos|
    ensures forall a :: 0 <= a < |pos| ==>
              pos[a] < |s| && Newlines(s)[a] == if s[pos[a]] == CR then LF else s[pos[a]]
  {
    pos := NewlinesKeep(s);
  }

  // ----- What is removed -----

  ghost function Unpaired(s: Text): (marked: seq<bool>)
    ensures |marked| == |s| && forall i :: 0 <= i < |s| ==> marked[i] == !Lone(s, i)
  {
    seq(|s|, i requires 0 <= i < |s| => !Lone(s, i))
  }

  lemma {:induction false} PairedKeep(s: Text, i: nat) returns (pos: seq<nat>)
    requires i <= |s|
    ensures Keeps(s[i..], Paired(s, i), pos, Unpaired(s)[i..])
    decreases |s| - i
  {
    if i == |s| {
      pos := [];
    } else {
      var more := PairedKeep(s, i + 1);
      var n := if Lone(s, i) then 0 else 1;
      assert s[i..][1..] == s[i + 1..];
      assert Unpaired(s)[i..] == First(n, 1) + Unpaired(s)[i + 1..];
      assert Paired(s, i) == s[i..][..n] + Paired(s, i + 1);
      hide Paired, Keeps;
      pos := KeepsOn(s[i..], n, 1, Paired(s, i + 1), more, Unpaired(s)[i + 1..], Unpaired(s)[i..]);
    }
  }

  ghost function Outside(s: Text, c: CharClass): (marked: seq<bool>)
    ensures |marked| == |s| && forall i :: 0 <= i < |s| ==> marked[i] == !c.Has(s[i])
  {
    seq(|s|, i requires 0 <= i < |s| => !c.Has(s[i]))
  }

  lemma {:induction false} WithoutKeep(s: Text, c: CharClass) returns (pos: seq<nat>)
    ensures Keeps(s, Without(s, c), pos, Outside(s, c))
  {
    if s == [] {
      pos := [];
    } else {
      var more := WithoutKeep(s[1..], c);
      var n := if c.Has(s[0]) then 0 else 1;
      OutsideFirst(s, c, n);
      hide Without, Keeps, Control, Invisible;
      pos := KeepsOn(s, n, 1, Without(s[1..], c), more, Outside(s[1..], c), Outside(s, c));
    }
  }

  lemma OutsideFirst(s: Text, c: CharClass, n: nat)
    requires s != [] && n == if c.Has(s[0]) then 0 else 1
    ensures Outside(s, c) == First(n, 1) + Outside(s[1..], c)
    ensures Without(s, c) == s[..n] + Without(s[1..], c)
  {
    hide Control, Invisible;
    assert s[..1] == [s[0]];
  }

  // ----- Marks -----

  ghost function Sparing(codePoints: seq<int>, u: Unicode): (marked: seq<bool>)
    ensures |marked| == |codePoints|
    ensures forall i :: 0 <= i < |codePoints| ==> marked[i] == Spared(codePoints, i, u)
  {
    seq(|codePoints|, i requires 0 <= i < |codePoints| => Spared(codePoints, i, u))
  }

  lemma {:induction false} SparedKeep(codePoints: seq<int>, i: nat, u: Unicode) returns (pos: seq<nat>)
    requires i <= |codePoints|
    ensures Keeps(codePoints[i..], SparedFrom(codePoints, i, u), pos, Sparing(codePoints, u)[i..])
    decreases |codePoints| - i
  {
    if i == |codePoints| {
      pos := [];
    } else {
      var more := SparedKeep(codePoints, i + 1, u);
      var n := if Spared(codePoints, i, u) then 1 else 0;
      assert codePoints[i..][1..] == codePoints[i + 1..];
      assert Sparing(codePoints, u)[i..] == First(n, 1) + Sparing(codePoints, u)[i + 1..];
      assert SparedFrom(codePoints, i, u) == codePoints[i..][..n] + SparedFrom(codePoints, i + 1, u);
      hide SparedFrom, Keeps;
      pos := KeepsOn(codePoints[i..], n, 1, SparedFrom(codePoints, i + 1, u), more, Sparing(codePoints, u)[i + 1..],
                     Sparing(codePoints, u)[i..]);
    }
  }

  // ----- Lines -----

  /** Is there something other than white space at `i` or after it in its line? */
  ghost predicate Needed(s: Text, i: nat)
    requires i < |s|
  {
    s[i] == LF || exists j :: i <= j < |s| && !White(s[j]) && forall x :: i <= x <= j ==> s[x] != LF
  }

  ghost function NeededIn(s: Text): (marked: seq<bool>)
    ensures |marked| == |s| && forall i :: 0 <= i < |s| ==> marked[i] == Needed(s, i)
  {
    seq(|s|, i requires 0 <= i < |s| => Needed(s, i))
  }

  function LinesTrimmed(s: Text): Text {
    Join(TrimmedLines(Split(s)), LF)
  }

  lemma {:induction false} TrimmedLinesKeepNeeded(s: Text) returns (pos: seq<nat>)
    ensures Keeps(s, LinesTrimmed(s), pos, NeededIn(s))
  {
    hide Split, Join, TrimmedLines, Needed, White, Keeps, LinesTrimmed, TrimEnd;
    var n := LineEnd(s);
    var m := |TrimEnd(s[..n])|;
    assert TrimEnd(s[..n]) == s[..m];
    NeededUpTo(s, n, m);
    if n == |s| {
      assert s[..n] == s;
      OneTrimmed(s);
      pos := KeepsFirst(s, m);
      assert NeededIn(s) == First(m, n);
    } else {
      var rest := s[n + 1..];
      var more := TrimmedLinesKeepNeeded(rest);
      NeededAfter(s, n);
      SplitTrimmed(s, n);
      NewlineNeeded(s, n);
      pos := LineThenRest(s, n, m, LinesTrimmed(rest), more, NeededIn(rest), NeededIn(s));
    }
  }

  lemma NewlineNeeded(s: Text, n: nat)
    requires n < |s| && s[n] == LF
    ensures Needed(s, n)
  {
  }

  lemma OneTrimmed(s: Text)
    requires LineEnd(s) == |s|
    ensures LinesTrimmed(s) == TrimEnd(s)
  {
    hide TrimEnd;
  }

  /** What is left of the first line, its newline, and what is left of the rest. */
  lemma LineThenRest(s: Text, n: nat, m: nat, r: Text, more: seq<nat>, marked: seq<bool>, both: seq<bool>)
    returns (pos: seq<nat>)
    requires m <= n < |s| && s[n] == LF && Keeps(s[n + 1..], r, more, marked) && |both| == |s|
             && |marked| == |s| - n - 1
    requires (forall i :: 0 <= i < n ==> both[i] == (i < m)) && both[n] && both[n + 1..] == marked
    ensures Keeps(s, s[..m] + [LF] + r, pos, both)
  {
    hide Keeps;
    assert s[n..][1..] == s[n + 1..] && s[n..][..1] == [LF];
    assert both[n..] == First(1, 1) + marked;
    var newline := KeepsOn(s[n..], 1, 1, r, more, marked, both[n..]);
    assert both == First(m, n) + both[n..];
    pos := KeepsOn(s, m, n, [LF] + r, newline, both[n..], both);
    assert s[..m] + ([LF] + r) == s[..m] + [LF] + r;
  }

  lemma SplitTrimmed(s: Text, n: nat)
    requires n == LineEnd(s) < |s|
    ensures LinesTrimmed(s) == TrimEnd(s[..n]) + [LF] + LinesTrimmed(s[n + 1..])
  {
    hide TrimEnd, White, Split;
    var line, rest := s[..n], s[n + 1..];
    assert Split(s) == [line] + Split(rest) by { SplitOnce(s, n); }
    var lines := TrimmedLines(Split(s));
    assert lines[0] == TrimEnd(line) && lines[1..] == TrimmedLines(Split(rest));
  }

  lemma SplitOnce(s: Text, n: nat)
    requires n == LineEnd(s) < |s|
    ensures Split(s) == [s[..n]] + Split(s[n + 1..])
  {
  }

  /** Of the first line what is needed is what trimming leaves. */
  lemma NeededUpTo(s: Text, n: nat, m: nat)
    requires n == LineEnd(s) && m == |TrimEnd(s[..n])|
    ensures forall i :: 0 <= i < n ==> (Needed(s, i) <==> i < m)
  {
    var line := TrimEnd(s[..n]);
    TrimEndDrops(s[..n]);
    hide TrimEnd, White;
    forall i | m <= i < n
      ensures White(s[i])
    {
      assert s[..n][i] == s[i];
    }
    forall i | 0 <= i < n
      ensures Needed(s, i) <==> i < m
    {
      if i < m { assert s[m - 1] == line[m - 1]; }
    }
  }

  lemma {:induction false} TrimEndDrops(s: Text)
    ensures forall i :: |TrimEnd(s)| <= i < |s| ==> White(s[i])
  {
    if s != [] && White(s[|s| - 1]) { TrimEndDrops(s[..|s| - 1]); }
  }

  lemma {:induction false} TrimStartDrops(s: Text)
    ensures forall i :: 0 <= i < |s| - |TrimStart(s)| ==> White(s[i])
  {
    if s != [] && White(s[0]) { TrimStartDrops(s[1..]); }
  }

  lemma NeededAfter(s: Text, n: nat)
    requires n < |s|
    ensures NeededIn(s)[n + 1..] == NeededIn(s[n + 1..])
  {
    hide White;
    var rest := s[n + 1..];
    assert forall i :: 0 <= i < |rest| ==> rest[i] == s[n + 1 + i];
    forall i | 0 <= i < |rest|
      ensures Needed(s, n + 1 + i) <==> Needed(rest, i)
    {
      if Needed(s, n + 1 + i) && s[n + 1 + i] != LF {
        var j :| n + 1 + i <= j < |s| && !White(s[j]) && forall x :: n + 1 + i <= x <= j ==> s[x] != LF;
        assert forall x :: i <= x <= j - n - 1 ==> s[n + 1 + x] == rest[x];
        assert !White(rest[j - n - 1]);
      }
      if Needed(rest, i) && rest[i] != LF {
        var j :| i <= j < |rest| && !White(rest[j]) && forall x :: i <= x <= j ==> rest[x] != LF;
        assert forall x :: n + 1 + i <= x <= n + 1 + j ==> s[x] != LF;
        assert !White(s[n + 1 + j]);
      }
    }
  }

  /** Everything but the third newline of a run, and those after it. */
  ghost function NotThird(s: Text): (marked: seq<bool>)
    ensures |marked| == |s|
    ensures forall i :: 0 <= i < |s| ==> marked[i] == !(s[i] == LF && 2 <= i && s[i - 1] == LF && s[i - 2] == LF)
  {
    seq(|s|, i requires 0 <= i < |s| => !(s[i] == LF && 2 <= i && s[i - 1] == LF && s[i - 2] == LF))
  }

  lemma {:induction false} CollapseKeep(s: Text) returns (pos: seq<nat>)
    ensures Keeps(s, Collapse(s), pos, NotThird(s))
    decreases |s|
  {
    var n := LineEnd(s);
    if n == |s| {
      pos := KeepsFirst(s, |s|);
      assert NotThird(s) == First(|s|, |s|) && s[..|s|] == s;
    } else {
      var m := RunEnd(s, n);
      var x := if m - n < 3 then m else n + 2;
      var more := CollapseKeep(s[m..]);
      NotThirdOf(s, n, m, x);
      hide Keeps, Collapse;
      assert Collapse(s) == s[..x] + Collapse(s[m..]) by { CollapseOnce(s, n, m, x); }
      pos := KeepsOn(s, x, m, Collapse(s[m..]), more, NotThird(s[m..]), NotThird(s));
    }
  }

  lemma NotThirdOf(s: Text, n: nat, m: nat, x: nat)
    requires n < m <= |s| && x == (if m - n < 3 then m else n + 2) && (m < |s| ==> s[m] != LF)
    requires (forall i :: 0 <= i < n ==> s[i] != LF) && forall i :: n <= i < m ==> s[i] == LF
    ensures NotThird(s) == First(x, m) + NotThird(s[m..])
  {
    var all, head, tail := NotThird(s), First(x, m), NotThird(s[m..]);
    forall i | 0 <= i < m
      ensures all[i] == head[i]
    {
    }
    forall i | m <= i < |s|
      ensures all[i] == tail[i - m]
    {
      NotThirdLater(s, m, i);
    }
    hide NotThird, First;
    assert |all| == |head + tail| && forall i :: 0 <= i < |all| ==> all[i] == (head + tail)[i];
  }

  lemma NotThirdLater(s: Text, m: nat, i: nat)
    requires m <= i < |s| && s[m] != LF
    ensures NotThird(s)[i] == NotThird(s[m..])[i - m]
  {
    var rest := s[m..];
    assert rest[i - m] == s[i] && (m < i ==> rest[i - m - 1] == s[i - 1])
           && (m + 1 < i ==> rest[i - m - 2] == s[i - 2]);
  }

  lemma CollapseOnce(s: Text, n: nat, m: nat, x: nat)
    requires n == LineEnd(s) < |s| && m == RunEnd(s, n) && x == if m - n < 3 then m else n + 2
    ensures n < m && Collapse(s) == s[..x] + Collapse(s[m..])
  {
  }

  // ----- Folding -----

  /** How many newlines there are before position `i`. */
  ghost function Line(s: Text, i: nat): nat
    requires i <= |s|
  {
    if i == 0 then 0 else Line(s, i - 1) + if s[i - 1] == LF then 1 else 0
  }

  lemma {:induction false} LineIn(s: Text, from: nat, i: nat)
    requires from + i <= |s|
    ensures Line(s, from + i) == Line(s, from) + Line(s[from..], i)
  {
    if 0 < i { LineIn(s, from, i - 1); }
  }

  lemma {:induction false} NoNewlineBefore(s: Text, n: nat)
    requires n <= |s| && OneLine(s[..n])
    ensures Line(s, n) == 0
  {
    if 0 < n {
      assert s[n - 1] == s[..n][n - 1] && forall i :: 0 <= i < n - 1 ==> s[..n - 1][i] == s[..n][i];
      NoNewlineBefore(s, n - 1);
    }
  }

  lemma {:induction false} LineMonotone(s: Text, i: nat, j: nat)
    requires i <= j <= |s|
    ensures Line(s, i) <= Line(s, j)
  {
    if i < j { LineMonotone(s, i, j - 1); }
  }

  /** From line `maxLines` on, counted from one, newlines read as spaces. */
  ghost predicate Folds(s: Text, t: Text, maxLines: nat) {
    |t| == |s| && forall i :: 0 <= i < |s| ==> t[i] == if s[i] == LF && maxLines <= Line(s, i) + 1 then SPACE else s[i]
  }

  /** A text has a line more than newlines. */
  lemma {:induction false} LinesCount(s: Text)
    ensures |Split(s)| == Line(s, |s|) + 1
  {
    var n := LineEnd(s);
    assert OneLine(s[..n]);
    NoNewlineBefore(s, n);
    hide OneLine;
    if n < |s| {
      var rest := s[n + 1..];
      assert Line(s, n + 1) == 1;
      SplitOnce(s, n);
      hide Split, Line;
      LinesCount(rest);
      LineIn(s, n + 1, |rest|);
    }
  }

  lemma {:induction false} FoldKeep(s: Text, maxLines: nat)
    requires 1 <= maxLines
    ensures Folds(s, Fold(s, maxLines), maxLines)
  {
    var lines := Split(s);
    LinesCount(s);
    JoinSplit(s);
    if |lines| <= maxLines {
      forall i | 0 <= i < |s| && s[i] == LF
        ensures Line(s, i) + 1 < maxLines
      {
        LineMonotone(s, i + 1, |s|);
      }
    } else if maxLines == 1 {
      JoinSpaces(lines);
      assert lines[..0] + [Join(lines[0..], SPACE)] == [Join(lines, SPACE)] by { assert lines[0..] == lines; }
    } else {
      var n := LineEnd(s);
      FoldKeep(s[n + 1..], maxLines - 1);
      FoldOnce(s, n, maxLines);
      NoNewlineBefore(s, n);
      hide Fold, Split, Join;
      FoldsOn(s, n, Fold(s[n + 1..], maxLines - 1), maxLines);
    }
  }

  lemma FoldOnce(s: Text, n: nat, maxLines: nat)
    requires n == LineEnd(s) < |s| && 2 <= maxLines < |Split(s)|
    ensures Fold(s, maxLines) == s[..n] + [LF] + Fold(s[n + 1..], maxLines - 1)
  {
    var rest := Split(s[n + 1..]);
    var back := Join(rest[maxLines - 2..], SPACE);
    assert Split(s)[..maxLines - 1] == [s[..n]] + rest[..maxLines - 2];
    assert Split(s)[maxLines - 1..] == rest[maxLines - 2..];
    var lines := Split(s)[..maxLines - 1] + [back];
    assert lines[1..] == rest[..maxLines - 2] + [back];
  }

  lemma FoldsOn(s: Text, n: nat, t: Text, maxLines: nat)
    requires n < |s| && OneLine(s[..n]) && s[n] == LF && Line(s, n) == 0 && 2 <= maxLines
    requires Folds(s[n + 1..], t, maxLines - 1)
    ensures Folds(s, s[..n] + [LF] + t, maxLines)
  {
    var r := s[..n] + [LF] + t;
    forall i | 0 <= i < |s|
      ensures r[i] == if s[i] == LF && maxLines <= Line(s, i) + 1 then SPACE else s[i]
    {
      if i < n {
        assert s[i] == s[..n][i] == r[i];
      } else if n < i {
        FoldsLater(s, n, t, maxLines, i);
        assert r[i] == t[i - n - 1];
      }
    }
  }

  lemma FoldsLater(s: Text, n: nat, t: Text, maxLines: nat, i: nat)
    requires n < i < |s| && s[n] == LF && Line(s, n) == 0 && 2 <= maxLines && Folds(s[n + 1..], t, maxLines - 1)
    ensures t[i - n - 1] == if s[i] == LF && maxLines <= Line(s, i) + 1 then SPACE else s[i]
  {
    LineIn(s, n + 1, i - n - 1);
    assert s[n + 1..][i - n - 1] == s[i];
  }

  // ----- All of them, in order -----

  /** The line feeds that follow a carriage return are left out; of the rest, a carriage return reads as a line feed. */
  ghost predicate NewlinesRead(s: Text, r: Text) {
    exists pos :: Keeps(AsNewline(s), r, pos, NotAfterCr(s))
  }

  /** Tab, vertical tab and form feed read as a space, the line and the paragraph separator as a line feed. */
  ghost predicate SpacesRead(s: Text, r: Text) {
    |r| == |s| && forall i :: 0 <= i < |s| ==>
      r[i] == if s[i] == 0x09 || s[i] == 0x0B || s[i] == 0x0C then SPACE
              else if s[i] == 0x2028 || s[i] == 0x2029 then LF
              else s[i]
  }

  ghost predicate Removed(s: Text, r: Text, c: CharClass) {
    exists pos :: Keeps(s, r, pos, Outside(s, c))
  }

  ghost predicate LoneRemoved(s: Text, r: Text) {
    exists pos :: Keeps(s, r, pos, Unpaired(s))
  }

  /** Of the characters, marks that follow three marks are left out. */
  ghost predicate MarksCapped(s: Text, r: Text, u: Unicode) {
    WellFormed(r) && exists pos :: Keeps(CodePoints(s), CodePoints(r), pos, Sparing(CodePoints(s), u))
  }

  /** White space at the end of a line is left out. */
  ghost predicate LinesAreTrimmed(s: Text, r: Text) {
    exists pos :: Keeps(s, r, pos, NeededIn(s))
  }

  ghost predicate NewlinesCollapsed(s: Text, r: Text) {
    exists pos :: Keeps(s, r, pos, NotThird(s))
  }

  /** White space at both ends is left out. */
  ghost predicate EndsTrimmed(s: Text, r: Text) {
    exists i, j :: 0 <= i <= j <= |s| && r == s[i..j] && EndsAt(s, i, j)
  }

  ghost predicate EndsAt(s: Text, i: int, j: int)
    requires 0 <= i <= j <= |s|
  {
    && (forall x :: 0 <= x < i || j <= x < |s| ==> White(s[x]))
    && (i < j ==> !White(s[i]) && !White(s[j - 1]))
  }

  /** The texts between the passes, from the one received to the one that is judged. */
  ghost predicate Stages(t: seq<Text>, maxLines: nat, u: Unicode) {
    && |t| == 12
    && LoneRemoved(t[0], t[1]) && t[2] == u.Nfc(t[1]) && NewlinesRead(t[2], t[3]) && SpacesRead(t[3], t[4])
    && Removed(t[4], t[5], CONTROL) && Removed(t[5], t[6], INVISIBLE) && MarksCapped(t[6], t[7], u)
    && LinesAreTrimmed(t[7], t[8]) && NewlinesCollapsed(t[8], t[9]) && EndsTrimmed(t[9], t[10])
    && Folds(t[10], t[11], maxLines)
  }

  /** The result for every input: the passes one after the other, each doing what its description says, and then the
      verdict on the last text. */
  lemma NormalizedInStages(raw: Text, limits: Limits, u: Unicode) returns (t: seq<Text>)
    requires u.Sane() && 1 <= limits.maxLines
    ensures Stages(t, limits.maxLines, u) && t[0] == raw
    ensures Normalized(raw, limits, u)
            == if !(exists c <- CodePoints(t[11]) :: u.Visible(c)) then Rejected(Invalid)
               else if |CodePoints(t[11])| <= limits.maxLength then Accepted(t[11])
               else Rejected(TooLong)
  {
    hide *;
    var c := CharactersInStages(raw, u);
    var a := LinesInStages(c[7], limits.maxLines);
    t := [c[0], c[1], c[2], c[3], c[4], c[5], c[6], c[7], a[1], a[2], a[3], a[4]];
    AllStages(c, a, t, limits.maxLines, u);
    RewrittenIs(raw, limits.maxLines, u);
    Verdict(raw, limits, u);
  }

  lemma AllStages(c: seq<Text>, a: seq<Text>, t: seq<Text>, maxLines: nat, u: Unicode)
    requires |c| == 8 && |a| == 5 && a[0] == c[7]
    requires t == [c[0], c[1], c[2], c[3], c[4], c[5], c[6], c[7], a[1], a[2], a[3], a[4]]
    requires LoneRemoved(c[0], c[1]) && c[2] == u.Nfc(c[1]) && NewlinesRead(c[2], c[3]) && SpacesRead(c[3], c[4])
    requires Removed(c[4], c[5], CONTROL) && Removed(c[5], c[6], INVISIBLE) && MarksCapped(c[6], c[7], u)
    requires LinesAreTrimmed(a[0], a[1]) && NewlinesCollapsed(a[1], a[2]) && EndsTrimmed(a[2], a[3])
    requires Folds(a[3], a[4], maxLines)
    ensures Stages(t, maxLines, u)
  {
    hide LoneRemoved, NewlinesRead, SpacesRead, Removed, MarksCapped, LinesAreTrimmed, NewlinesCollapsed, EndsTrimmed,
      Folds;
  }

  lemma RewrittenIs(raw: Text, maxLines: nat, u: Unicode)
    requires 1 <= maxLines
    ensures Rewritten(raw, maxLines, u) == Arranged(Capped(raw, u), maxLines)
  {
    hide Arranged, Capped;
  }

  lemma Verdict(raw: Text, limits: Limits, u: Unicode)
    requires 1 <= limits.maxLines
    ensures var t := Rewritten(raw, limits.maxLines, u);
            Normalized(raw, limits, u)
            == if !(exists c <- CodePoints(t) :: u.Visible(c)) then Rejected(Invalid)
               else if |CodePoints(t)| <= limits.maxLength then Accepted(t)
               else Rejected(TooLong)
  {
    hide Rewritten;
  }

  lemma CharactersInStages(raw: Text, u: Unicode) returns (t: seq<Text>)
    requires u.Sane()
    ensures |t| == 8 && t[0] == raw && t[7] == Capped(raw, u)
    ensures LoneRemoved(t[0], t[1]) && t[2] == u.Nfc(t[1]) && NewlinesRead(t[2], t[3]) && SpacesRead(t[3], t[4])
    ensures Removed(t[4], t[5], CONTROL) && Removed(t[5], t[6], INVISIBLE) && MarksCapped(t[6], t[7], u)
  {
    hide *;
    var s1 := RemoveLoneSurrogates(raw);
    var s2 := u.Nfc(s1);
    var s3 := Newlines(s2);
    var s4 := Respaced(s3);
    var s5 := Without(s4, CONTROL);
    var s6 := Without(s5, INVISIBLE);
    var s7 := CapMarks(s6, 0, u);
    t := [raw, s1, s2, s3, s4, s5, s6, s7];
    CappedIs(raw, u);
    FirstStages(raw, s2);
    SpacesAreRead(s3);
    IsRemoved(s4, CONTROL);
    IsRemoved(s5, INVISIBLE);
    WellFormedStages(raw, u);
    MarksAreCapped(s6, u);
  }

  lemma CappedIs(raw: Text, u: Unicode)
    ensures Capped(raw, u)
            == CapMarks(Without(Without(Respaced(Newlines(u.Nfc(RemoveLoneSurrogates(raw)))), CONTROL), INVISIBLE), 0,
                        u)
  {
    hide Newlines, Respaced, Without, CapMarks, RemoveLoneSurrogates;
  }

  lemma FirstStages(raw: Text, composed: Text)
    ensures LoneRemoved(raw, RemoveLoneSurrogates(raw)) && NewlinesRead(composed, Newlines(composed))
  {
    hide Keeps, Newlines, Paired;
    var pos := PairedKeep(raw, 0);
    assert raw[0..] == raw && Unpaired(raw)[0..] == Unpaired(raw);
    pos := NewlinesKeep(composed);
  }

  lemma SpacesAreRead(s: Text)
    ensures SpacesRead(s, Respaced(s))
  {
  }

  lemma IsRemoved(s: Text, c: CharClass)
    ensures Removed(s, Without(s, c), c)
  {
    hide Keeps, Without;
    var pos := WithoutKeep(s, c);
  }

  lemma WellFormedStages(raw: Text, u: Unicode)
    requires u.Sane()
    ensures WellFormed(Without(Without(Respaced(Newlines(u.Nfc(RemoveLoneSurrogates(raw)))), CONTROL), INVISIBLE))
  {
    RemoveLoneSurrogatesIsRight(raw);
    var s2 := u.Nfc(RemoveLoneSurrogates(raw));
    hide Newlines, Respaced, Without, WellFormed;
    NewlinesWellFormed(s2);
    RespacedWellFormed(Newlines(s2));
    WithoutIsRight(Respaced(Newlines(s2)), CONTROL);
    WithoutIsRight(Without(Respaced(Newlines(s2)), CONTROL), INVISIBLE);
  }

  lemma MarksAreCapped(s: Text, u: Unicode)
    requires WellFormed(s)
    ensures MarksCapped(s, CapMarks(s, 0, u), u)
  {
    hide Keeps, CapMarks, CodePoints, WellFormed;
    CapMarksGood(s, 0, u);
    CapMarksKeepsThree(s, u);
    var pos := SparedKeep(CodePoints(s), 0, u);
    assert CodePoints(s)[0..] == CodePoints(s) && Sparing(CodePoints(s), u)[0..] == Sparing(CodePoints(s), u);
  }

  lemma LinesInStages(capped: Text, maxLines: nat) returns (t: seq<Text>)
    requires 1 <= maxLines
    ensures |t| == 5 && t[0] == capped && t[4] == Arranged(capped, maxLines)
    ensures LinesAreTrimmed(t[0], t[1]) && NewlinesCollapsed(t[1], t[2]) && EndsTrimmed(t[2], t[3])
    ensures Folds(t[3], t[4], maxLines)
  {
    hide *;
    var s1 := LinesTrimmed(capped);
    var s2 := Collapse(s1);
    var s3 := Ends(s2);
    var s4 := Fold(s3, maxLines);
    t := [capped, s1, s2, s3, s4];
    ArrangedInSteps(capped, maxLines);
    LinesAre(capped, s1);
    EndsTrim(s2);
    FoldKeep(s3, maxLines);
  }

  function Ends(s: Text): Text {
    TrimEnd(TrimStart(s))
  }

  lemma ArrangedInSteps(s: Text, maxLines: nat)
    requires 1 <= maxLines
    ensures Arranged(s, maxLines) == Fold(Ends(Collapse(LinesTrimmed(s))), maxLines)
  {
    hide Split, Join, TrimmedLines, Collapse, TrimStart, TrimEnd, Fold;
    ArrangedIs(s, maxLines);
  }

  lemma LinesAre(s: Text, trimmed: Text)
    ensures LinesAreTrimmed(s, LinesTrimmed(s)) && NewlinesCollapsed(trimmed, Collapse(trimmed))
  {
    hide Keeps, LinesTrimmed, Collapse;
    var pos := TrimmedLinesKeepNeeded(s);
    pos := CollapseKeep(trimmed);
  }

  lemma EndsTrim(s: Text)
    ensures EndsTrimmed(s, Ends(s))
  {
    hide White;
    var s1 := TrimStart(s);
    var s2 := TrimEnd(s1);
    var i := |s| - |s1|;
    var j := i + |s2|;
    TrimStartDrops(s);
    TrimEndDrops(s1);
    hide TrimStart, TrimEnd;
    PrefixOfSuffix(s, i, s1, s2);
    forall x | j <= x < |s|
      ensures White(s[x])
    {
      assert s[x] == s1[x - i];
    }
    if i < j { assert s[i] == s1[0] && s[j - 1] == s2[|s2| - 1]; }
    assert EndsAt(s, i, j);
  }
}
