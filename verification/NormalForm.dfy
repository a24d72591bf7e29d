/** What the normalisation of src/messaging/validate.ts guarantees: every accepted text is in normal form,
    and texts in normal form are left alone. */
module NormalForm {
  import opened Utf16
  import opened Validate

  // ----- Texts the passes after the removals work on -----

  ghost predicate Good(s: Text, u: Unicode) {
    WellFormed(s) && Calm(s, 0, u) && AllClean(s)
  }

  lemma {:induction false} CalmSooner(s: Text, k: nat, k': nat, u: Unicode)
    requires Calm(s, k, u) && k' <= k
    ensures Calm(s, k', u)
  {
    if s != [] && u.Mark(FirstCodePoint(s)) { CalmSooner(s[Width(s)..], k + 1, k' + 1, u); }
  }

  lemma {:induction false} CalmJoin(a: Text, b: Text, k: nat, u: Unicode)
    requires u.Sane() && WellFormed(a) && Calm(a, k, u) && Calm(b, 0, u)
    requires b == [] || White(b[0]) || (a != [] && White(a[|a| - 1]))
    ensures Calm(a + b, k, u)
  {
    hide *;
    if a == [] {
      assert a + b == b;
      CalmAfterWhite(b, k, u);
    } else {
      WellFormedFirst(a);
      var w := Width(a);
      var k' := if u.Mark(FirstCodePoint(a)) then k + 1 else 0;
      FirstStays(a, a[w..] + b);
      assert a + b == a[..w] + (a[w..] + b) && (a + b)[w..] == a[w..] + b;
      CalmStep(a, k, u);
      CalmStep(a + b, k, u);
      if a[w..] == [] {
        WhiteAlone(a, u);
        assert a[w..] + b == b;
        if k' != 0 { CalmAfterWhite(b, k', u); }
      } else {
        CalmJoin(a[w..], b, k', u);
      }
    }
  }

  lemma CalmStep(s: Text, k: nat, u: Unicode)
    requires s != []
    ensures Calm(s, k, u) <==>
            if u.Mark(FirstCodePoint(s)) then k < 3 && Calm(s[Width(s)..], k + 1, u) else Calm(s[Width(s)..], 0, u)
  {
  }

  /** White space ends a run of marks, so what begins with it, or is empty, is calm after any run. */
  lemma CalmAfterWhite(s: Text, k: nat, u: Unicode)
    requires u.Sane() && (s == [] || White(s[0]) || k == 0) && Calm(s, 0, u)
    ensures Calm(s, k, u)
  {
    if s != [] && White(s[0]) { assert !u.Mark(s[0]); }
  }

  lemma WhiteAlone(s: Text, u: Unicode)
    requires u.Sane() && s != [] && s[Width(s)..] == []
    ensures White(s[|s| - 1]) ==> !u.Mark(FirstCodePoint(s))
  {
  }

  lemma {:induction false} CalmCut(s: Text, i: nat, k: nat, u: Unicode)
    requires WellFormed(s) && i <= |s| && Boundary(s, i) && Calm(s, k, u)
    ensures Calm(s[..i], k, u) && Calm(s[i..], 0, u)
  {
    hide FirstCodePoint, WellFormed;
    if i == 0 {
      assert s[0..] == s;
      CalmSooner(s, k, 0, u);
    } else {
      WellFormedFirst(s);
      var w := Width(s);
      assert w <= i;
      CalmCut(s[w..], i - w, if u.Mark(FirstCodePoint(s)) then k + 1 else 0, u);
      assert s[w..][..i - w] == s[..i][w..] && s[w..][i - w..] == s[i..];
      SameFirst(s, i);
    }
  }

  lemma SameFirst(s: Text, i: nat)
    requires s != [] && Width(s) <= i <= |s|
    ensures Width(s[..i]) == Width(s) && FirstCodePoint(s[..i]) == FirstCodePoint(s)
  {
  }

  lemma GoodJoin(a: Text, b: Text, u: Unicode)
    requires u.Sane() && Good(a, u) && Good(b, u)
    requires a == [] || b == [] || White(b[0]) || White(a[|a| - 1])
    ensures Good(a + b, u)
  {
    if a == [] {
      assert a + b == b;
    } else {
      WellFormedJoin(a, b);
      CalmJoin(a, b, 0, u);
    }
  }

  lemma GoodCut(s: Text, i: nat, u: Unicode)
    requires Good(s, u) && i <= |s|
    requires Boundary(s, i) || i == 0 || White(s[i - 1])
    ensures Good(s[..i], u) && Good(s[i..], u)
  {
    assert i < |s| ==> !Lone(s, i);
    WellFormedCut(s, i);
    CalmCut(s, i, 0, u);
  }

  // ----- The passes up to the marks -----

  lemma {:induction false} NewlinesWellFormed(s: Text)
    requires WellFormed(s)
    ensures WellFormed(Newlines(s))
  {
    if s != [] {
      WellFormedFirst(s);
      if s[0] == CR {
        if 1 < |s| && s[1] == LF {
          WellFormedFirst(s[1..]);
          assert s[1..][1..] == s[2..];
          NewlinesWellFormed(s[2..]);
          WellFormedJoin([LF], Newlines(s[2..]));
        } else {
          NewlinesWellFormed(s[1..]);
          WellFormedJoin([LF], Newlines(s[1..]));
        }
      } else {
        var w := Width(s);
        NewlinesWellFormed(s[w..]);
        if w == 2 {
          assert s[1..][1..] == s[2..];
          assert Newlines(s) == s[..w] + Newlines(s[w..]);
        } else {
          assert s[..w] == [s[0]];
        }
        WellFormedJoin(s[..w], Newlines(s[w..]));
      }
    }
  }

  lemma RespacedWellFormed(s: Text)
    requires WellFormed(s)
    ensures WellFormed(Respaced(s))
    ensures forall i :: 0 <= i < |Respaced(s)| ==> !Spacing(Respaced(s)[i])
  {
    var r := Respaced(s);
    forall i | 0 <= i < |r|
      ensures !Lone(r, i)
    {
      assert !Lone(s, i);
    }
  }

  /** The units of a pair are in neither class. */
  lemma WithoutPair(s: Text, c: CharClass)
    requires s != [] && Width(s) == 2
    ensures Without(s, c) == s[..2] + Without(s[2..], c)
  {
    assert s[1..] != [] && s[1..][0] == s[1] && s[1..][1..] == s[2..];
    assert !c.Has(s[0]) && !c.Has(s[1]);
    assert [s[0]] + ([s[1]] + Without(s[2..], c)) == s[..2] + Without(s[2..], c);
  }

  lemma WithoutOne(s: Text, c: CharClass)
    requires s != []
    ensures Without(s, c) == if c.Has(s[0]) then Without(s[1..], c) else [s[0]] + Without(s[1..], c)
  {
  }

  lemma {:induction false} WithoutRemoves(s: Text, c: CharClass)
    ensures forall u :: u in Without(s, c) ==> u in s && !c.Has(u)
  {
    if s != [] {
      hide Without, Control, Invisible;
      WithoutOne(s, c);
      WithoutRemoves(s[1..], c);
    } else {
      NothingWithout(c);
    }
  }

  lemma {:induction false} WithoutWellFormed(s: Text, c: CharClass)
    requires WellFormed(s)
    ensures WellFormed(Without(s, c))
  {
    if s != [] {
      hide WellFormed, Without, Control, Invisible;
      WellFormedFirst(s);
      var w := Width(s);
      WithoutWellFormed(s[w..], c);
      if w == 2 {
        WithoutPair(s, c);
        WellFormedJoin(s[..2], Without(s[2..], c));
      } else {
        WithoutOne(s, c);
        assert s[..1] == [s[0]];
        if !c.Has(s[0]) { WellFormedJoin(s[..1], Without(s[1..], c)); }
      }
    } else {
      NothingWithout(c);
    }
  }

  lemma WithoutIsRight(s: Text, c: CharClass)
    ensures forall u :: u in Without(s, c) ==> u in s && !c.Has(u)
    ensures WellFormed(s) ==> WellFormed(Without(s, c))
  {
    WithoutRemoves(s, c);
    if WellFormed(s) { WithoutWellFormed(s, c); }
  }

  lemma NothingWithout(c: CharClass)
    ensures Without([], c) == []
  {
  }

  lemma {:induction false} CapMarksGood(s: Text, k: nat, u: Unicode)
    requires WellFormed(s) && k <= 3
    ensures var r := CapMarks(s, k, u); WellFormed(r) && Calm(r, k, u) && forall x :: x in r ==> x in s
  {
    if s != [] {
      WellFormedFirst(s);
      var w := Width(s);
      var mark := u.Mark(FirstCodePoint(s));
      var k' := if !mark then 0 else if k < 3 then k + 1 else k;
      CapMarksGood(s[w..], k', u);
      var rest := CapMarks(s[w..], k', u);
      if !mark || k < 3 {
        WellFormedJoin(s[..w], rest);
        assert (s[..w] + rest)[w..] == rest;
        assert Width(s[..w] + rest) == w && FirstCodePoint(s[..w] + rest) == FirstCodePoint(s);
      }
    }
  }

  /** Does a code point stay? A mark does unless three marks stand right before it. */
  predicate Spared(codePoints: seq<int>, i: nat, u: Unicode)
    requires i < |codePoints|
  {
    u.Mark(codePoints[i]) ==> i < 3 || exists j :: i - 3 <= j < i && !u.Mark(codePoints[j])
  }

  function SparedFrom(codePoints: seq<int>, i: nat, u: Unicode): seq<int>
    requires i <= |codePoints|
    decreases |codePoints| - i
  {
    if i == |codePoints| then []
    else (if Spared(codePoints, i, u) then [codePoints[i]] else []) + SparedFrom(codePoints, i + 1, u)
  }

  /** `k` tells how many marks, but at most three, end what was read. */
  ghost predicate Trailing(read: seq<int>, k: nat, u: Unicode) {
    && k <= 3 && k <= |read| && (forall j :: |read| - k <= j < |read| ==> u.Mark(read[j]))
    && (k < 3 ==> k == |read| || !u.Mark(read[|read| - k - 1]))
  }

  lemma TrailingTells(read: seq<int>, c: int, rest: seq<int>, k: nat, u: Unicode)
    requires Trailing(read, k, u)
    ensures Spared(read + [c] + rest, |read|, u) <==> (u.Mark(c) ==> k < 3)
    ensures Trailing(read + [c], if !u.Mark(c) then 0 else if k < 3 then k + 1 else k, u)
  {
    var all := read + [c] + rest;
    assert forall j :: 0 <= j < |read| ==> all[j] == read[j];
    if k == 3 {
      assert forall j :: |read| - 3 <= j < |read| ==> u.Mark(all[j]);
    } else if |read| != k {
      assert !u.Mark(all[|read| - k - 1]);
    }
  }

  lemma {:induction false} CapMarksReads(s: Text, read: seq<int>, k: nat, u: Unicode)
    requires WellFormed(s) && Trailing(read, k, u)
    ensures CodePoints(CapMarks(s, k, u)) == SparedFrom(read + CodePoints(s), |read|, u)
    decreases |s|
  {
    hide *;
    if s == [] {
      NothingToCap(k, u);
      assert read + [] == read;
      NothingSpared(read, u);
    } else {
      WellFormedFirst(s);
      var w, c := Width(s), FirstCodePoint(s);
      var all := read + CodePoints(s);
      var k' := if !u.Mark(c) then 0 else if k < 3 then k + 1 else k;
      assert s == s[..w] + s[w..];
      ReadFirst(s[..w], s[w..]);
      assert all == read + [c] + CodePoints(s[w..]);
      TrailingTells(read, c, CodePoints(s[w..]), k, u);
      CapMarksReads(s[w..], read + [c], k', u);
      CapMarksStep(s, k, u);
      SparedStep(all, |read|, u);
      if u.Mark(c) && 3 <= k {
        assert CapMarks(s, k, u) == CapMarks(s[w..], k', u);
      } else {
        FirstStays(s, CapMarks(s[w..], k', u));
        ReadFirst(s[..w], CapMarks(s[w..], k', u));
      }
    }
  }

  lemma NothingToCap(k: nat, u: Unicode)
    ensures CapMarks([], k, u) == [] && CodePoints([]) == []
  {
  }

  lemma NothingSpared(codePoints: seq<int>, u: Unicode)
    ensures SparedFrom(codePoints, |codePoints|, u) == []
  {
  }

  lemma CapMarksStep(s: Text, k: nat, u: Unicode)
    requires s != []
    ensures var w, mark := Width(s), u.Mark(FirstCodePoint(s));
            CapMarks(s, k, u) == (if mark && 3 <= k then [] else s[..w])
                                 + CapMarks(s[w..], if !mark then 0 else if k < 3 then k + 1 else k, u)
  {
  }

  lemma SparedStep(codePoints: seq<int>, i: nat, u: Unicode)
    requires i < |codePoints|
    ensures SparedFrom(codePoints, i, u) ==
              (if Spared(codePoints, i, u) then [codePoints[i]] else []) + SparedFrom(codePoints, i + 1, u)
  {
  }

  lemma FirstStays(s: Text, rest: Text)
    requires s != [] && WellFormed(s)
    ensures Width(s[..Width(s)] + rest) == Width(s) && FirstCodePoint(s[..Width(s)] + rest) == FirstCodePoint(s)
  {
    WellFormedFirst(s);
  }

  /** Capping keeps exactly the characters that are no marks, and of each run of marks the first three. */
  lemma CapMarksKeepsThree(s: Text, u: Unicode)
    requires WellFormed(s)
    ensures CodePoints(CapMarks(s, 0, u)) == SparedFrom(CodePoints(s), 0, u)
  {
    CapMarksReads(s, [], 0, u);
    assert [] + CodePoints(s) == CodePoints(s);
  }

  lemma CleanMeans(u: Unit)
    requires !Spacing(u) && !CONTROL.Has(u) && !INVISIBLE.Has(u)
    ensures Clean(u)
  {
  }

  lemma CappedGood(raw: Text, u: Unicode)
    requires u.Sane()
    ensures Good(Capped(raw, u), u)
  {
    hide RemoveLoneSurrogates, Newlines, Respaced, Without, CapMarks, WellFormed, Calm, Clean, Control, Invisible,
      Spacing;
    RemoveLoneSurrogatesIsRight(raw);
    var s1 := u.Nfc(RemoveLoneSurrogates(raw));
    NewlinesWellFormed(s1);
    var s2 := Respaced(Newlines(s1));
    RespacedWellFormed(Newlines(s1));
    var s3 := Without(s2, CONTROL);
    WithoutIsRight(s2, CONTROL);
    var s4 := Without(s3, INVISIBLE);
    WithoutIsRight(s3, INVISIBLE);
    CapMarksGood(s4, 0, u);
    var s5 := CapMarks(s4, 0, u);
    forall i | 0 <= i < |s5|
      ensures Clean(s5[i])
    {
      assert s5[i] in s4 && s5[i] in s3 && s5[i] in s2;
      CleanMeans(s5[i]);
    }
  }

  // ----- Lines -----

  ghost predicate OneLine(line: Text) {
    forall i :: 0 <= i < |line| ==> line[i] != LF
  }

  ghost predicate AllGood(lines: seq<Text>, u: Unicode) {
    forall i :: 0 <= i < |lines| ==> Good(lines[i], u)
  }

  ghost predicate AllOneLine(lines: seq<Text>) {
    forall i :: 0 <= i < |lines| ==> OneLine(lines[i])
  }

  lemma {:induction false} SplitGood(s: Text, u: Unicode)
    requires Good(s, u)
    ensures AllGood(Split(s), u)
  {
    hide Good;
    var n := LineEnd(s);
    if n < |s| {
      GoodCut(s, n, u);
      GoodCut(s, n + 1, u);
      SplitGood(s[n + 1..], u);
    }
  }

  lemma {:induction false} JoinGood(lines: seq<Text>, separator: Unit, u: Unicode)
    requires u.Sane() && lines != [] && AllGood(lines, u)
    requires separator == LF || separator == SPACE
    ensures Good(Join(lines, separator), u)
  {
    if 1 < |lines| {
      JoinGood(lines[1..], separator, u);
      var rest := Join(lines[1..], separator);
      assert Calm([separator][1..], 0, u) && Calm([separator], 0, u);
      GoodJoin([separator], rest, u);
      assert lines[0] + [separator] + rest == lines[0] + ([separator] + rest);
      GoodJoin(lines[0], [separator] + rest, u);
    }
  }

  lemma LineEndIs(s: Text, n: nat)
    requires n <= |s| && OneLine(s[..n]) && (n < |s| ==> s[n] == LF)
    ensures LineEnd(s) == n
  {
    assert forall i :: 0 <= i < n ==> s[i] == s[..n][i];
  }

  lemma {:induction false} SplitJoin(lines: seq<Text>)
    requires lines != [] && AllOneLine(lines)
    ensures Split(Join(lines, LF)) == lines
  {
    var s := Join(lines, LF);
    assert OneLine(lines[0]);
    if 1 < |lines| {
      var rest := Join(lines[1..], LF);
      assert AllOneLine(lines[1..]);
      SplitJoin(lines[1..]);
      hide OneLine, AllOneLine;
      assert s == lines[0] + [LF] + rest;
      SplitFirst(lines[0], rest);
    } else {
      SplitLast(lines[0]);
    }
  }

  lemma SplitLast(line: Text)
    requires OneLine(line)
    ensures Split(line) == [line]
  {
    LineEndIs(line, |line|);
  }

  lemma SplitFirst(line: Text, rest: Text)
    requires OneLine(line)
    ensures Split(line + [LF] + rest) == [line] + Split(rest)
  {
    var s := line + [LF] + rest;
    assert s[..|line|] == line && s[|line| + 1..] == rest;
    LineEndIs(s, |line|);
  }

  lemma {:induction false} JoinSplit(s: Text)
    ensures Join(Split(s), LF) == s
    ensures AllOneLine(Split(s))
  {
    var n := LineEnd(s);
    if n < |s| {
      JoinSplit(s[n + 1..]);
      assert s == s[..n] + [LF] + s[n + 1..];
    }
  }

  lemma {:induction false} JoinConcat(front: seq<Text>, back: seq<Text>, separator: Unit)
    requires front != [] && back != []
    ensures Join(front + back, separator) == Join(front, separator) + [separator] + Join(back, separator)
  {
    if 1 < |front| {
      JoinConcat(front[1..], back, separator);
      assert (front + back)[1..] == front[1..] + back;
    } else {
      assert (front + back)[1..] == back;
    }
  }

  // ----- Trimmed lines, seen from the units -----

  /** White space other than a newline is followed by something other than a newline. */
  ghost predicate Tidy(s: Text) {
    forall i :: 0 <= i < |s| && White(s[i]) && s[i] != LF ==> i + 1 < |s| && s[i + 1] != LF
  }

  lemma TidyStep(s: Text, n: nat)
    requires n < |s| && s[n] == LF && forall i :: 0 <= i < n ==> s[i] != LF
    ensures Tidy(s) <==> Trimmed(s[..n]) && Tidy(s[n + 1..])
  {
    hide White;
    var rest := s[n + 1..];
    assert forall i :: 0 <= i < |rest| ==> rest[i] == s[n + 1 + i];
    assert forall i :: n < i < |s| ==> s[i] == rest[i - n - 1];
    if Trimmed(s[..n]) && Tidy(rest) {
      forall i | 0 <= i < |s| && White(s[i]) && s[i] != LF
        ensures i + 1 < |s| && s[i + 1] != LF
      {
        if n < i { assert White(rest[i - n - 1]) && s[i + 1] == rest[i - n]; }
      }
    }
  }

  lemma TrimmedStep(line: Text, rest: seq<Text>)
    ensures AllTrimmed([line] + rest) <==> Trimmed(line) && AllTrimmed(rest)
  {
    hide Trimmed;
    var lines := [line] + rest;
    assert lines[0] == line && forall i :: 0 <= i < |rest| ==> rest[i] == lines[i + 1];
  }

  lemma {:induction false} TidyMeaning(s: Text)
    ensures AllTrimmed(Split(s)) <==> Tidy(s)
  {
    var n := LineEnd(s);
    if n == |s| {
      TrimmedStep(s, []);
      assert [s] + [] == [s];
    } else {
      hide AllTrimmed, Tidy, Trimmed;
      TidyStep(s, n);
      TrimmedStep(s[..n], Split(s[n + 1..]));
      TidyMeaning(s[n + 1..]);
    }
  }

  lemma TrimmedLinesTidy(s: Text)
    ensures Tidy(Join(TrimmedLines(Split(s)), LF))
  {
    hide White, Split, Join;
    var lines := TrimmedLines(Split(s));
    JoinSplit(s);
    forall i | 0 <= i < |lines|
      ensures OneLine(lines[i])
    {
      assert lines[i] <= Split(s)[i] && OneLine(Split(s)[i]);
      assert forall j :: 0 <= j < |lines[i]| ==> lines[i][j] == Split(s)[i][j];
    }
    SplitJoin(lines);
    assert AllTrimmed(lines);
    TidyMeaning(Join(lines, LF));
  }

  lemma {:induction false} CollapseIsRight(s: Text)
    requires Tidy(s)
    ensures var r := Collapse(s);
            Tidy(r) && NoTripleNewline(r) && (s == [] <==> r == []) && (s != [] ==> r[0] == s[0])
  {
    hide White, Tidy, NoTripleNewline;
    var n := LineEnd(s);
    if n < |s| {
      var m := RunEnd(s, n);
      TidyTail(s, m);
      CollapseIsRight(s[m..]);
      CollapseStep(s, n, m, if m - n < 3 then m else n + 2, Collapse(s[m..]));
    } else {
      NoNewline(s);
    }
  }

  lemma NoNewline(s: Text)
    requires OneLine(s)
    ensures NoTripleNewline(s)
  {
  }

  lemma TidyTail(s: Text, m: nat)
    requires Tidy(s) && m <= |s|
    ensures Tidy(s[m..])
  {
    hide White;
    var rest := s[m..];
    assert forall i :: 0 <= i < |rest| ==> rest[i] == s[m + i];
  }

  lemma CollapseStep(s: Text, n: nat, m: nat, x: nat, rest: Text)
    requires Tidy(s) && n < x <= m <= |s| && x <= n + 2 && (m < |s| ==> s[m] != LF)
    requires forall i :: 0 <= i < n ==> s[i] != LF
    requires forall i :: n <= i < m ==> s[i] == LF
    requires Tidy(rest) && NoTripleNewline(rest) && (m == |s| <==> rest == []) && (rest != [] ==> rest[0] == s[m])
    ensures Tidy(s[..x] + rest) && NoTripleNewline(s[..x] + rest)
  {
    hide White;
    var r := s[..x] + rest;
    forall i | 0 <= i < |r| && White(r[i]) && r[i] != LF
      ensures i + 1 < |r| && r[i + 1] != LF
    {
      if x <= i { assert r[i] == rest[i - x]; } else { assert r[i] == s[i]; }
    }
    forall i | 0 <= i && i + 2 < |r|
      ensures !(r[i] == LF && r[i + 1] == LF && r[i + 2] == LF)
    {
      if x <= i { assert r[i] == rest[i - x] && r[i + 1] == rest[i + 1 - x] && r[i + 2] == rest[i + 2 - x]; }
    }
  }

  lemma {:induction false} CollapseGood(s: Text, u: Unicode)
    requires u.Sane() && Good(s, u)
    ensures Good(Collapse(s), u)
  {
    hide Good;
    var n := LineEnd(s);
    if n < |s| {
      var m := RunEnd(s, n);
      var x := if m - n < 3 then m else n + 2;
      GoodCut(s, x, u);
      GoodCut(s, m, u);
      CollapseGood(s[m..], u);
      GoodJoin(s[..x], Collapse(s[m..]), u);
    }
  }

  // ----- Folding -----

  /** `t` is `s` up to `c`, and from there `s` with every newline replaced by a space. */
  ghost predicate Folded(s: Text, t: Text, c: nat) {
    && c <= |s| == |t|
    && t[..c] == s[..c]
    && forall i :: c <= i < |t| ==> t[i] != LF && (t[i] == s[i] || (s[i] == LF && t[i] == SPACE))
  }

  lemma {:induction false} JoinSpaces(lines: seq<Text>)
    requires lines != [] && AllOneLine(lines)
    ensures Folded(Join(lines, LF), Join(lines, SPACE), 0)
  {
    var s, t, n := Join(lines, LF), Join(lines, SPACE), |lines[0]|;
    if 1 < |lines| {
      JoinSpaces(lines[1..]);
      assert forall i :: n < i < |s| ==>
             s[i] == Join(lines[1..], LF)[i - n - 1] && t[i] == Join(lines[1..], SPACE)[i - n - 1];
    }
    assert OneLine(lines[0]);
    assert forall i :: 0 <= i < n ==> s[i] == lines[0][i] && t[i] == lines[0][i];
  }

  lemma FoldIsRight(s: Text, maxLines: nat) returns (c: nat)
    requires 1 <= maxLines
    ensures Folded(s, Fold(s, maxLines), c)
    ensures |Split(Fold(s, maxLines))| <= maxLines
  {
    var lines := Split(s);
    JoinSplit(s);
    c := |s|;
    if maxLines < |lines| {
      var front, back := lines[..maxLines - 1], lines[maxLines - 1..];
      assert front + back == lines;
      JoinSpaces(back);
      var last := Join(back, SPACE);
      assert OneLine(last);
      SplitJoin(front + [last]);
      if front == [] {
        assert front + back == back && front + [last] == [last];
        c := 0;
      } else {
        JoinConcat(front, back, LF);
        JoinConcat(front, [last], LF);
        c := |Join(front, LF)| + 1;
      }
    }
  }

  lemma FoldGood(s: Text, maxLines: nat, u: Unicode)
    requires u.Sane() && Good(s, u) && 1 <= maxLines
    ensures Good(Fold(s, maxLines), u)
  {
    var lines := Split(s);
    SplitGood(s, u);
    if maxLines < |lines| {
      var front, back := lines[..maxLines - 1], lines[maxLines - 1..];
      JoinGood(back, SPACE, u);
      JoinGood(front + [Join(back, SPACE)], LF, u);
    }
  }

  lemma FoldKeeps(s: Text, t: Text, c: nat)
    requires Folded(s, t, c) && Tidy(s) && NoTripleNewline(s)
    requires s != [] ==> !White(s[0]) && !White(s[|s| - 1])
    ensures Tidy(t) && NoTripleNewline(t)
    ensures t != [] ==> !White(t[0]) && !White(t[|t| - 1])
  {
    assert forall i :: 0 <= i < c ==> t[i] == s[i] by { assert forall i :: 0 <= i < c ==> t[..c][i] == s[..c][i]; }
    assert White(LF);
    hide White;
  }

  // ----- The theorems -----

  /** Every accepted text is in normal form. */
  lemma AcceptedIsNormal(raw: Text, limits: Limits, u: Unicode)
    requires u.Sane() && 1 <= limits.maxLines && Normalized(raw, limits, u).Accepted?
    ensures NormalForm(Normalized(raw, limits, u).text, limits, u)
  {
    hide *;
    CappedGood(raw, u);
    AcceptedMeans(raw, limits, u);
    NormalAfterMarks(Capped(raw, u), limits.maxLines, u);
    Assemble(Normalized(raw, limits, u).text, limits, u);
  }

  lemma AcceptedMeans(raw: Text, limits: Limits, u: Unicode)
    requires 1 <= limits.maxLines && Normalized(raw, limits, u).Accepted?
    ensures var t := Normalized(raw, limits, u).text;
            && t == Arranged(Capped(raw, u), limits.maxLines)
            && t != [] && HasVisible(CodePoints(t), u) && |CodePoints(t)| <= limits.maxLength
  {
    hide Arranged, Capped, HasVisible, CodePoints;
  }

  lemma Assemble(t: Text, limits: Limits, u: Unicode)
    requires && Good(t, u) && NoTripleNewline(t) && AllTrimmed(Split(t)) && |Split(t)| <= limits.maxLines
             && t != [] && !White(t[0]) && !White(t[|t| - 1])
             && HasVisible(CodePoints(t), u) && |CodePoints(t)| <= limits.maxLength
    ensures NormalForm(t, limits, u)
  {
    hide White, Clean, WellFormed, NoMarkFlood, NoTripleNewline, HasVisible, Split, CodePoints, Calm, Trimmed;
    CalmMeaning(t, 0, u);
  }

  lemma ArrangedIs(s5: Text, maxLines: nat)
    requires 1 <= maxLines
    ensures Arranged(s5, maxLines) == Fold(TrimEnd(TrimStart(Collapse(Join(TrimmedLines(Split(s5)), LF)))), maxLines)
  {
    hide Fold, TrimEnd, TrimStart, Collapse, Join, TrimmedLines, Split;
  }

  lemma NormalAfterMarks(s5: Text, maxLines: nat, u: Unicode)
    requires u.Sane() && 1 <= maxLines && Good(s5, u)
    ensures var t := Arranged(s5, maxLines);
            && Good(t, u) && NoTripleNewline(t) && AllTrimmed(Split(t)) && |Split(t)| <= maxLines
            && (t != [] ==> !White(t[0]) && !White(t[|t| - 1]))
  {
    hide *;
    ArrangedIs(s5, maxLines);
    TrimmedLinesGood(s5, u);
    TrimmedLinesTidy(s5);
    var s6 := Join(TrimmedLines(Split(s5)), LF);
    CollapseGood(s6, u);
    CollapseIsRight(s6);
    var s7 := Collapse(s6);
    TrimGood(s7, u);
    TrimKeeps(s7);
    var s9 := TrimEnd(TrimStart(s7));
    var c := FoldIsRight(s9, maxLines);
    FoldGood(s9, maxLines, u);
    FoldKeeps(s9, Fold(s9, maxLines), c);
    TidyMeaning(Fold(s9, maxLines));
  }

  lemma TrimmedLinesGood(s: Text, u: Unicode)
    requires u.Sane() && Good(s, u)
    ensures TrimmedLines(Split(s)) != [] && Good(Join(TrimmedLines(Split(s)), LF), u)
  {
    hide Good, Split, Join, Clean;
    var lines := TrimmedLines(Split(s));
    SplitGood(s, u);
    forall i | 0 <= i < |lines|
      ensures Good(lines[i], u)
    {
      var line, r := Split(s)[i], lines[i];
      assert Good(line, u) && r <= line;
      GoodCut(line, |r|, u);
      assert r == line[..|r|];
    }
    JoinGood(lines, LF, u);
  }

  lemma TrimGood(s7: Text, u: Unicode)
    requires Good(s7, u)
    ensures Good(TrimEnd(TrimStart(s7)), u)
  {
    hide Good, Clean;
    var s8 := TrimStart(s7);
    GoodCut(s7, |s7| - |s8|, u);
    var s9 := TrimEnd(s8);
    GoodCut(s8, |s9|, u);
    assert s9 == s8[..|s9|];
  }

  lemma TrimKeeps(s7: Text)
    requires Tidy(s7) && NoTripleNewline(s7)
    ensures var s9 := TrimEnd(TrimStart(s7));
            Tidy(s9) && NoTripleNewline(s9) && (s9 != [] ==> !White(s9[0]) && !White(s9[|s9| - 1]))
  {
    hide White, TrimStart, TrimEnd, Tidy, NoTripleNewline;
    var i, j := TrimIsSlice(s7);
    Slice(s7, i, j);
    NoTripleSlice(s7, i, j);
  }

  lemma TrimIsSlice(s7: Text) returns (i: nat, j: nat)
    ensures i <= j <= |s7| && TrimEnd(TrimStart(s7)) == s7[i..j]
    ensures i < j ==> !White(s7[i]) && !White(s7[j - 1])
  {
    hide White, TrimStart, TrimEnd;
    var s8 := TrimStart(s7);
    var s9 := TrimEnd(s8);
    i := |s7| - |s8|;
    j := i + |s9|;
    PrefixOfSuffix(s7, i, s8, s9);
  }

  lemma PrefixOfSuffix(s: Text, i: nat, suffix: Text, prefix: Text)
    requires i <= |s| && suffix == s[i..] && prefix <= suffix
    ensures prefix == s[i..i + |prefix|]
  {
  }

  lemma Slice(s: Text, i: nat, j: nat)
    requires i <= j <= |s| && (i < j ==> !White(s[j - 1]))
    ensures Tidy(s) ==> Tidy(s[i..j])
  {
    hide White;
    var t := s[i..j];
    assert forall k :: 0 <= k < |t| ==> t[k] == s[i + k];
  }

  lemma NoTripleSlice(s: Text, i: nat, j: nat)
    requires i <= j <= |s| && NoTripleNewline(s)
    ensures NoTripleNewline(s[i..j])
  {
    var t := s[i..j];
    forall k | 0 <= k && k + 2 < |t|
      ensures !(t[k] == LF && t[k + 1] == LF && t[k + 2] == LF)
    {
      var k' := i + k;
      assert !(s[k'] == LF && s[k' + 1] == LF && s[k' + 2] == LF);
    }
  }

  lemma {:induction false} NewlinesKeeps(s: Text)
    requires AllClean(s)
    ensures Newlines(s) == s && Without(s, CONTROL) == s && Without(s, INVISIBLE) == s
  {
    if s != [] { NewlinesKeeps(s[1..]); }
  }

  lemma {:induction false} CapMarksKeeps(s: Text, k: nat, u: Unicode)
    requires Calm(s, k, u)
    ensures CapMarks(s, k, u) == s
  {
    if s != [] { CapMarksKeeps(s[Width(s)..], if u.Mark(FirstCodePoint(s)) then k + 1 else 0, u); }
  }

  lemma {:induction false} CollapseKeeps(s: Text)
    requires NoTripleNewline(s)
    ensures Collapse(s) == s
  {
    var n := LineEnd(s);
    if n < |s| {
      var m := RunEnd(s, n);
      ShortRun(s, n, m);
      NoTripleSlice(s, m, |s|);
      assert s[m..|s|] == s[m..];
      hide NoTripleNewline;
      CollapseKeeps(s[m..]);
      assert s[..m] + s[m..] == s;
    }
  }

  lemma ShortRun(s: Text, n: nat, m: nat)
    requires NoTripleNewline(s) && n <= m <= |s| && forall i :: n <= i < m ==> s[i] == LF
    ensures m < n + 3
  {
    assert n + 2 < |s| ==> !(s[n] == LF && s[n + 1] == LF && s[n + 2] == LF);
  }

  /** A text that form C leaves alone is accepted unchanged exactly when it is in normal form. So
      normalising an accepted text again returns it unchanged whenever form C fixes it. */
  lemma NormalIsFixed(s: Text, limits: Limits, u: Unicode)
    requires u.Sane() && 1 <= limits.maxLines && u.Nfc(s) == s
    ensures Normalized(s, limits, u) == Accepted(s) <==> NormalForm(s, limits, u)
  {
    if NormalForm(s, limits, u) {
      NormalKept(s, limits, u);
      hide *;
      AcceptedWhen(s, limits, u);
    }
    if Normalized(s, limits, u) == Accepted(s) { AcceptedIsNormal(s, limits, u); }
  }

  lemma AcceptedWhen(s: Text, limits: Limits, u: Unicode)
    requires 1 <= limits.maxLines && Rewritten(s, limits.maxLines, u) == s
    requires s != [] && HasVisible(CodePoints(s), u) && |CodePoints(s)| <= limits.maxLength
    ensures Normalized(s, limits, u) == Accepted(s)
  {
  }

  lemma NormalKept(s: Text, limits: Limits, u: Unicode)
    requires u.Sane() && 1 <= limits.maxLines && u.Nfc(s) == s && NormalForm(s, limits, u)
    ensures Rewritten(s, limits.maxLines, u) == s
    ensures s != [] && HasVisible(CodePoints(s), u) && |CodePoints(s)| <= limits.maxLength
  {
    hide *;
    Disassemble(s, limits, u);
    RemoveLoneSurrogatesIsRight(s);
    NewlinesKeeps(s);
    RespacedKeeps(s);
    CapMarksKeeps(s, 0, u);
    TrimmedLinesKeep(Split(s));
    JoinSplit(s);
    CollapseKeeps(s);
    TrimKeepsEnds(s);
    EachPassKeeps(s, limits.maxLines, u);
  }

  lemma Disassemble(s: Text, limits: Limits, u: Unicode)
    requires NormalForm(s, limits, u)
    ensures && WellFormed(s) && AllClean(s) && Calm(s, 0, u) && NoTripleNewline(s) && AllTrimmed(Split(s))
            && |Split(s)| <= limits.maxLines && s != [] && !White(s[0]) && !White(s[|s| - 1])
            && HasVisible(CodePoints(s), u) && |CodePoints(s)| <= limits.maxLength
  {
    CalmMeaning(s, 0, u);
    hide White, AllClean, WellFormed, NoTripleNewline, HasVisible, AllTrimmed;
    if NoMarkFlood(CodePoints(s), u) { FloodStart(CodePoints(s), u); }
  }

  lemma TrimKeepsEnds(s: Text)
    requires s != [] && !White(s[0]) && !White(s[|s| - 1])
    ensures TrimStart(s) == s && TrimEnd(s) == s
  {
  }

  lemma EachPassKeeps(s: Text, maxLines: nat, u: Unicode)
    requires 1 <= maxLines && u.Nfc(s) == s && RemoveLoneSurrogates(s) == s && Newlines(s) == s && Respaced(s) == s
    requires Without(s, CONTROL) == s && Without(s, INVISIBLE) == s && CapMarks(s, 0, u) == s
    requires TrimmedLines(Split(s)) == Split(s) && Join(Split(s), LF) == s && Collapse(s) == s
    requires TrimStart(s) == s && TrimEnd(s) == s && |Split(s)| <= maxLines
    ensures Rewritten(s, maxLines, u) == s
  {
    hide RemoveLoneSurrogates, Newlines, Respaced, Without, CapMarks, TrimmedLines, Join, Collapse, TrimStart, TrimEnd;
  }

  lemma RespacedKeeps(s: Text)
    requires AllClean(s)
    ensures Respaced(s) == s
  {
  }

  lemma TrimmedLinesKeep(lines: seq<Text>)
    requires AllTrimmed(lines)
    ensures TrimmedLines(lines) == lines
  {
  }
}
