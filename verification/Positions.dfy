/** What a filter keeps of a sequence, stated by positions. */
module Positions {
  /** `pos` lists, in order, exactly the marked positions. */
  ghost predicate Lists(pos: seq<nat>, marked: seq<bool>) {
    && (forall a, b :: 0 <= a < b < |pos| ==> pos[a] < pos[b])
    && forall i: nat :: i in pos <==> i < |marked| && marked[i]
  }

  /** `r` is what `s` has at the marked positions. */
  ghost predicate Keeps<T>(s: seq<T>, r: seq<T>, pos: seq<nat>, marked: seq<bool>) {
    && Lists(pos, marked) && |marked| == |s| && |r| == |pos|
    && forall a :: 0 <= a < |r| ==> pos[a] < |s| && r[a] == s[pos[a]]
  }

  ghost function Shift(pos: seq<nat>, d: nat): (shifted: seq<nat>)
    ensures |shifted| == |pos| && forall a :: 0 <= a < |pos| ==> shifted[a] == pos[a] + d
  {
    seq(|pos|, a requires 0 <= a < |pos| => pos[a] + d)
  }

  lemma ListsJoin(pos: seq<nat>, marked: seq<bool>, more: seq<nat>, marked': seq<bool>)
    requires Lists(pos, marked) && Lists(more, marked')
    ensures Lists(pos + Shift(more, |marked|), marked + marked')
  {
    var n, all, both := |marked|, pos + Shift(more, |marked|), marked + marked';
    forall i: nat
      ensures i in all <==> i < |both| && both[i]
    {
      if i in all {
        var a :| 0 <= a < |all| && all[a] == i;
        if a < |pos| { assert i in pos; } else { assert more[a - |pos|] in more; }
      }
      if i < n && both[i] {
        assert i in pos;
        var a :| 0 <= a < |pos| && pos[a] == i;
        assert all[a] == i;
      }
      if n <= i < |both| && both[i] {
        assert i - n in more;
        var a :| 0 <= a < |more| && more[a] == i - n;
        assert all[|pos| + a] == i;
      }
    }
    forall a, b | 0 <= a < b < |all|
      ensures all[a] < all[b]
    {
      if a < |pos| <= b { assert pos[a] in pos; }
    }
  }

  lemma KeepsJoin<T>(s: seq<T>, r: seq<T>, pos: seq<nat>, marked: seq<bool>, s': seq<T>, r': seq<T>, more: seq<nat>,
                     marked': seq<bool>)
    requires Keeps(s, r, pos, marked) && Keeps(s', r', more, marked')
    ensures Keeps(s + s', r + r', pos + Shift(more, |s|), marked + marked')
  {
    ListsJoin(pos, marked, more, marked');
    hide Lists;
  }

  /** The first `n` positions of `m`. */
  ghost function First(n: nat, m: nat): (marked: seq<bool>)
    ensures |marked| == m && forall i :: 0 <= i < m ==> marked[i] == (i < n)
  {
    seq(m, i => i < n)
  }

  /** A beginning of a sequence, and nothing after it. */
  lemma KeepsFirst<T>(s: seq<T>, n: nat) returns (pos: seq<nat>)
    requires n <= |s|
    ensures Keeps(s, s[..n], pos, First(n, |s|))
  {
    pos := seq(n, (a: nat) requires a < n => a);
    forall i: nat
      ensures i in pos <==> i < n
    {
      if i < n { assert pos[i] == i; }
    }
  }

  /** A sequence of two parts, of which the first keeps its beginning. */
  lemma KeepsOn<T>(s: seq<T>, n: nat, d: nat, r: seq<T>, more: seq<nat>, marked: seq<bool>, both: seq<bool>)
    returns (pos: seq<nat>)
    requires n <= d <= |s| && Keeps(s[d..], r, more, marked) && both == First(n, d) + marked
    ensures Keeps(s, s[..n] + r, pos, both)
  {
    var first := KeepsFirst(s[..d], n);
    KeepsJoin(s[..d], s[..d][..n], first, First(n, d), s[d..], r, more, marked);
    assert s[..d] + s[d..] == s && s[..d][..n] == s[..n];
    pos := first + Shift(more, d);
  }
}
