/** What whole runs of store calls guarantee: window sums, names and locks taken once, entries that stay. */
module StoreRuns {
  import opened Types
  import opened Store

  // ----- One call, seen from one key -----

  /** Can the operation replace or remove a live entry under `k`? */
  ghost predicate Overwrites(op: Op, k: Key) {
    match op
    case SaveSession(rec, _) => k == SessionKey(rec.sid)
    case SetResume(hash, _, _) => k == ResumeKey(hash)
    case Hit(counter, _, _) => k.RateKey? && k.counter == counter
    case AddToSet(s, _, _) => k == SetKey(s)
    case SetBlock(blocked, _, _) => k == BlockKey(blocked)
    case DeleteBlock(blocked) => k == BlockKey(blocked)
    case DeleteRoom(roomId) => k.NameKey? && k.roomId == roomId
    case _ => false
  }

  ghost predicate Under(s: State, k: Key, e: Entry) {
    k in s.kv && s.kv[k] == e
  }

  lemma Untouched(s: State, op: Op, now: int, k: Key)
    requires Callable(op) && (if Keyed(op) then KeyOf(op, now) != k else !Overwrites(op, k))
    ensures k in Apply(s, op, now).0.kv <==> k in s.kv
    ensures k in s.kv ==> Apply(s, op, now).0.kv[k] == s.kv[k]
  {
    hide Outcome;
  }

  lemma StepKeeps(s: State, op: Op, now: int, k: Key, e: Entry)
    requires Callable(op) && Under(s, k, e) && now < e.exp && !Overwrites(op, k)
    ensures Under(Apply(s, op, now).0, k, e)
  {
    if !Keyed(op) || KeyOf(op, now) != k { Untouched(s, op, now, k); }
  }

  /** A live entry stays as it is until it expires, unless a call overwrites it. */
  lemma {:induction false} EntryKept(ops: seq<Timed>, n: nat, k: Key, e: Entry)
    requires Run(ops) && n <= |ops| && Under(After(ops[..n]), k, e)
    requires forall i :: n <= i < |ops| ==> ops[i].at < e.exp && !Overwrites(ops[i].op, k)
    ensures Under(After(ops), k, e)
  {
    hide Apply, Under, Overwrites;
    if n == |ops| {
      assert ops[..n] == ops;
    } else {
      var before, last := ops[..|ops| - 1], ops[|ops| - 1];
      assert before[..n] == ops[..n];
      EntryKept(before, n, k, e);
      StepKeeps(After(before), last.op, last.at, k, e);
    }
  }

  lemma AfterStep(ops: seq<Timed>, i: nat)
    requires Run(ops) && i < |ops|
    ensures Run(ops[..i]) && Run(ops[..i + 1])
    ensures After(ops[..i + 1]) == Apply(After(ops[..i]), ops[i].op, ops[i].at).0
    ensures ReplyAt(ops, i) == Apply(After(ops[..i]), ops[i].op, ops[i].at).1
  {
    hide Apply, Callable;
    assert ops[..i + 1][..i] == ops[..i];
  }

  // ----- Taken once -----

  /** While a claimed name is live, every other claim of it in that room is refused; only `deleteRoom`
      gives it back before it expires. */
  lemma NameClaimedOnce(ops: seq<Timed>, i: nat, j: nat)
    requires Run(ops) && i < j < |ops| && ops[i].op.ClaimName? && ops[j].op.ClaimName?
    requires ops[j].op.roomId == ops[i].op.roomId && ops[j].op.name == ops[i].op.name
    requires ReplyAt(ops, i) == Flag(true) && ops[j].at < ops[i].op.expireAt
    requires forall m :: i < m < j && ops[m].op.DeleteRoom? ==> ops[m].op.roomId != ops[i].op.roomId
    ensures ReplyAt(ops, j) == Flag(false)
  {
    hide Apply, ReplyAt, Under, Run, After;
    var k := NameKey(ops[i].op.roomId, ops[i].op.name);
    var e := Entry(Owner(ops[i].op.sid), ops[i].op.expireAt);
    AfterStep(ops, i);
    AfterStep(ops, j);
    InOrder(ops, j);
    Claims(After(ops[..i]), ops[i].op, ops[i].at);
    assert ops[..j][..i + 1] == ops[..i + 1];
    EntryKept(ops[..j], i + 1, k, e);
    FindsClaimed(After(ops[..j]), ops[j].op, ops[j].at, e);
  }

  lemma Claims(s: State, op: Op, now: int)
    requires op.ClaimName? && Apply(s, op, now).1 == Flag(true)
    ensures Under(Apply(s, op, now).0, NameKey(op.roomId, op.name), Entry(Owner(op.sid), op.expireAt))
  {
  }

  lemma FindsClaimed(s: State, op: Op, now: int, e: Entry)
    requires op.ClaimName? && Under(s, NameKey(op.roomId, op.name), e) && now < e.exp
    ensures Apply(s, op, now).1 == Flag(false)
  {
  }

  /** A lock is given to one caller within its life: two callers that get it are at least its life apart. */
  lemma LockedOnce(ops: seq<Timed>, i: nat, j: nat)
    requires Run(ops) && i < j < |ops| && ops[i].op.AcquireOnce? && ops[j].op.AcquireOnce?
    requires ops[j].op.lock == ops[i].op.lock
    requires ReplyAt(ops, i) == Flag(true) && ReplyAt(ops, j) == Flag(true)
    ensures ops[i].at + ops[i].op.ttlMs <= ops[j].at
  {
    hide Apply, ReplyAt, Under, Run, After;
    var k := LockKey(ops[i].op.lock);
    var e := Entry(Held, ops[i].at + ops[i].op.ttlMs);
    AfterStep(ops, i);
    AfterStep(ops, j);
    Locks(After(ops[..i]), ops[i].op, ops[i].at);
    if ops[j].at < e.exp {
      assert ops[..j][..i + 1] == ops[..i + 1];
      InOrder(ops, j);
      EntryKept(ops[..j], i + 1, k, e);
      FindsLocked(After(ops[..j]), ops[j].op, ops[j].at, e);
    }
  }

  lemma InOrder(ops: seq<Timed>, j: nat)
    requires Run(ops) && j < |ops|
    ensures forall m :: 0 <= m < j ==> ops[m].at <= ops[j].at
  {
  }

  lemma Locks(s: State, op: Op, now: int)
    requires op.AcquireOnce? && Apply(s, op, now).1 == Flag(true)
    ensures Under(Apply(s, op, now).0, LockKey(op.lock), Entry(Held, now + op.ttlMs))
  {
  }

  lemma FindsLocked(s: State, op: Op, now: int, e: Entry)
    requires op.AcquireOnce? && Under(s, LockKey(op.lock), e) && now < e.exp
    ensures Apply(s, op, now).1 == Flag(false)
  {
  }

  // ----- Fixed windows -----

  /** Every hit on `counter` uses windows of `w` milliseconds. */
  ghost predicate OneWindow(ops: seq<Timed>, counter: string, w: int) {
    0 < w && forall i :: 0 <= i < |ops| && IsHit(ops[i].op, counter) ==> ops[i].op.windowMs == w
  }

  predicate IsHit(op: Op, counter: string) {
    op.Hit? && op.counter == counter
  }

  /** The sum of the hits of a run that fall into window `x`. */
  ghost function WindowSum(ops: seq<Timed>, counter: string, w: int, x: int): int
    requires 0 < w
  {
    if ops == [] then 0
    else
      var last := ops[|ops| - 1];
      WindowSum(ops[..|ops| - 1], counter, w, x)
      + if IsHit(last.op, counter) && last.at / w == x then last.op.amount else 0
  }

  ghost predicate HitIn(ops: seq<Timed>, counter: string, w: int, x: int)
    requires 0 < w
  {
    exists i :: 0 <= i < |ops| && IsHit(ops[i].op, counter) && ops[i].at / w == x
  }

  lemma WindowEnd(now: int, w: int, x: int)
    requires 0 < w && now / w == x
    ensures now < (x + 1) * w <= now + w
  {
    assert now == now / w * w + now % w;
    assert (x + 1) * w == x * w + w;
  }

  lemma {:induction false} CounterState(ops: seq<Timed>, counter: string, w: int, x: int)
    requires Run(ops) && OneWindow(ops, counter, w)
    ensures var kv, k := After(ops).kv, RateKey(counter, x);
            && (k in kv <==> HitIn(ops, counter, w, x))
            && (k in kv ==> kv[k].v == Count(WindowSum(ops, counter, w, x)) && (x + 1) * w <= kv[k].exp)
            && (k !in kv ==> WindowSum(ops, counter, w, x) == 0)
  {
    if ops != [] {
      var before, last := ops[..|ops| - 1], ops[|ops| - 1];
      CounterState(before, counter, w, x);
      HitInStep(ops, counter, w, x);
      var k := RateKey(counter, x);
      if IsHit(last.op, counter) && last.at / w == x {
        WindowEnd(last.at, w, x);
      } else {
        Untouched(After(before), last.op, last.at, k);
        hide Apply;
      }
    }
  }

  lemma HitInStep(ops: seq<Timed>, counter: string, w: int, x: int)
    requires ops != [] && 0 < w
    ensures var last := ops[|ops| - 1];
            HitIn(ops, counter, w, x) <==>
            HitIn(ops[..|ops| - 1], counter, w, x) || (IsHit(last.op, counter) && last.at / w == x)
  {
    var before := ops[..|ops| - 1];
    assert forall i :: 0 <= i < |before| ==> before[i] == ops[i];
    if HitIn(before, counter, w, x) {
      var i :| 0 <= i < |before| && IsHit(before[i].op, counter) && before[i].at / w == x;
      assert IsHit(ops[i].op, counter) && ops[i].at / w == x;
    }
  }

  /** A hit answers exactly the sum of its window so far, its own amount included. */
  lemma HitIsWindowSum(ops: seq<Timed>, counter: string, w: int, i: nat)
    requires Run(ops) && OneWindow(ops, counter, w) && i < |ops| && IsHit(ops[i].op, counter)
    ensures ReplyAt(ops, i) == Number(WindowSum(ops[..i + 1], counter, w, ops[i].at / w))
  {
    var x := ops[i].at / w;
    CounterState(ops[..i], counter, w, x);
    WindowEnd(ops[i].at, w, x);
    assert ops[..i + 1][..i] == ops[..i];
  }

  /** The hits from `from` to `to` on a counter that were answered with at most `limit`. */
  ghost function Admitted(ops: seq<Timed>, counter: string, limit: nat, from: int, to: int): nat
    requires Run(ops)
  {
    if ops == [] then 0
    else
      var last := ops[|ops| - 1];
      Admitted(ops[..|ops| - 1], counter, limit, from, to)
      + if IsHit(last.op, counter) && from <= last.at <= to && ReplyAt(ops, |ops| - 1).number <= limit then 1 else 0
  }

  ghost predicate UnitHits(ops: seq<Timed>, counter: string) {
    forall i :: 0 <= i < |ops| && IsHit(ops[i].op, counter) ==> ops[i].op.amount == 1
  }

  lemma {:induction false} AdmittedInWindow(ops: seq<Timed>, counter: string, w: int, limit: nat, x: int)
    requires Run(ops) && OneWindow(ops, counter, w) && UnitHits(ops, counter)
    ensures var sum := WindowSum(ops, counter, w, x);
            0 <= sum && Admitted(ops, counter, limit, x * w, (x + 1) * w - 1) == if sum <= limit then sum else limit
  {
    if ops != [] {
      hide Apply, After, ReplyAt;
      var last := ops[|ops| - 1];
      AdmittedInWindow(ops[..|ops| - 1], counter, w, limit, x);
      if IsHit(last.op, counter) {
        HitIsWindowSum(ops, counter, w, |ops| - 1);
        assert ops[..|ops| - 1 + 1] == ops;
        InWindow(last.at, w, x);
      }
    }
  }

  lemma InWindow(t: int, w: int, x: int)
    requires 0 < w
    ensures t / w == x <==> x * w <= t <= (x + 1) * w - 1
  {
    assert t == t / w * w + t % w;
    assert (x + 1) * w == x * w + w;
    if x < t / w { Multiples(x + 1, t / w, w); }
    if t / w < x { Multiples(t / w + 1, x, w); }
  }

  lemma Multiples(a: int, b: int, w: int)
    requires a <= b && 0 < w
    ensures a * w <= b * w && (a - 1) * w + w == a * w
  {
  }

  lemma {:induction false} AdmittedSplits(ops: seq<Timed>, counter: string, limit: nat, from: int, mid: int, to: int,
                                          from': int, to': int)
    requires Run(ops) && from' <= from && to <= to' && mid <= to'
    ensures Admitted(ops, counter, limit, from, to)
         <= Admitted(ops, counter, limit, from', mid) + Admitted(ops, counter, limit, mid + 1, to')
  {
    if ops != [] {
      hide Apply, After, ReplyAt;
      AdmittedSplits(ops[..|ops| - 1], counter, limit, from, mid, to, from', to');
    }
  }

  /** Any interval one window long lets at most twice the limit through. */
  lemma AtMostTwiceTheLimit(ops: seq<Timed>, counter: string, w: int, limit: nat, from: int)
    requires Run(ops) && OneWindow(ops, counter, w) && UnitHits(ops, counter)
    ensures Admitted(ops, counter, limit, from, from + w) <= 2 * limit
  {
    var x := from / w;
    WindowEnd(from, w, x);
    assert (x + 1 + 1) * w == (x + 1) * w + w && (x + 1) * w == x * w + w;
    InWindow(from, w, x);
    AdmittedInWindow(ops, counter, w, limit, x);
    AdmittedInWindow(ops, counter, w, limit, x + 1);
    AdmittedSplits(ops, counter, limit, from, (x + 1) * w - 1, from + w, x * w, (x + 1 + 1) * w - 1);
  }

  // ----- The clock -----

  /** The refinement needs a clock that does not go back: reading another key at 20 changes nothing for a
      session that expired at 10, and at 5 the lazy store shows it again although the eager one has let it go. */
  lemma ClockGoingBack(rec: SessionRecord, other: string)
    requires other != rec.sid
    ensures var s0, e0 := Apply(EMPTY, Op.SaveSession(rec, 10), 0).0,
                          Serve(Spec(map[], map[]), Op.SaveSession(rec, 10), 0, 0).0;
            var s1, e1 := Apply(s0, Op.GetSession(other), 20).0, Serve(e0, Op.GetSession(other), 20, 0).0;
            && Apply(s1, Op.GetSession(rec.sid), 5).1 == Record(Some(rec))
            && Serve(e1, Op.GetSession(rec.sid), 5, 0).1 == Record(None)
  {
  }
}
