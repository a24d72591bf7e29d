/** The message token bucket and its progressive cooldown (src/abuse/rate-limit.ts).

    Instants are whole milliseconds; tokens and rates are reals, so the bucket is the one the code
    describes without floating-point rounding. */
module RateLimit {
  import opened Reals

  /** A tier of limits chosen by suspicion. */
  datatype Tier = Tier(capacity: real, refillPerSec: real)

  const NORMAL := Tier(10.0, 1.0)
  const THROTTLED := Tier(5.0, 0.33)
  const RESTRICTED := Tier(2.0, 0.1)

  /** The four fields of a bucket, as a value. */
  datatype Bucket = Bucket(capacity: real, refillPerSec: real, tokens: real, last: int) {
    predicate Valid() {
      0.0 <= tokens <= capacity && 0.0 < refillPerSec
    }
  }

  function Full(capacity: real, refillPerSec: real, now: int): Bucket {
    Bucket(capacity, refillPerSec, capacity, now)
  }

  function Seconds(ms: int): real {
    (if 0 <= ms then ms else 0) as real / 1000.0
  }

  function Ceil(x: real): int {
    -((-x).Floor)
  }

  function Refill(b: Bucket, now: int): Bucket {
    b.(tokens := Min(b.capacity, b.tokens + Seconds(now - b.last) * b.refillPerSec), last := now)
  }

  /** The tokens a caller would find at `now`. */
  function Level(b: Bucket, now: int): real {
    Refill(b, now).tokens
  }

  function Reconfigured(b: Bucket, capacity: real, refillPerSec: real, now: int): Bucket {
    var r := Refill(b, now);
    r.(capacity := capacity, refillPerSec := refillPerSec, tokens := Min(r.tokens, capacity))
  }

  /** The bucket after asking for `cost` tokens, and the announced wait (0 when they were granted). */
  function Taken(b: Bucket, now: int, cost: real): (Bucket, int)
    requires b.refillPerSec != 0.0
  {
    var r := Refill(b, now);
    if r.tokens >= cost then (r.(tokens := r.tokens - cost), 0)
    else (r, Ceil((cost - r.tokens) / r.refillPerSec * 1000.0))
  }

  class TokenBucket {
    var capacity: real
    var refillPerSec: real
    var tokens: real
    var last: int

    ghost function View(): Bucket
      reads this
    {
      Bucket(capacity, refillPerSec, tokens, last)
    }

    constructor (capacity: real, refillPerSec: real, now: int)
      ensures View() == Full(capacity, refillPerSec, now)
    {
      this.capacity := capacity;
      this.refillPerSec := refillPerSec;
      tokens := capacity;
      last := now;
    }

    method Reconfigure(capacity: real, refillPerSec: real, now: int)
      modifies this
      ensures View() == Reconfigured(old(View()), capacity, refillPerSec, now)
    {
      DoRefill(now);
      this.capacity := capacity;
      this.refillPerSec := refillPerSec;
      tokens := Min(tokens, capacity);
    }

    method DoRefill(now: int)
      modifies this
      ensures View() == Refill(old(View()), now)
    {
      var elapsed := Seconds(now - last);
      tokens := Min(capacity, tokens + elapsed * refillPerSec);
      last := now;
    }

    method Take(now: int, cost: real) returns (wait: int)
      requires refillPerSec != 0.0
      modifies this
      ensures (View(), wait) == Taken(old(View()), now, cost)
    {
      DoRefill(now);
      if tokens >= cost {
        tokens := tokens - cost;
        return 0;
      }
      wait := Ceil((cost - tokens) / refillPerSec * 1000.0);
    }
  }

  // ----- One bucket between two instants -----

  lemma ProductNonNegative(x: real, y: real)
    requires 0.0 <= x && 0.0 <= y
    ensures 0.0 <= x * y
  {
  }

  /** Refilling twice is refilling once at the later instant. */
  lemma RefillComposes(b: Bucket, t1: int, t2: int)
    requires b.Valid() && b.last <= t1 <= t2
    ensures Refill(Refill(b, t1), t2) == Refill(b, t2)
    ensures Refill(b, t1).Valid() && Level(b, t1) <= Level(b, t2)
    ensures Level(b, t2) <= Level(b, t1) + Seconds(t2 - t1) * b.refillPerSec
  {
    var k := b.refillPerSec;
    var s1, s2 := Seconds(t1 - b.last), Seconds(t2 - t1);
    assert Seconds(t2 - b.last) == s1 + s2;
    assert (s1 + s2) * k == s1 * k + s2 * k;
    ProductNonNegative(s1, k);
    ProductNonNegative(s2, k);
  }

  /** A refused request leaves the bucket as a plain refill would; a granted one costs exactly `cost`. */
  lemma TakenKeepsValid(b: Bucket, now: int, cost: real)
    requires b.Valid() && 0.0 <= cost
    ensures Taken(b, now, cost).0.Valid()
  {
    ProductNonNegative(Seconds(now - b.last), b.refillPerSec);
  }

  lemma ReconfiguredKeepsValid(b: Bucket, capacity: real, refillPerSec: real, now: int)
    requires b.Valid() && 0.0 <= capacity && 0.0 < refillPerSec
    ensures Reconfigured(b, capacity, refillPerSec, now).Valid()
  {
    ProductNonNegative(Seconds(now - b.last), b.refillPerSec);
  }

  // ----- What a request is granted -----

  /** A request is granted exactly if the tokens left and those that have arrived since, at the bucket's rate, cover it;
      the bucket holds no more than its capacity. */
  lemma GrantsExactly(b: Bucket, t: int, cost: real)
    requires b.Valid() && b.last <= t
    ensures Taken(b, t, cost).1 == 0 <==>
            cost <= b.capacity && cost <= b.tokens + (t - b.last) as real / 1000.0 * b.refillPerSec
  {
    ProductNonNegative(Seconds(t - b.last), b.refillPerSec);
    if Level(b, t) < cost { RefusalWaits(b, t, cost); }
  }

  /** A grant costs what was asked for: what can be had right after it could have been had together with it. */
  lemma GrantCosts(b: Bucket, now: int, cost: real, more: real)
    requires b.Valid() && b.last <= now && 0.0 <= cost && 0.0 <= more && Taken(b, now, cost).1 == 0
    ensures var left := Taken(b, now, cost).0;
            left.refillPerSec == b.refillPerSec
            && (Taken(left, now, more).1 == 0 <==> Taken(b, now, cost + more).1 == 0)
  {
    GrantsExactly(b, now, cost);
    TakenKeepsValid(b, now, cost);
    var left := Taken(b, now, cost).0;
    GrantsExactly(left, now, more);
    GrantsExactly(b, now, cost + more);
    ProductNonNegative(Seconds(now - b.last), b.refillPerSec);
  }

  /** A refusal costs nothing: whatever is asked for later is granted as if it had not happened. */
  lemma RefusalIsFree(b: Bucket, now: int, cost: real, t: int, later: real)
    requires b.Valid() && b.last <= now <= t && Taken(b, now, cost).1 != 0
    ensures var left := Taken(b, now, cost).0;
            left.refillPerSec == b.refillPerSec && Taken(left, t, later) == Taken(b, t, later)
  {
    RefillComposes(b, now, t);
  }

  /** New limits take no tokens but those above the new capacity: what fits into it is granted as before. */
  lemma ReconfiguredGrants(b: Bucket, capacity: real, refillPerSec: real, now: int, cost: real)
    requires b.Valid() && b.last <= now && 0.0 <= capacity && 0.0 < refillPerSec && 0.0 <= cost
    ensures var r := Reconfigured(b, capacity, refillPerSec, now);
            && r.capacity == capacity && r.refillPerSec == refillPerSec && r.last == now
            && (Taken(r, now, cost).1 == 0 <==> cost <= capacity && Taken(b, now, cost).1 == 0)
  {
    var r := Reconfigured(b, capacity, refillPerSec, now);
    ReconfiguredKeepsValid(b, capacity, refillPerSec, now);
    GrantsExactly(r, now, cost);
    GrantsExactly(b, now, cost);
    ProductNonNegative(Seconds(now - b.last), b.refillPerSec);
  }

  // ----- The retry hint -----

  ghost predicate Ascending(times: seq<int>, from: int) {
    && (forall i :: 0 <= i < |times| ==> from <= times[i])
    && (forall i, j :: 0 <= i <= j < |times| ==> times[i] <= times[j])
  }

  /** The bucket after the given requests for `cost`, one after another. */
  ghost function AfterTakes(b: Bucket, times: seq<int>, cost: real): Bucket
    requires b.refillPerSec != 0.0
    decreases |times|
  {
    if times == [] then b else AfterTakes(Taken(b, times[0], cost).0, times[1..], cost)
  }

  lemma CeilIsLeast(x: real, n: int)
    ensures Ceil(x) <= n <==> x <= n as real
  {
  }

  /** `short` tokens arrive at rate `k` within `s` seconds exactly when `s` reaches their quotient. */
  lemma Arrival(short: real, k: real, s: real)
    requires 0.0 < short && 0.0 < k
    ensures 0.0 < short / k
    ensures short <= s * k <==> short / k <= s
  {
    var need := short / k;
    assert need * k == short;
    if need <= 0.0 { Scale(need, 0.0, k); }
    if need <= s {
      Scale(need, s, k);
    } else {
      StrictProduct(s, need, k);
    }
  }

  lemma StrictProduct(x: real, y: real, k: real)
    requires x < y && 0.0 < k
    ensures x * k < y * k
  {
    assert 0.0 < (y - x) * k;
  }

  /** When does a request at `t` succeed, as seen from a refusal at `now`? Exactly from `now + wait` on. */
  lemma HintExact(b: Bucket, now: int, cost: real, t: int)
    requires b.Valid() && b.last <= now <= t && cost <= b.capacity
    requires Taken(b, now, cost).1 != 0
    ensures 0 < Taken(b, now, cost).1
    ensures Level(b, t) >= cost <==> now + Taken(b, now, cost).1 <= t
  {
    var short := cost - Level(b, now);
    var k := b.refillPerSec;
    RefillComposes(b, now, t);
    Arrival(short, k, Seconds(t - now));
    CeilIsLeast(short / k * 1000.0, t - now);
    CeilIsLeast(short / k * 1000.0, 0);
    HintLevels(b, now, cost, t);
  }

  /** A refusal announces a wait. */
  lemma RefusalWaits(b: Bucket, now: int, cost: real)
    requires b.Valid() && Level(b, now) < cost
    ensures 0 < Taken(b, now, cost).1
  {
    Arrival(cost - Level(b, now), b.refillPerSec, 0.0);
    CeilIsLeast((cost - Level(b, now)) / b.refillPerSec * 1000.0, 0);
  }

  lemma HintLevels(b: Bucket, now: int, cost: real, t: int)
    requires b.Valid() && b.last <= now <= t && cost <= b.capacity
    requires Level(b, now) < cost
    ensures Level(b, t) >= cost <==> cost - Level(b, now) <= Seconds(t - now) * b.refillPerSec
  {
    RefillComposes(b, now, t);
    ProductNonNegative(Seconds(t - now), b.refillPerSec);
  }

  /** The retry hint is sound and tight however many refused requests come in between: with unchanged
      limits every request before `now + wait` is refused, and afterwards a request succeeds exactly when
      it comes at `now + wait` or later. */
  lemma {:induction false} RetryHint(b: Bucket, now: int, cost: real, times: seq<int>, t: int)
    requires b.Valid() && b.last <= now && 0.0 < cost <= b.capacity
    requires Taken(b, now, cost).1 != 0
    requires Ascending(times, now) && now <= t
    requires forall i :: 0 <= i < |times| ==> times[i] < now + Taken(b, now, cost).1 && times[i] <= t
    ensures var tried := AfterTakes(Taken(b, now, cost).0, times, cost);
            tried.refillPerSec == b.refillPerSec &&
            (Taken(tried, t, cost).1 == 0 <==> now + Taken(b, now, cost).1 <= t)
  {
    var refused := Taken(b, now, cost).0;
    RefillComposes(b, now, now);
    RefillComposes(b, now, t);
    AllRefused(b, now, cost, refused, times, t);
  }

  lemma {:induction false} AllRefused(b: Bucket, now: int, cost: real, c: Bucket, times: seq<int>, t: int)
    requires b.Valid() && b.last <= now && 0.0 < cost <= b.capacity
    requires Taken(b, now, cost).1 != 0
    requires now <= c.last <= t && c == Refill(b, c.last) && Ascending(times, c.last)
    requires forall i :: 0 <= i < |times| ==> times[i] < now + Taken(b, now, cost).1 && times[i] <= t
    ensures var tried := AfterTakes(c, times, cost);
            tried.refillPerSec == b.refillPerSec &&
            (Taken(tried, t, cost).1 == 0 <==> now + Taken(b, now, cost).1 <= t)
    decreases |times|
  {
    if times == [] {
      RefillComposes(b, c.last, t);
      HintExact(b, now, cost, t);
      if Level(b, t) < cost { RefusalWaits(b, t, cost); }
    } else {
      RefillComposes(b, c.last, times[0]);
      HintExact(b, now, cost, times[0]);
      AllRefused(b, now, cost, Refill(b, times[0]), times[1..], t);
    }
  }

  // ----- Windows of a whole run -----

  /** What happens to one connection's bucket: requests, tier changes, and its replacement by a full
      bucket after a passed challenge. */
  datatype Op =
    | Take(at: int, cost: real)
    | Reconfigure(at: int, capacity: real, refillPerSec: real)
    | Replace(at: int, capacity: real, refillPerSec: real)

  ghost predicate Limits(op: Op, C: real, R: real) {
    match op
    case Take(_, cost) => 0.0 <= cost
    case Reconfigure(_, c, r) => 0.0 <= c <= C && 0.0 < r <= R
    case Replace(_, c, r) => 0.0 <= c <= C && 0.0 < r <= R
  }

  ghost predicate BoundedBy(b: Bucket, C: real, R: real) {
    b.Valid() && b.capacity <= C && b.refillPerSec <= R
  }

  ghost function Step(b: Bucket, op: Op): Bucket
    requires b.refillPerSec != 0.0
  {
    match op
    case Take(t, cost) => Taken(b, t, cost).0
    case Reconfigure(t, c, r) => Reconfigured(b, c, r, t)
    case Replace(t, c, r) => Full(c, r, t)
  }

  /** The tokens granted by one operation. */
  ghost function Granted(b: Bucket, op: Op): real
    requires b.refillPerSec != 0.0
  {
    if op.Take? && Taken(b, op.at, op.cost).1 == 0 then op.cost else 0.0
  }

  /** The tokens granted by a run of operations. */
  ghost function Spent(b: Bucket, ops: seq<Op>, C: real, R: real): real
    requires BoundedBy(b, C, R) && forall i :: 0 <= i < |ops| ==> Limits(ops[i], C, R)
    decreases |ops|
  {
    if ops == [] then 0.0
    else
      StepBounded(b, ops[0], C, R);
      Granted(b, ops[0]) + Spent(Step(b, ops[0]), ops[1..], C, R)
  }

  ghost function Replacements(ops: seq<Op>): nat {
    if ops == [] then 0 else (if ops[0].Replace? then 1 else 0) + Replacements(ops[1..])
  }

  ghost function Times(ops: seq<Op>): seq<int> {
    seq(|ops|, i requires 0 <= i < |ops| => ops[i].at)
  }

  lemma StepBounded(b: Bucket, op: Op, C: real, R: real)
    requires BoundedBy(b, C, R) && Limits(op, C, R)
    ensures BoundedBy(Step(b, op), C, R)
  {
    match op
    case Take(t, cost) => TakenKeepsValid(b, t, cost);
    case Reconfigure(t, c, r) => ReconfiguredKeepsValid(b, c, r, t);
    case Replace(_, _, _) =>
  }

  /** One operation never grants more than the level it finds, and what it leaves behind is paid for by
      that level, or by the capacity of a replacement bucket. */
  lemma StepPays(b: Bucket, op: Op, C: real, R: real)
    requires BoundedBy(b, C, R) && Limits(op, C, R) && b.last <= op.at
    ensures Step(b, op).last == op.at
    ensures Granted(b, op) + Step(b, op).tokens <= Level(b, op.at) + (if op.Replace? then C else 0.0)
  {
    RefillComposes(b, op.at, op.at);
    match op
    case Take(t, cost) =>
      if Level(b, t) < cost { RefusalWaits(b, t, cost); }
    case Reconfigure(_, _, _) =>
    case Replace(_, _, _) =>
  }

  lemma LevelGrowth(b: Bucket, t1: int, t2: int, C: real, R: real)
    requires BoundedBy(b, C, R) && b.last <= t1 <= t2
    ensures 0.0 <= Level(b, t1) <= C
    ensures Level(b, t2) <= Level(b, t1) + Seconds(t2 - t1) * R
  {
    RefillComposes(b, t1, t2);
    Scale(b.refillPerSec, R, Seconds(t2 - t1));
    ProductNonNegative(Seconds(t1 - b.last), b.refillPerSec);
  }

  /** The potential argument: grants are paid from the level at the start, the refill at rate R, and one
      full capacity per replacement. */
  lemma {:induction false} Potential(b: Bucket, ops: seq<Op>, C: real, R: real, from: int, to: int)
    requires BoundedBy(b, C, R) && 0.0 <= R && forall i :: 0 <= i < |ops| ==> Limits(ops[i], C, R)
    requires b.last <= from <= to && Ascending(Times(ops), from)
    requires forall i :: 0 <= i < |ops| ==> ops[i].at <= to
    ensures Spent(b, ops, C, R) <= Level(b, from) + C * Replacements(ops) as real + R * Seconds(to - from)
    decreases |ops|
  {
    hide *;
    if ops == [] {
      SpentNothing(b, C, R);
      SecondsSplit(from, to, to);
      ProductNonNegative(R, Seconds(to - from));
      LevelGrowth(b, from, from, C, R);
    } else {
      var op, rest := ops[0], ops[1..];
      SpentHead(b, ops, C, R, from);
      StepPays(b, op, C, R);
      LevelGrowth(b, from, op.at, C, R);
      Potential(Step(b, op), rest, C, R, op.at, to);
      LevelNow(Step(b, op));
      PotentialSum(C, R, if op.Replace? then 1 else 0, Replacements(rest), Seconds(op.at - from), Seconds(to - op.at));
      SecondsSplit(from, op.at, to);
    }
  }

  lemma SpentNothing(b: Bucket, C: real, R: real)
    requires BoundedBy(b, C, R)
    ensures Spent(b, [], C, R) == 0.0 && Replacements([]) == 0
    ensures C * 0 as real == 0.0
  {
  }

  lemma SecondsSplit(t1: int, t2: int, t3: int)
    requires t1 <= t2 <= t3
    ensures Seconds(t3 - t1) == Seconds(t2 - t1) + Seconds(t3 - t2)
    ensures 0.0 <= Seconds(t2 - t1)
  {
  }

  lemma SpentHead(b: Bucket, ops: seq<Op>, C: real, R: real, from: int)
    requires ops != [] && Ascending(Times(ops), from)
    requires BoundedBy(b, C, R) && forall i :: 0 <= i < |ops| ==> Limits(ops[i], C, R)
    ensures b.refillPerSec != 0.0 && from <= ops[0].at && Ascending(Times(ops[1..]), ops[0].at)
    ensures Limits(ops[0], C, R) && BoundedBy(Step(b, ops[0]), C, R) && Step(b, ops[0]).Valid()
    ensures Spent(b, ops, C, R) == Granted(b, ops[0]) + Spent(Step(b, ops[0]), ops[1..], C, R)
    ensures Replacements(ops) == (if ops[0].Replace? then 1 else 0) + Replacements(ops[1..])
  {
    assert Times(ops)[0] == ops[0].at;
    StepBounded(b, ops[0], C, R);
    AscendingTail(ops, from);
  }

  lemma LevelNow(b: Bucket)
    requires b.Valid()
    ensures Level(b, b.last) == b.tokens
  {
    assert Seconds(0) * b.refillPerSec == 0.0;
  }

  lemma AscendingTail(ops: seq<Op>, from: int)
    requires ops != [] && Ascending(Times(ops), from)
    ensures Ascending(Times(ops[1..]), ops[0].at)
  {
    forall i | 0 <= i < |ops| - 1
      ensures ops[0].at <= Times(ops[1..])[i]
    {
      assert Times(ops)[0] <= Times(ops)[i + 1];
    }
    forall i, j | 0 <= i <= j < |ops| - 1
      ensures Times(ops[1..])[i] <= Times(ops[1..])[j]
    {
      assert Times(ops)[i + 1] <= Times(ops)[j + 1];
    }
  }

  lemma PotentialSum(C: real, R: real, k: nat, n: nat, s1: real, s2: real)
    requires k <= 1
    ensures C * (k + n) as real == (if k == 1 then C else 0.0) + C * n as real
    ensures R * (s1 + s2) == R * s1 + R * s2
    ensures C * (n + 1) as real == C * n as real + C
  {
    assert (k + n) as real == k as real + n as real;
    assert C * (k as real + n as real) == C * k as real + C * n as real;
  }

  /** The number of unit requests that got through. */
  ghost function Passes(b: Bucket, ops: seq<Op>, C: real, R: real): nat
    requires BoundedBy(b, C, R) && forall i :: 0 <= i < |ops| ==> Limits(ops[i], C, R)
    decreases |ops|
  {
    if ops == [] then 0
    else
      StepBounded(b, ops[0], C, R);
      (if ops[0].Take? && Taken(b, ops[0].at, ops[0].cost).1 == 0 then 1 else 0)
      + Passes(Step(b, ops[0]), ops[1..], C, R)
  }

  lemma {:induction false} UnitPasses(b: Bucket, ops: seq<Op>, C: real, R: real)
    requires BoundedBy(b, C, R) && forall i :: 0 <= i < |ops| ==> Limits(ops[i], C, R)
    requires forall i :: 0 <= i < |ops| && ops[i].Take? ==> ops[i].cost == 1.0
    ensures Passes(b, ops, C, R) as real == Spent(b, ops, C, R)
    decreases |ops|
  {
    if ops != [] {
      StepBounded(b, ops[0], C, R);
      UnitPasses(Step(b, ops[0]), ops[1..], C, R);
    }
  }

  /** In any window of a run, whatever the interleaving of requests, tier changes and k replacements,
      at most C * (k + 1) + R * T unit requests get through in T seconds. */
  lemma WindowBound(b: Bucket, ops: seq<Op>, C: real, R: real, from: int, to: int)
    requires BoundedBy(b, C, R) && 0.0 <= R && forall i :: 0 <= i < |ops| ==> Limits(ops[i], C, R)
    requires forall i :: 0 <= i < |ops| && ops[i].Take? ==> ops[i].cost == 1.0
    requires b.last <= from <= to && Ascending(Times(ops), from)
    requires forall i :: 0 <= i < |ops| ==> ops[i].at <= to
    ensures Passes(b, ops, C, R) as real <= C * (Replacements(ops) + 1) as real + R * Seconds(to - from)
  {
    hide *;
    UnitPasses(b, ops, C, R);
    Potential(b, ops, C, R, from, to);
    LevelGrowth(b, from, from, C, R);
    PotentialSum(C, R, 0, Replacements(ops), 0.0, 0.0);
  }

  /** The bound needs a clock that does not go back: one that alternates pays the same second again and
      again, so a bucket of one token a second passes a request at 1000 every time. */
  lemma ClockGoingBackOverspends(b: Bucket)
    requires b == Bucket(1.0, 1.0, 0.0, 1000)
    ensures var back := Taken(b, 0, 1.0);
            back.1 != 0 && Taken(back.0, 1000, 1.0) == (b, 0)
  {
    assert Refill(b, 0) == Bucket(1.0, 1.0, 0.0, 0);
    assert Refill(Bucket(1.0, 1.0, 0.0, 0), 1000) == Bucket(1.0, 1.0, 1.0, 1000);
  }

  // ----- Cooldown -----

  function Pow2(n: nat): nat {
    if n == 0 then 1 else 2 * Pow2(n - 1)
  }

  /** Progressive cooldown after repeated violations. */
  function ViolationCooldownMs(strikes: int): nat {
    if strikes < 3 then 0
    else if 60_000 <= 1000 * Pow2(strikes - 2) then 60_000
    else 1000 * Pow2(strikes - 2)
  }

  /** The announced sequence: nothing for two strikes, then 2, 4, 8, 16, 32 seconds, then a minute for ever. */
  lemma CooldownLadder(strikes: nat)
    ensures 7 < strikes ==> ViolationCooldownMs(strikes) == 60_000
    ensures 3 <= strikes <= 7 ==> ViolationCooldownMs(strikes) == [2000, 4000, 8000, 16_000, 32_000][strikes - 3]
    ensures strikes < 3 ==> ViolationCooldownMs(strikes) == 0
  {
    assert Pow2(1) == 2 && Pow2(2) == 4 && Pow2(3) == 8;
    assert Pow2(4) == 16 && Pow2(5) == 32;
    if 7 < strikes { Pow2Grows(6, strikes - 2); assert Pow2(6) == 64; }
  }

  lemma {:induction false} Pow2Grows(m: nat, n: nat)
    requires m <= n
    ensures Pow2(m) <= Pow2(n)
    decreases n
  {
    if m < n { Pow2Grows(m, n - 1); }
  }

  /** The cooldown announced with a refusal covers the hint, so if the limits are unchanged the first
      request after it passes the bucket. */
  lemma FirstSendAfterCooldown(b: Bucket, now: int, strikes: int, t: int)
    requires b.Valid() && b.last <= now && 1.0 <= b.capacity
    requires Taken(b, now, 1.0).1 != 0
    requires var wait, extra := Taken(b, now, 1.0).1, ViolationCooldownMs(strikes);
             now + (if wait <= extra then extra else wait) <= t
    ensures Taken(Taken(b, now, 1.0).0, t, 1.0).1 == 0
  {
    HintExact(b, now, 1.0, now);
    RetryHint(b, now, 1.0, [], t);
  }
}
