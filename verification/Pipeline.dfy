/** What the send pipeline of one connection (src/gateway/connection.ts) keeps true, stated on the values of
    its fields: tier, bucket, score, send window, cooldown promise and remembered replies. */
module Pipeline {
  import opened Types
  import opened Wire
  import opened RateLimit
  import opened Reals
  import S = Suspicion
  import Store

  // ----- Tiers -----

  function TierFor(v: real): Tier {
    if v >= S.SEVERE then RESTRICTED else if v >= S.THROTTLE then THROTTLED else NORMAL
  }

  function Rank(tier: Tier): nat {
    if tier == RESTRICTED then 2 else if tier == THROTTLED then 1 else 0
  }

  /** Tier and bucket after `applyTier`. */
  function Retiered(tier: Tier, b: Bucket, s: S.Score, now: int, decay: int -> real): (Tier, Bucket) {
    var next := TierFor(S.Value(s, now, decay));
    if next != tier then (next, Reconfigured(b, next.capacity, next.refillPerSec, now)) else (tier, b)
  }

  ghost predicate Matches(tier: Tier, b: Bucket) {
    && tier in {NORMAL, THROTTLED, RESTRICTED}
    && b.capacity == tier.capacity && b.refillPerSec == tier.refillPerSec
  }

  /** The bucket has its tier's limits, and the tier is at least as tight as the live score warrants. */
  ghost predicate TierInv(tier: Tier, b: Bucket, s: S.Score, now: int, decay: int -> real) {
    Matches(tier, b) && s.at <= now && Rank(TierFor(S.Value(s, now, decay))) <= Rank(tier)
  }

  lemma ValueFades(s: S.Score, t1: int, t2: int, decay: int -> real)
    requires S.HalfLife(decay) && t1 <= t2
    ensures S.Value(s, t2, decay) <= S.Value(s, t1, decay)
  {
    if 0.0 < s.score {
      DecayedFades(s, t1, t2, decay);
    }
    hide S.Decayed, S.HalfLife;
  }

  lemma DecayedFades(s: S.Score, t1: int, t2: int, decay: int -> real)
    requires S.HalfLife(decay) && t1 <= t2 && 0.0 <= s.score
    ensures S.Decayed(s, t2, decay) <= S.Decayed(s, t1, decay)
  {
    hide S.HalfLife, S.Factor;
    S.FactorFalls(decay, t1 - s.at, t2 - s.at);
    Scale(S.Factor(decay, t2 - s.at), S.Factor(decay, t1 - s.at), s.score);
  }

  /** Decay alone only makes the tier tighter than needed. */
  lemma TierTick(tier: Tier, b: Bucket, s: S.Score, now: int, t: int, decay: int -> real)
    requires S.HalfLife(decay) && TierInv(tier, b, s, now, decay) && now <= t
    ensures TierInv(tier, b, s, t, decay)
  {
    ValueFades(s, now, t, decay);
    hide S.Value, S.HalfLife;
  }

  /** `applyTier`, even with an instant read some time ago, restores the invariant. */
  lemma ApplyTierRestores(tier: Tier, b: Bucket, s: S.Score, t: int, now: int, decay: int -> real)
    requires S.HalfLife(decay) && Matches(tier, b) && s.at <= now && t <= now
    ensures var (tier', b') := Retiered(tier, b, s, t, decay); TierInv(tier', b', s, now, decay)
  {
    ValueFades(s, t, now, decay);
    hide S.Value, S.HalfLife;
  }

  /** A passed background check lowers the score without touching the tier. */
  lemma LoweringKeepsTier(tier: Tier, b: Bucket, s: S.Score, points: real, now: int, decay: int -> real)
    requires S.HalfLife(decay) && TierInv(tier, b, s, now, decay) && 0.0 <= points
    ensures TierInv(tier, b, S.Added(s, -points, now, false, decay), now, decay)
  {
    S.FactorLaws(decay, 0, 0);
    hide S.HalfLife, S.Factor;
    var s' := S.Added(s, -points, now, false, decay);
    S.ValueAtMost(s', now, decay);
    assert now - now == 0;
    ValueNonNegative(s, now, decay);
  }

  lemma ValueNonNegative(s: S.Score, now: int, decay: int -> real)
    ensures 0.0 <= S.Value(s, now, decay)
  {
  }

  /** Reconnecting does not wash suspicion away: the score is raised to the stored one. */
  lemma CarryOver(s: S.Score, stored: S.Score, now: int, decay: int -> real)
    requires S.HalfLife(decay) && S.Value(s, now, decay) < S.Value(stored, now, decay)
    ensures var raised := S.Added(s, S.Value(stored, now, decay) - S.Value(s, now, decay), now, false, decay);
            S.Value(raised, now, decay) == Min(S.MAX, S.Value(stored, now, decay))
  {
    ValueNonNegative(s, now, decay);
    S.FactorLaws(decay, 0, 0);
    hide S.HalfLife, S.Factor;
    var v, raised := S.Value(stored, now, decay),
      S.Added(s, S.Value(stored, now, decay) - S.Value(s, now, decay), now, false, decay);
    assert 0.5 <= v;
    hide S.Value;
    assert raised == S.Score(Min(S.MAX, v), now);
    assert S.Decayed(raised, now, decay) == raised.score * S.Factor(decay, 0) == raised.score;
    ValueKnown(raised, now, decay);
  }

  lemma ValueKnown(s: S.Score, now: int, decay: int -> real)
    requires 0.5 <= s.score && S.Decayed(s, now, decay) == s.score
    ensures S.Value(s, now, decay) == s.score
  {
    hide S.Decayed;
  }

  // ----- The send window -----

  /** A send that got past the bucket: when, and after how many passed challenges. */
  datatype Pass = Pass(at: int, epoch: nat)

  /** The most sends that can get past the bucket from one pass to another: ten, ten more for every challenge
      passed in between, and one for every second. */
  function Allowance(from: Pass, to: Pass): real {
    10.0 * (to.epoch - from.epoch + 1) as real + Seconds(to.at - from.at)
  }

  ghost predicate Bounded(b: Bucket, now: int) {
    BoundedBy(b, 10.0, 1.0) && b.last <= now
  }

  ghost predicate WindowInv(b: Bucket, sends: seq<Pass>, epoch: nat, now: int) {
    && Bounded(b, now)
    && (forall i :: 0 <= i < |sends| ==> sends[i].at <= now && sends[i].epoch <= epoch)
    && (forall i :: 0 <= i < |sends| ==> (|sends| - i) as real + Level(b, now) <= Allowance(sends[i], Pass(now, epoch)))
    && (forall i, j :: 0 <= i <= j < |sends| ==> (j - i + 1) as real <= Allowance(sends[i], sends[j]))
  }

  lemma BoundedGrowth(b: Bucket, t1: int, t2: int)
    requires Bounded(b, t1) && t1 <= t2
    ensures 0.0 <= Level(b, t1) <= 10.0 && Level(b, t2) <= Level(b, t1) + Seconds(t2 - t1)
  {
    LevelGrowth(b, t1, t2, 10.0, 1.0);
  }

  /** Another bucket, or a later instant, keeps the window if it holds no more than the old one may have gained. */
  lemma WindowMoves(b: Bucket, b': Bucket, sends: seq<Pass>, epoch: nat, epoch': nat, now: int, now': int)
    requires WindowInv(b, sends, epoch, now) && Bounded(b', now') && now <= now' && epoch <= epoch'
    requires sends != [] ==>
               Level(b', now') <= Level(b, now) + Seconds(now' - now) + 10.0 * (epoch' - epoch) as real
    ensures WindowInv(b', sends, epoch', now')
  {
    hide Level, BoundedBy;
    forall i | 0 <= i < |sends|
      ensures (|sends| - i) as real + Level(b', now') <= Allowance(sends[i], Pass(now', epoch'))
    {
      assert Seconds(now' - sends[i].at) == Seconds(now - sends[i].at) + Seconds(now' - now);
    }
  }

  lemma WindowTick(b: Bucket, sends: seq<Pass>, epoch: nat, now: int, t: int)
    requires WindowInv(b, sends, epoch, now) && now <= t
    ensures WindowInv(b, sends, epoch, t)
  {
    BoundedGrowth(b, now, t);
    WindowMoves(b, b, sends, epoch, epoch, now, t);
  }

  lemma WindowReconfigured(b: Bucket, tier: Tier, sends: seq<Pass>, epoch: nat, t: int, now: int)
    requires WindowInv(b, sends, epoch, now) && tier in {NORMAL, THROTTLED, RESTRICTED} && t <= now
    requires t == now || sends == []
    ensures WindowInv(Reconfigured(b, tier.capacity, tier.refillPerSec, t), sends, epoch, now)
  {
    var b' := Reconfigured(b, tier.capacity, tier.refillPerSec, t);
    ReconfiguredKeepsValid(b, tier.capacity, tier.refillPerSec, t);
    if t == now { LevelNow(b'); }
    WindowMoves(b, b', sends, epoch, epoch, now, now);
  }

  lemma WindowRetiered(tier: Tier, b: Bucket, s: S.Score, decay: int -> real, sends: seq<Pass>, epoch: nat, t: int,
                       now: int)
    requires WindowInv(b, sends, epoch, now) && t <= now && (t == now || sends == [])
    ensures WindowInv(Retiered(tier, b, s, t, decay).1, sends, epoch, now)
  {
    hide S.Value, WindowInv, Reconfigured;
    WindowReconfigured(b, TierFor(S.Value(s, t, decay)), sends, epoch, t, now);
  }

  /** A refused request is a plain refill. */
  lemma WindowRefused(b: Bucket, sends: seq<Pass>, epoch: nat, now: int)
    requires WindowInv(b, sends, epoch, now) && Taken(b, now, 1.0).1 != 0
    ensures WindowInv(Taken(b, now, 1.0).0, sends, epoch, now)
  {
    TakenKeepsValid(b, now, 1.0);
    LevelNow(Taken(b, now, 1.0).0);
    WindowMoves(b, Taken(b, now, 1.0).0, sends, epoch, epoch, now, now);
  }

  /** A granted request is one more send. */
  lemma WindowGranted(b: Bucket, sends: seq<Pass>, epoch: nat, now: int)
    requires WindowInv(b, sends, epoch, now) && Taken(b, now, 1.0).1 == 0
    ensures WindowInv(Taken(b, now, 1.0).0, sends + [Pass(now, epoch)], epoch, now)
  {
    var b' := Taken(b, now, 1.0).0;
    TakenKeepsValid(b, now, 1.0);
    LevelNow(b');
    BoundedGrowth(b, now, now);
    TakenPays(b, now);
    assert Bounded(b', now);
    var sends' := sends + [Pass(now, epoch)];
    hide Level, Taken, BoundedBy;
    assert Allowance(Pass(now, epoch), Pass(now, epoch)) == 10.0;
    forall i | 0 <= i < |sends'|
      ensures (|sends'| - i) as real + Level(b', now) <= Allowance(sends'[i], Pass(now, epoch))
    {
    }
    forall i, j | 0 <= i <= j < |sends'|
      ensures (j - i + 1) as real <= Allowance(sends'[i], sends'[j])
    {
      if j == |sends| && i < |sends| {
        assert (|sends| - i) as real + Level(b, now) <= Allowance(sends[i], Pass(now, epoch));
      }
    }
  }

  lemma TakenPays(b: Bucket, now: int)
    requires b.Valid() && b.last <= now && Taken(b, now, 1.0).1 == 0
    ensures Taken(b, now, 1.0).0.tokens == Level(b, now) - 1.0
  {
    if Level(b, now) < 1.0 { RefusalWaits(b, now, 1.0); }
  }

  /** The full bucket after a passed challenge, dated by an instant read before the verification. */
  lemma WindowReplaced(b: Bucket, sends: seq<Pass>, epoch: nat, t: int, now: int)
    requires WindowInv(b, sends, epoch, now) && t <= now
    ensures WindowInv(Full(NORMAL.capacity, NORMAL.refillPerSec, t), sends, epoch + 1, now)
  {
    var b' := Full(NORMAL.capacity, NORMAL.refillPerSec, t);
    BoundedGrowth(b, now, now);
    BoundedGrowth(b', now, now);
    WindowMoves(b, b', sends, epoch, epoch + 1, now, now);
  }

  // ----- The cooldown promise -----

  /** While the promise stands, a request at `until` or later passes the bucket. */
  ghost predicate PromiseInv(b: Bucket, until: int, promised: bool) {
    promised ==> b.Valid() && b.last <= until && 1.0 <= Level(b, until)
  }

  lemma PromiseHolds(b: Bucket, until: int, t: int)
    requires PromiseInv(b, until, true) && until <= t
    ensures Taken(b, t, 1.0).1 == 0
  {
    RefillComposes(b, until, t);
  }

  /** Refusing with `until` covering the hint makes the promise. */
  lemma PromiseMade(b: Bucket, now: int, until: int)
    requires b.Valid() && b.last <= now && 1.0 <= b.capacity && Taken(b, now, 1.0).1 != 0
    requires now + Taken(b, now, 1.0).1 <= until
    ensures PromiseInv(Taken(b, now, 1.0).0, until, true)
  {
    HintExact(b, now, 1.0, until);
    RefillComposes(b, now, until);
    TakenKeepsValid(b, now, 1.0);
  }

  // ----- Replies -----

  const REPLIES := 64

  function Lookup(replies: seq<(string, ServerEvent)>, id: string): Option<ServerEvent> {
    if replies == [] then None
    else if replies[0].0 == id then Some(replies[0].1)
    else Lookup(replies[1..], id)
  }

  /** `Map.set` keeps the position of a key it knows and appends one it does not. */
  function Stored(replies: seq<(string, ServerEvent)>, id: string, reply: ServerEvent): seq<(string, ServerEvent)> {
    if replies == [] then [(id, reply)]
    else if replies[0].0 == id then [(id, reply)] + replies[1..]
    else [replies[0]] + Stored(replies[1..], id, reply)
  }

  ghost predicate Distinct(replies: seq<(string, ServerEvent)>) {
    forall i, j :: 0 <= i < j < |replies| ==> replies[i].0 != replies[j].0
  }

  /** The reply map holds exactly the last, at most 64, decisions in order. */
  ghost predicate RepliesInv(replies: seq<(string, ServerEvent)>, decided: seq<(string, ServerEvent)>) {
    replies == Store.Last(decided, REPLIES) && Distinct(replies)
  }

  lemma {:induction false} LookupFinds(replies: seq<(string, ServerEvent)>, k: nat)
    requires Distinct(replies) && k < |replies|
    ensures Lookup(replies, replies[k].0) == Some(replies[k].1)
  {
    if 0 < k {
      assert replies[0].0 != replies[k].0;
      var rest := replies[1..];
      assert forall i :: 0 <= i < |rest| ==> rest[i] == replies[i + 1];
      LookupFinds(rest, k - 1);
    }
  }

  lemma {:induction false} LookupMisses(replies: seq<(string, ServerEvent)>, id: string, reply: ServerEvent)
    requires Lookup(replies, id) == None
    ensures Stored(replies, id, reply) == replies + [(id, reply)]
    ensures forall i :: 0 <= i < |replies| ==> replies[i].0 != id
  {
    if replies != [] {
      LookupMisses(replies[1..], id, reply);
      assert forall i :: 0 < i < |replies| ==> replies[i] == replies[1..][i - 1];
    }
  }

  /** A decision on a new id keeps the reply map right, the oldest one making room beyond 64. */
  lemma Remember(replies: seq<(string, ServerEvent)>, decided: seq<(string, ServerEvent)>, id: string,
                 reply: ServerEvent)
    requires RepliesInv(replies, decided) && Lookup(replies, id) == None
    ensures var r := Stored(replies, id, reply);
            RepliesInv(if |r| > REPLIES then r[1..] else r, decided + [(id, reply)])
  {
    hide Stored, Lookup, Distinct, Store.Last;
    LookupMisses(replies, id, reply);
    LastPush(decided, (id, reply), REPLIES);
    DistinctPush(replies, (id, reply));
  }

  lemma DistinctPush(replies: seq<(string, ServerEvent)>, x: (string, ServerEvent))
    requires Distinct(replies) && forall i :: 0 <= i < |replies| ==> replies[i].0 != x.0
    ensures Distinct(replies + [x]) && Distinct((replies + [x])[1..])
  {
    var pushed := replies + [x];
    assert forall i :: 0 <= i < |pushed| - 1 ==> pushed[1..][i] == pushed[i + 1];
  }

  lemma LastPush<T>(s: seq<T>, x: T, n: nat)
    requires 0 < n
    ensures var r := Store.Last(s, n) + [x];
            Store.Last(s + [x], n) == if |r| > n then r[1..] else r
  {
  }

  /** A client id replayed before 64 newer ones are decided finds the reply it got. */
  lemma ReplayFinds(replies: seq<(string, ServerEvent)>, decided: seq<(string, ServerEvent)>, k: nat)
    requires RepliesInv(replies, decided) && k < |decided| <= k + REPLIES
    ensures Lookup(replies, decided[k].0) == Some(decided[k].1)
  {
    LookupFinds(replies, k - (|decided| - |replies|));
  }

  // ----- The score since the last reset -----

  /** While the score comes from zero it is the score of its log; and after a passed challenge, as long as
      the trust window lasts, every signal in the log was counted at half weight. */
  ghost predicate ScoreInv(s: S.Score, log: seq<S.Event>, fromZero: bool, passed: bool, trustedUntil: int, now: int,
                           decay: int -> real) {
    fromZero ==>
      && s == S.Run(log, decay) && S.Timely(log)
      && (forall i :: 0 <= i < |log| ==> log[i].at <= now)
      && (passed ==> S.TrustedSinceReset(log) || trustedUntil <= now)
  }

  lemma ScoreGrows(s: S.Score, log: seq<S.Event>, e: S.Event, fromZero: bool, passed: bool, trustedUntil: int,
                   now: int, decay: int -> real)
    requires ScoreInv(s, log, fromZero, passed, trustedUntil, now, decay) && S.Sound(e) && e.at == now && !e.Reset?
    requires e.Signalled? && !e.trusted ==> trustedUntil <= now
    ensures ScoreInv(S.Apply(s, e, decay), log + [e], fromZero, passed, trustedUntil, now, decay)
  {
    assert (log + [e])[..|log|] == log;
  }

  lemma ScoreTick(s: S.Score, log: seq<S.Event>, fromZero: bool, passed: bool, trustedUntil: int, now: int, t: int,
                  decay: int -> real)
    requires ScoreInv(s, log, fromZero, passed, trustedUntil, now, decay) && now <= t
    ensures ScoreInv(s, log, fromZero, passed, trustedUntil, t, decay)
  {
    hide S.Run, S.TrustedSinceReset;
  }

  /** What the log of one connection can hold when a send that began at `since` looks at it; `left` background
      verifications may still fail. */
  ghost predicate LogInv(log: seq<S.Event>, since: int, passed: bool, left: nat, now: int) {
    && since <= now && (forall i :: 0 <= i < |log| ==> log[i].at <= now)
    && S.Plausible(log, since) && left <= 1 && (left == 1 ==> S.NoneFailed(log)) && (passed ==> S.AllAfterJoin(log))
  }

  /** May the signal come now? */
  ghost predicate Ready(name: S.Signal, log: seq<S.Event>, since: int, passed: bool, left: nat, now: int) {
    && (name == S.VerificationFailed ==> left == 1) && (passed ==> S.AfterJoin(name))
    && (since < now ==> S.InWait(name) && (name == S.MachineRegularTiming ==> S.Unsaid(log, since)))
  }

  lemma LogGrows(log: seq<S.Event>, e: S.Event, since: int, passed: bool, left: nat, now: int)
    requires LogInv(log, since, passed, left, now) && e.at == now && !e.Reset?
    requires e.Signalled? ==> Ready(e.signal, log, since, passed, left, now)
    ensures LogInv(log + [e], since, passed, if e.Signalled? && e.signal == S.VerificationFailed then 0 else left, now)
    ensures S.Unsaid(log, since) && !(e.Signalled? && e.signal == S.MachineRegularTiming) ==> S.Unsaid(log + [e], since)
  {
    S.PlausibleGrows(log, e, since);
    hide S.Plausible, S.NoneFailed, S.AllAfterJoin, S.Unsaid;
  }

  /** From zero, an escalation judged at `t` by `now` needs three signals unless the wait has let 60 points decay to
      43; and ten within the trust window after a passed challenge if there was no wait. */
  ghost predicate EnoughSignals(log: seq<S.Event>, passed: bool, t: int, now: int, decay: int -> real) {
    && S.CHALLENGE * S.Factor(decay, now - t) <= 25.0 * S.SignalsSinceReset(log) as real
    && (passed ==> S.SEVERE * S.Factor(decay, now - t) <= 12.5 * S.SignalsSinceReset(log) as real)
    && (43.0 < S.CHALLENGE * S.Factor(decay, now - t) ==> 3 <= S.SignalsSinceReset(log))
    && (t == now && passed ==> 10 <= S.SignalsSinceReset(log))
  }

  lemma EscalationCounts(s: S.Score, log: seq<S.Event>, passed: bool, trustedUntil: int, left: nat, t: int, now: int,
                         decay: int -> real)
    requires S.HalfLife(decay) && ScoreInv(s, log, true, passed, trustedUntil, now, decay)
             && LogInv(log, t, passed, left, now)
    requires S.Escalates(S.Value(s, t, decay), trustedUntil > t)
    ensures EnoughSignals(log, passed && trustedUntil > now, t, now, decay)
  {
    LogMeans(log, t, passed, left, now);
    assert S.Escalates(S.Value(s, t, decay), false);
    hide S.HalfLife, S.Factor, S.Value, S.Run, S.Timely, S.Plausible, S.AllAfterJoin, S.SignalsSinceReset,
      S.TrustedSinceReset, ScoreInv, EnoughSignals, LogInv, S.Escalates;
    OfTheLog(s, log, passed, trustedUntil, now, decay);
    S.EscalationAtStaleClock(log, t, now - t, trustedUntil > t, decay);
    if 43.0 < S.CHALLENGE * S.Factor(decay, now - t) {
      assert S.EscalatesWithin(log, t, now - t, decay);
      S.TwoNeverEscalateEver(log, t, now - t, decay);
    }
    if t == now && passed && trustedUntil > now { S.TrustedNeedsTen(log, t, decay); }
    Enough(log, passed && trustedUntil > now, t, now, decay);
  }

  lemma LogMeans(log: seq<S.Event>, since: int, passed: bool, left: nat, now: int)
    requires LogInv(log, since, passed, left, now)
    ensures since <= now && S.Plausible(log, since) && (passed ==> S.AllAfterJoin(log))
  {
  }

  lemma OfTheLog(s: S.Score, log: seq<S.Event>, passed: bool, trustedUntil: int, now: int, decay: int -> real)
    requires ScoreInv(s, log, true, passed, trustedUntil, now, decay)
    ensures s == S.Run(log, decay) && S.Timely(log) && forall i :: 0 <= i < |log| ==> log[i].at <= now
    ensures passed && trustedUntil > now ==> S.TrustedSinceReset(log)
  {
  }

  lemma Enough(log: seq<S.Event>, passed: bool, t: int, now: int, decay: int -> real)
    requires S.CHALLENGE * S.Factor(decay, now - t) <= 25.0 * S.SignalsSinceReset(log) as real
    requires passed ==> S.SEVERE * S.Factor(decay, now - t) <= 12.5 * S.SignalsSinceReset(log) as real
    requires 43.0 < S.CHALLENGE * S.Factor(decay, now - t) ==> 3 <= S.SignalsSinceReset(log)
    requires t == now && passed ==> 10 <= S.SignalsSinceReset(log)
    ensures EnoughSignals(log, passed, t, now, decay)
  {
    hide S.Factor, S.SignalsSinceReset;
  }

  // ----- An even sender -----

  /** The normal bucket and the analyzer after `n` sends, `g` apart from `first` on. */
  ghost function Evenly(first: int, g: int, n: nat, sqrt: real -> real): (after: (Bucket, S.Timing))
    ensures after.0.capacity == 10.0 && after.0.refillPerSec == 1.0
  {
    if n == 0 then (Full(NORMAL.capacity, NORMAL.refillPerSec, first), S.Timing([], 0))
    else
      var (b, timing) := Evenly(first, g, n - 1, sqrt);
      (Taken(b, first + (n - 1) * g, 1.0).0, S.Recorded(timing, first + (n - 1) * g, sqrt).0)
  }

  /** A client that sends evenly, a tenth of a second to twenty seconds apart, does not meet the rate limit, and the
      analyzer fires at its eleventh send and not before: the cadence can be the only signal of a send. */
  lemma {:induction false} EvenSendsFire(first: int, g: int, n: nat, sqrt: real -> real)
    requires S.SquareRoot(sqrt) && 0 < first && 100 <= g <= 20_000 && n <= 10
    ensures var (b, timing) := Evenly(first, g, n, sqrt);
            && Taken(b, first + n * g, 1.0).1 == 0 && (S.Recorded(timing, first + n * g, sqrt).1 <==> n == 10)
  {
    hide Evenly;
    var (b, timing) := Evenly(first, g, n, sqrt);
    EvenState(first, g, n, sqrt);
    var now := first + n * g;
    assert 0 < n ==> now - (first + (n - 1) * g) == g;
    Passes(b, n, now);
    hide Taken;
    if n == 10 {
      S.EqualGapsFire(timing, now, g, sqrt);
    }
  }

  lemma Passes(b: Bucket, n: nat, now: int)
    requires b.capacity == 10.0 && b.refillPerSec == 1.0 && n <= 10
             && 10.0 - n as real + (n - 1) as real / 10.0 <= b.tokens
    requires n == 0 || b.last + 100 <= now
    ensures Taken(b, now, 1.0).1 == 0
  {
  }

  lemma {:induction false} EvenState(first: int, g: int, n: nat, sqrt: real -> real)
    requires 0 < first && 100 <= g <= 20_000 && n <= 10
    ensures var (b, timing) := Evenly(first, g, n, sqrt);
            && b.Valid() && 10.0 - n as real + (n - 1) as real / 10.0 <= b.tokens
            && (n == 0 ==> b.last == first && timing == S.Timing([], 0))
            && (0 < n ==> b.last == timing.last == first + (n - 1) * g && 0 < timing.last
                          && |timing.gaps| == n - 1 && forall i :: 0 <= i < n - 1 ==> timing.gaps[i] == g)
  {
    if 0 < n {
      EvenState(first, g, n - 1, sqrt);
      assert 1 < n ==> first + (n - 1) * g - (first + (n - 2) * g) == g;
      Grows(first, n - 1, g);
    }
  }

  lemma Grows(first: int, n: nat, g: int)
    requires 0 < g
    ensures first <= first + n * g
  {
  }

  lemma ScoreRestarts(t: int, passed: bool, trustedUntil: int, now: int, decay: int -> real)
    requires t <= now
    ensures ScoreInv(S.Score(0.0, t), [S.Reset(t)], true, passed, trustedUntil, now, decay)
  {
    assert [S.Reset(t)][..0] == [];
  }

  // ----- All of it -----

  /** What a connection keeps to pace its sends. */
  datatype Gate = Gate(
    tier: Tier, bucket: Bucket, until: int, promised: bool, sends: seq<Pass>, epoch: nat,
    score: S.Score, log: seq<S.Event>, fromZero: bool, passed: bool, since: int, left: nat)

  ghost predicate GateInv(g: Gate, trustedUntil: int, now: int, decay: int -> real) {
    && S.HalfLife(decay)
    && TierInv(g.tier, g.bucket, g.score, now, decay)
    && WindowInv(g.bucket, g.sends, g.epoch, now)
    && PromiseInv(g.bucket, g.until, g.promised)
    && ScoreInv(g.score, g.log, g.fromZero, g.passed, trustedUntil, now, decay)
    && LogInv(g.log, g.since, g.passed, g.left, now)
  }

  lemma GateStarts(now: int, decay: int -> real)
    requires S.HalfLife(decay) && 0 <= now
    ensures GateInv(Gate(NORMAL, Full(NORMAL.capacity, NORMAL.refillPerSec, now), 0, false, [], 0, S.ZERO, [], true,
                         false, now, 1), 0, now, decay)
  {
    hide S.HalfLife;
  }

  lemma GateTick(g: Gate, trustedUntil: int, now: int, t: int, decay: int -> real)
    requires GateInv(g, trustedUntil, now, decay) && now <= t
    ensures GateInv(g, trustedUntil, t, decay)
  {
    hide S.HalfLife, TierInv, WindowInv, PromiseInv, ScoreInv, LogInv;
    TierTick(g.tier, g.bucket, g.score, now, t, decay);
    WindowTick(g.bucket, g.sends, g.epoch, now, t);
    ScoreTick(g.score, g.log, g.fromZero, g.passed, trustedUntil, now, t, decay);
    LogTick(g.log, g.since, g.passed, g.left, now, t);
  }

  lemma LogTick(log: seq<S.Event>, since: int, passed: bool, left: nat, now: int, t: int)
    requires LogInv(log, since, passed, left, now) && now <= t
    ensures LogInv(log, since, passed, left, t)
  {
    hide S.Plausible, S.NoneFailed, S.AllAfterJoin;
  }

  /** A frame begins. */
  lemma GateBegins(g: Gate, trustedUntil: int, now: int, decay: int -> real)
    requires GateInv(g, trustedUntil, now, decay)
    ensures GateInv(g.(since := now), trustedUntil, now, decay) && S.Unsaid(g.log, now)
  {
    S.PlausibleNow(g.log, g.since, now);
    hide S.HalfLife, TierInv, WindowInv, PromiseInv, ScoreInv, S.Plausible, S.NoneFailed, S.AllAfterJoin, S.Unsaid;
  }

  /** Another score, judged at `t`, and the tier that goes with it. */
  function Judged(g: Gate, score: S.Score, t: int, decay: int -> real): Gate {
    var (tier, bucket) := Retiered(g.tier, g.bucket, score, t, decay);
    g.(score := score, tier := tier, bucket := bucket, promised := g.promised && tier == g.tier)
  }

  lemma GateJudged(g: Gate, score: S.Score, log: seq<S.Event>, fromZero: bool, left: nat, trustedUntil: int,
                   trustedUntil': int, t: int, now: int, decay: int -> real)
    requires GateInv(g, trustedUntil, now, decay) && score.at <= now && t <= now && (t == now || g.sends == [])
    requires ScoreInv(score, log, fromZero, g.passed, trustedUntil', now, decay)
             && LogInv(log, g.since, g.passed, left, now)
    ensures GateInv(Judged(g, score, t, decay).(log := log, fromZero := fromZero, left := left), trustedUntil', now,
                    decay)
    ensures Judged(g, score, t, decay).tier == TierFor(S.Value(score, t, decay))
  {
    hide S.HalfLife, WindowInv, ScoreInv, S.Value, LogInv;
    ApplyTierRestores(g.tier, g.bucket, score, t, now, decay);
    WindowRetiered(g.tier, g.bucket, score, decay, g.sends, g.epoch, t, now);
  }

  lemma GateSignalled(g: Gate, name: S.Signal, trustedUntil: int, now: int, decay: int -> real)
    requires GateInv(g, trustedUntil, now, decay) && Ready(name, g.log, g.since, g.passed, g.left, now)
    ensures var trusted, log := trustedUntil > now, g.log + [S.Signalled(now, name, trustedUntil > now)];
            var g' := Judged(g, S.Added(g.score, S.Points(name), now, trusted, decay), now, decay);
            && GateInv(g'.(log := log, left := if name == S.VerificationFailed then 0 else g.left), trustedUntil, now,
                       decay)
            && g'.tier == TierFor(S.Value(g'.score, now, decay))
            && (S.Unsaid(g.log, g.since) && name != S.MachineRegularTiming ==> S.Unsaid(log, g.since))
  {
    var e := S.Signalled(now, name, trustedUntil > now);
    hide S.Points, S.Unsaid;
    ScoreGrows(g.score, g.log, e, g.fromZero, g.passed, trustedUntil, now, decay);
    LogGrows(g.log, e, g.since, g.passed, g.left, now);
    hide S.HalfLife, WindowInv, ScoreInv, S.Value, TierInv, LogInv, Ready;
    GateJudged(g, S.Apply(g.score, e, decay), g.log + [e], g.fromZero,
               if name == S.VerificationFailed then 0 else g.left, trustedUntil, trustedUntil, now, now, decay);
  }

  lemma GateLowered(g: Gate, points: real, trustedUntil: int, now: int, decay: int -> real)
    requires GateInv(g, trustedUntil, now, decay) && 0.0 <= points
    ensures GateInv(g.(score := S.Added(g.score, -points, now, false, decay), log := g.log + [S.Lowered(now, points)]),
                    trustedUntil, now, decay)
    ensures S.Unsaid(g.log, g.since) ==> S.Unsaid(g.log + [S.Lowered(now, points)], g.since)
  {
    LogGrows(g.log, S.Lowered(now, points), g.since, g.passed, g.left, now);
    LoweringKeepsTier(g.tier, g.bucket, g.score, points, now, decay);
    ScoreGrows(g.score, g.log, S.Lowered(now, points), g.fromZero, g.passed, trustedUntil, now, decay);
    hide S.HalfLife, TierInv, WindowInv, PromiseInv, ScoreInv, LogInv, S.Unsaid;
  }

  lemma GateTaken(g: Gate, trustedUntil: int, now: int, decay: int -> real)
    requires GateInv(g, trustedUntil, now, decay)
    ensures g.bucket.Valid() && g.bucket.last <= now && 1.0 <= g.bucket.capacity
    ensures var (b, wait) := Taken(g.bucket, now, 1.0);
            && 0 <= wait && (g.promised && g.until <= now ==> wait == 0)
            && GateInv(g.(bucket := b, promised := false,
                          sends := if wait == 0 then g.sends + [Pass(now, g.epoch)] else g.sends),
                       trustedUntil, now, decay)
  {
    var b := g.bucket;
    if Level(b, now) < 1.0 { RefusalWaits(b, now, 1.0); }
    if g.promised && g.until <= now { PromiseHolds(b, g.until, now); }
    if Taken(b, now, 1.0).1 == 0 {
      WindowGranted(b, g.sends, g.epoch, now);
    } else {
      WindowRefused(b, g.sends, g.epoch, now);
    }
    hide WindowInv, ScoreInv, S.Value, S.HalfLife, LogInv;
  }

  /** A refusal by a bucket that held `b`, and a cooldown that covers the hint. */
  lemma GateStruck(g: Gate, b: Bucket, until: int, trustedUntil: int, now: int, decay: int -> real)
    requires GateInv(g, trustedUntil, now, decay) && b.Valid() && b.last <= now && 1.0 <= b.capacity
    requires Taken(b, now, 1.0).1 != 0 && Taken(b, now, 1.0).0 == g.bucket && now + Taken(b, now, 1.0).1 <= until
    ensures GateInv(g.(until := until, promised := true), trustedUntil, now, decay)
  {
    PromiseMade(b, now, until);
    hide S.HalfLife, TierInv, WindowInv, PromiseInv, ScoreInv, Taken, LogInv;
  }

  /** A passed challenge, dated by an instant `t` read before the verification. */
  lemma GateCleared(g: Gate, trustedUntil: int, trustedUntil': int, t: int, now: int, decay: int -> real)
    requires GateInv(g, trustedUntil, now, decay) && t <= now
    ensures GateInv(Gate(NORMAL, Full(NORMAL.capacity, NORMAL.refillPerSec, t), 0, false, g.sends, g.epoch + 1,
                         S.Score(0.0, t), [S.Reset(t)], true, true, g.since, g.left), trustedUntil', now, decay)
    ensures TierFor(S.Value(S.Score(0.0, t), t, decay)) == NORMAL
  {
    hide S.HalfLife;
    WindowReplaced(g.bucket, g.sends, g.epoch, t, now);
    ScoreRestarts(t, true, trustedUntil', now, decay);
    hide WindowInv, ScoreInv;
  }

  /** A fresh record has no trust; the score and the bucket stay. */
  lemma GateRenewed(g: Gate, trustedUntil: int, trustedUntil': int, now: int, decay: int -> real)
    requires GateInv(g, trustedUntil, now, decay)
    ensures GateInv(g.(passed := false), trustedUntil', now, decay)
  {
    hide S.HalfLife, TierInv, WindowInv, PromiseInv, S.Run, S.Timely, S.Plausible, S.NoneFailed, S.AllAfterJoin;
  }

  /** The score after joining: raised to the stored one, if that is higher. */
  function Carried(s: S.Score, stored: S.Score, t: int, decay: int -> real): S.Score {
    if S.Value(stored, t, decay) > S.Value(s, t, decay)
    then S.Added(s, S.Value(stored, t, decay) - S.Value(s, t, decay), t, false, decay)
    else s
  }

  /** Taking a session into use at an instant `t` read earlier. */
  lemma GateJoined(g: Gate, stored: S.Score, trustedUntil: int, t: int, now: int, decay: int -> real)
    requires GateInv(g, 0, now, decay) && !g.passed && g.sends == [] && t <= now
    ensures var s := Carried(g.score, stored, t, decay);
            var g' := Judged(g, s, t, decay).(fromZero := g.fromZero && s == g.score);
            && GateInv(g', trustedUntil, now, decay) && g'.tier == TierFor(S.Value(s, t, decay))
            && S.Value(s, t, decay) == if S.Value(g.score, t, decay) < S.Value(stored, t, decay)
                                       then Min(S.MAX, S.Value(stored, t, decay)) else S.Value(g.score, t, decay)
  {
    hide S.HalfLife, TierInv, WindowInv, PromiseInv, ScoreInv, LogInv, S.Value, Carried, Retiered, TierFor, Min;
    ScoreIsPast(g, 0, now, decay);
    var score := Carried(g.score, stored, t, decay);
    ScoreJoined(g, stored, trustedUntil, t, now, decay);
    GateJudged(g, score, g.log, g.fromZero && score == g.score, g.left, 0, trustedUntil, t, now, decay);
  }

  lemma ScoreIsPast(g: Gate, trustedUntil: int, now: int, decay: int -> real)
    requires GateInv(g, trustedUntil, now, decay)
    ensures g.score.at <= now
  {
    hide S.HalfLife, WindowInv, PromiseInv, ScoreInv, LogInv, S.Value, TierFor;
  }

  /** The stored score takes over if it is higher; then the log no longer tells all of it. */
  lemma ScoreJoined(g: Gate, stored: S.Score, trustedUntil: int, t: int, now: int, decay: int -> real)
    requires S.HalfLife(decay) && !g.passed && t <= now && ScoreInv(g.score, g.log, g.fromZero, g.passed, 0, now, decay)
    requires g.score.at <= now
    ensures var s := Carried(g.score, stored, t, decay);
            && s.at <= now && ScoreInv(s, g.log, g.fromZero && s == g.score, g.passed, trustedUntil, now, decay)
            && S.Value(s, t, decay) == if S.Value(g.score, t, decay) < S.Value(stored, t, decay)
                                       then Min(S.MAX, S.Value(stored, t, decay)) else S.Value(g.score, t, decay)
  {
    if S.Value(stored, t, decay) > S.Value(g.score, t, decay) { CarryOver(g.score, stored, t, decay); }
    hide S.HalfLife, S.Run, S.Timely, S.Value, S.TrustedSinceReset;
  }
}
