/** Layered automation scoring (src/abuse/suspicion.ts): a score that halves every four minutes, and a
    detector of machine-regular cadence. */
module Suspicion {
  import opened Reals

  datatype Signal =
    | AutomationUserAgent
    | MissingOrigin
    | VerificationMissing
    | VerificationFailed
    | ManyNewSessionsFromNetwork
    | ReconnectChurn
    | MalformedFrame
    | BinaryFrame
    | SendBeforeJoin
    | PingFlood
    | RateLimitHit
    | IgnoredCooldown
    | NetworkFlood
    | MachineRegularTiming
    | InstantAfterJoin
    | OwnDuplicate
    | CrossSessionDuplicate

  function Points(signal: Signal): (points: real)
    ensures 0.0 < points <= 25.0
  {
    match signal
    case AutomationUserAgent => 22.0
    case MissingOrigin => 12.0
    case VerificationMissing => 8.0
    case VerificationFailed => 25.0
    case ManyNewSessionsFromNetwork => 20.0
    case ReconnectChurn => 10.0
    case MalformedFrame => 10.0
    case BinaryFrame => 15.0
    case SendBeforeJoin => 6.0
    case PingFlood => 6.0
    case RateLimitHit => 7.0
    case IgnoredCooldown => 4.0
    case NetworkFlood => 8.0
    case MachineRegularTiming => 18.0
    case InstantAfterJoin => 6.0
    case OwnDuplicate => 3.0
    case CrossSessionDuplicate => 12.0
  }

  const THROTTLE := 30.0
  const CHALLENGE := 60.0
  const SEVERE := 90.0
  const MAX := 150.0
  const HALF_LIFE_MS := 240_000

  /** The laws of the factor 0.5 ** (elapsed / HALF_LIFE_MS) that the proofs use. */
  ghost predicate HalfLife(decay: int -> real) {
    && decay(0) == 1.0
    && decay(HALF_LIFE_MS) == 0.5
    && (forall a, b :: decay(a + b) == decay(a) * decay(b))
    && (forall a :: 0.0 < decay(a))
    && (forall a :: 0 <= a ==> decay(a) <= 1.0)
  }

  function Factor(decay: int -> real, elapsed: int): real {
    decay(elapsed)
  }

  lemma FactorLaws(decay: int -> real, a: int, b: int)
    requires HalfLife(decay)
    ensures Factor(decay, a + b) == Factor(decay, a) * Factor(decay, b)
    ensures Factor(decay, 0) == 1.0
    ensures 0.0 < Factor(decay, a) && (0 <= a ==> Factor(decay, a) <= 1.0)
  {
  }

  lemma FactorRange(decay: int -> real, lag: nat)
    requires HalfLife(decay)
    ensures 0.0 < Factor(decay, lag) <= 1.0
  {
  }

  lemma FactorFalls(decay: int -> real, a: int, b: int)
    requires HalfLife(decay) && a <= b
    ensures Factor(decay, b) <= Factor(decay, a)
  {
    hide HalfLife, Factor;
    FactorLaws(decay, a, b - a);
    assert a + (b - a) == b;
    FactorLaws(decay, a, 0);
    FactorLaws(decay, b - a, 0);
    Shrinks(Factor(decay, a), Factor(decay, b - a));
  }

  /** The two fields of a score, as a value. */
  datatype Score = Score(score: real, at: int)

  const ZERO := Score(0.0, 0)

  function Decayed(s: Score, now: int, decay: int -> real): real {
    s.score * Factor(decay, now - s.at)
  }

  function Value(s: Score, now: int, decay: int -> real): real {
    if s.score <= 0.0 || Decayed(s, now, decay) < 0.5 then 0.0 else Decayed(s, now, decay)
  }

  /** Recently verified humans accumulate at half rate. */
  function Weight(points: real, trusted: bool): real {
    if trusted then points * 0.5 else points
  }

  function Added(s: Score, points: real, now: int, trusted: bool, decay: int -> real): Score {
    Score(Max(0.0, Min(MAX, Value(s, now, decay) + Weight(points, trusted))), now)
  }

  function Rounded(x: real): int {
    (x + 0.5).Floor
  }

  class SuspicionScore {
    var score: real
    var at: int
    const decay: int -> real

    ghost function View(): Score
      reads this
    {
      Score(score, at)
    }

    constructor (score: real, at: int, decay: int -> real)
      ensures View() == Score(score, at) && this.decay == decay
    {
      this.score := score;
      this.at := at;
      this.decay := decay;
    }

    method CurrentValue(now: int) returns (v: real)
      ensures v == Value(View(), now, decay)
    {
      v := Value(Score(score, at), now, decay);
    }

    method Add(points: real, now: int, trusted: bool)
      modifies this
      ensures View() == Added(old(View()), points, now, trusted, decay)
    {
      var v := CurrentValue(now);
      v := v + Weight(points, trusted);
      score := Max(0.0, Min(MAX, v));
      at := now;
    }

    method Reset(now: int)
      modifies this
      ensures View() == Score(0.0, now)
    {
      score := 0.0;
      at := now;
    }

    /** What is saved with the session: the live value rounded to a tenth. */
    method Snapshot(now: int) returns (suspicion: real, suspicionAt: int)
      ensures suspicionAt == now
      ensures suspicion == Rounded(Value(View(), now, decay) * 10.0) as real / 10.0
      ensures -0.05 < suspicion - Value(View(), now, decay) <= 0.05
    {
      var v := CurrentValue(now);
      suspicion := Rounded(v * 10.0) as real / 10.0;
      suspicionAt := now;
    }
  }

  // ----- The score over a run -----

  /** What moves a score: a signal, a passed background verification (minus 15 points in the code), and
      the reset after a passed challenge. */
  datatype Event =
    | Signalled(at: int, signal: Signal, trusted: bool)
    | Lowered(at: int, points: real)
    | Reset(at: int)

  ghost predicate Sound(e: Event) {
    match e
    case Lowered(_, points) => 0.0 <= points
    case _ => true
  }

  ghost predicate Timely(events: seq<Event>) {
    && (forall i :: 0 <= i < |events| ==> Sound(events[i]))
    && (forall i, j :: 0 <= i <= j < |events| ==> events[i].at <= events[j].at)
  }

  function Apply(s: Score, e: Event, decay: int -> real): Score {
    match e
    case Signalled(t, signal, trusted) => Added(s, Points(signal), t, trusted, decay)
    case Lowered(t, points) => Added(s, -points, t, false, decay)
    case Reset(t) => Score(0.0, t)
  }

  ghost function RunFrom(s: Score, events: seq<Event>, decay: int -> real): Score {
    if events == [] then s
    else Apply(RunFrom(s, events[..|events| - 1], decay), events[|events| - 1], decay)
  }

  /** The score after a run that starts from zero. */
  ghost function Run(events: seq<Event>, decay: int -> real): Score {
    RunFrom(ZERO, events, decay)
  }

  /** The score has moved from `s` to `s'` by exactly the events that the log has gained. */
  ghost predicate Follows(s: Score, log: seq<Event>, s': Score, log': seq<Event>, decay: int -> real) {
    log <= log' && s' == RunFrom(s, log'[|log|..], decay)
  }

  lemma FollowsNothing(s: Score, log: seq<Event>, decay: int -> real)
    ensures Follows(s, log, s, log, decay)
  {
  }

  lemma FollowsOne(s: Score, log: seq<Event>, e: Event, decay: int -> real)
    ensures Follows(s, log, Apply(s, e, decay), log + [e], decay)
  {
    assert (log + [e])[|log|..] == [e] && [e][..0] == [];
  }

  /** The score was `mid` somewhere between `log` and `log'`. */
  ghost predicate Between(s: Score, log: seq<Event>, mid: Score, log': seq<Event>, decay: int -> real) {
    exists until :: until <= log' && Follows(s, log, mid, until, decay)
  }

  lemma FollowsThere(s: Score, log: seq<Event>, s': Score, log': seq<Event>, decay: int -> real)
    requires Follows(s, log, s', log', decay)
    ensures Between(s, log, s', log', decay)
  {
  }

  lemma BetweenGrows(s: Score, log: seq<Event>, mid: Score, s1: Score, log1: seq<Event>, s2: Score, log2: seq<Event>,
                     decay: int -> real)
    requires Between(s, log, mid, log1, decay) && Follows(s1, log1, s2, log2, decay)
    ensures Between(s, log, mid, log2, decay)
  {
    var until :| until <= log1 && Follows(s, log, mid, until, decay);
    assert until <= log2;
  }

  lemma {:induction false} FollowsOn(s: Score, log: seq<Event>, s1: Score, log1: seq<Event>, s2: Score,
                                     log2: seq<Event>, decay: int -> real)
    requires Follows(s, log, s1, log1, decay) && Follows(s1, log1, s2, log2, decay)
    ensures Follows(s, log, s2, log2, decay)
    decreases |log2|
  {
    var late := log2[|log1|..];
    if late == [] {
      assert log2 == log1;
    } else {
      var before, e := log2[..|log2| - 1], log2[|log2| - 1];
      assert before[|log1|..] == late[..|late| - 1] && late[|late| - 1] == e;
      FollowsOn(s, log, s1, log1, RunFrom(s1, before[|log1|..], decay), before, decay);
      assert log2[|log|..][..|log2| - |log| - 1] == before[|log|..] && log2[|log|..][|log2| - |log| - 1] == e;
    }
  }

  /** The signals since the last reset, each at its weight decayed to instant `t`. */
  ghost function DecayedSum(events: seq<Event>, t: int, decay: int -> real): real {
    if events == [] then 0.0
    else
      var before, e := events[..|events| - 1], events[|events| - 1];
      match e
      case Reset(_) => 0.0
      case Lowered(_, _) => DecayedSum(before, t, decay)
      case Signalled(s, signal, trusted) =>
        DecayedSum(before, t, decay) + Weight(Points(signal), trusted) * Factor(decay, t - s)
  }

  /** The number of signals since the last reset. */
  ghost function SignalsSinceReset(events: seq<Event>): nat {
    if events == [] || events[|events| - 1].Reset? then 0
    else
      SignalsSinceReset(events[..|events| - 1]) + (if events[|events| - 1].Signalled? then 1 else 0)
  }

  /** Every signal since the last reset was counted at half weight. */
  ghost predicate TrustedSinceReset(events: seq<Event>) {
    events == [] || events[|events| - 1].Reset? ||
    (TrustedSinceReset(events[..|events| - 1]) && (events[|events| - 1].Signalled? ==> events[|events| - 1].trusted))
  }

  lemma {:induction false} SumDecays(events: seq<Event>, t1: int, t2: int, decay: int -> real)
    requires HalfLife(decay) && Timely(events)
    ensures DecayedSum(events, t2, decay) == DecayedSum(events, t1, decay) * Factor(decay, t2 - t1)
    ensures 0.0 <= DecayedSum(events, t1, decay)
  {
    hide HalfLife, Factor, Points, Timely, Weight;
    if events != [] {
      var before, e := events[..|events| - 1], events[|events| - 1];
      TimelyPrefix(events);
      SumDecays(before, t1, t2, decay);
      if e.Signalled? {
        FactorLaws(decay, t1 - e.at, t2 - t1);
        assert (t1 - e.at) + (t2 - t1) == t2 - e.at;
        WeightAtMost(e);
        OneMore(DecayedSum(before, t1, decay), Weight(Points(e.signal), e.trusted), Factor(decay, t1 - e.at),
                Factor(decay, t2 - t1));
      }
    }
  }

  lemma OneMore(sum: real, w: real, f: real, g: real)
    ensures (sum + w * f) * g == sum * g + w * (f * g)
    ensures 0.0 <= w && 0.0 < f ==> 0.0 <= w * f
  {
  }

  /** The live value never exceeds the decayed, trust-weighted sum of the signals since the last reset. */
  lemma {:induction false} ScoreBound(events: seq<Event>, t: int, decay: int -> real)
    requires HalfLife(decay) && Timely(events)
    ensures Value(Run(events, decay), t, decay) <= DecayedSum(events, t, decay)
  {
    hide *;
    if events == [] {
      NothingYet(t, decay);
    } else {
      SumDecays(events, t, t, decay);
      var before, e := events[..|events| - 1], events[|events| - 1];
      TimelyPrefix(events);
      ScoreBound(before, e.at, decay);
      SumDecays(before, e.at, e.at, decay);
      FactorLaws(decay, t - e.at, 0);
      LastEvent(events, decay);
      Scale(Run(events, decay).score, DecayedSum(events, e.at, decay), Factor(decay, t - e.at));
      SumDecays(events, e.at, t, decay);
      ValueAtMost(Run(events, decay), t, decay);
    }
  }

  /** Nothing has been lost: every signal found at least half a point, or none at all, and fitted under the maximum. */
  ghost predicate Unclamped(events: seq<Event>, decay: int -> real) {
    events == [] ||
    var before, e := events[..|events| - 1], events[|events| - 1];
    && Unclamped(before, decay) && !e.Lowered?
    && (e.Signalled? ==>
          && (DecayedSum(before, e.at, decay) == 0.0 || 0.5 <= DecayedSum(before, e.at, decay))
          && DecayedSum(events, e.at, decay) <= MAX)
  }

  /** Then the live value is that sum, down to half a point. */
  lemma ScoreIsSum(events: seq<Event>, t: int, decay: int -> real)
    requires HalfLife(decay) && Timely(events) && Unclamped(events, decay)
    requires events != [] ==> events[|events| - 1].at <= t
    ensures Value(Run(events, decay), t, decay)
            == if DecayedSum(events, t, decay) < 0.5 then 0.0 else DecayedSum(events, t, decay)
  {
    hide *;
    if events == [] {
      NothingYet(t, decay);
    } else {
      var at := events[|events| - 1].at;
      RunIsSum(events, decay);
      ValueOfRun(events, at, t, decay);
    }
  }

  lemma ValueOf(s: Score, t: int, decay: int -> real)
    requires 0.0 <= s.score
    ensures Value(s, t, decay) == if Decayed(s, t, decay) < 0.5 then 0.0 else Decayed(s, t, decay)
  {
    if s.score == 0.0 { assert s.score * Factor(decay, t - s.at) == 0.0; }
  }

  lemma ValueOfRun(events: seq<Event>, at: int, t: int, decay: int -> real)
    requires HalfLife(decay) && Timely(events)
    requires Run(events, decay) == Score(DecayedSum(events, at, decay), at)
    ensures Value(Run(events, decay), t, decay)
            == if DecayedSum(events, t, decay) < 0.5 then 0.0 else DecayedSum(events, t, decay)
    ensures 0.0 <= DecayedSum(events, t, decay)
  {
    var s := Run(events, decay);
    hide HalfLife, Factor, Run, Value, DecayedSum, Timely;
    SumNonNegative(events, t, decay);
    SumNonNegative(events, at, decay);
    SumDecays(events, at, t, decay);
    ValueOf(s, t, decay);
    assert Decayed(s, t, decay) == s.score * Factor(decay, t - s.at);
  }

  lemma SumNonNegative(events: seq<Event>, t: int, decay: int -> real)
    requires HalfLife(decay) && Timely(events)
    ensures 0.0 <= DecayedSum(events, t, decay)
  {
    hide *;
    SumDecays(events, t, t, decay);
  }

  lemma {:induction false} RunIsSum(events: seq<Event>, decay: int -> real)
    requires HalfLife(decay) && Timely(events) && Unclamped(events, decay) && events != []
    ensures var at := events[|events| - 1].at;
            Run(events, decay) == Score(DecayedSum(events, at, decay), at)
  {
    var before, e := events[..|events| - 1], events[|events| - 1];
    hide *;
    UnclampedMeans(events, decay);
    TimelyPrefix(events);
    if before == [] {
      NothingYet(e.at, decay);
    } else {
      var at := before[|before| - 1].at;
      RunIsSum(before, decay);
      ValueOfRun(before, at, e.at, decay);
    }
    SumNonNegative(events, e.at, decay);
    OneMoreExactly(events, decay);
  }

  lemma UnclampedMeans(events: seq<Event>, decay: int -> real)
    requires Unclamped(events, decay) && events != []
    ensures var before, e := events[..|events| - 1], events[|events| - 1];
            && Unclamped(before, decay) && !e.Lowered?
            && (e.Signalled? ==>
                  && (DecayedSum(before, e.at, decay) == 0.0 || 0.5 <= DecayedSum(before, e.at, decay))
                  && DecayedSum(events, e.at, decay) <= MAX)
  {
    hide DecayedSum;
  }

  lemma OneMoreExactly(events: seq<Event>, decay: int -> real)
    requires HalfLife(decay) && events != []
    requires var before, e := events[..|events| - 1], events[|events| - 1];
             && !e.Lowered?
             && (e.Signalled? ==>
                   Value(Run(before, decay), e.at, decay) == DecayedSum(before, e.at, decay)
                   && 0.0 <= DecayedSum(events, e.at, decay) <= MAX)
    ensures var e := events[|events| - 1]; Run(events, decay) == Score(DecayedSum(events, e.at, decay), e.at)
  {
    hide HalfLife, Factor, Points, Value;
    FactorLaws(decay, 0, 0);
    assert events[|events| - 1].at - events[|events| - 1].at == 0;
  }

  lemma NothingYet(t: int, decay: int -> real)
    ensures Value(Run([], decay), t, decay) == DecayedSum([], t, decay) == 0.0
  {
  }

  lemma TimelyPrefix(events: seq<Event>)
    requires Timely(events) && events != []
    ensures Timely(events[..|events| - 1])
  {
  }

  lemma ValueAtMost(s: Score, t: int, decay: int -> real)
    requires HalfLife(decay)
    ensures Value(s, t, decay) <= Max(0.0, s.score * Factor(decay, t - s.at))
    ensures Max(0.0, s.score * Factor(decay, t - s.at)) == 0.0
            || Max(0.0, s.score * Factor(decay, t - s.at)) == s.score * Factor(decay, t - s.at)
  {
  }

  lemma LastEvent(events: seq<Event>, decay: int -> real)
    requires HalfLife(decay) && Timely(events) && events != []
    requires var before, e := events[..|events| - 1], events[|events| - 1];
             Value(Run(before, decay), e.at, decay) <= DecayedSum(before, e.at, decay)
             && 0.0 <= DecayedSum(before, e.at, decay)
    ensures var e := events[|events| - 1];
            Run(events, decay).at == e.at && Run(events, decay).score <= DecayedSum(events, e.at, decay)
  {
    hide HalfLife, Factor;
    FactorLaws(decay, 0, 0);
    var e := events[|events| - 1];
    assert e.at - e.at == 0;
  }

  lemma {:induction false} SumCounts(events: seq<Event>, t: int, decay: int -> real)
    requires HalfLife(decay) && Timely(events)
    requires forall i :: 0 <= i < |events| ==> events[i].at <= t
    ensures DecayedSum(events, t, decay) <= 25.0 * SignalsSinceReset(events) as real
    ensures TrustedSinceReset(events) ==> DecayedSum(events, t, decay) <= 12.5 * SignalsSinceReset(events) as real
  {
    if events != [] {
      hide *;
      var before := events[..|events| - 1];
      TimelyPrefix(events);
      SumCounts(before, t, decay);
      LastCounted(events, t, decay);
    }
  }

  /** The last event adds nothing, or one signal of its weight, or starts over. */
  lemma LastCounted(events: seq<Event>, t: int, decay: int -> real)
    requires HalfLife(decay) && Timely(events) && events != [] && events[|events| - 1].at <= t
    requires var before := events[..|events| - 1];
             && DecayedSum(before, t, decay) <= 25.0 * SignalsSinceReset(before) as real
             && (TrustedSinceReset(before) ==> DecayedSum(before, t, decay) <= 12.5 * SignalsSinceReset(before) as real)
    ensures DecayedSum(events, t, decay) <= 25.0 * SignalsSinceReset(events) as real
    ensures TrustedSinceReset(events) ==> DecayedSum(events, t, decay) <= 12.5 * SignalsSinceReset(events) as real
  {
    hide HalfLife, Factor;
    var before, e := events[..|events| - 1], events[|events| - 1];
    if e.Signalled? {
      FactorLaws(decay, t - e.at, 0);
      Shrinks(Weight(Points(e.signal), e.trusted), Factor(decay, t - e.at));
      assert DecayedSum(events, t, decay) <= DecayedSum(before, t, decay) + Weight(Points(e.signal), e.trusted);
      assert SignalsSinceReset(events) == SignalsSinceReset(before) + 1;
    }
  }

  /** When does a live value stop a session from sending? */
  predicate Escalates(v: real, trusted: bool) {
    CHALLENGE <= v && !(trusted && v < SEVERE)
  }

  /** What an escalation says about the signals since the last reset, when the check reads the score at an
      instant up to `lag` before the last of them. */
  lemma EscalationAtStaleClock(events: seq<Event>, t: int, lag: nat, trusted: bool, decay: int -> real)
    requires HalfLife(decay) && Timely(events)
    requires forall i :: 0 <= i < |events| ==> events[i].at <= t + lag
    requires Escalates(Value(Run(events, decay), t, decay), trusted)
    ensures CHALLENGE * Factor(decay, lag) <= 25.0 * SignalsSinceReset(events) as real
    ensures trusted && TrustedSinceReset(events) ==>
            SEVERE * Factor(decay, lag) <= 12.5 * SignalsSinceReset(events) as real
  {
    hide HalfLife, Factor, Value, Timely, Run, DecayedSum, SignalsSinceReset, TrustedSinceReset;
    ScoreBound(events, t, decay);
    SumDecays(events, t, t + lag, decay);
    SumCounts(events, t + lag, decay);
    FactorRange(decay, lag);
    assert t + lag - t == lag;
    var v, sum := Value(Run(events, decay), t, decay), DecayedSum(events, t, decay);
    var n := SignalsSinceReset(events) as real;
    Fades(CHALLENGE, v, sum, Factor(decay, lag), 25.0 * n);
    if trusted && TrustedSinceReset(events) { Fades(SEVERE, v, sum, Factor(decay, lag), 12.5 * n); }
  }

  lemma Fades(threshold: real, v: real, sum: real, f: real, limit: real)
    requires threshold <= v <= sum && 0.0 < f && sum * f <= limit
    ensures threshold * f <= limit
  {
    Scale(threshold, sum, f);
  }

  /** From zero it takes three signals to escalate, and eight when all of them were counted in the trust
      window after a passed challenge. */
  lemma EscalationNeedsSignals(events: seq<Event>, t: int, trusted: bool, decay: int -> real)
    requires HalfLife(decay) && Timely(events)
    requires forall i :: 0 <= i < |events| ==> events[i].at <= t
    requires Escalates(Value(Run(events, decay), t, decay), trusted)
    ensures 3 <= SignalsSinceReset(events)
    ensures trusted && TrustedSinceReset(events) ==> 8 <= SignalsSinceReset(events)
  {
    FactorLaws(decay, 0, 0);
    EscalationAtStaleClock(events, t, 0, trusted, decay);
  }

  // ----- What one connection can produce -----

  /** The signals that can arrive while a send waits for the store: its own, and those of frames that are not queued. */
  predicate InWait(signal: Signal) {
    signal in {VerificationFailed, BinaryFrame, IgnoredCooldown, MachineRegularTiming, InstantAfterJoin, OwnDuplicate,
               CrossSessionDuplicate}
  }

  /** The signals of a connection that has joined. */
  predicate AfterJoin(signal: Signal) {
    signal !in {AutomationUserAgent, MissingOrigin, ManyNewSessionsFromNetwork, ReconnectChurn, SendBeforeJoin}
  }

  ghost predicate NoneFailed(events: seq<Event>) {
    forall i :: 0 <= i < |events| && events[i].Signalled? ==> events[i].signal != VerificationFailed
  }

  /** No regular cadence has been noted after `t`. */
  ghost predicate Unsaid(events: seq<Event>, t: int) {
    forall i :: 0 <= i < |events| && events[i].Signalled? && events[i].signal == MachineRegularTiming ==>
      events[i].at <= t
  }

  ghost predicate AllAfterJoin(events: seq<Event>) {
    forall i :: 0 <= i < |events| && events[i].Signalled? ==> AfterJoin(events[i].signal)
  }

  /** What a send that began at `t` can find counted: the background verification fails at most once, and what
      came after `t` came during the wait, the send's own cadence at most once. */
  ghost predicate Plausible(events: seq<Event>, t: int) {
    && (forall i :: 0 <= i < |events| && events[i].Signalled? && t < events[i].at ==> InWait(events[i].signal))
    && (forall i, j ::
        0 <= i < j < |events| && events[i].Signalled? && events[j].Signalled?
        && events[i].signal == events[j].signal ==>
          events[i].signal != VerificationFailed && (t < events[i].at ==> events[i].signal != MachineRegularTiming))
  }

  lemma PlausibleGrows(events: seq<Event>, e: Event, t: int)
    requires Plausible(events, t)
    requires e.Signalled? ==>
               && (e.signal == VerificationFailed ==> NoneFailed(events))
               && (e.at <= t || (InWait(e.signal) && (e.signal == MachineRegularTiming ==> Unsaid(events, t))))
    requires forall i :: 0 <= i < |events| ==> events[i].at <= e.at
    ensures Plausible(events + [e], t)
    ensures NoneFailed(events) && !(e.Signalled? && e.signal == VerificationFailed) ==> NoneFailed(events + [e])
    ensures Unsaid(events, t) && !(e.Signalled? && e.signal == MachineRegularTiming && t < e.at) ==>
            Unsaid(events + [e], t)
    ensures AllAfterJoin(events) && (e.Signalled? ==> AfterJoin(e.signal)) ==> AllAfterJoin(events + [e])
  {
  }

  lemma PlausibleNow(events: seq<Event>, t: int, now: int)
    requires Plausible(events, t) && forall i :: 0 <= i < |events| ==> events[i].at <= now
    ensures Plausible(events, now) && Unsaid(events, now)
  {
  }

  lemma PlausiblePrefix(events: seq<Event>, t: int)
    requires Plausible(events, t) && events != []
    ensures Plausible(events[..|events| - 1], t)
  {
  }

  /** The verifier answers by `t + patience`. */
  ghost predicate Prompt(events: seq<Event>, t: int, patience: nat) {
    forall i :: 0 <= i < |events| && events[i].Signalled? && events[i].signal == VerificationFailed ==>
      events[i].at <= t + patience
  }

  /** For how long a failed verification has been decaying at least when the wait is over. */
  function Rest(lag: nat, patience: nat): nat {
    if patience <= lag then lag - patience else 0
  }

  /** What a signal can weigh in the end, in a score read at `t`: all its points if it came later, `g` of them if it
      is the failed verification, and no more than `f` of them if it has been decaying ever since. */
  function Share(e: Event, t: int, f: real, g: real): real
    requires e.Signalled?
  {
    Points(e.signal) * if e.at <= t then f else if e.signal == VerificationFailed then g else 1.0
  }

  ghost function Shares(events: seq<Event>, t: int, f: real, g: real): real {
    if events == [] then 0.0
    else
      var before, e := events[..|events| - 1], events[|events| - 1];
      match e
      case Reset(_) => 0.0
      case Lowered(_, _) => Shares(before, t, f, g)
      case Signalled(_, _, _) => Shares(before, t, f, g) + Share(e, t, f, g)
  }

  lemma {:induction false} SharesBound(events: seq<Event>, t: int, lag: nat, patience: nat, decay: int -> real)
    requires HalfLife(decay) && Timely(events) && Prompt(events, t, patience)
             && forall i :: 0 <= i < |events| ==> events[i].at <= t + lag
    ensures DecayedSum(events, t, decay) * Factor(decay, lag)
            <= Shares(events, t, Factor(decay, lag), Factor(decay, Rest(lag, patience)))
  {
    hide HalfLife, Factor, Timely, Points, Share, Rest;
    if events != [] {
      var before, e := events[..|events| - 1], events[|events| - 1];
      TimelyPrefix(events);
      SharesBound(before, t, lag, patience, decay);
      if e.Signalled? {
        var w := Weight(Points(e.signal), e.trusted);
        OneMore(DecayedSum(before, t, decay), w, Factor(decay, t - e.at), Factor(decay, lag));
        OneShare(e, t, lag, patience, decay);
      }
    }
  }

  lemma OneShare(e: Event, t: int, lag: nat, patience: nat, decay: int -> real)
    requires HalfLife(decay) && e.Signalled? && e.at <= t + lag
             && (e.signal == VerificationFailed ==> e.at <= t + patience)
    ensures Weight(Points(e.signal), e.trusted) * (Factor(decay, t - e.at) * Factor(decay, lag))
            <= Share(e, t, Factor(decay, lag), Factor(decay, Rest(lag, patience)))
  {
    hide HalfLife, Factor, Points;
    var f, g := Factor(decay, lag), Factor(decay, Rest(lag, patience));
    var most := if e.at <= t then lag else if e.signal == VerificationFailed then Rest(lag, patience) else 0;
    FactorLaws(decay, t - e.at, lag);
    assert t - e.at + lag == t + lag - e.at;
    FactorFalls(decay, most, t + lag - e.at);
    FactorLaws(decay, most, 0);
    hide Share, Weight;
    Light(Weight(Points(e.signal), e.trusted), Points(e.signal), Factor(decay, t + lag - e.at), Factor(decay, most));
    WeightAtMost(e);
    ShareIs(e, t, f, g);
  }

  lemma Light(w: real, p: real, h: real, g: real)
    ensures 0.0 <= w <= p && h <= g && 0.0 <= g ==> w * h <= p * g
  {
    if 0.0 <= w <= p && h <= g && 0.0 <= g {
      Scale(h, g, w);
      Scale(w, p, g);
    }
  }

  lemma WeightAtMost(e: Event)
    requires e.Signalled?
    ensures 0.0 <= Weight(Points(e.signal), e.trusted) <= Points(e.signal)
  {
  }

  lemma ShareIs(e: Event, t: int, f: real, g: real)
    requires e.Signalled?
    ensures Share(e, t, f, g)
            == Points(e.signal) * if e.at <= t then f else if e.signal == VerificationFailed then g else 1.0
  {
  }

  /** The one signal since the last reset. */
  lemma {:induction false} TheOnly(events: seq<Event>, t: int, f: real, g: real) returns (i: nat)
    requires SignalsSinceReset(events) == 1
    ensures i < |events| && events[i].Signalled? && Shares(events, t, f, g) == Share(events[i], t, f, g)
  {
    var last := |events| - 1;
    if events[last].Signalled? {
      NoShares(events[..last], t, f, g);
      i := last;
    } else {
      i := TheOnly(events[..last], t, f, g);
    }
  }

  lemma {:induction false} NoShares(events: seq<Event>, t: int, f: real, g: real)
    requires SignalsSinceReset(events) == 0
    ensures Shares(events, t, f, g) == 0.0
  {
    if events != [] && !events[|events| - 1].Reset? { NoShares(events[..|events| - 1], t, f, g); }
  }

  lemma {:induction false} TheTwo(events: seq<Event>, t: int, f: real, g: real) returns (i: nat, j: nat)
    requires SignalsSinceReset(events) == 2
    ensures i < j < |events| && events[i].Signalled? && events[j].Signalled?
    ensures Shares(events, t, f, g) == Share(events[i], t, f, g) + Share(events[j], t, f, g)
  {
    var last := |events| - 1;
    if events[last].Signalled? {
      i := TheOnly(events[..last], t, f, g);
      j := last;
    } else {
      i, j := TheTwo(events[..last], t, f, g);
    }
  }

  /** The most that two signals of one connection come to when the wait is over: a regular cadence with a failed
      verification, of which `g` is left, or with a binary frame. */
  function MostOfTwo(g: real): real {
    Max(18.0 + 25.0 * g, 33.0)
  }

  lemma TwoAreLight(events: seq<Event>, t: int, f: real, g: real)
    requires Plausible(events, t) && SignalsSinceReset(events) < 3 && MostOfTwo(g) < CHALLENGE * f && f <= g <= 1.0
    ensures Shares(events, t, f, g) < CHALLENGE * f
  {
    if SignalsSinceReset(events) == 0 {
      NoShares(events, t, f, g);
    } else if SignalsSinceReset(events) == 1 {
      var i := TheOnly(events, t, f, g);
    } else {
      var i, j := TheTwo(events, t, f, g);
      TwoShares(events[i], events[j], t, f, g);
    }
  }

  lemma TwoShares(d: Event, e: Event, t: int, f: real, g: real)
    requires d.Signalled? && e.Signalled? && MostOfTwo(g) < CHALLENGE * f && f <= g <= 1.0
    requires t < d.at ==> InWait(d.signal)
    requires t < e.at ==> InWait(e.signal)
    requires d.signal == e.signal ==> d.signal != VerificationFailed && (t < d.at ==> d.signal != MachineRegularTiming)
    ensures Share(d, t, f, g) + Share(e, t, f, g) < CHALLENGE * f
  {
  }

  /** A run from zero, none of whose signals is later than `t + lag`, that escalates when read at `t`. */
  ghost predicate EscalatesWithin(events: seq<Event>, t: int, lag: nat, decay: int -> real) {
    && Timely(events)
    && (forall i :: 0 <= i < |events| ==> events[i].at <= t + lag)
    && Escalates(Value(Run(events, decay), t, decay), false)
  }

  lemma TwoNeverEscalate(events: seq<Event>, t: int, lag: nat, patience: nat, decay: int -> real)
    requires HalfLife(decay) && EscalatesWithin(events, t, lag, decay) && Plausible(events, t)
             && Prompt(events, t, patience)
    requires MostOfTwo(Factor(decay, Rest(lag, patience))) < CHALLENGE * Factor(decay, lag)
    ensures 3 <= SignalsSinceReset(events)
  {
    hide HalfLife, Factor;
    var f, g := Factor(decay, lag), Factor(decay, Rest(lag, patience));
    FactorFalls(decay, Rest(lag, patience), lag);
    FactorRange(decay, Rest(lag, patience));
    hide HalfLife, Factor, Value, Run, Timely, Plausible, EscalatesWithin, DecayedSum, Shares, SignalsSinceReset,
      Prompt, Rest, MostOfTwo;
    FactorRange(decay, lag);
    WithinMeans(events, t, lag, decay);
    ScoreBound(events, t, decay);
    SharesBound(events, t, lag, patience, decay);
    Fades(CHALLENGE, Value(Run(events, decay), t, decay), DecayedSum(events, t, decay), f, Shares(events, t, f, g));
    if SignalsSinceReset(events) < 3 { TwoAreLight(events, t, f, g); }
  }

  /** With a verifier that may take any time: as long as the wait decays 60 points to more than 43. */
  lemma TwoNeverEscalateEver(events: seq<Event>, t: int, lag: nat, decay: int -> real)
    requires HalfLife(decay) && EscalatesWithin(events, t, lag, decay) && Plausible(events, t)
    requires 43.0 < CHALLENGE * Factor(decay, lag)
    ensures 3 <= SignalsSinceReset(events)
  {
    hide HalfLife, Factor;
    FactorLaws(decay, 0, 0);
    assert Rest(lag, lag) == 0;
    hide Plausible, SignalsSinceReset;
    assert Prompt(events, t, lag) by { WithinMeans(events, t, lag, decay); }
    TwoNeverEscalate(events, t, lag, lag, decay);
  }

  lemma WithinMeans(events: seq<Event>, t: int, lag: nat, decay: int -> real)
    requires EscalatesWithin(events, t, lag, decay)
    ensures Timely(events) && CHALLENGE <= Value(Run(events, decay), t, decay)
    ensures forall i :: 0 <= i < |events| ==> events[i].at <= t + lag
  {
    hide Value, Run, Timely;
  }

  /** Can two signals of one connection escalate a send that began at `t` and is judged by `t + lag`, when its
      verifier takes at most `patience` from `t`? */
  ghost predicate TwoCanEscalate(t: int, lag: nat, patience: nat, decay: int -> real) {
    exists events: seq<Event> ::
      EscalatesWithin(events, t, lag, decay) && Plausible(events, t) && Prompt(events, t, patience)
      && SignalsSinceReset(events) < 3
  }

  /** The code may judge with an instant that is older than the last signal. Three signals remain necessary exactly
      as long as that lag decays 60 points to more than the most that two can come to. */
  lemma ThreeSignalsExactly(t: int, lag: nat, patience: nat, decay: int -> real)
    requires HalfLife(decay)
    ensures TwoCanEscalate(t, lag, patience, decay) <==>
            CHALLENGE * Factor(decay, lag) <= MostOfTwo(Factor(decay, Rest(lag, patience)))
  {
    hide HalfLife, Factor, Value, Run, SignalsSinceReset, EscalatesWithin, Plausible, Prompt, Rest, MostOfTwo;
    if MostOfTwo(Factor(decay, Rest(lag, patience))) < CHALLENGE * Factor(decay, lag) {
      forall events: seq<Event> | EscalatesWithin(events, t, lag, decay) && Plausible(events, t)
        && Prompt(events, t, patience)
        ensures 3 <= SignalsSinceReset(events)
      {
        TwoNeverEscalate(events, t, lag, patience, decay);
      }
    } else {
      var events := TwoStale(t, lag, patience, decay);
    }
  }

  /** The two: a verification that fails as late as it can, or else a binary frame, and a cadence. */
  lemma TwoStale(t: int, lag: nat, patience: nat, decay: int -> real) returns (two: seq<Event>)
    requires HalfLife(decay) && CHALLENGE * Factor(decay, lag) <= MostOfTwo(Factor(decay, Rest(lag, patience)))
    ensures EscalatesWithin(two, t, lag, decay) && Plausible(two, t) && Prompt(two, t, patience)
            && SignalsSinceReset(two) == 2
  {
    hide HalfLife, Factor, Run, SignalsSinceReset, Value;
    var g := Factor(decay, Rest(lag, patience));
    var d := if 33.0 <= 18.0 + 25.0 * g then Signalled(t + lag - Rest(lag, patience), VerificationFailed, false)
             else Signalled(t + lag, BinaryFrame, false);
    two := [d, Signalled(t + lag, MachineRegularTiming, false)];
    FactorLaws(decay, 0, 0);
    assert t + lag - d.at == if 33.0 <= 18.0 + 25.0 * g then Rest(lag, patience) else 0;
    TwoScore(d, t, lag, decay);
    FactorLaws(decay, 0, 0);
    ReadAtOnce(Score(MostOfTwo(g), t + lag), t, lag, decay);
  }

  /** A signal and, at `t + lag`, a cadence. */
  lemma TwoScore(d: Event, t: int, lag: nat, decay: int -> real)
    requires HalfLife(decay) && d.Signalled? && !d.trusted && d.at <= t + lag
             && 15.0 <= Points(d.signal) * Factor(decay, t + lag - d.at)
    ensures Run([d, Signalled(t + lag, MachineRegularTiming, false)], decay)
            == Score(18.0 + Points(d.signal) * Factor(decay, t + lag - d.at), t + lag)
    ensures SignalsSinceReset([d, Signalled(t + lag, MachineRegularTiming, false)]) == 2
  {
    var e := Signalled(t + lag, MachineRegularTiming, false);
    hide HalfLife, Factor, Run, SignalsSinceReset;
    FactorRange(decay, t + lag - d.at);
    assert [] + [d] == [d] && [d] + [e] == [d, e] && d == Signalled(d.at, d.signal, false);
    NoSignals(t, decay);
    OneMoreSignal([], d.at, d.signal, decay);
    FromZero(d.at, Points(d.signal), decay);
    OneMoreSignal([d], e.at, e.signal, decay);
    Scale(Factor(decay, t + lag - d.at), 1.0, Points(d.signal));
  }

  /** A score dated after the instant it is read at is blown up by the time between. */
  lemma ReadAtOnce(s: Score, t: int, lag: nat, decay: int -> real)
    requires HalfLife(decay) && s.at == t + lag && CHALLENGE * Factor(decay, lag) <= s.score
    ensures CHALLENGE <= Value(s, t, decay)
  {
    hide HalfLife, Factor;
    var back := 0 - lag;
    var f, g := Factor(decay, lag), Factor(decay, back);
    FactorLaws(decay, lag, back);
    FactorLaws(decay, back, 0);
    FactorLaws(decay, 0, 0);
    assert lag + back == 0 && t - s.at == back;
    assert f * g == 1.0 && Decayed(s, t, decay) == s.score * g;
    BlownUp(CHALLENGE, f, g, s.score);
  }

  lemma BlownUp(x: real, f: real, g: real, score: real)
    requires f * g == 1.0 && 0.0 < g && 0.0 < x && x * f <= score
    ensures x <= score * g && 0.0 < score
  {
    Scale(x * f, score, g);
    assert x * f * g == x * (f * g);
    if score <= 0.0 { Scale(score, 0.0, g); }
  }

  /** A log with one more signal, counted in full. */
  lemma OneMoreSignal(log: seq<Event>, at: int, signal: Signal, decay: int -> real)
    ensures var longer := log + [Signalled(at, signal, false)];
            && Run(longer, decay) == Added(Run(log, decay), Points(signal), at, false, decay)
            && SignalsSinceReset(longer) == SignalsSinceReset(log) + 1
  {
    assert (log + [Signalled(at, signal, false)])[..|log|] == log;
  }

  /** At one instant points add up. */
  lemma AddedAtOnce(x: real, points: real, at: int, decay: int -> real)
    requires HalfLife(decay) && (x == 0.0 || 0.5 <= x) && 0.0 <= points && x + points <= MAX
    ensures Added(Score(x, at), points, at, false, decay) == Score(x + points, at)
    ensures Value(Score(x, at), at, decay) == x
  {
    FactorLaws(decay, 0, 0);
    hide HalfLife, Factor;
    assert at - at == 0;
  }

  /** Points raise the live value by just themselves, or by half of them under trust, if the maximum allows. */
  lemma AddsExactly(s: Score, points: real, now: int, trusted: bool, decay: int -> real)
    requires HalfLife(decay) && 1.0 <= points && Value(s, now, decay) + points <= 150.0
    ensures Value(Added(s, points, now, trusted, decay), now, decay)
            == Value(s, now, decay) + if trusted then points / 2.0 else points
  {
    FactorLaws(decay, 0, 0);
    hide HalfLife, Factor;
    var v := Value(s, now, decay);
    assert 0.0 <= v by { ValueIsNonNegative(s, now, decay); }
    hide Value;
    var raised := Added(s, points, now, trusted, decay);
    assert raised == Score(v + if trusted then points * 0.5 else points, now);
    ValueOf(raised, now, decay);
    assert now - now == 0 && Decayed(raised, now, decay) == raised.score * Factor(decay, 0);
  }

  lemma ValueIsNonNegative(s: Score, now: int, decay: int -> real)
    ensures 0.0 <= Value(s, now, decay)
  {
  }

  /** Three are enough: an automation user agent, a network with many new sessions and a failed verification. */
  lemma ThreeSuffice(t: int, decay: int -> real)
    requires HalfLife(decay)
    ensures var three := [Signalled(t, AutomationUserAgent, false), Signalled(t, ManyNewSessionsFromNetwork, false),
                          Signalled(t, VerificationFailed, false)];
            EscalatesWithin(three, t, 0, decay) && Plausible(three, t) && SignalsSinceReset(three) == 3
  {
    hide HalfLife, Factor, Run, SignalsSinceReset, Added, Value;
    var a, b, c := AutomationUserAgent, ManyNewSessionsFromNetwork, VerificationFailed;
    var one := [Signalled(t, a, false)];
    var two := one + [Signalled(t, b, false)];
    assert two + [Signalled(t, c, false)] == [Signalled(t, a, false), Signalled(t, b, false), Signalled(t, c, false)];
    NoSignals(t, decay);
    assert [] + one == one;
    OneMoreSignal([], t, a, decay);
    OneMoreSignal(one, t, b, decay);
    OneMoreSignal(two, t, c, decay);
    FromZero(t, Points(a), decay);
    AddedAtOnce(22.0, Points(b), t, decay);
    AddedAtOnce(42.0, Points(c), t, decay);
    AddedAtOnce(67.0, 0.0, t, decay);
  }

  lemma NoSignals(t: int, decay: int -> real)
    ensures Run([], decay) == ZERO && SignalsSinceReset([]) == 0
  {
  }

  lemma FromZero(at: int, points: real, decay: int -> real)
    requires 0.0 <= points <= MAX
    ensures Added(ZERO, points, at, false, decay) == Score(points, at)
  {
  }

  /** In the trust window a joined connection's signals weigh at most nine points each, and the failed
      verification three and a half more. */
  lemma {:induction false} TrustedSum(events: seq<Event>, t: int, decay: int -> real)
    requires HalfLife(decay) && Timely(events) && Plausible(events, t) && AllAfterJoin(events)
             && TrustedSinceReset(events)
    requires forall i :: 0 <= i < |events| ==> events[i].at <= t
    ensures DecayedSum(events, t, decay)
            <= 9.0 * SignalsSinceReset(events) as real + if NoneFailed(events) then 0.0 else 3.5
  {
    if events != [] {
      hide HalfLife, Factor, Timely, Plausible, DecayedSum;
      var before, e := events[..|events| - 1], events[|events| - 1];
      TimelyPrefix(events);
      PlausiblePrefix(events, t);
      if !e.Reset? { TrustedSum(before, t, decay); }
      if e.Signalled? && e.signal == VerificationFailed { FailedOnce(events, t); }
      TrustedStep(events, t, decay);
    } else {
      NothingYet(t, decay);
    }
  }

  lemma TrustedStep(events: seq<Event>, t: int, decay: int -> real)
    requires HalfLife(decay) && events != [] && AllAfterJoin(events) && TrustedSinceReset(events)
             && events[|events| - 1].at <= t
    requires var before, e := events[..|events| - 1], events[|events| - 1];
             && (!e.Reset? ==>
                   DecayedSum(before, t, decay)
                   <= 9.0 * SignalsSinceReset(before) as real + if NoneFailed(before) then 0.0 else 3.5)
             && (e.Signalled? && e.signal == VerificationFailed ==> NoneFailed(before))
    ensures DecayedSum(events, t, decay)
            <= 9.0 * SignalsSinceReset(events) as real + if NoneFailed(events) then 0.0 else 3.5
  {
    hide HalfLife, Factor;
    var before, e := events[..|events| - 1], events[|events| - 1];
    assert forall i :: 0 <= i < |before| ==> before[i] == events[i];
    assert NoneFailed(events) ==> NoneFailed(before);
    if e.Signalled? {
      FactorLaws(decay, t - e.at, 0);
      Shrinks(Weight(Points(e.signal), e.trusted), Factor(decay, t - e.at));
      assert AfterJoin(e.signal);
      assert Weight(Points(e.signal), e.trusted) <= if e.signal == VerificationFailed then 12.5 else 9.0;
      hide NoneFailed, AllAfterJoin, Points;
      assert DecayedSum(events, t, decay) <= DecayedSum(before, t, decay) + Weight(Points(e.signal), e.trusted);
      assert SignalsSinceReset(events) == SignalsSinceReset(before) + 1;
      assert e.signal == VerificationFailed ==> !NoneFailed(events) by { SaysFailed(events); }
    }
  }

  lemma SaysFailed(events: seq<Event>)
    requires events != [] && events[|events| - 1].Signalled?
    ensures events[|events| - 1].signal == VerificationFailed ==> !NoneFailed(events)
  {
  }

  lemma FailedOnce(events: seq<Event>, t: int)
    requires Plausible(events, t) && events != [] && events[|events| - 1].Signalled?
             && events[|events| - 1].signal == VerificationFailed
    ensures NoneFailed(events[..|events| - 1])
  {
  }

  /** So in the trust window after a passed challenge no escalation needs fewer than ten. */
  lemma TrustedNeedsTen(events: seq<Event>, t: int, decay: int -> real)
    requires HalfLife(decay) && Timely(events) && Plausible(events, t) && AllAfterJoin(events)
             && TrustedSinceReset(events)
    requires forall i :: 0 <= i < |events| ==> events[i].at <= t
    requires Escalates(Value(Run(events, decay), t, decay), true)
    ensures 10 <= SignalsSinceReset(events)
  {
    ScoreBound(events, t, decay);
    TrustedSum(events, t, decay);
    hide Value, DecayedSum, SignalsSinceReset;
  }

  // ----- Cadence -----

  const WINDOW := 10

  function Sum(gaps: seq<int>): int {
    if gaps == [] then 0 else gaps[0] + Sum(gaps[1..])
  }

  function Square(x: real): real {
    x * x
  }

  function SquaredDeviations(gaps: seq<int>, mean: real): real {
    if gaps == [] then 0.0 else Square(gaps[0] as real - mean) + SquaredDeviations(gaps[1..], mean)
  }

  function Mean(gaps: seq<int>): real
    requires gaps != []
  {
    Sum(gaps) as real / |gaps| as real
  }

  ghost predicate SquareRoot(sqrt: real -> real) {
    sqrt(0.0) == 0.0 && forall x :: 0.0 <= x ==> 0.0 <= sqrt(x) && Square(sqrt(x)) == x
  }

  /** The two fields of an analyzer, as a value. */
  datatype Timing = Timing(gaps: seq<int>, last: int) {
    predicate Valid() { |gaps| <= WINDOW }
  }

  /** The gaps an analyzer looks at when a message is recorded; instant 0 means "none yet". */
  function Observed(t: Timing, now: int): seq<int> {
    if t.last == 0 then t.gaps
    else
      var pushed := t.gaps + [now - t.last];
      if |pushed| > WINDOW then pushed[1..] else pushed
  }

  function Root(sqrt: real -> real, x: real): real {
    sqrt(x)
  }

  function Regular(gaps: seq<int>, sqrt: real -> real): bool
    requires gaps != []
  {
    var mean := Mean(gaps);
    mean <= 20_000.0 &&
    Root(sqrt, SquaredDeviations(gaps, mean) / |gaps| as real) / Max(1.0, mean) < 0.08
  }

  function Recorded(t: Timing, now: int, sqrt: real -> real): (Timing, bool) {
    var gaps := Observed(t, now);
    var fires := |gaps| >= WINDOW && Regular(gaps, sqrt);
    (Timing(if fires then [] else gaps, now), fires)
  }

  class TimingAnalyzer {
    var gaps: seq<int>
    var last: int
    const sqrt: real -> real

    ghost function View(): Timing
      reads this
    {
      Timing(gaps, last)
    }

    constructor (sqrt: real -> real)
      ensures View() == Timing([], 0) && this.sqrt == sqrt
    {
      gaps := [];
      last := 0;
      this.sqrt := sqrt;
    }

    method Record(now: int) returns (fires: bool)
      requires View().Valid()
      modifies this
      ensures (View(), fires) == Recorded(old(View()), now, sqrt)
      ensures View().Valid()
    {
      if last != 0 {
        gaps := gaps + [now - last];
        if |gaps| > WINDOW {
          gaps := gaps[1..];
        }
      }
      last := now;
      if |gaps| < WINDOW {
        return false;
      }
      var mean := Sum(gaps) as real / |gaps| as real;
      if mean > 20_000.0 {
        return false;
      }
      var variance := SquaredDeviations(gaps, mean) / |gaps| as real;
      var cv := Root(sqrt, variance) / Max(1.0, mean);
      if cv < 0.08 {
        gaps := [];
        return true;
      }
      return false;
    }
  }

  lemma {:induction false} DeviationAtMostSum(gaps: seq<int>, mean: real, k: nat)
    ensures 0.0 <= SquaredDeviations(gaps, mean)
    ensures k < |gaps| ==> Square(gaps[k] as real - mean) <= SquaredDeviations(gaps, mean)
  {
    if gaps != [] {
      SquareNonNegative(gaps[0] as real - mean);
      DeviationAtMostSum(gaps[1..], mean, if k == 0 then 0 else k - 1);
    }
  }

  lemma SquareNonNegative(x: real)
    ensures 0.0 <= Square(x)
  {
    if x < 0.0 { assert Square(x) == (-x) * (-x); }
  }

  /** Firing means what the detector is for: ten gaps, at conversational speed, all close to their mean. */
  lemma FiringIsRegular(t: Timing, now: int, sqrt: real -> real)
    requires SquareRoot(sqrt) && t.Valid() && Recorded(t, now, sqrt).1
    ensures var gaps := Observed(t, now);
            && |gaps| == WINDOW
            && Mean(gaps) <= 20_000.0
            && forall k :: 0 <= k < WINDOW ==>
                 Square(gaps[k] as real - Mean(gaps)) < 0.064 * Square(Max(1.0, Mean(gaps)))
  {
    var gaps := Observed(t, now);
    var mean := Mean(gaps);
    var total := SquaredDeviations(gaps, mean);
    DeviationAtMostSum(gaps, mean, 0);
    var m := Max(1.0, mean);
    var sd := Root(sqrt, total / 10.0);
    SmallQuotient(sd, m);
    assert total == 10.0 * Square(sd);
    forall k | 0 <= k < WINDOW
      ensures Square(gaps[k] as real - mean) < 0.064 * Square(m)
    {
      DeviationAtMostSum(gaps, mean, k);
    }
  }

  lemma SmallQuotient(sd: real, m: real)
    requires 0.0 <= sd && 1.0 <= m && sd / m < 0.08
    ensures Square(sd) < 0.0064 * Square(m)
  {
    assert sd < 0.08 * m by {
      assert sd / m * m == sd;
      Scale(sd / m, 0.08, m);
    }
    Scale(sd, 0.08 * m, sd);
    Scale(sd, 0.08 * m, 0.08 * m);
    assert sd * sd < (0.08 * m) * (0.08 * m);
  }

  lemma ZeroQuotient(x: real, y: real)
    requires x == 0.0 && 0.0 < y
    ensures x / y == 0.0
  {
  }

  lemma {:induction false} EqualGapsMean(gaps: seq<int>, g: int)
    requires forall i :: 0 <= i < |gaps| ==> gaps[i] == g
    ensures Sum(gaps) == g * |gaps| && SquaredDeviations(gaps, g as real) == 0.0
  {
    if gaps != [] { EqualGapsMean(gaps[1..], g); }
  }

  /** Ten equal gaps of at most twenty seconds always fire. */
  lemma EqualGapsFire(t: Timing, now: int, g: int, sqrt: real -> real)
    requires SquareRoot(sqrt) && t.Valid() && g <= 20_000
    requires |Observed(t, now)| == WINDOW && forall i :: 0 <= i < WINDOW ==> Observed(t, now)[i] == g
    ensures Recorded(t, now, sqrt).1
  {
    var gaps := Observed(t, now);
    EqualGapsMean(gaps, g);
    assert Mean(gaps) == g as real;
    assert SquaredDeviations(gaps, Mean(gaps)) / |gaps| as real == 0.0;
    var sd := Root(sqrt, 0.0);
    ZeroQuotient(sd, Max(1.0, Mean(gaps)));
  }

  /** The analyzer after a run of records. */
  ghost function AfterRecords(t: Timing, times: seq<int>, sqrt: real -> real): Timing {
    if times == [] then t
    else Recorded(AfterRecords(t, times[..|times| - 1], sqrt), times[|times| - 1], sqrt).0
  }

  /** Did record number `i` of a run fire? */
  ghost predicate Fires(t: Timing, times: seq<int>, i: nat, sqrt: real -> real)
    requires i < |times|
  {
    Recorded(AfterRecords(t, times[..i], sqrt), times[i], sqrt).1
  }

  lemma {:induction false} GapsSinceFiring(t: Timing, times: seq<int>, i: nat, n: nat, sqrt: real -> real)
    requires t.Valid() && i < n <= |times| && Fires(t, times, i, sqrt)
    ensures |AfterRecords(t, times[..n], sqrt).gaps| <= n - i - 1
    decreases n
  {
    hide Recorded;
    var before := times[..n - 1];
    assert times[..n][..n - 1] == before;
    assert times[..n][n - 1] == times[n - 1];
    OneGapPerRecord(AfterRecords(t, before, sqrt), times[n - 1], sqrt);
    if i + 1 < n {
      GapsSinceFiring(t, times, i, n - 1, sqrt);
    }
  }

  lemma OneGapPerRecord(t: Timing, now: int, sqrt: real -> real)
    ensures |Recorded(t, now, sqrt).0.gaps| <= |t.gaps| + 1
    ensures Recorded(t, now, sqrt).1 ==> WINDOW <= |t.gaps| + 1 && Recorded(t, now, sqrt).0.gaps == []
  {
    hide Regular;
  }

  /** Two firings are at least ten records apart, in every run. */
  lemma FiringsApart(t: Timing, times: seq<int>, i: nat, j: nat, sqrt: real -> real)
    requires t.Valid() && i < j < |times| && Fires(t, times, i, sqrt) && Fires(t, times, j, sqrt)
    ensures i + 10 <= j
  {
    hide Recorded;
    GapsSinceFiring(t, times, i, j, sqrt);
    OneGapPerRecord(AfterRecords(t, times[..j], sqrt), times[j], sqrt);
  }

  /** It fires exactly when the ten gaps it looks at average at most twenty seconds and deviate, in the root mean
      square, by less than eight per cent of that, or of a millisecond if that is more. */
  lemma FiresExactly(t: Timing, now: int, sqrt: real -> real)
    requires SquareRoot(sqrt) && t.Valid()
    ensures var gaps := Observed(t, now);
            Recorded(t, now, sqrt).1 <==>
            && |gaps| == 10 && Mean(gaps) <= 20_000.0
            && SquaredDeviations(gaps, Mean(gaps)) / 10.0 < Square(0.08 * Max(1.0, Mean(gaps)))
  {
    var gaps := Observed(t, now);
    if |gaps| == 10 {
      var mean := Mean(gaps);
      DeviationAtMostSum(gaps, mean, 0);
      QuotientBelow(Root(sqrt, SquaredDeviations(gaps, mean) / 10.0), Max(1.0, mean));
    }
  }

  lemma QuotientBelow(sd: real, m: real)
    requires 0.0 <= sd && 1.0 <= m
    ensures sd / m < 0.08 <==> Square(sd) < Square(0.08 * m)
  {
    assert sd / m * m == sd;
    if sd / m < 0.08 {
      SmallQuotient(sd, m);
      assert Square(0.08 * m) == 0.0064 * Square(m);
    } else {
      Scale(0.08, sd / m, m);
      Scale(0.08 * m, sd, sd);
      Scale(0.08 * m, sd, 0.08 * m);
    }
  }

  /** Since the analyzer last fired, or was made, its gaps are those between the last records, at most ten of them. */
  ghost predicate GapsOf(gaps: seq<int>, times: seq<int>) {
    && |gaps| == (if |times| == 0 then 0 else if |times| <= WINDOW then |times| - 1 else WINDOW)
    && forall k :: 0 <= k < |gaps| ==>
         gaps[k] == times[|times| - |gaps| + k] - times[|times| - |gaps| + k - 1]
  }

  /** The instants an analyzer has seen, from the last one before those recorded on. */
  ghost function Seen(last: int, times: seq<int>): seq<int> {
    if last == 0 then times else [last] + times
  }

  lemma {:induction false} GapsExactly(t: Timing, times: seq<int>, sqrt: real -> real)
    requires t.gaps == [] && 0 !in times
    requires forall i :: 0 <= i < |times| ==> !Fires(t, times, i, sqrt)
    ensures var all := Seen(t.last, times);
            && GapsOf(AfterRecords(t, times, sqrt).gaps, all)
            && AfterRecords(t, times, sqrt).last == if all == [] then 0 else all[|all| - 1]
  {
    hide *;
    if times == [] {
      NoRecords(t, sqrt);
    } else {
      var before, now := times[..|times| - 1], times[|times| - 1];
      assert times == before + [now];
      SeenMore(t.last, before, now);
      forall i | 0 <= i < |before|
        ensures !Fires(t, before, i, sqrt)
      {
        FiresBefore(t, times, i, sqrt);
      }
      GapsExactly(t, before, sqrt);
      NotFired(t, times, sqrt);
      GapsPush(AfterRecords(t, before, sqrt), Seen(t.last, before), now);
    }
  }

  lemma NoRecords(t: Timing, sqrt: real -> real)
    requires t.gaps == []
    ensures AfterRecords(t, [], sqrt) == t && GapsOf([], Seen(t.last, []))
    ensures Seen(t.last, []) == if t.last == 0 then [] else [t.last]
  {
  }

  lemma SeenMore(last: int, before: seq<int>, now: int)
    requires 0 !in before + [now]
    ensures Seen(last, before + [now]) == Seen(last, before) + [now] && 0 !in before && now != 0
    ensures var all := Seen(last, before); all != [] ==> all[|all| - 1] != 0
  {
    assert now in before + [now];
    assert [last] + (before + [now]) == [last] + before + [now];
  }

  lemma FiresBefore(t: Timing, times: seq<int>, i: nat, sqrt: real -> real)
    requires i + 1 < |times|
    ensures Fires(t, times[..|times| - 1], i, sqrt) <==> Fires(t, times, i, sqrt)
  {
    hide Recorded, AfterRecords;
    assert times[..|times| - 1][..i] == times[..i];
  }

  lemma NotFired(t: Timing, times: seq<int>, sqrt: real -> real)
    requires times != [] && !Fires(t, times, |times| - 1, sqrt)
    ensures AfterRecords(t, times, sqrt)
            == Timing(Observed(AfterRecords(t, times[..|times| - 1], sqrt), times[|times| - 1]), times[|times| - 1])
  {
    hide Regular, Observed;
  }

  lemma GapsPush(t: Timing, times: seq<int>, now: int)
    requires GapsOf(t.gaps, times) && (times == [] ==> t.last == 0)
    requires times != [] ==> t.last == times[|times| - 1] != 0
    ensures GapsOf(Observed(t, now), times + [now])
  {
    var all, gaps := times + [now], Observed(t, now);
    if times != [] {
      var pushed := t.gaps + [now - t.last];
      forall k | 0 <= k < |gaps|
        ensures gaps[k] == all[|all| - |gaps| + k] - all[|all| - |gaps| + k - 1]
      {
        var j := |pushed| - |gaps| + k;
        assert gaps[k] == pushed[j];
        if j < |t.gaps| { assert pushed[j] == t.gaps[j]; }
      }
    }
  }
}
