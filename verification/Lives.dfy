/** The pace and the score of a connection over its whole life, midnights at any moment included: a renewal that
    overlaps a frame is a step like any other here. Each act is what src/gateway/connection.ts does between two awaits
    to the fields that pace its sends. */
module Lives {
  import opened RateLimit
  import opened Pipeline
  import S = Suspicion
  import W = TrustWindow
  import Gateway

  datatype Act =
    | Wait(elapsed: nat)
    | Begin
    | Signal(name: S.Signal)
    | Lower
    | Send(until: int)
    | Record
    | Clear(at: int)
    | Renew
    | Join(stored: S.Score, trustedUntil: int, at: int)

  /** A cadence that was noted at an instant, and the number of its send. */
  datatype Cadence = Cadence(at: int, send: nat)

  /** `unrecorded` says that the analyzer has not seen the last granted send; `cadences` are those since the last passed
      challenge. */
  datatype Life = Life(gate: Gate, trustedUntil: int, joined: bool, now: int,
                       timing: S.Timing, unrecorded: bool, cadences: seq<Cadence>)

  ghost predicate Possible(l: Life, act: Act, sqrt: real -> real) {
    match act
    case Wait(_) => true
    case Begin => true
    case Signal(name) =>
      name != S.MachineRegularTiming
      && Ready(name, l.gate.log, l.gate.since, l.gate.passed, l.gate.left, l.now)
    case Lower => true
    case Send(until) =>
      && l.joined && l.gate.until <= l.now && l.gate.bucket.refillPerSec != 0.0
      && l.now + Taken(l.gate.bucket, l.now, 1.0).1 <= until
    case Record =>
      && l.unrecorded && l.gate.sends != []
      && (Fires(l, sqrt) ==> Ready(S.MachineRegularTiming, l.gate.log, l.gate.since, l.gate.passed, l.gate.left, l.now))
    case Clear(at) => l.joined && at <= l.now
    case Renew => l.joined
    case Join(_, _, at) => !l.joined && at <= l.now
  }

  /** The analyzer is given the instant at which the send began. */
  ghost predicate Fires(l: Life, sqrt: real -> real)
    requires l.gate.sends != []
  {
    S.Recorded(l.timing, l.gate.sends[|l.gate.sends| - 1].at, sqrt).1
  }

  ghost function After(l: Life, act: Act, decay: int -> real, sqrt: real -> real): Life
    requires Possible(l, act, sqrt)
  {
    var g := l.gate;
    match act
    case Wait(elapsed) => l.(now := l.now + elapsed)
    case Begin => l.(gate := g.(since := l.now))
    case Signal(name) => l.(gate := Signalled(g, name, l.trustedUntil > l.now, l.now, decay))
    case Lower =>
      l.(gate := g.(score := S.Added(g.score, -15.0, l.now, false, decay), log := g.log + [S.Lowered(l.now, 15.0)]))
    case Send(until) =>
      var sent := Sent(g, l.now, until);
      l.(gate := sent, unrecorded := l.unrecorded || sent.sends != g.sends)
    case Record =>
      var recorded := l.(timing := S.Recorded(l.timing, g.sends[|g.sends| - 1].at, sqrt).0, unrecorded := false);
      if !Fires(l, sqrt) then recorded
      else recorded.(gate := Signalled(g, S.MachineRegularTiming, l.trustedUntil > l.now, l.now, decay),
                     cadences := l.cadences + [Cadence(l.now, |g.sends| - 1)])
    case Clear(at) =>
      Life(Gate(NORMAL, Full(NORMAL.capacity, NORMAL.refillPerSec, at), 0, false, g.sends, g.epoch + 1,
                S.Score(0.0, at), [S.Reset(at)], true, true, g.since, g.left),
           at + Gateway.TRUST_WINDOW_MS, true, l.now, l.timing, false, [])
    case Renew => l.(gate := g.(passed := false), trustedUntil := 0)
    case Join(stored, trustedUntil, at) =>
      var score := Carried(g.score, stored, at, decay);
      l.(gate := Judged(g, score, at, decay).(fromZero := g.fromZero && score == g.score), trustedUntil := trustedUntil,
         joined := true)
  }

  ghost function Signalled(g: Gate, name: S.Signal, trusted: bool, now: int, decay: int -> real): Gate {
    Judged(g, S.Added(g.score, S.Points(name), now, trusted, decay), now, decay)
    .(log := g.log + [S.Signalled(now, name, trusted)], left := if name == S.VerificationFailed then 0 else g.left)
  }

  /** A send is granted, or refused with a cooldown until `until`. */
  ghost function Sent(g: Gate, now: int, until: int): Gate
    requires g.bucket.refillPerSec != 0.0
  {
    var (b, wait) := Taken(g.bucket, now, 1.0);
    if wait == 0 then g.(bucket := b, promised := false, sends := g.sends + [Pass(now, g.epoch)])
    else g.(bucket := b, promised := true, until := until)
  }

  ghost predicate Right(l: Life, decay: int -> real) {
    GateInv(l.gate, l.trustedUntil, l.now, decay)
    && (!l.joined ==> l.gate.sends == [] && !l.gate.passed && l.trustedUntil == 0)
  }

  lemma ActKeeps(l: Life, act: Act, decay: int -> real, sqrt: real -> real)
    requires Right(l, decay) && Possible(l, act, sqrt)
    ensures Right(After(l, act, decay, sqrt), decay)
  {
    hide GateInv, Ready, Fires, Judged, Carried, S.Added, S.Points, Taken, Full;
    var g := l.gate;
    match act {
      case Wait(elapsed) => GateTick(g, l.trustedUntil, l.now, l.now + elapsed, decay);
      case Begin => GateBegins(g, l.trustedUntil, l.now, decay);
      case Signal(name) => SignalKeeps(l, name, decay);
      case Record => if Fires(l, sqrt) { SignalKeeps(l, S.MachineRegularTiming, decay); }
      case Lower => GateLowered(g, 15.0, l.trustedUntil, l.now, decay);
      case Send(until) => SendKeeps(l, until, decay);
      case Clear(at) => GateCleared(g, l.trustedUntil, at + Gateway.TRUST_WINDOW_MS, at, l.now, decay);
      case Renew => GateRenewed(g, l.trustedUntil, 0, l.now, decay);
      case Join(stored, trustedUntil, at) => GateJoined(g, stored, trustedUntil, at, l.now, decay);
    }
  }

  lemma SignalKeeps(l: Life, name: S.Signal, decay: int -> real)
    requires Right(l, decay) && Ready(name, l.gate.log, l.gate.since, l.gate.passed, l.gate.left, l.now)
    ensures Right(l.(gate := Signalled(l.gate, name, l.trustedUntil > l.now, l.now, decay)), decay)
  {
    hide GateInv, Ready, S.Added, S.Points, Retiered, S.Unsaid;
    GateSignalled(l.gate, name, l.trustedUntil, l.now, decay);
  }

  lemma SendKeeps(l: Life, until: int, decay: int -> real)
    requires Right(l, decay) && l.gate.bucket.refillPerSec != 0.0 && l.joined
    requires l.now + Taken(l.gate.bucket, l.now, 1.0).1 <= until
    ensures Right(l.(gate := Sent(l.gate, l.now, until)), decay)
  {
    hide GateInv, Taken;
    var g := l.gate;
    GateTaken(g, l.trustedUntil, l.now, decay);
    var (b, wait) := Taken(g.bucket, l.now, 1.0);
    if wait != 0 { GateStruck(g.(bucket := b, promised := false), g.bucket, until, l.trustedUntil, l.now, decay); }
  }

  /** A life: it starts with the connection, and its acts follow in any order. */
  ghost predicate Lived(lives: seq<Life>, acts: seq<Act>, decay: int -> real, sqrt: real -> real) {
    && |lives| == |acts| + 1 && Born(lives[0])
    && forall n :: 0 <= n < |acts| ==>
       Possible(lives[n], acts[n], sqrt) && lives[n + 1] == After(lives[n], acts[n], decay, sqrt)
  }

  ghost predicate Born(l: Life) {
    && 0 <= l.now
    && l == Life(Gate(NORMAL, Full(NORMAL.capacity, NORMAL.refillPerSec, l.now), 0, false, [], 0, S.ZERO, [], true,
                      false, l.now, 1),
                 0, false, l.now, S.Timing([], 0), false, [])
  }

  lemma {:induction false} LifeKeeps(lives: seq<Life>, acts: seq<Act>, n: nat, decay: int -> real, sqrt: real -> real)
    requires S.HalfLife(decay) && Lived(lives, acts, decay, sqrt) && n <= |acts|
    ensures Right(lives[n], decay)
  {
    hide S.HalfLife, Right, Possible, After;
    if n == 0 {
      BornRight(lives[0], decay);
    } else {
      LifeKeeps(lives, acts, n - 1, decay, sqrt);
      assert lives[n - 1 + 1] == After(lives[n - 1], acts[n - 1], decay, sqrt);
      ActKeeps(lives[n - 1], acts[n - 1], decay, sqrt);
    }
  }

  lemma BornRight(l: Life, decay: int -> real)
    requires S.HalfLife(decay) && Born(l)
    ensures Right(l, decay)
  {
    hide S.HalfLife, GateInv;
    GateStarts(l.now, decay);
  }

  /** At every moment of every life: sends past the bucket are paced; the bucket has its tier's limits and the tier is
      no looser than the live score warrants; the first send after a cooldown passes, if the tier has not changed. */
  lemma EveryLife(lives: seq<Life>, acts: seq<Act>, n: nat, decay: int -> real, sqrt: real -> real)
    requires S.HalfLife(decay) && Lived(lives, acts, decay, sqrt) && n <= |acts|
    ensures var g := lives[n].gate;
            && (forall i, j :: 0 <= i <= j < |g.sends| ==>
                  (j - i + 1) as real <= 10.0 * (g.sends[j].epoch - g.sends[i].epoch + 1) as real
                                         + Seconds(g.sends[j].at - g.sends[i].at))
            && g.bucket.capacity == g.tier.capacity && g.bucket.refillPerSec == g.tier.refillPerSec
            && Rank(TierFor(S.Value(g.score, lives[n].now, decay))) <= Rank(g.tier)
            && 0.0 < g.bucket.refillPerSec
            && (forall t :: g.promised && g.until <= t ==> Taken(g.bucket, t, 1.0).1 == 0)
  {
    LifeKeeps(lives, acts, n, decay, sqrt);
    hide Lived;
    GateMeans(lives[n].gate, lives[n].trustedUntil, lives[n].now, decay);
  }

  /** The tier is no tighter than it has to be either: it is the one that the score called for at some instant of the
      life, since it changes only when a signal is counted, a session is taken into use or a challenge is passed. */
  lemma {:induction false} TierIsEarned(lives: seq<Life>, acts: seq<Act>, n: nat, decay: int -> real,
                                        sqrt: real -> real)
    requires S.HalfLife(decay) && Lived(lives, acts, decay, sqrt) && n <= |acts|
    ensures exists m, t ::
            0 <= m <= n && t <= lives[m].now && CallsFor(lives[m].gate.score, t, lives[n].gate.tier, decay)
  {
    hide S.HalfLife, Possible, After, CallsFor;
    if n == 0 {
      BornCalm(lives[0], decay);
    } else {
      TierIsEarned(lives, acts, n - 1, decay, sqrt);
      assert lives[n - 1 + 1] == After(lives[n - 1], acts[n - 1], decay, sqrt);
      TierMoves(lives[n - 1], acts[n - 1], decay, sqrt);
    }
  }

  /** Two messages and one in ten seconds from 90 points on, five and a third of one a second from 30 on, and otherwise
      ten and one a second. */
  ghost predicate CallsFor(score: S.Score, t: int, tier: Tier, decay: int -> real) {
    var v := S.Value(score, t, decay);
    && (90.0 <= v ==> tier.capacity == 2.0 && tier.refillPerSec == 0.1)
    && (30.0 <= v < 90.0 ==> tier.capacity == 5.0 && tier.refillPerSec == 0.33)
    && (v < 30.0 ==> tier.capacity == 10.0 && tier.refillPerSec == 1.0)
  }

  lemma BornCalm(l: Life, decay: int -> real)
    requires Born(l)
    ensures CallsFor(l.gate.score, l.now, l.gate.tier, decay)
  {
  }

  lemma TierMoves(l: Life, act: Act, decay: int -> real, sqrt: real -> real)
    requires Possible(l, act, sqrt)
    ensures var next := After(l, act, decay, sqrt);
            || next.gate.tier == l.gate.tier
            || exists t :: t <= next.now && CallsFor(next.gate.score, t, next.gate.tier, decay)
  {
    hide Ready, Fires, Carried, S.Added, S.Points, Taken, Full, CallsFor, S.Value, Reconfigured, TierFor;
    var g, next := l.gate, After(l, act, decay, sqrt).gate;
    match act {
      case Clear(at) => ClearedCalm(at, decay);
      case Join(_, _, at) => JudgedCallsFor(g, next.score, at, decay);
      case Signal(_) => JudgedCallsFor(g, next.score, l.now, decay);
      case Record => if Fires(l, sqrt) { JudgedCallsFor(g, next.score, l.now, decay); }
      case _ =>
    }
  }

  lemma JudgedCallsFor(g: Gate, score: S.Score, t: int, decay: int -> real)
    ensures CallsFor(score, t, Judged(g, score, t, decay).tier, decay)
  {
    hide S.Value, Reconfigured;
  }

  lemma ClearedCalm(at: int, decay: int -> real)
    ensures CallsFor(S.Score(0.0, at), at, NORMAL, decay)
  {
  }

  lemma GateMeans(g: Gate, trustedUntil: int, now: int, decay: int -> real)
    requires GateInv(g, trustedUntil, now, decay)
    ensures forall i, j :: 0 <= i <= j < |g.sends| ==>
              (j - i + 1) as real
              <= 10.0 * (g.sends[j].epoch - g.sends[i].epoch + 1) as real + Seconds(g.sends[j].at - g.sends[i].at)
    ensures g.bucket.capacity == g.tier.capacity && g.bucket.refillPerSec == g.tier.refillPerSec
            && 0.0 < g.bucket.refillPerSec
    ensures Rank(TierFor(S.Value(g.score, now, decay))) <= Rank(g.tier)
    ensures forall t :: g.promised && g.until <= t ==> Taken(g.bucket, t, 1.0).1 == 0
  {
    hide S.HalfLife, S.Value, ScoreInv, LogInv, TierFor, Rank, Taken;
    forall t | g.promised && g.until <= t
      ensures Taken(g.bucket, t, 1.0).1 == 0
    {
      PromiseHolds(g.bucket, g.until, t);
    }
  }

  /** And while the score comes from zero, an escalation at the frame that has begun has enough signals behind it. */
  lemma EveryEscalation(lives: seq<Life>, acts: seq<Act>, n: nat, decay: int -> real, sqrt: real -> real)
    requires S.HalfLife(decay) && Lived(lives, acts, decay, sqrt) && n <= |acts| && lives[n].gate.fromZero
    requires var l := lives[n]; S.Escalates(S.Value(l.gate.score, l.gate.since, decay), l.trustedUntil > l.gate.since)
    ensures var l := lives[n];
            EnoughSignals(l.gate.log, l.gate.passed && l.trustedUntil > l.now, l.gate.since, l.now, decay)
  {
    LifeKeeps(lives, acts, n, decay, sqrt);
    hide Lived, S.HalfLife, TierInv, WindowInv, PromiseInv, ScoreInv, LogInv, S.Value, S.Escalates, EnoughSignals;
    var l := lives[n];
    EscalationCounts(l.gate.score, l.gate.log, l.gate.passed, l.trustedUntil, l.gate.left, l.gate.since, l.now, decay);
  }

  // ----- Cadences -----

  ghost predicate Apart(cadences: seq<Cadence>) {
    forall i :: 0 <= i && i + 1 < |cadences| ==> cadences[i].send + 10 <= cadences[i + 1].send
  }

  /** The cadence lies between its own send and the next, and the sends since belong to the same epoch. */
  ghost predicate Placed(c: Cadence, sends: seq<Pass>, epoch: nat, now: int) {
    && c.send < |sends| && sends[c.send].at <= c.at <= now
    && forall k :: c.send < k < |sends| ==> c.at <= sends[k].at && sends[k].epoch == epoch
  }

  function Dates(cadences: seq<Cadence>): (dates: seq<int>)
    ensures |dates| == |cadences| && forall i :: 0 <= i < |dates| ==> dates[i] == cadences[i].at
  {
    seq(|cadences|, i requires 0 <= i < |cadences| => cadences[i].at)
  }

  /** The analyzer has seen no more gaps than there were sends since the last cadence. */
  ghost predicate Noted(l: Life) {
    && l.timing.Valid() && W.Cadences(l.gate.log) == Dates(l.cadences) && Apart(l.cadences)
    && (forall i :: 0 <= i < |l.cadences| ==> Placed(l.cadences[i], l.gate.sends, l.gate.epoch, l.now))
    && (forall i :: 0 <= i < |l.gate.sends| ==> l.gate.sends[i].at <= l.now)
    && (l.unrecorded ==> l.gate.sends != [] && l.gate.sends[|l.gate.sends| - 1].epoch == l.gate.epoch)
    && (l.cadences != [] ==>
          |l.timing.gaps| + l.cadences[|l.cadences| - 1].send + (if l.unrecorded then 1 else 0) <= |l.gate.sends| - 1)
  }

  lemma ActNotes(l: Life, act: Act, decay: int -> real, sqrt: real -> real)
    requires Noted(l) && Possible(l, act, sqrt) && (!l.joined ==> l.gate.sends == [])
    ensures Noted(After(l, act, decay, sqrt))
  {
    hide Retiered, Carried, S.Added, S.Points, Taken, Full, Ready, S.Recorded, W.Cadences;
    match act {
      case Signal(name) => NotACadence(l.gate.log, S.Signalled(l.now, name, l.trustedUntil > l.now));
      case Lower => NotACadence(l.gate.log, S.Lowered(l.now, 15.0));
      case Send(until) => SendNotes(l, until, decay, sqrt);
      case Record => RecordNotes(l, decay, sqrt);
      case Clear(at) => NoCadences(at);
      case _ =>
    }
  }

  lemma NotACadence(log: seq<S.Event>, e: S.Event)
    requires !e.Reset? && (e.Signalled? ==> e.signal != S.MachineRegularTiming)
    ensures W.Cadences(log + [e]) == W.Cadences(log)
  {
    assert (log + [e])[..|log|] == log;
  }

  lemma ACadence(log: seq<S.Event>, at: int, trusted: bool)
    ensures W.Cadences(log + [S.Signalled(at, S.MachineRegularTiming, trusted)]) == W.Cadences(log) + [at]
  {
    assert (log + [S.Signalled(at, S.MachineRegularTiming, trusted)])[..|log|] == log;
  }

  lemma NoCadences(at: int)
    ensures W.Cadences([S.Reset(at)]) == []
  {
  }

  lemma SendNotes(l: Life, until: int, decay: int -> real, sqrt: real -> real)
    requires Noted(l) && Possible(l, Send(until), sqrt)
    ensures Noted(After(l, Send(until), decay, sqrt))
  {
    hide Taken, W.Cadences, Ready;
    var sends, next := l.gate.sends, After(l, Send(until), decay, sqrt).gate.sends;
    assert next == sends || next == sends + [Pass(l.now, l.gate.epoch)];
    forall i | 0 <= i < |l.cadences|
      ensures Placed(l.cadences[i], next, l.gate.epoch, l.now)
    {
      assert Placed(l.cadences[i], sends, l.gate.epoch, l.now);
    }
  }

  lemma RecordNotes(l: Life, decay: int -> real, sqrt: real -> real)
    requires Noted(l) && Possible(l, Record, sqrt)
    ensures Noted(After(l, Record, decay, sqrt))
  {
    hide Retiered, S.Added, S.Points, S.Recorded, W.Cadences, Ready, Fires;
    var n, at, next := |l.gate.sends|, l.gate.sends[|l.gate.sends| - 1].at, After(l, Record, decay, sqrt);
    RecordedGaps(l, sqrt);
    if Fires(l, sqrt) {
      ACadence(l.gate.log, l.now, l.trustedUntil > l.now);
      assert Dates(l.cadences + [Cadence(l.now, n - 1)]) == Dates(l.cadences) + [l.now];
      OneMoreCadence(l, next);
    }
  }

  /** Without a firing there is at most one more gap, and none after one, which takes ten. */
  lemma RecordedGaps(l: Life, sqrt: real -> real)
    requires l.timing.Valid() && l.gate.sends != []
    ensures var (after, fires) := S.Recorded(l.timing, l.gate.sends[|l.gate.sends| - 1].at, sqrt);
            && after.Valid() && |after.gaps| <= |l.timing.gaps| + 1
            && (Fires(l, sqrt) <==> fires) && (fires ==> 9 <= |l.timing.gaps| && after.gaps == [])
  {
    S.OneGapPerRecord(l.timing, l.gate.sends[|l.gate.sends| - 1].at, sqrt);
    hide S.Regular;
  }

  lemma OneMoreCadence(l: Life, next: Life)
    requires Noted(l) && l.unrecorded && 9 <= |l.timing.gaps| && next.now == l.now && next.timing.gaps == []
             && !next.unrecorded
    requires next.gate.sends == l.gate.sends && next.gate.epoch == l.gate.epoch
    requires next.cadences == l.cadences + [Cadence(l.now, |l.gate.sends| - 1)]
    requires W.Cadences(next.gate.log) == Dates(next.cadences)
    ensures Noted(next)
  {
    hide W.Cadences;
    var n := |l.cadences|;
    forall i | 0 <= i < n
      ensures next.cadences[i] == l.cadences[i] && Placed(next.cadences[i], next.gate.sends, next.gate.epoch, next.now)
    {
      assert Placed(l.cadences[i], l.gate.sends, l.gate.epoch, l.now);
    }
  }

  lemma {:induction false} LifeNotes(lives: seq<Life>, acts: seq<Act>, n: nat, decay: int -> real, sqrt: real -> real)
    requires S.HalfLife(decay) && Lived(lives, acts, decay, sqrt) && n <= |acts|
    ensures Noted(lives[n])
  {
    hide S.HalfLife, Noted, Right, Possible, After;
    if n == 0 {
      BornNoted(lives[0]);
    } else {
      LifeNotes(lives, acts, n - 1, decay, sqrt);
      LifeKeeps(lives, acts, n - 1, decay, sqrt);
      assert lives[n - 1 + 1] == After(lives[n - 1], acts[n - 1], decay, sqrt);
      NoSendsBeforeJoin(lives[n - 1], decay);
      ActNotes(lives[n - 1], acts[n - 1], decay, sqrt);
    }
  }

  lemma BornNoted(l: Life)
    requires Born(l)
    ensures Noted(l)
  {
  }

  lemma NoSendsBeforeJoin(l: Life, decay: int -> real)
    requires Right(l, decay)
    ensures !l.joined ==> l.gate.sends == []
  {
    hide GateInv;
  }

  lemma {:induction false} SendsBetween(cadences: seq<Cadence>, i: nat, n: nat)
    requires Apart(cadences) && i + n < |cadences|
    ensures cadences[i].send + 10 * n <= cadences[i + n].send
  {
    if 0 < n { SendsBetween(cadences, i, n - 1); }
  }

  /** Five cadences are forty sends apart, and so half a minute. */
  lemma CadencesAreSpaced(l: Life, decay: int -> real)
    requires Noted(l) && GateInv(l.gate, l.trustedUntil, l.now, decay)
    ensures W.Spaced(W.Cadences(l.gate.log))
  {
    hide GateInv, Taken, TierFor, Rank, S.Value, W.Cadences, Seconds;
    GateMeans(l.gate, l.trustedUntil, l.now, decay);
    var g, cadences := l.gate, l.cadences;
    forall i | 0 <= i && i + 4 < |cadences|
      ensures cadences[i].at + W.SPAN <= cadences[i + 4].at
    {
      SendsBetween(cadences, i, 4);
      FortySends(cadences[i], cadences[i + 4], g, l.now);
    }
  }

  lemma FortySends(c: Cadence, d: Cadence, g: Gate, now: int)
    requires c.send + 40 <= d.send && Placed(c, g.sends, g.epoch, now) && Placed(d, g.sends, g.epoch, now)
    requires var a, b := c.send + 1, d.send;
             (b - a + 1) as real
             <= 10.0 * (g.sends[b].epoch - g.sends[a].epoch + 1) as real + Seconds(g.sends[b].at - g.sends[a].at)
    ensures c.at + W.SPAN <= d.at
  {
    var a, b := c.send + 1, d.send;
    assert g.sends[a].epoch == g.sends[b].epoch && c.at <= g.sends[a].at && g.sends[b].at <= d.at;
    assert 40.0 <= (b - a + 1) as real;
  }

  /** In the trust window after a passed challenge a send that is judged without a wait needs eleven signals to
      escalate. */
  lemma EveryTrustedEscalation(lives: seq<Life>, acts: seq<Act>, n: nat, decay: int -> real, sqrt: real -> real)
    requires S.HalfLife(decay) && Lived(lives, acts, decay, sqrt) && n <= |acts|
    requires var l := lives[n];
             && l.gate.fromZero && l.gate.passed && l.trustedUntil > l.now && l.gate.since == l.now
             && S.Escalates(S.Value(l.gate.score, l.now, decay), true)
    ensures 11 <= S.SignalsSinceReset(lives[n].gate.log)
  {
    LifeKeeps(lives, acts, n, decay, sqrt);
    LifeNotes(lives, acts, n, decay, sqrt);
    hide Lived, Noted, S.HalfLife, TierInv, WindowInv, PromiseInv, ScoreInv, LogInv, S.Value, S.Escalates, W.Spaced,
      W.Cadences, S.SignalsSinceReset, S.Run, S.Timely, S.Plausible, S.AllAfterJoin, S.TrustedSinceReset;
    var l := lives[n];
    CadencesAreSpaced(l, decay);
    LogMeans(l.gate.log, l.gate.since, l.gate.passed, l.gate.left, l.now);
    OfTheLog(l.gate.score, l.gate.log, l.gate.passed, l.trustedUntil, l.now, decay);
    W.TrustedNeedsEleven(l.gate.log, l.now, decay);
  }
}
