/** How many signals an escalation needs in the trust window after a passed challenge, when a regular cadence cannot be
    noted more often than every ten sends. */
module TrustWindow {
  import opened Reals
  import opened Suspicion

  /** When regular cadences were noted since the last reset. */
  ghost function Cadences(events: seq<Event>): seq<int> {
    if events == [] || events[|events| - 1].Reset? then []
    else
      var e := events[|events| - 1];
      Cadences(events[..|events| - 1]) + if e.Signalled? && e.signal == MachineRegularTiming then [e.at] else []
  }

  ghost predicate FailedSinceReset(events: seq<Event>) {
    events != [] && !events[|events| - 1].Reset? &&
    (FailedSinceReset(events[..|events| - 1]) ||
     (events[|events| - 1].Signalled? && events[|events| - 1].signal == VerificationFailed))
  }

  /** Cadences at half weight, decayed. */
  ghost function CadenceSum(dates: seq<int>, t: int, decay: int -> real): real {
    if dates == [] then 0.0
    else CadenceSum(dates[..|dates| - 1], t, decay) + 9.0 * Factor(decay, t - dates[|dates| - 1])
  }

  lemma FailedMeans(events: seq<Event>)
    ensures NoneFailed(events) ==> !FailedSinceReset(events)
    decreases |events|
  {
    if events != [] {
      var before := events[..|events| - 1];
      assert forall i :: 0 <= i < |before| ==> before[i] == events[i];
      FailedMeans(before);
    }
  }

  /** What `n` signals can weigh, of which `c` are cadences that weigh `cadences` together. */
  function Most(n: int, c: int, cadences: real, failed: bool): real {
    7.5 * (n - c) as real + cadences + if failed then 5.0 else 0.0
  }

  lemma MostGrows(n: int, c: int, cadences: real, failed: bool, w: real)
    ensures Most(n + 1, c, cadences, failed) == Most(n, c, cadences, failed) + 7.5
    ensures Most(n + 1, c, cadences, true) == Most(n, c, cadences, false) + 12.5
    ensures Most(n + 1, c + 1, cadences + w, failed) == Most(n, c, cadences, failed) + w
  {
    assert (n + 1 - c) as real == (n - c) as real + 1.0;
  }

  ghost predicate Splits(events: seq<Event>, t: int, decay: int -> real) {
    && |Cadences(events)| + (if FailedSinceReset(events) then 1 else 0) <= SignalsSinceReset(events)
    && DecayedSum(events, t, decay) <=
         Most(SignalsSinceReset(events), |Cadences(events)|, CadenceSum(Cadences(events), t, decay),
              FailedSinceReset(events))
  }

  /** Besides the cadences no signal of a joined connection weighs more than seven and a half points, but for the failed
      verification, which weighs five more. */
  lemma {:induction false} SumSplits(events: seq<Event>, t: int, decay: int -> real)
    requires HalfLife(decay) && Timely(events) && Plausible(events, t) && AllAfterJoin(events)
             && TrustedSinceReset(events)
    requires forall i :: 0 <= i < |events| ==> events[i].at <= t
    ensures Splits(events, t, decay)
  {
    hide HalfLife, Timely, Plausible, Splits, AllAfterJoin, TrustedSinceReset, FailedSinceReset;
    if events == [] || events[|events| - 1].Reset? {
      NothingSplits(events, t, decay);
    } else {
      var before, e := events[..|events| - 1], events[|events| - 1];
      TimelyPrefix(events);
      PlausiblePrefix(events, t);
      TrustedPrefix(events);
      SumSplits(before, t, decay);
      if e.Signalled? {
        if e.signal == VerificationFailed {
          FailedOnce(events, t);
          FailedMeans(before);
        }
        OneMoreSplit(events, t, decay);
      } else {
        LoweredSplits(events, t, decay);
      }
    }
  }

  lemma NothingSplits(events: seq<Event>, t: int, decay: int -> real)
    requires events == [] || events[|events| - 1].Reset?
    ensures Splits(events, t, decay)
  {
  }

  lemma LoweredSplits(events: seq<Event>, t: int, decay: int -> real)
    requires events != [] && events[|events| - 1].Lowered? && Splits(events[..|events| - 1], t, decay)
    ensures Splits(events, t, decay)
  {
    hide Most;
    assert Cadences(events) == Cadences(events[..|events| - 1]);
  }

  lemma TrustedPrefix(events: seq<Event>)
    requires events != [] && AllAfterJoin(events) && TrustedSinceReset(events)
    ensures var before, e := events[..|events| - 1], events[|events| - 1];
            AllAfterJoin(before)
            && (!e.Reset? ==> TrustedSinceReset(before) && (e.Signalled? ==> e.trusted && AfterJoin(e.signal)))
  {
  }

  lemma OneMoreSplit(events: seq<Event>, t: int, decay: int -> real)
    requires HalfLife(decay) && events != [] && events[|events| - 1].Signalled? && events[|events| - 1].at <= t
    requires var before, e := events[..|events| - 1], events[|events| - 1];
             && e.trusted && AfterJoin(e.signal) && (e.signal == VerificationFailed ==> !FailedSinceReset(before))
             && Splits(before, t, decay)
    ensures Splits(events, t, decay)
  {
    hide HalfLife, Factor, Most, Points, Worth, DecayedSum, SignalsSinceReset, CadenceSum, Cadences, FailedSinceReset;
    var before, e := events[..|events| - 1], events[|events| - 1];
    LastAdds(events, t, decay);
    WorthAtMost(e, t, decay);
    var n, dates := SignalsSinceReset(before), Cadences(before);
    MostGrows(n, |dates|, CadenceSum(dates, t, decay), FailedSinceReset(before), Worth(e, t, decay));
    if e.signal == MachineRegularTiming {
      AnotherCadence(dates, e.at, t, decay);
    } else {
      assert dates + [] == dates;
    }
  }

  /** What a signal weighs at `t`. */
  function Worth(e: Event, t: int, decay: int -> real): real
    requires e.Signalled?
  {
    Weight(Points(e.signal), e.trusted) * Factor(decay, t - e.at)
  }

  lemma LastAdds(events: seq<Event>, t: int, decay: int -> real)
    requires events != [] && events[|events| - 1].Signalled?
    ensures var before, e := events[..|events| - 1], events[|events| - 1];
            && DecayedSum(events, t, decay) == DecayedSum(before, t, decay) + Worth(e, t, decay)
            && SignalsSinceReset(events) == SignalsSinceReset(before) + 1
            && Cadences(events) == Cadences(before) + (if e.signal == MachineRegularTiming then [e.at] else [])
            && (FailedSinceReset(events) <==> FailedSinceReset(before) || e.signal == VerificationFailed)
  {
    hide Points, Factor, Weight;
  }

  lemma WorthAtMost(e: Event, t: int, decay: int -> real)
    requires HalfLife(decay) && e.Signalled? && e.trusted && AfterJoin(e.signal) && e.at <= t
    ensures e.signal == MachineRegularTiming ==> Worth(e, t, decay) == 9.0 * Factor(decay, t - e.at)
    ensures e.signal != MachineRegularTiming ==>
            Worth(e, t, decay) <= if e.signal == VerificationFailed then 12.5 else 7.5
  {
    hide HalfLife, Factor;
    var w := Weight(Points(e.signal), e.trusted);
    FactorLaws(decay, t - e.at, 0);
    assert 0.0 <= w && (e.signal == MachineRegularTiming ==> w == 9.0);
    assert e.signal != MachineRegularTiming ==> w <= if e.signal == VerificationFailed then 12.5 else 7.5;
    Shrinks(w, Factor(decay, t - e.at));
  }

  lemma AnotherCadence(dates: seq<int>, at: int, t: int, decay: int -> real)
    ensures CadenceSum(dates + [at], t, decay) == CadenceSum(dates, t, decay) + 9.0 * Factor(decay, t - at)
  {
    assert (dates + [at])[..|dates|] == dates;
  }

  // ----- Cadences are far apart -----

  const SPAN := 30_000

  /** Any five cadences take half a minute. */
  ghost predicate Spaced(dates: seq<int>) {
    forall i :: 0 <= i && i + 4 < |dates| ==> dates[i] + SPAN <= dates[i + 4]
  }

  /** In half a minute a score loses eight per cent. */
  lemma HalfMinute(decay: int -> real)
    requires HalfLife(decay)
    ensures Factor(decay, SPAN) <= 0.92
  {
    hide HalfLife, Factor;
    var f, f2, f4 := Factor(decay, SPAN), Factor(decay, 2 * SPAN), Factor(decay, 4 * SPAN);
    FactorLaws(decay, SPAN, SPAN);
    FactorLaws(decay, 2 * SPAN, 2 * SPAN);
    FactorLaws(decay, 4 * SPAN, 4 * SPAN);
    Halves(decay);
    if 0.92 < f {
      Scale(0.92, f, f);
      Scale(0.8464, f2, f2);
      Scale(0.7163, f4, f4);
    }
  }

  lemma Halves(decay: int -> real)
    requires HalfLife(decay)
    ensures Factor(decay, 8 * SPAN) == 0.5
  {
  }

  function AtMost(n: nat): real {
    if n <= 4 then 9.0 * n as real else 36.0 + 8.28 * (n - 4) as real
  }

  lemma {:induction false} FreshSum(dates: seq<int>, t: int, decay: int -> real)
    requires HalfLife(decay) && forall i :: 0 <= i < |dates| ==> dates[i] <= t
    ensures CadenceSum(dates, t, decay) <= 9.0 * |dates| as real
  {
    hide HalfLife, Factor;
    if dates != [] {
      var last := dates[|dates| - 1];
      FreshSum(dates[..|dates| - 1], t, decay);
      FactorLaws(decay, t - last, 0);
    }
  }

  lemma {:induction false} StaleSum(dates: seq<int>, t: int, decay: int -> real)
    requires HalfLife(decay) && forall i :: 0 <= i < |dates| ==> dates[i] + SPAN <= t
    ensures CadenceSum(dates, t, decay) <= 8.28 * |dates| as real
  {
    hide HalfLife, Factor;
    if dates != [] {
      var last := dates[|dates| - 1];
      StaleSum(dates[..|dates| - 1], t, decay);
      FactorFalls(decay, SPAN, t - last);
      HalfMinute(decay);
    }
  }

  lemma {:induction false} SumSplitsAt(dates: seq<int>, n: nat, t: int, decay: int -> real)
    requires n <= |dates|
    ensures CadenceSum(dates, t, decay) == CadenceSum(dates[..n], t, decay) + CadenceSum(dates[n..], t, decay)
  {
    if n == |dates| {
      assert dates[..n] == dates;
    } else {
      var before := dates[..|dates| - 1];
      SumSplitsAt(before, n, t, decay);
      assert before[..n] == dates[..n] && dates[n..][..|dates| - n - 1] == before[n..];
    }
  }

  lemma CadencesWeigh(dates: seq<int>, t: int, decay: int -> real)
    requires HalfLife(decay) && Spaced(dates) && forall i :: 0 <= i < |dates| ==> dates[i] <= t
    ensures CadenceSum(dates, t, decay) <= AtMost(|dates|)
  {
    hide HalfLife, CadenceSum;
    if |dates| <= 4 {
      FreshSum(dates, t, decay);
    } else {
      var n := |dates| - 4;
      SumSplitsAt(dates, n, t, decay);
      assert forall i :: 0 <= i < n ==> dates[..n][i] + SPAN <= dates[i + 4] <= t;
      StaleSum(dates[..n], t, decay);
      FreshSum(dates[n..], t, decay);
    }
  }

  /** In the trust window, judged without a wait, ten signals of a joined connection are not enough. */
  lemma TrustedNeedsEleven(events: seq<Event>, t: int, decay: int -> real)
    requires HalfLife(decay) && Timely(events) && Plausible(events, t) && AllAfterJoin(events)
             && TrustedSinceReset(events)
    requires forall i :: 0 <= i < |events| ==> events[i].at <= t
    requires Spaced(Cadences(events)) && Escalates(Value(Run(events, decay), t, decay), true)
    ensures 11 <= SignalsSinceReset(events)
  {
    hide HalfLife, Value, Run, Timely, Plausible, AllAfterJoin, DecayedSum, CadenceSum, Cadences, SignalsSinceReset,
      TrustedSinceReset, Spaced, FailedSinceReset, Most;
    ScoreBound(events, t, decay);
    SumSplits(events, t, decay);
    CadencesArePast(events, t);
    CadencesWeigh(Cadences(events), t, decay);
    var c, n := |Cadences(events)|, SignalsSinceReset(events);
    if n <= 10 {
      TooLight(c, n, FailedSinceReset(events));
      MoreCadences(n, c, CadenceSum(Cadences(events), t, decay), AtMost(c), FailedSinceReset(events));
    }
  }

  lemma MoreCadences(n: int, c: int, x: real, y: real, failed: bool)
    requires x <= y
    ensures Most(n, c, x, failed) <= Most(n, c, y, failed)
  {
  }

  lemma {:induction false} CadencesArePast(events: seq<Event>, t: int)
    requires forall i :: 0 <= i < |events| ==> events[i].at <= t
    ensures forall i :: 0 <= i < |Cadences(events)| ==> Cadences(events)[i] <= t
  {
    if events != [] { CadencesArePast(events[..|events| - 1], t); }
  }

  lemma TooLight(c: nat, n: nat, failed: bool)
    requires c + (if failed then 1 else 0) <= n <= 10
    ensures Most(n, c, AtMost(c), failed) < SEVERE
  {
  }
}
