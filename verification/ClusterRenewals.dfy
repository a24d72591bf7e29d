/** The sessions of the cluster, in every run: a room is cleaned with its lock, renewals come in small batches, a
    verification never counts for another record than the one it was asked for, and a join uses the session that it
    checked. */
module ClusterRenewals {
  import opened Types
  import opened Day
  import opened Cluster
  import opened ClusterFanOut
  import opened ClusterSafety
  import opened ClusterTheorems

  // ----- Batches -----

  ghost predicate Small(roll: Roll) {
    roll.Batching? ==> |roll.waiting| <= 250
  }

  lemma {:induction false} NoLarger<T>(s: seq<T>, a: set<T>)
    requires forall x <- a :: x in s
    ensures |a| <= |s|
  {
    if s == [] {
      assert a == {};
    } else {
      var rest := a - {s[0]};
      forall x <- rest
        ensures x in s[1..]
      {
      }
      NoLarger(s[1..], rest);
      assert |a| <= |rest| + 1 by {
        if s[0] in a { assert a == rest + {s[0]}; } else { assert a == rest; }
      }
    }
  }

  lemma BatchIsSmall(s: State, i: nat, cal: Calendar)
    requires i < |s.instances| && Possible(s, i, BatchStart, cal)
    ensures Small(Acted(s, i, BatchStart, cal).roll)
  {
    var roll := s.instances[i].roll;
    var batch := roll.live[roll.begun..BatchEnd(roll)];
    var waiting := Acted(s, i, BatchStart, cal).roll.waiting;
    assert forall k <- waiting :: k in batch;
    NoLarger(batch, waiting);
  }

  lemma ActKeepsSmall(s: State, i: nat, act: Act, cal: Calendar)
    requires i < |s.instances| && Possible(s, i, act, cal) && Small(s.instances[i].roll)
    ensures Small(Acted(s, i, act, cal).roll)
  {
    if act.BatchStart? {
      hide *;
      BatchIsSmall(s, i, cal);
    } else {
      hide Possible, Acted, Moved, Turned;
      if OfConnection(act) {
        OnlyOne(s, i, act, cal);
      } else {
        TurnedKeeps(s, i, act, cal);
        TurnedRoll(s, i, act, cal);
        if act.LockReply? || act.CleanupDone? || act.CleanupFail? { TurnedSnapshot(s, i, act, cal); }
      }
    }
  }

  /** At most 250 connections are being renewed at a time. */
  lemma {:induction false} BatchesAreSmall(states: seq<State>, steps: seq<Step>, n: nat, cal: Calendar, i: nat)
    requires Run(states, steps, cal) && n <= |steps| && i < |states[n].instances|
    ensures Small(states[n].instances[i].roll)
    decreases n
  {
    if 0 < n {
      SameInstances(states, steps, n - 1, cal);
      InstanceStep(states, steps, n - 1, i, cal);
      hide Run, Small, Acted, Possible;
      BatchesAreSmall(states, steps, n - 1, cal, i);
      if steps[n - 1].At? && steps[n - 1].i == i { ActKeepsSmall(states[n - 1], i, steps[n - 1].act, cal); }
    }
  }

  // ----- Cleaning -----

  ghost predicate Granted(roll: Roll, cleanups: seq<Cleanup>) {
    roll.Cleaning? ==> exists c <- cleanups :: c.room == roll.prev
  }

  lemma ActKeepsGranted(s: State, i: nat, act: Act, cal: Calendar)
    requires i < |s.instances| && Possible(s, i, act, cal) && Granted(s.instances[i].roll, s.cleanups)
    ensures Granted(Acted(s, i, act, cal).roll, Shared(s, i, act, cal).cleanups)
  {
    CleanupsGrow(s, i, act, cal);
    hide Possible, Acted, Moved, Turned, Shared;
    if OfConnection(act) {
      OnlyOne(s, i, act, cal);
    } else {
      TurnedKeeps(s, i, act, cal);
      TurnedRoll(s, i, act, cal);
      if act.LockReply? || act.CleanupDone? || act.CleanupFail? { TurnedSnapshot(s, i, act, cal); }
    }
  }

  lemma CleanupsGrow(s: State, i: nat, act: Act, cal: Calendar)
    requires i < |s.instances| && Possible(s, i, act, cal)
    ensures s.cleanups <= Shared(s, i, act, cal).cleanups
    ensures act.LockReply? && Free(s, s.instances[i].roll.prev.roomId) ==>
              exists c <- Shared(s, i, act, cal).cleanups :: c.room == s.instances[i].roll.prev
  {
    hide Snapshot, Claimed, Free;
    if act.LockReply? {
      var cleanup := Cleanup(s.instances[i].roll.prev, s.now);
      assert (s.cleanups + [cleanup])[|s.cleanups|] == cleanup;
    }
  }

  /** Whoever cleans a room has been given its lock. */
  lemma {:induction false} CleaningIsGranted(states: seq<State>, steps: seq<Step>, n: nat, cal: Calendar, i: nat)
    requires Run(states, steps, cal) && n <= |steps| && i < |states[n].instances|
    ensures Granted(states[n].instances[i].roll, states[n].cleanups)
    decreases n
  {
    if 0 < n {
      SameInstances(states, steps, n - 1, cal);
      InstanceStep(states, steps, n - 1, i, cal);
      CleanupsMove(states, steps, n - 1, cal);
      hide Run, Granted, Acted, Possible, Shared;
      CleaningIsGranted(states, steps, n - 1, cal, i);
      if steps[n - 1].At? && steps[n - 1].i == i {
        ActKeepsGranted(states[n - 1], i, steps[n - 1].act, cal);
      } else {
        GrantedStays(states[n - 1].instances[i].roll, states[n - 1].cleanups, states[n].cleanups);
      }
    }
  }

  lemma GrantedStays(roll: Roll, cleanups: seq<Cleanup>, more: seq<Cleanup>)
    requires Granted(roll, cleanups) && cleanups <= more
    ensures Granted(roll, more)
  {
  }

  lemma CleanupsMove(states: seq<State>, steps: seq<Step>, n: nat, cal: Calendar)
    requires Run(states, steps, cal) && n < |steps|
    ensures states[n].cleanups <= states[n + 1].cleanups
    ensures steps[n].At? ==> steps[n].i < |states[n].instances| && Possible(states[n], steps[n].i, steps[n].act, cal)
                             && states[n + 1].cleanups == Shared(states[n], steps[n].i, steps[n].act, cal).cleanups
  {
    assert Enabled(states[n], steps[n], cal) && states[n + 1] == After(states[n], steps[n], cal);
    if steps[n].At? { CleanupsGrow(states[n], steps[n].i, steps[n].act, cal); }
    hide Acted, Possible, Shared;
  }

  // ----- Verifications -----

  /** A verification is under way, and its record is no longer the one in use. */
  ghost predicate Outdated(c: Conn, sids: set<nat>) {
    c.frame.Verifying? && c.frame.sid in sids && c.joined
    && (c.closed || (c.rec.Some? && c.rec.value.sid != c.frame.sid))
  }

  lemma RenewalOutdates(s: State, i: nat, k: Key, name: string, sid: nat, cal: Calendar)
    requires i < |s.instances| && Possible(s, i, ConnRolled(k, name, sid), cal) && KnownInv(s.instances[i], s.sids)
    requires s.instances[i].conns[k].frame.Verifying? && s.instances[i].conns[k].joined
    ensures k in Acted(s, i, ConnRolled(k, name, sid), cal).conns
    ensures Outdated(Acted(s, i, ConnRolled(k, name, sid), cal).conns[k],
                     Shared(s, i, ConnRolled(k, name, sid), cal).sids)
  {
    assert Known(s.instances[i].conns[k], s.sids);
  }

  /** It stays so until the verification is answered. */
  lemma ActKeepsOutdated(s: State, i: nat, act: Act, cal: Calendar, k: Key)
    requires i < |s.instances| && Possible(s, i, act, cal) && k in s.instances[i].conns
    requires Outdated(s.instances[i].conns[k], s.sids)
    ensures k in Acted(s, i, act, cal).conns
    ensures act != ResponsePass(k) && act != ResponseFail(k) ==>
              Outdated(Acted(s, i, act, cal).conns[k], Shared(s, i, act, cal).sids)
    ensures act == ResponsePass(k) ==> Acted(s, i, act, cal).conns[k].pending == s.instances[i].conns[k].pending
  {
    if act.ConnRolled? && act.k == k {
      hide Claimed;
    } else {
      var c := s.instances[i].conns[k];
      SidsGrow(s, i, act, cal);
      hide Acted, Moved, Turned, Shared, Alike;
      if OfConnection(act) {
        OnlyOne(s, i, act, cal);
        if act.k == k { OwnActKeepsOutdated(s, i, act, cal); }
      } else {
        TurnedKeeps(s, i, act, cal);
        TurnedAlike(s, i, act, cal);
        AlikeOutdated(c, Acted(s, i, act, cal).conns[k], s.sids, Shared(s, i, act, cal).sids);
      }
    }
  }

  lemma SidsGrow(s: State, i: nat, act: Act, cal: Calendar)
    requires i < |s.instances| && Possible(s, i, act, cal)
    ensures s.sids <= Shared(s, i, act, cal).sids
  {
    hide Snapshot, Claimed, Free;
  }

  lemma AlikeOutdated(c: Conn, d: Conn, sids: set<nat>, more: set<nat>)
    requires Outdated(c, sids) && Alike(c, d) && sids <= more
    ensures Outdated(d, more)
  {
  }

  lemma OwnActKeepsOutdated(s: State, i: nat, act: Act, cal: Calendar)
    requires i < |s.instances| && Possible(s, i, act, cal) && OfConnection(act) && !act.Accept? && !act.ConnRolled?
    requires act.k in s.instances[i].conns && Outdated(s.instances[i].conns[act.k], s.sids)
    ensures var c, d := s.instances[i].conns[act.k], Moved(s, i, act, cal);
            && (!act.ResponsePass? && !act.ResponseFail? ==> Outdated(d, s.sids))
            && (act.ResponsePass? ==> d.pending == c.pending)
  {
    hide Claimed, Snapshot;
  }

  lemma {:induction false} OutdatedSince(states: seq<State>, steps: seq<Step>, m: nat, n: nat, cal: Calendar, i: nat,
                                         k: Key)
    requires Run(states, steps, cal) && m <= n <= |steps| && i < |states[m].instances|
    requires k in states[m].instances[i].conns && Outdated(states[m].instances[i].conns[k], states[m].sids)
    requires forall l :: m <= l < n ==> steps[l] != At(i, ResponsePass(k)) && steps[l] != At(i, ResponseFail(k))
    ensures i < |states[n].instances| && k in states[n].instances[i].conns
    ensures Outdated(states[n].instances[i].conns[k], states[n].sids)
    decreases n
  {
    if m < n {
      OutdatedSince(states, steps, m, n - 1, cal, i, k);
      InstanceStep(states, steps, n - 1, i, cal);
      SameInstances(states, steps, n - 1, cal);
      var s, step := states[n - 1], steps[n - 1];
      hide Run, Acted, Possible, Shared;
      StepGrows(s, step, cal);
      if step.At? && step.i == i { ActKeepsOutdated(s, i, step.act, cal, k); }
    }
  }

  /** A verification that was asked for before a renewal and answered after it leaves the new record's challenge
      alone. */
  lemma PassesStayWithTheirRecord(states: seq<State>, steps: seq<Step>, r: nat, n: nat, cal: Calendar, from: int,
                                  i: nat, k: Key, name: string, sid: nat)
    requires Reached(states, steps, n + 1, cal, from) && r < n && i < |states[r].instances|
    requires steps[r] == At(i, ConnRolled(k, name, sid)) && k in states[r].instances[i].conns
    requires states[r].instances[i].conns[k].frame.Verifying? && states[r].instances[i].conns[k].joined
    requires steps[n] == At(i, ResponsePass(k))
    requires forall l :: r < l < n ==> steps[l] != At(i, ResponsePass(k)) && steps[l] != At(i, ResponseFail(k))
    ensures i < |states[n].instances| && i < |states[n + 1].instances|
    ensures k in states[n].instances[i].conns && k in states[n + 1].instances[i].conns
    ensures states[n + 1].instances[i].conns[k].pending == states[n].instances[i].conns[k].pending
  {
    RunKeeps(states, steps, r, cal, from);
    InstanceStep(states, steps, r, i, cal);
    AtIsAfter(states, steps, r, cal);
    KnownAt(states[r], cal, from, i);
    hide Inv, Tiles, Run, Acted, Possible, Shared, KnownInv, Outdated;
    RenewalOutdates(states[r], i, k, name, sid, cal);
    OutdatedSince(states, steps, r + 1, n, cal, i, k);
    InstanceStep(states, steps, n, i, cal);
    ActKeepsOutdated(states[n], i, ResponsePass(k), cal, k);
  }

  lemma AtIsAfter(states: seq<State>, steps: seq<Step>, n: nat, cal: Calendar)
    requires Run(states, steps, cal) && n < |steps| && steps[n].At?
    ensures steps[n].i < |states[n].instances| && Possible(states[n], steps[n].i, steps[n].act, cal)
    ensures states[n + 1].sids == Shared(states[n], steps[n].i, steps[n].act, cal).sids
  {
    assert Enabled(states[n], steps[n], cal) && states[n + 1] == After(states[n], steps[n], cal);
    hide Acted, Possible, Shared;
  }

  lemma KnownAt(s: State, cal: Calendar, from: int, i: nat)
    requires Inv(s, cal, from) && i < |s.instances|
    ensures KnownInv(s.instances[i], s.sids)
  {
    assert InstanceInv(s.instances[i], s, cal, from);
  }

  // ----- Joining -----

  /** The check at step `m` is what the join waits with. */
  ghost predicate CheckedAt(steps: seq<Step>, m: nat, n: nat, i: nat, k: Key, rec: Rec, pending: bool) {
    && m < n <= |steps| && steps[m] == At(i, JoinCheck(k, rec, pending))
    && forall l :: m < l < n ==> steps[l] != At(i, JoinCommit(k)) && steps[l] != At(i, JoinBlocked(k))
  }

  lemma {:induction false} JoiningSince(states: seq<State>, steps: seq<Step>, n: nat, cal: Calendar, i: nat, k: Key)
    requires Run(states, steps, cal) && n <= |steps| && i < |states[n].instances|
    requires k in states[n].instances[i].conns && states[n].instances[i].conns[k].frame.Joining?
    ensures var f := states[n].instances[i].conns[k].frame;
            exists m :: 0 <= m < n && CheckedAt(steps, m, n, i, k, f.rec, f.pending)
    decreases n
  {
    hide Enabled, After, Acted, Possible, CheckedAt;
    if 0 < n {
      SameInstances(states, steps, n - 1, cal);
      JoiningMoves(states, steps, n - 1, cal, i, k);
      hide Started;
      var f := states[n].instances[i].conns[k].frame;
      if steps[n - 1] == At(i, JoinCheck(k, f.rec, f.pending)) {
        CheckedNow(steps, n - 1, i, k, f.rec, f.pending);
      } else {
        JoiningSince(states, steps, n - 1, cal, i, k);
        var m :| 0 <= m < n - 1 && CheckedAt(steps, m, n - 1, i, k, f.rec, f.pending);
        CheckedStill(steps, m, n - 1, i, k, f.rec, f.pending);
      }
    }
  }

  lemma CheckedNow(steps: seq<Step>, m: nat, i: nat, k: Key, rec: Rec, pending: bool)
    requires m < |steps| && steps[m] == At(i, JoinCheck(k, rec, pending))
    ensures CheckedAt(steps, m, m + 1, i, k, rec, pending)
  {
  }

  lemma CheckedStill(steps: seq<Step>, m: nat, n: nat, i: nat, k: Key, rec: Rec, pending: bool)
    requires CheckedAt(steps, m, n, i, k, rec, pending) && n < |steps|
    requires steps[n] != At(i, JoinCommit(k)) && steps[n] != At(i, JoinBlocked(k))
    ensures CheckedAt(steps, m, n + 1, i, k, rec, pending)
  {
  }

  lemma JoiningMoves(states: seq<State>, steps: seq<Step>, n: nat, cal: Calendar, i: nat, k: Key)
    requires Run(states, steps, cal) && n < |steps| && i < |states[n].instances| && i < |states[n + 1].instances|
    requires k in states[n + 1].instances[i].conns && states[n + 1].instances[i].conns[k].frame.Joining?
    ensures k in states[n].instances[i].conns && steps[n] != At(i, JoinCommit(k)) && steps[n] != At(i, JoinBlocked(k))
    ensures var c, d := states[n].instances[i].conns[k], states[n + 1].instances[i].conns[k];
            steps[n] == At(i, JoinCheck(k, d.frame.rec, d.frame.pending)) || d.frame == c.frame
  {
    InstanceStep(states, steps, n, i, cal);
    hide Run, Acted, Possible;
    if steps[n].At? && steps[n].i == i { ActJoining(states[n], i, steps[n].act, cal, k); }
  }

  lemma ActJoining(s: State, i: nat, act: Act, cal: Calendar, k: Key)
    requires i < |s.instances| && Possible(s, i, act, cal)
    requires k in Acted(s, i, act, cal).conns && Acted(s, i, act, cal).conns[k].frame.Joining?
    ensures k in s.instances[i].conns && act != JoinCommit(k) && act != JoinBlocked(k)
    ensures var c, d := s.instances[i].conns[k], Acted(s, i, act, cal).conns[k];
            act == JoinCheck(k, d.frame.rec, d.frame.pending) || d.frame == c.frame
  {
    hide Acted, Possible, Moved, Turned, Alike;
    if OfConnection(act) {
      OnlyOne(s, i, act, cal);
      if act.Accept? { AcceptIsNew(s, i, act, cal); } else { MovedWaits(s, i, act, cal); }
    } else {
      TurnedKeeps(s, i, act, cal);
      TurnedAlike(s, i, act, cal);
      assert Alike(s.instances[i].conns[k], Acted(s, i, act, cal).conns[k]);
      SameFrames(s.instances[i].conns[k], Acted(s, i, act, cal).conns[k]);
    }
  }

  lemma SameFrames(c: Conn, d: Conn)
    requires Alike(c, d)
    ensures d.frame == c.frame
  {
  }

  /** A join takes into use the session that it checked, challenge included. */
  lemma JoinsAsChecked(states: seq<State>, steps: seq<Step>, n: nat, cal: Calendar, i: nat, k: Key)
    requires Run(states, steps, cal) && n < |steps| && i < |states[n].instances| && steps[n] == At(i, JoinCommit(k))
    ensures i < |states[n + 1].instances| && k in states[n + 1].instances[i].conns
    ensures exists m, rec, pending :: 0 <= m < n && CheckedAt(steps, m, n, i, k, rec, pending)
              && var c := states[n + 1].instances[i].conns[k]; c.joined && c.rec == Some(rec) && c.pending == pending
  {
    InstanceStep(states, steps, n, i, cal);
    hide Run, Acted, Possible, Moved;
    OnlyOne(states[n], i, JoinCommit(k), cal);
    MovedSession(states[n], i, JoinCommit(k), cal);
    MovedChallenge(states[n], i, JoinCommit(k), cal);
    JoiningSince(states, steps, n, cal, i, k);
  }
}
