/** The promises of the room protocol, for every run of the cluster. */
module ClusterTheorems {
  import opened Types
  import opened Day
  import opened Cluster
  import opened ClusterFanOut
  import opened ClusterSafety

  /** State `n` of a run, at a calendar that tiles time. */
  ghost predicate Reached(states: seq<State>, steps: seq<Step>, n: nat, cal: Calendar, from: int) {
    n <= |steps| && Run(states, steps, cal) && Tiles(cal, from) && from <= states[0].now
  }

  lemma SameInstances(states: seq<State>, steps: seq<Step>, n: nat, cal: Calendar)
    requires Run(states, steps, cal) && n < |steps|
    ensures Enabled(states[n], steps[n], cal) && states[n + 1] == After(states[n], steps[n], cal)
    ensures |states[n + 1].instances| == |states[n].instances|
  {
    hide Acted, Possible;
  }

  /** What step `n` does to instance `i`: nothing, unless it is a step of that instance. */
  lemma InstanceStep(states: seq<State>, steps: seq<Step>, n: nat, i: nat, cal: Calendar)
    requires Run(states, steps, cal) && n < |steps| && i < |states[n].instances|
    ensures i < |states[n + 1].instances|
    ensures steps[n].At? && steps[n].i == i ==>
              && Possible(states[n], i, steps[n].act, cal)
              && states[n + 1].instances[i] == Acted(states[n], i, steps[n].act, cal)
    ensures !(steps[n].At? && steps[n].i == i) ==> states[n + 1].instances[i] == states[n].instances[i]
  {
    assert Enabled(states[n], steps[n], cal) && states[n + 1] == After(states[n], steps[n], cal);
    hide Possible, Acted;
  }

  // ----- Fan-out -----

  lemma {:induction false} ExpectedMeaning(fates: seq<Fate>, k: Key, j: nat)
    ensures j in Expected(fates, k) <==> j < |fates| && Eligible(fates[j], k)
    ensures forall a, b :: 0 <= a < b < |Expected(fates, k)| ==> Expected(fates, k)[a] < Expected(fates, k)[b]
    ensures forall a :: 0 <= a < |Expected(fates, k)| ==> Expected(fates, k)[a] < |fates|
  {
    if fates != [] { ExpectedMeaning(fates[..|fates| - 1], k, j); }
  }

  /** Exactly-once fan-out: what an open connection has received is, in bus order and without repeats,
      exactly the delivered events that were broadcasts for it at their flush. */
  lemma FanOutExactlyOnce(states: seq<State>, steps: seq<Step>, n: nat, cal: Calendar, from: int, i: nat, k: Key)
    requires Reached(states, steps, n, cal, from) && i < |states[n].instances| && k in states[n].instances[i].conns
    requires states[n].instances[i].conns[k].open
    ensures var inst, received := states[n].instances[i], states[n].instances[i].conns[k].received;
            && |inst.fates| <= |states[n].bus|
            && (forall j :: 0 <= j < |inst.fates| ==> inst.fates[j].event == states[n].bus[j])
            && (forall a, b :: 0 <= a < b < |received| ==> received[a] < received[b])
            && forall j: nat :: j in received <==> j < |inst.fates| && Eligible(inst.fates[j], k)
  {
    RunKeeps(states, steps, n, cal, from);
    var inst := states[n].instances[i];
    assert InstanceInv(inst, states[n], cal, from);
    assert Right(inst.conns[k], inst.fates, k);
    hide Run, Inv, Expected, Eligible, InstanceInv;
    ExpectedMeaning(inst.fates, k, 0);
    forall j: nat
      ensures j in Expected(inst.fates, k) <==> j < |inst.fates| && Eligible(inst.fates[j], k)
    {
      ExpectedMeaning(inst.fates, k, j);
    }
  }

  /** An event that waits has a flush coming; once dropped or flushed, that is final. */
  lemma {:induction false} FateIsFinal(states: seq<State>, steps: seq<Step>, m: nat, n: nat, cal: Calendar, from: int,
                                       i: nat, j: nat)
    requires Reached(states, steps, n, cal, from) && m <= n && i < |states[m].instances|
             && j < |states[m].instances[i].fates|
    ensures i < |states[n].instances| && j < |states[n].instances[i].fates|
    ensures states[n].instances[i].fates[j].Waiting? ==> states[n].instances[i].flushScheduled
    ensures !states[m].instances[i].fates[j].Waiting? ==>
            states[n].instances[i].fates[j] == states[m].instances[i].fates[j]
    decreases n
  {
    hide Started, Enabled, After, Inv, Acted, Possible;
    RunKeeps(states, steps, n, cal, from);
    if m < n {
      FateIsFinal(states, steps, m, n - 1, cal, from, i, j);
      InstanceStep(states, steps, n - 1, i, cal);
      if steps[n - 1].At? && steps[n - 1].i == i { ActKeepsFate(states[n - 1], i, steps[n - 1].act, cal, j); }
    }
    if states[n].instances[i].fates[j].Waiting? { WaitsForFlush(states[n], cal, from, i, j); }
  }

  lemma WaitsForFlush(s: State, cal: Calendar, from: int, i: nat, j: nat)
    requires Inv(s, cal, from) && i < |s.instances| && j < |s.instances[i].fates| && s.instances[i].fates[j].Waiting?
    ensures s.instances[i].flushScheduled
  {
    assert InstanceInv(s.instances[i], s, cal, from);
    SomeWaiting(s.instances[i].fates, j);
  }

  lemma {:induction false} SomeWaiting(fates: seq<Fate>, j: nat)
    requires j < |fates| && fates[j].Waiting?
    ensures WaitingOf(fates) != []
  {
    if j < |fates| - 1 { SomeWaiting(fates[..|fates| - 1], j); }
  }

  /** What becomes of the delivered events. */
  lemma TurnedFates(s: State, i: nat, act: Act, cal: Calendar)
    requires i < |s.instances| && Possible(s, i, act, cal) && !OfConnection(act)
    ensures var inst, next := s.instances[i], Turned(s, i, act, cal);
            && (act.Flush? ==> next.fates == Settled(inst.fates, inst.room.roomId, Members(inst.conns)))
            && (act.Deliver? ==> exists f: Fate :: !f.Flushed? && next.fates == inst.fates + [f])
            && (!act.Flush? && !act.Deliver? ==> next.fates == inst.fates)
  {
    hide Snapshot, BatchEnd, Free, Claimed, Chosen, Members, Settled, Served, Carrying;
    if act.Deliver? {
      var inst, e := s.instances[i], s.bus[|s.instances[i].fates|];
      assert Turned(s, i, act, cal).fates
             == inst.fates + [if e.roomId != inst.room.roomId then Dropped(e) else Waiting(e)];
    }
  }

  lemma ActKeepsFate(s: State, i: nat, act: Act, cal: Calendar, j: nat)
    requires i < |s.instances| && Possible(s, i, act, cal) && j < |s.instances[i].fates|
    ensures j < |Acted(s, i, act, cal).fates|
    ensures !s.instances[i].fates[j].Waiting? ==> Acted(s, i, act, cal).fates[j] == s.instances[i].fates[j]
  {
    var inst := s.instances[i];
    hide Possible, Acted, Moved, Turned, Settled;
    if OfConnection(act) {
      OnlyOne(s, i, act, cal);
    } else {
      TurnedKeeps(s, i, act, cal);
      TurnedFates(s, i, act, cal);
      if act.Flush? { SettledAt(inst.fates, inst.room.roomId, Members(inst.conns), j); }
    }
  }

  // ----- Rooms and rollovers -----

  /** The room of an instance only moves forward. */
  lemma {:induction false} RoomsMoveForward(states: seq<State>, steps: seq<Step>, m: nat, n: nat, cal: Calendar,
                                            from: int, i: nat)
    requires Reached(states, steps, n, cal, from) && m <= n && i < |states[m].instances|
    ensures i < |states[n].instances| && states[m].instances[i].room.day <= states[n].instances[i].room.day
    ensures states[m].instances[i].room.day == states[n].instances[i].room.day ==>
            states[m].instances[i].room == states[n].instances[i].room
    decreases n
  {
    hide Started, Enabled, After, Inv, Acted, Possible, Tiles;
    if m < n {
      RoomsMoveForward(states, steps, m, n - 1, cal, from, i);
      InstanceStep(states, steps, n - 1, i, cal);
      if steps[n - 1].At? && steps[n - 1].i == i {
        RunKeeps(states, steps, n - 1, cal, from);
        RoomGoesForward(states[n - 1], i, steps[n - 1].act, cal, from);
      }
    }
  }

  lemma RoomGoesForward(s: State, i: nat, act: Act, cal: Calendar, from: int)
    requires i < |s.instances| && Possible(s, i, act, cal) && Tiles(cal, from) && Inv(s, cal, from)
    ensures Acted(s, i, act, cal).room == s.instances[i].room
            || s.instances[i].room.day < Acted(s, i, act, cal).room.day
  {
    assert InstanceInv(s.instances[i], s, cal, from);
    ActKeepsRoom(s, i, act, cal, from);
    if act.CheckRoom? { SwitchGoesForward(s.instances[i], s, cal, from); }
    hide Inv, StoreInv, InstanceInv, FanOutInv, RollInv, StampInv, Tiles;
  }

  lemma {:induction false} RollingUntilEnd(states: seq<State>, steps: seq<Step>, m: nat, n: nat, cal: Calendar, i: nat)
    requires Run(states, steps, cal) && m < n <= |steps| && i < |states[m].instances| && steps[m] == At(i, CheckRoom)
    requires forall l :: m < l < n ==> steps[l] != At(i, RollEnd)
    ensures i < |states[n].instances| && !states[n].instances[i].roll.Still?
    decreases n
  {
    hide Started, Enabled, After, Acted, Possible;
    if m < n - 1 { RollingUntilEnd(states, steps, m, n - 1, cal, i); }
    InstanceStep(states, steps, n - 1, i, cal);
    if steps[n - 1].At? && steps[n - 1].i == i { ActKeepsRolling(states[n - 1], i, steps[n - 1].act, cal); }
  }

  lemma ActKeepsRolling(s: State, i: nat, act: Act, cal: Calendar)
    requires i < |s.instances| && Possible(s, i, act, cal) && !act.RollEnd?
    ensures act.CheckRoom? || !s.instances[i].roll.Still? ==> !Acted(s, i, act, cal).roll.Still?
  {
    hide Possible, Acted, Moved, Turned, Snapshot, Free;
    if OfConnection(act) {
      OnlyOne(s, i, act, cal);
    } else {
      TurnedKeeps(s, i, act, cal);
      TurnedRoll(s, i, act, cal);
      if act.LockReply? || act.CleanupDone? || act.CleanupFail? { TurnedSnapshot(s, i, act, cal); }
    }
  }

  /** An instance has at most one rollover in flight: it does not switch again before the last one has ended. */
  lemma OneRolloverAtATime(states: seq<State>, steps: seq<Step>, m: nat, n: nat, cal: Calendar, i: nat)
    requires Run(states, steps, cal) && m < n < |steps| && i < |states[m].instances|
    requires steps[m] == At(i, CheckRoom) && steps[n] == At(i, CheckRoom)
    ensures exists l :: m < l < n && steps[l] == At(i, RollEnd)
  {
    if forall l :: m < l < n ==> steps[l] != At(i, RollEnd) {
      RollingUntilEnd(states, steps, m, n, cal, i);
      InstanceStep(states, steps, n, i, cal);
    }
  }

  /** The list a rollover works through is every connection that was joined when it was made. */
  lemma {:induction false} LiveIsSnapshot(states: seq<State>, steps: seq<Step>, n: nat, cal: Calendar, i: nat)
    requires Run(states, steps, cal) && n <= |steps| && i < |states[n].instances|
             && states[n].instances[i].roll.Batching?
    ensures exists m :: 0 <= m < n && SnapshotAt(states, m, i, states[n].instances[i])
  {
    hide Started, Enabled, After, Acted, Possible, Snapshot;
    if n == 0 {
      StartsStill(states, steps, cal, i);
    } else {
      SameInstances(states, steps, n - 1, cal);
      InstanceStep(states, steps, n - 1, i, cal);
      if steps[n - 1].At? && steps[n - 1].i == i { ActBatches(states[n - 1], i, steps[n - 1].act, cal); }
      if states[n - 1].instances[i].roll.Batching? {
        LiveIsSnapshot(states, steps, n - 1, cal, i);
        var m :| 0 <= m < n - 1 && SnapshotAt(states, m, i, states[n - 1].instances[i]);
        assert SnapshotAt(states, m, i, states[n].instances[i]);
      } else {
        assert SnapshotAt(states, n - 1, i, states[n].instances[i]);
      }
    }
  }

  lemma ActBatches(s: State, i: nat, act: Act, cal: Calendar)
    requires i < |s.instances| && Possible(s, i, act, cal) && Acted(s, i, act, cal).roll.Batching?
    ensures var inst, next := s.instances[i], Acted(s, i, act, cal);
            && next.room == inst.room
            && (if inst.roll.Batching? then next.roll.live == inst.roll.live && next.roll.known == inst.roll.known
                else Snapshot(next.roll.live, inst.conns) && next.roll.known == s.sids)
  {
    hide Possible, Acted, Moved, Turned, Snapshot, Free;
    if OfConnection(act) {
      OnlyOne(s, i, act, cal);
    } else {
      TurnedKeeps(s, i, act, cal);
      TurnedRoll(s, i, act, cal);
      if act.LockReply? || act.CleanupDone? || act.CleanupFail? { TurnedSnapshot(s, i, act, cal); }
    }
  }

  lemma StartsStill(states: seq<State>, steps: seq<Step>, cal: Calendar, i: nat)
    requires Run(states, steps, cal) && i < |states[0].instances|
    ensures states[0].instances[i].roll.Still?
  {
  }

  ghost predicate SnapshotAt(states: seq<State>, m: nat, i: nat, inst: Instance) {
    && m < |states| && i < |states[m].instances| && inst.roll.Batching?
    && inst.room == states[m].instances[i].room && inst.roll.known == states[m].sids
    && Snapshot(inst.roll.live, states[m].instances[i].conns)
  }

  /** When a rollover ends, every connection that was joined at its snapshot is closed, closing, or holds a
      record of the new room that did not exist at the snapshot: the batches miss none. */
  lemma RolloverMissesNone(states: seq<State>, steps: seq<Step>, n: nat, cal: Calendar, from: int, i: nat)
    requires Reached(states, steps, n, cal, from) && n < |steps| && i < |states[n].instances|
             && steps[n] == At(i, RollEnd)
    ensures i < |states[n + 1].instances|
    ensures exists m :: 0 <= m < n && m < |states| && i < |states[m].instances| &&
              var before, after := states[m].instances[i], states[n + 1].instances[i];
              && before.room == after.room
              && forall k <- JoinedKeys(before.conns) ::
                 k in after.conns && Renewed(after.conns[k], after.room.roomId, states[m].sids)
  {
    InstanceStep(states, steps, n, i, cal);
    RunKeeps(states, steps, n, cal, from);
    LiveIsSnapshot(states, steps, n, cal, i);
    var inst := states[n].instances[i];
    var m :| 0 <= m < n && SnapshotAt(states, m, i, inst);
    hide Run, Tiles;
    AllRenewed(states[n], cal, from, i);
    hide Inv, Renewed;
    assert states[n + 1].instances[i].conns == inst.conns && states[n + 1].instances[i].room == inst.room;
    assert forall k <- JoinedKeys(states[m].instances[i].conns) :: k in inst.roll.live;
  }

  lemma RollFor(s: State, cal: Calendar, from: int, i: nat)
    requires Inv(s, cal, from) && i < |s.instances|
    ensures RollInv(s.instances[i], s.sids)
  {
    assert InstanceInv(s.instances[i], s, cal, from);
    hide StoreInv, LockInv, RoomInv, FanOutInv, RollInv, StampInv, CountInv, CurrentInv, EndedInv, ChallengeInv,
      KnownInv;
  }

  lemma AtTheEnd(s: State, i: nat, cal: Calendar)
    requires i < |s.instances| && Possible(s, i, RollEnd, cal)
    ensures var roll := s.instances[i].roll; roll.Batching? && roll.waiting == {} && roll.begun == |roll.live|
  {
  }

  lemma AllRenewed(s: State, cal: Calendar, from: int, i: nat)
    requires Inv(s, cal, from) && i < |s.instances| && Possible(s, i, RollEnd, cal)
    ensures var inst := s.instances[i];
            forall k <- inst.roll.live :: k in inst.conns && Renewed(inst.conns[k], inst.room.roomId, inst.roll.known)
  {
    var inst := s.instances[i];
    RollFor(s, cal, from, i);
    AtTheEnd(s, i, cal);
    hide Inv, Possible, Renewed;
  }

  /** Between rollovers, an open, joined connection holds a session of the current room, exactly unless its join
      was committed with a session of another room after the snapshot. */
  lemma SessionsAreCurrent(states: seq<State>, steps: seq<Step>, n: nat, cal: Calendar, from: int, i: nat, k: Key)
    requires Reached(states, steps, n, cal, from) && i < |states[n].instances| && states[n].instances[i].roll.Still?
    requires var conns := states[n].instances[i].conns; k in conns && conns[k].joined && conns[k].open
    ensures var inst, c := states[n].instances[i], states[n].instances[i].conns[k];
            c.rec.Some? && (c.rec.value.roomId == inst.room.roomId <==> !c.missed)
  {
    RunKeeps(states, steps, n, cal, from);
    assert InstanceInv(states[n].instances[i], states[n], cal, from);
    hide Run, FanOutInv, RollInv, StampInv, CountInv;
    assert Current(states[n].instances[i].conns[k], states[n].instances[i], k);
  }

  /** At most one instance cleans a given old room within the lock's life. */
  lemma CleanedOnce(states: seq<State>, steps: seq<Step>, n: nat, cal: Calendar, from: int, a: nat, b: nat)
    requires Reached(states, steps, n, cal, from) && a < b < |states[n].cleanups|
    requires states[n].cleanups[a].room.roomId == states[n].cleanups[b].room.roomId
    ensures states[n].cleanups[a].at + LOCK_MS <= states[n].cleanups[b].at
  {
    RunKeeps(states, steps, n, cal, from);
  }

  /** An old room is cleaned only after it has ended. */
  lemma CleanedAfterEnd(states: seq<State>, steps: seq<Step>, n: nat, cal: Calendar, from: int, a: nat)
    requires Reached(states, steps, n, cal, from) && a < |states[n].cleanups|
    ensures states[n].cleanups[a].room.endsAt <= states[n].cleanups[a].at
            && IsRoom(states[n].cleanups[a].room, cal, from)
  {
    RunKeeps(states, steps, n, cal, from);
  }

  // ----- Joining -----

  lemma {:induction false} OnlyGrows(states: seq<State>, steps: seq<Step>, h: nat, n: nat, cal: Calendar, i: nat,
                                     k: Key)
    requires Run(states, steps, cal) && h <= n <= |steps| && i < |states[h].instances|
    requires k in states[h].instances[i].conns && states[h].instances[i].conns[k].joined
    ensures i < |states[n].instances| && k in states[n].instances[i].conns && states[n].instances[i].conns[k].joined
    ensures states[n].instances[i].conns[k].open ==> states[h].instances[i].conns[k].open
    ensures states[h].bus <= states[n].bus
    decreases n
  {
    hide Started, Enabled, After, Acted, Possible;
    if h < n {
      OnlyGrows(states, steps, h, n - 1, cal, i, k);
      InstanceStep(states, steps, n - 1, i, cal);
      SameInstances(states, steps, n - 1, cal);
      StepGrows(states[n - 1], steps[n - 1], cal);
      if steps[n - 1].At? && steps[n - 1].i == i { ActKeepsJoined(states[n - 1], i, steps[n - 1].act, cal, k); }
    }
  }

  lemma ActKeepsJoined(s: State, i: nat, act: Act, cal: Calendar, k: Key)
    requires i < |s.instances| && Possible(s, i, act, cal) && k in s.instances[i].conns
             && s.instances[i].conns[k].joined
    ensures var conns := Acted(s, i, act, cal).conns;
            k in conns && conns[k].joined && (conns[k].open ==> s.instances[i].conns[k].open)
  {
    hide Possible, Acted, Moved, Turned;
    if OfConnection(act) {
      OnlyOne(s, i, act, cal);
      if !act.Accept? {
        MovedKeeps(s, i, act, cal);
        MovedSession(s, i, act, cal);
      }
    } else {
      TurnedKeeps(s, i, act, cal);
      TurnedAlike(s, i, act, cal);
    }
  }

  /** Every flush after a connection has joined counts it among its members, as long as it is open. */
  lemma {:induction false} MembersSince(states: seq<State>, steps: seq<Step>, h: nat, n: nat, cal: Calendar,
                                        from: int, i: nat, k: Key, j: nat)
    requires Reached(states, steps, n, cal, from) && h <= n && i < |states[h].instances| && i < |states[n].instances|
    requires k in states[h].instances[i].conns && states[h].instances[i].conns[k].joined
             && |states[h].instances[i].fates| <= j
    requires k in states[n].instances[i].conns && states[n].instances[i].conns[k].open
    requires j < |states[n].instances[i].fates| && states[n].instances[i].fates[j].Flushed?
    ensures k in states[n].instances[i].fates[j].members
    decreases n
  {
    hide Started, Enabled, After, Acted, Possible, Inv, Tiles;
    if h < n {
      OnlyGrows(states, steps, h, n - 1, cal, i, k);
      OnlyGrows(states, steps, n - 1, n, cal, i, k);
      InstanceStep(states, steps, n - 1, i, cal);
      var before := states[n - 1].instances[i];
      RunKeeps(states, steps, n - 1, cal, from);
      if steps[n - 1].At? && steps[n - 1].i == i { FlushedNow(states[n - 1], i, steps[n - 1].act, cal, from, k, j); }
      if j < |before.fates| && before.fates[j].Flushed? {
        MembersSince(states, steps, h, n - 1, cal, from, i, k, j);
        FateIsFinal(states, steps, n - 1, n, cal, from, i, j);
      }
    }
  }

  lemma CurrentFor(s: State, cal: Calendar, from: int, i: nat, k: Key)
    requires Inv(s, cal, from) && i < |s.instances| && k in s.instances[i].conns
    ensures Current(s.instances[i].conns[k], s.instances[i], k) && Challenged(s.instances[i].conns[k])
  {
    assert InstanceInv(s.instances[i], s, cal, from);
    hide StoreInv, LockInv, RoomInv, FanOutInv, RollInv, StampInv, CountInv, EndedInv, KnownInv, Current, Challenged;
  }

  lemma FlushedNow(s: State, i: nat, act: Act, cal: Calendar, from: int, k: Key, j: nat)
    requires i < |s.instances| && Possible(s, i, act, cal) && Inv(s, cal, from)
    requires k in s.instances[i].conns && s.instances[i].conns[k].joined && s.instances[i].conns[k].open
    requires j < |Acted(s, i, act, cal).fates| && Acted(s, i, act, cal).fates[j].Flushed?
    ensures (j < |s.instances[i].fates| && s.instances[i].fates[j].Flushed?)
            || k in Acted(s, i, act, cal).fates[j].members
  {
    var inst := s.instances[i];
    assert Current(inst.conns[k], inst, k) by { CurrentFor(s, cal, from, i, k); }
    hide Inv, Possible, Acted, Moved, Turned, Settled;
    if OfConnection(act) {
      OnlyOne(s, i, act, cal);
    } else {
      TurnedKeeps(s, i, act, cal);
      TurnedFates(s, i, act, cal);
      if act.Flush? { SettledAt(inst.fates, inst.room.roomId, Members(inst.conns), j); }
    }
  }

  /** Joining leaves no gap: of the messages of the day, those appended before the history was read are in the
      history, and every broadcast of a later one counts the connection among its members. */
  lemma JoiningIsGapFree(states: seq<State>, steps: seq<Step>, h: nat, n: nat, cal: Calendar, from: int, i: nat,
                         k: Key, j: nat)
    requires Reached(states, steps, n, cal, from) && h <= n && i < |states[h].instances| && i < |states[n].instances|
    requires k in states[h].instances[i].conns && states[h].instances[i].conns[k].joined
    requires k in states[n].instances[i].conns && states[n].instances[i].conns[k].open
    requires j < |states[n].instances[i].fates| && states[n].instances[i].fates[j].Flushed?
    ensures var f := states[n].instances[i].fates[j];
            f.event.entry < |states[h].entries| ||
            (k in f.members && (Eligible(f, k) <==> f.event.roomId == f.roomId == f.members[k] && f.event.exclude != k))
  {
    hide Started, Enabled, After, Inv, Tiles;
    RunKeeps(states, steps, h, cal, from);
    RunKeeps(states, steps, n, cal, from);
    OnlyGrows(states, steps, h, n, cal, i, k);
    OnTheBus(states[h], cal, from, i);
    OnTheBus(states[n], cal, from, i);
    if |states[h].instances[i].fates| <= j { MembersSince(states, steps, h, n, cal, from, i, k, j); }
  }

  lemma OnTheBus(s: State, cal: Calendar, from: int, i: nat)
    requires Inv(s, cal, from) && i < |s.instances|
    ensures |s.instances[i].fates| <= |s.bus|
    ensures forall j :: 0 <= j < |s.instances[i].fates| ==> s.instances[i].fates[j].event == s.bus[j]
    ensures forall j :: 0 <= j < |s.bus| ==> s.bus[j].entry < |s.entries|
  {
    assert InstanceInv(s.instances[i], s, cal, from);
    hide RollInv, StampInv, CountInv, CurrentInv;
  }

  // ----- Challenges -----

  /** When a new record takes over, the pending challenge is kept exactly if the old record's has changed an even
      number of times while it was awaited. */
  lemma PendingSurvivesExactly(states: seq<State>, steps: seq<Step>, n: nat, cal: Calendar, from: int, i: nat, k: Key,
                               name: string, sid: nat)
    requires Reached(states, steps, n, cal, from) && n < |steps| && i < |states[n].instances|
             && steps[n] == At(i, ConnRolled(k, name, sid))
    requires k in states[n].instances[i].conns && !states[n].instances[i].conns[k].closed
    ensures i < |states[n + 1].instances| && k in states[n + 1].instances[i].conns
    ensures states[n + 1].instances[i].conns[k].pending == states[n].instances[i].conns[k].pending <==>
            states[n].instances[i].conns[k].flips % 2 == 0
  {
    RunKeeps(states, steps, n, cal, from);
    InstanceStep(states, steps, n, i, cal);
    hide Run, Tiles;
    RolledPending(states[n], i, steps[n].act, cal, from);
  }

  lemma CarriedEvenly(c: Conn)
    requires Challenged(c) && c.carry.Some?
    ensures c.pending == c.carry.value <==> c.flips % 2 == 0
  {
  }

  lemma RolledPending(s: State, i: nat, act: Act, cal: Calendar, from: int)
    requires i < |s.instances| && Possible(s, i, act, cal) && Inv(s, cal, from) && act.ConnRolled?
    ensures act.k in s.instances[i].conns && act.k in Acted(s, i, act, cal).conns
    ensures !s.instances[i].conns[act.k].closed ==>
              (Acted(s, i, act, cal).conns[act.k].pending == s.instances[i].conns[act.k].pending <==>
               s.instances[i].conns[act.k].flips % 2 == 0)
  {
    var inst := s.instances[i];
    hide Inv, Possible, Acted, Moved, Challenged;
    OnlyOne(s, i, act, cal);
    MovedChallenge(s, i, act, cal);
    CurrentFor(s, cal, from, i, act.k);
    CarriedEvenly(inst.conns[act.k]);
  }

  /** Does step `l` change the pending challenge of the record in use? */
  ghost predicate Flips(states: seq<State>, steps: seq<Step>, l: nat, i: nat, k: Key)
    requires l < |steps| && |states| == |steps| + 1 && i < |states[l].instances| && k in states[l].instances[i].conns
    requires i < |states[l + 1].instances| && k in states[l + 1].instances[i].conns
  {
    && (steps[l] == At(i, Issue(k)) || steps[l] == At(i, ResponsePass(k)))
    && states[l].instances[i].conns[k].pending != states[l + 1].instances[i].conns[k].pending
  }

  /** `flips` counts the issues and the passes since the rollover of the connection began. */
  lemma FlipsCount(states: seq<State>, steps: seq<Step>, n: nat, cal: Calendar, from: int, i: nat, k: Key)
    requires Reached(states, steps, n, cal, from) && n < |steps| && i < |states[n].instances|
             && k in states[n].instances[i].conns
    requires steps[n] != At(i, BatchStart)
    ensures i < |states[n + 1].instances| && k in states[n + 1].instances[i].conns
    ensures var c, d := states[n].instances[i].conns[k], states[n + 1].instances[i].conns[k];
            && (c.carry.Some? ==> d.flips == c.flips + if Flips(states, steps, n, i, k) then 1 else 0)
            && (d.carry.Some? ==> d.carry == c.carry)
  {
    RunKeeps(states, steps, n, cal, from);
    InstanceStep(states, steps, n, i, cal);
    hide Run, Tiles;
    if steps[n].At? && steps[n].i == i { ActFlips(states[n], i, steps[n].act, cal, from, k); }
  }

  lemma TurnedFlips(s: State, i: nat, act: Act, cal: Calendar, k: Key)
    requires i < |s.instances| && Possible(s, i, act, cal) && !OfConnection(act) && act != BatchStart
             && k in s.instances[i].conns
    ensures k in Acted(s, i, act, cal).conns
    ensures var c, d := s.instances[i].conns[k], Acted(s, i, act, cal).conns[k];
            d.pending == c.pending && d.flips == c.flips && d.carry == c.carry
  {
    hide Possible, Acted, Turned, Alike;
    TurnedKeeps(s, i, act, cal);
    TurnedAlike(s, i, act, cal);
    AlikePending(s.instances[i].conns[k], Turned(s, i, act, cal).conns[k]);
  }

  lemma ConnFlips(s: State, i: nat, act: Act, cal: Calendar, k: Key)
    requires i < |s.instances| && Possible(s, i, act, cal) && OfConnection(act) && k in s.instances[i].conns
    requires Challenged(s.instances[i].conns[k])
    ensures k in Acted(s, i, act, cal).conns
    ensures var c, d := s.instances[i].conns[k], Acted(s, i, act, cal).conns[k];
            && (c.carry.Some? ==>
                  d.flips
                  == c.flips + if (act == Issue(k) || act == ResponsePass(k)) && c.pending != d.pending then 1 else 0)
            && (d.carry.Some? ==> d.carry == c.carry)
  {
    hide Possible, Acted, Moved, Challenged;
    OnlyOne(s, i, act, cal);
    if act.k == k { MovedFlips(s, i, act, cal); }
  }

  lemma ActFlips(s: State, i: nat, act: Act, cal: Calendar, from: int, k: Key)
    requires i < |s.instances| && Possible(s, i, act, cal) && Inv(s, cal, from) && k in s.instances[i].conns
             && act != BatchStart
    ensures k in Acted(s, i, act, cal).conns
    ensures var c, d := s.instances[i].conns[k], Acted(s, i, act, cal).conns[k];
            && (c.carry.Some? ==>
                  d.flips
                  == c.flips + if (act == Issue(k) || act == ResponsePass(k)) && c.pending != d.pending then 1 else 0)
            && (d.carry.Some? ==> d.carry == c.carry)
  {
    hide Inv, Possible, Acted, Moved, Turned, Current, Challenged;
    if OfConnection(act) {
      CurrentFor(s, cal, from, i, k);
      ConnFlips(s, i, act, cal, k);
    } else {
      TurnedFlips(s, i, act, cal, k);
    }
  }

  lemma MovedFlips(s: State, i: nat, act: Act, cal: Calendar)
    requires i < |s.instances| && Possible(s, i, act, cal) && OfConnection(act) && !act.Accept?
    requires act.k in s.instances[i].conns && Challenged(s.instances[i].conns[act.k])
    ensures var c, d := s.instances[i].conns[act.k], Moved(s, i, act, cal);
            && (c.carry.Some? ==>
                d.flips == c.flips + if (act.Issue? || act.ResponsePass?) && c.pending != d.pending then 1 else 0)
            && (d.carry.Some? ==> d.carry == c.carry)
  {
    hide Possible, Moved, Even;
    MovedChallenge(s, i, act, cal);
  }

  lemma AlikePending(c: Conn, d: Conn)
    requires Alike(c, d)
    ensures d.pending == c.pending && d.joined == c.joined && d.frame == c.frame
  {
  }

  /** Since a challenge was issued none has been passed, and no new record took over one that changed while it
      was awaited. */
  ghost predicate Unbroken(states: seq<State>, steps: seq<Step>, m: nat, n: nat, i: nat, k: Key)
    requires n <= |steps| && |states| == |steps| + 1
  {
    forall l :: m < l < n ==>
      && steps[l] != At(i, ResponsePass(k))
      && (steps[l].At? && steps[l].i == i && steps[l].act.ConnRolled? && steps[l].act.k == k ==>
            i < |states[l].instances| && k in states[l].instances[i].conns
            && states[l].instances[i].conns[k].flips == 0)
  }

  lemma {:induction false} ChallengeHolds(states: seq<State>, steps: seq<Step>, m: nat, n: nat, cal: Calendar,
                                          from: int, i: nat, k: Key)
    requires Reached(states, steps, n, cal, from) && m < n && i < |states[m].instances| && steps[m] == At(i, Issue(k))
    requires Unbroken(states, steps, m, n, i, k)
    ensures i < |states[n].instances| && k in states[n].instances[i].conns && Held(states[n].instances[i].conns[k])
    decreases n
  {
    hide Started, Enabled, After, Acted, Possible, Inv, Tiles, Held;
    RunKeeps(states, steps, n - 1, cal, from);
    if m < n - 1 { ChallengeHolds(states, steps, m, n - 1, cal, from, i, k); }
    InstanceStep(states, steps, n - 1, i, cal);
    if steps[n - 1].At? && steps[n - 1].i == i { ActHolds(states[n - 1], i, steps[n - 1].act, cal, from, k); }
  }

  ghost predicate Held(c: Conn) {
    c.joined && c.pending && !c.frame.Deciding?
  }

  lemma StillHeld(c: Conn, d: Conn)
    requires Held(c) && Alike(c, d)
    ensures Held(d)
  {
  }

  lemma ActHolds(s: State, i: nat, act: Act, cal: Calendar, from: int, k: Key)
    requires i < |s.instances| && Possible(s, i, act, cal) && Inv(s, cal, from)
    requires act == Issue(k) || (k in s.instances[i].conns && Held(s.instances[i].conns[k]) && act != ResponsePass(k))
    requires act.ConnRolled? && act.k == k ==> k in s.instances[i].conns && s.instances[i].conns[k].flips == 0
    ensures k in Acted(s, i, act, cal).conns && Held(Acted(s, i, act, cal).conns[k])
  {
    hide Inv, Possible, Acted, Moved, Turned, Current, Challenged, Alike, Held;
    if OfConnection(act) {
      OnlyOne(s, i, act, cal);
      if act.Issue? { MovedChallenge(s, i, act, cal); }
      if act.k == k {
        CurrentFor(s, cal, from, i, k);
        MovedHolds(s, i, act, cal);
      }
    } else {
      TurnedKeeps(s, i, act, cal);
      TurnedAlike(s, i, act, cal);
      StillHeld(s.instances[i].conns[k], Turned(s, i, act, cal).conns[k]);
    }
  }

  lemma MovedHolds(s: State, i: nat, act: Act, cal: Calendar)
    requires i < |s.instances| && Possible(s, i, act, cal) && OfConnection(act) && !act.ResponsePass?
    requires act.k in s.instances[i].conns && Challenged(s.instances[i].conns[act.k])
    requires act.Issue? || Held(s.instances[i].conns[act.k])
    requires act.ConnRolled? ==> s.instances[i].conns[act.k].flips == 0
    ensures Held(Moved(s, i, act, cal))
  {
    hide Possible, Acted, Moved, Even;
    OnlyOne(s, i, act, cal);
    NextIsOdd(0);
    MovedWaits(s, i, act, cal);
    MovedSession(s, i, act, cal);
    MovedChallenge(s, i, act, cal);
  }

  /** Once a challenge is issued no send is accepted until a verification passes, midnights included, unless a
      new record took over one whose challenge changed while the new one was awaited. */
  lemma NoneAcceptedUnverified(states: seq<State>, steps: seq<Step>, m: nat, n: nat, cal: Calendar, from: int, i: nat,
                               k: Key)
    requires Reached(states, steps, n, cal, from) && m < n < |steps| && i < |states[m].instances|
    requires steps[m] == At(i, Issue(k)) && steps[n] == At(i, Append(k))
    ensures !Unbroken(states, steps, m, n, i, k)
  {
    if Unbroken(states, steps, m, n, i, k) {
      ChallengeHolds(states, steps, m, n, cal, from, i, k);
      InstanceStep(states, steps, n, i, cal);
    }
  }

  // ----- Stamps -----

  /** A message is well stamped exactly when no switch of its instance fell between the check of its room and
      its acceptance; and it is published under the room it was appended to. */
  lemma StampedExactly(states: seq<State>, steps: seq<Step>, n: nat, cal: Calendar, from: int, e: nat)
    requires Reached(states, steps, n, cal, from) && e < |states[n].entries|
    ensures WellStamped(states[n].entries[e], states[n].claims) <==> !states[n].entries[e].straddled
    ensures forall b :: 0 <= b < |states[n].bus| && states[n].bus[b].entry == e ==>
              states[n].bus[b].roomId == states[n].entries[e].room.roomId
  {
    RunKeeps(states, steps, n, cal, from);
    var entry := states[n].entries[e];
    assert EntryRight(entry, states[n].claims, cal, from);
    assert Tile(entry.room, entry.checked, entry.since, entry.ts);
    hide Run, InstanceInv, LockInv, Claimed;
  }

  /** No instance switches rooms while one of its connections is inside `decide`. */
  ghost predicate NoneStraddles(states: seq<State>, steps: seq<Step>) {
    |states| == |steps| + 1
    && forall n :: 0 <= n < |steps| && steps[n].At? && steps[n].act.CheckRoom? ==> NoneDeciding(states[n], steps[n].i)
  }

  ghost predicate NoneDeciding(s: State, i: nat) {
    i < |s.instances| ==> forall k <- s.instances[i].conns :: !s.instances[i].conns[k].frame.Deciding?
  }

  ghost predicate Unswitched(s: State) {
    && (forall e :: 0 <= e < |s.entries| ==> !s.entries[e].straddled)
    && forall i :: 0 <= i < |s.instances| ==> CurrentFrames(s.instances[i])
  }

  ghost predicate CurrentFrames(inst: Instance) {
    forall k <- inst.conns :: inst.conns[k].frame.Deciding? ==> inst.conns[k].frame.switches == inst.switches
  }

  lemma ActKeepsUnswitched(s: State, i: nat, act: Act, cal: Calendar)
    requires i < |s.instances| && Possible(s, i, act, cal) && CurrentFrames(s.instances[i])
    requires act.CheckRoom? ==> NoneDeciding(s, i)
    ensures CurrentFrames(Acted(s, i, act, cal))
  {
    hide Possible, Acted, Moved, Turned, Alike;
    var inst, next := s.instances[i], Acted(s, i, act, cal);
    if OfConnection(act) {
      OnlyOne(s, i, act, cal);
      if act.Accept? { AcceptIsNew(s, i, act, cal); } else { MovedWaits(s, i, act, cal); }
    } else {
      TurnedKeeps(s, i, act, cal);
      TurnedAlike(s, i, act, cal);
      forall k <- next.conns
        ensures next.conns[k].frame == inst.conns[k].frame
      {
        AlikePending(inst.conns[k], next.conns[k]);
      }
    }
  }

  lemma ActKeepsUnstraddled(s: State, i: nat, act: Act, cal: Calendar)
    requires i < |s.instances| && Possible(s, i, act, cal) && CurrentFrames(s.instances[i])
    requires forall e :: 0 <= e < |s.entries| ==> !s.entries[e].straddled
    ensures forall e :: 0 <= e < |Shared(s, i, act, cal).entries| ==> !Shared(s, i, act, cal).entries[e].straddled
  {
    hide Snapshot, Free, Claimed;
  }

  lemma {:induction false} StaysUnswitched(states: seq<State>, steps: seq<Step>, n: nat, cal: Calendar)
    requires Run(states, steps, cal) && NoneStraddles(states, steps) && n <= |steps|
    ensures Unswitched(states[n])
  {
    hide Possible, Acted, Shared, CurrentFrames, NoneDeciding;
    if n == 0 {
      forall i | 0 <= i < |states[0].instances| ensures CurrentFrames(states[0].instances[i]) {
        NothingCurrent(states[0].instances[i]);
      }
    } else {
      StaysUnswitched(states, steps, n - 1, cal);
      var s, step := states[n - 1], steps[n - 1];
      assert Enabled(s, step, cal) && states[n - 1 + 1] == After(s, step, cal);
      if step.At? {
        ActKeepsUnswitched(s, step.i, step.act, cal);
        ActKeepsUnstraddled(s, step.i, step.act, cal);
      }
    }
  }

  lemma NothingCurrent(inst: Instance)
    requires inst.conns == map[]
    ensures CurrentFrames(inst)
  {
  }

  /** In every run where no switch falls inside the awaits of `decide`, every message appended or published
      under a room has its timestamp in that room and comes from a session of that room. */
  lemma AlwaysWellStamped(states: seq<State>, steps: seq<Step>, n: nat, cal: Calendar, from: int, e: nat)
    requires Reached(states, steps, n, cal, from) && NoneStraddles(states, steps) && e < |states[n].entries|
    ensures WellStamped(states[n].entries[e], states[n].claims)
  {
    hide Run, Tiles, WellStamped, NoneStraddles;
    StampedExactly(states, steps, n, cal, from, e);
    StaysUnswitched(states, steps, n, cal);
  }

  // ----- Counts -----

  /** The joined count is the number of joined connections, exactly when no join was committed late. */
  lemma CountIsExact(states: seq<State>, steps: seq<Step>, n: nat, cal: Calendar, from: int, i: nat)
    requires Reached(states, steps, n, cal, from) && i < |states[n].instances|
    ensures var inst := states[n].instances[i];
            && |JoinedKeys(inst.conns)| <= inst.joinedCount
            && (inst.joinedCount == |JoinedKeys(inst.conns)| <==> inst.lateJoins == 0)
  {
    RunKeeps(states, steps, n, cal, from);
    assert InstanceInv(states[n].instances[i], states[n], cal, from);
  }
}
