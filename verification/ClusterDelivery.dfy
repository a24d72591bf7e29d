/** The way of a message through the cluster: where an event on the bus comes from, what becomes of it when it is
    delivered, and that nothing stands in its way. */
module ClusterDelivery {
  import opened Types
  import opened Day
  import opened Cluster
  import opened ClusterFanOut
  import opened ClusterSafety
  import opened ClusterTheorems
  import ClusterRuns

  /** Is the connection joined, not closed, and in that room? */
  ghost predicate InRoom(conns: map<Key, Conn>, k: Key, roomId: string) {
    && k in conns && conns[k].joined && !conns[k].closed
    && conns[k].rec.Some? && conns[k].rec.value.roomId == roomId
  }

  // ----- One step -----

  /** A delivered event is dropped if and only if it is of another room; any other waits. */
  lemma ActDelivers(s: State, i: nat, cal: Calendar)
    requires i < |s.instances| && Possible(s, i, Deliver, cal)
    ensures var inst, next := s.instances[i], Acted(s, i, Deliver, cal);
            && |inst.fates| < |s.bus|
            && |next.fates| == |inst.fates| + 1 && next.fates[..|inst.fates|] == inst.fates
            && var f := next.fates[|inst.fates|];
               && f.event == s.bus[|inst.fates|] && !f.Flushed?
               && (f.Dropped? <==> f.event.roomId != inst.room.roomId)
               && (f.Waiting? ==> next.flushScheduled)
  {
    hide Free, Claimed, Snapshot, BatchEnd;
  }

  /** A flush serves everything that waits, each event to the connections of the instance's room. */
  lemma ActFlushes(s: State, i: nat, cal: Calendar, j: nat)
    requires i < |s.instances| && Possible(s, i, Flush, cal) && j < |s.instances[i].fates|
    ensures var inst, next := s.instances[i], Acted(s, i, Flush, cal);
            && |next.fates| == |inst.fates| && !next.fates[j].Waiting?
            && (inst.fates[j].Waiting? ==> ServedAs(inst, next.fates[j]) && next.fates[j].event == inst.fates[j].event)
            && (inst.fates[j].Waiting? ==> next.fates[j].Flushed?)
            && (!inst.fates[j].Waiting? ==> next.fates[j] == inst.fates[j])
  {
    var inst := s.instances[i];
    hide Settled, Free, Claimed, Snapshot, BatchEnd;
    SettledAt(inst.fates, inst.room.roomId, Members(inst.conns), j);
  }

  ghost predicate ServedAs(inst: Instance, f: Fate) {
    f.Flushed? && f.roomId == inst.room.roomId
    && forall k :: k in f.members && f.members[k] == f.roomId <==> InRoom(inst.conns, k, f.roomId)
  }

  lemma ActLeavesFates(s: State, i: nat, act: Act, cal: Calendar)
    requires i < |s.instances| && Possible(s, i, act, cal) && !act.Deliver? && !act.Flush?
    ensures Acted(s, i, act, cal).fates == s.instances[i].fates
  {
    hide Possible, Acted, Moved, Turned, Settled;
    if OfConnection(act) { OnlyOne(s, i, act, cal); } else { TurnedKeeps(s, i, act, cal); }
  }

  // ----- From its delivery on -----

  /** The flush at step `p` serves the event number `j`. */
  ghost predicate ServedAt(states: seq<State>, steps: seq<Step>, p: nat, n: nat, i: nat, j: nat)
  {
    && n < |states| && i < |states[n].instances| && j < |states[n].instances[i].fates|
    && p < |steps| < |states| && steps[p] == At(i, Flush) && i < |states[p].instances|
    && ServedAs(states[p].instances[i], states[n].instances[i].fates[j])
  }

  /** A flush is scheduled exactly while something waits for it. */
  lemma {:induction false} ScheduledExactly(states: seq<State>, steps: seq<Step>, n: nat, cal: Calendar, from: int,
                                            i: nat)
    requires Reached(states, steps, n, cal, from) && i < |states[n].instances|
    ensures states[n].instances[i].flushScheduled <==>
            exists j :: 0 <= j < |states[n].instances[i].fates| && states[n].instances[i].fates[j].Waiting?
    decreases n
  {
    RunKeeps(states, steps, n, cal, from);
    var inst := states[n].instances[i];
    if j :| 0 <= j < |inst.fates| && inst.fates[j].Waiting? { WaitsForFlush(states[n], cal, from, i, j); }
    if 0 < n {
      SameInstances(states, steps, n - 1, cal);
      InstanceStep(states, steps, n - 1, i, cal);
      hide Run, Tiles, Inv, Acted, Possible;
      ScheduledExactly(states, steps, n - 1, cal, from, i);
      if steps[n - 1].At? && steps[n - 1].i == i { ActSchedules(states[n - 1], i, steps[n - 1].act, cal); }
    }
  }

  lemma ActSchedules(s: State, i: nat, act: Act, cal: Calendar)
    requires i < |s.instances| && Possible(s, i, act, cal)
    requires s.instances[i].flushScheduled ==>
               exists j :: 0 <= j < |s.instances[i].fates| && s.instances[i].fates[j].Waiting?
    ensures var next := Acted(s, i, act, cal);
            next.flushScheduled ==> exists j :: 0 <= j < |next.fates| && next.fates[j].Waiting?
  {
    var inst, next := s.instances[i], Acted(s, i, act, cal);
    if act.Deliver? {
      ActDelivers(s, i, cal);
      DeliverSchedules(s, i, cal);
      hide Acted, Possible;
      if inst.flushScheduled {
        var j :| 0 <= j < |inst.fates| && inst.fates[j].Waiting?;
        assert next.fates[..|inst.fates|][j] == next.fates[j];
      }
    } else if act.Flush? {
      hide Free, Claimed, Snapshot, BatchEnd, Settled;
    } else {
      ActLeavesFates(s, i, act, cal);
      hide Acted, Possible, Moved, Turned;
      if OfConnection(act) { OnlyOne(s, i, act, cal); } else { TurnedKeeps(s, i, act, cal); }
    }
  }

  lemma DeliverSchedules(s: State, i: nat, cal: Calendar)
    requires i < |s.instances| && Possible(s, i, Deliver, cal)
    ensures var inst, next := s.instances[i], Acted(s, i, Deliver, cal);
            next.flushScheduled <==> inst.flushScheduled || next.fates[|next.fates| - 1].Waiting?
  {
    hide Free, Claimed, Snapshot, BatchEnd;
  }

  /** What was delivered at step `m` was dropped exactly if it was of another room; otherwise it waits for a flush, or
      a flush since has served it. */
  lemma {:induction false} FateOf(states: seq<State>, steps: seq<Step>, m: nat, n: nat, cal: Calendar, from: int,
                                  i: nat)
    requires Reached(states, steps, n, cal, from) && m < n && i < |states[m].instances| && steps[m] == At(i, Deliver)
    ensures i < |states[n].instances| && |states[m].instances[i].fates| < |states[n].instances[i].fates|
    ensures var j := |states[m].instances[i].fates|;
            var f := states[n].instances[i].fates[j];
            && j < |states[m].bus| && f.event == states[m].bus[j]
            && (f.Dropped? <==> f.event.roomId != states[m].instances[i].room.roomId)
            && (f.Flushed? ==> exists p :: m < p < n && ServedAt(states, steps, p, n, i, j))
    decreases n
  {
    hide Started, Enabled, After, Acted, Possible, Tiles, ServedAs;
    var j := |states[m].instances[i].fates|;
    InstanceStep(states, steps, n - 1, i, cal) by {
      if m < n - 1 { FateOf(states, steps, m, n - 1, cal, from, i); }
    }
    if m == n - 1 {
      ActDelivers(states[m], i, cal);
    } else {
      FateOf(states, steps, m, n - 1, cal, from, i);
      FateMoves(states, steps, n - 1, cal, i, j);
      var f := states[n - 1].instances[i].fates[j];
      if f.Flushed? {
        var p :| m < p < n - 1 && ServedAt(states, steps, p, n - 1, i, j);
        assert ServedAt(states, steps, p, n, i, j);
      } else if states[n].instances[i].fates[j].Flushed? {
        assert ServedAt(states, steps, n - 1, n, i, j);
      }
    }
  }

  /** The next step leaves a fate alone unless it is the flush that serves it. */
  lemma FateMoves(states: seq<State>, steps: seq<Step>, n: nat, cal: Calendar, i: nat, j: nat)
    requires Run(states, steps, cal) && n < |steps| && i < |states[n].instances| && j < |states[n].instances[i].fates|
    ensures i < |states[n + 1].instances| && j < |states[n + 1].instances[i].fates|
    ensures var f, g := states[n].instances[i].fates[j], states[n + 1].instances[i].fates[j];
            if f.Waiting? && steps[n] == At(i, Flush)
            then ServedAs(states[n].instances[i], g) && g.event == f.event && g.Flushed?
            else g == f
  {
    InstanceStep(states, steps, n, i, cal);
    hide Run, Acted, Possible, ServedAs;
    if steps[n].At? && steps[n].i == i {
      var s, act := states[n], steps[n].act;
      if act.Deliver? {
        ActDelivers(s, i, cal);
        assert Acted(s, i, act, cal).fates[..|s.instances[i].fates|][j] == s.instances[i].fates[j];
      } else if act.Flush? {
        ActFlushes(s, i, cal, j);
      } else {
        ActLeavesFates(s, i, act, cal);
      }
    }
  }

  /** So an event reaches an open connection if and only if it was of the instance's room when it was delivered, a
      flush found the instance and the connection still in that room, and the connection is not its sender. It is
      dropped only for its room; until it is served, a flush is coming. */
  lemma DeliveredExactly(states: seq<State>, steps: seq<Step>, m: nat, n: nat, cal: Calendar, from: int, i: nat, k: Key)
    requires Reached(states, steps, n, cal, from) && m < n && i < |states[m].instances| && steps[m] == At(i, Deliver)
    requires i < |states[n].instances| && k in states[n].instances[i].conns && states[n].instances[i].conns[k].open
    ensures var inst, j := states[n].instances[i], |states[m].instances[i].fates|;
            && j < |states[m].bus| && j < |inst.fates|
            && var e, f, received := states[m].bus[j], inst.fates[j], inst.conns[k].received;
               && (f.Dropped? <==> e.roomId != states[m].instances[i].room.roomId)
               && (f.Waiting? ==> inst.flushScheduled)
               && (!f.Flushed? ==> j !in received)
               && (f.Flushed? ==> exists p ::
                     && m < p < n && ServedAt(states, steps, p, n, i, j)
                     && (j in received <==>
                         && e.roomId == states[p].instances[i].room.roomId
                         && InRoom(states[p].instances[i].conns, k, e.roomId) && e.exclude != k))
  {
    assert |states| == |steps| + 1;
    hide Run, Tiles, Acted, Possible, InRoom;
    FateOf(states, steps, m, n, cal, from, i);
    var inst, j := states[n].instances[i], |states[m].instances[i].fates|;
    FateIsFinal(states, steps, n, n, cal, from, i, j);
    FanOutExactlyOnce(states, steps, n, cal, from, i, k);
    var f := inst.fates[j];
    if f.Flushed? {
      var p :| m < p < n && ServedAt(states, steps, p, n, i, j);
      assert k in f.members && f.members[k] == f.roomId <==> InRoom(states[p].instances[i].conns, k, f.roomId);
    }
  }

  // ----- Where events come from -----

  /** A frame that is about to publish has appended the entry, and published nothing since. */
  ghost predicate AppendedAt(states: seq<State>, steps: seq<Step>, a: nat, n: nat, h: nat, k: Key, entry: nat)
  {
    && a < n <= |steps| < |states| && steps[a] == At(h, Append(k)) && |states[a].entries| == entry < |states[n].entries|
    && h < |states[a].instances| && k in states[a].instances[h].conns
    && states[n].entries[entry].room == states[a].instances[h].room
    && states[a].instances[h].conns[k].frame.Deciding?
    && states[n].entries[entry].rec == states[a].instances[h].conns[k].frame.rec
    && forall b :: a < b < n ==> steps[b] != At(h, Append(k)) && steps[b] != At(h, Publish(k))
  }

  lemma {:induction false} FrameAppended(states: seq<State>, steps: seq<Step>, n: nat, cal: Calendar, h: nat, k: Key)
    requires Run(states, steps, cal) && n <= |steps| && h < |states[n].instances|
    requires k in states[n].instances[h].conns && states[n].instances[h].conns[k].frame.Publishing?
    ensures exists a :: 0 <= a < n
                        && AppendedAt(states, steps, a, n, h, k, states[n].instances[h].conns[k].frame.entry)
    decreases n
  {
    hide Enabled, After, Acted, Possible;
    if 0 < n {
      var s, step := states[n - 1], steps[n - 1];
      SameInstances(states, steps, n - 1, cal);
      InstanceStep(states, steps, n - 1, h, cal);
      EntriesGrow(s, step, cal);
      hide Started;
      var frame := states[n].instances[h].conns[k].frame;
      FrameMoves(states, steps, n - 1, cal, h, k);
      if step == At(h, Append(k)) {
        assert AppendedAt(states, steps, n - 1, n, h, k, frame.entry);
      } else {
        FrameAppended(states, steps, n - 1, cal, h, k);
        var a :| 0 <= a < n - 1 && AppendedAt(states, steps, a, n - 1, h, k, frame.entry);
        assert AppendedAt(states, steps, a, n, h, k, frame.entry);
      }
    }
  }

  /** Only an append leaves a frame about to publish, and nothing else lets it stay so but what is not its own. */
  lemma FrameMoves(states: seq<State>, steps: seq<Step>, n: nat, cal: Calendar, h: nat, k: Key)
    requires Run(states, steps, cal) && n < |steps| && h < |states[n + 1].instances| && h < |states[n].instances|
    requires k in states[n + 1].instances[h].conns && states[n + 1].instances[h].conns[k].frame.Publishing?
    ensures k in states[n].instances[h].conns && steps[n] != At(h, Publish(k))
    ensures var c, d := states[n].instances[h].conns[k], states[n + 1].instances[h].conns[k];
            if steps[n] == At(h, Append(k))
            then
              && c.frame.Deciding? && d.frame.entry == |states[n].entries|
              && states[n + 1].entries == states[n].entries + [states[n + 1].entries[d.frame.entry]]
              && states[n + 1].entries[d.frame.entry].room == states[n].instances[h].room
              && states[n + 1].entries[d.frame.entry].rec == c.frame.rec
            else d.frame == c.frame
  {
    InstanceStep(states, steps, n, h, cal);
    hide Run, Acted, Possible;
    if steps[n].At? && steps[n].i == h {
      ActFrame(states[n], h, steps[n].act, cal, k);
      if steps[n].act.Append? { AppendsOne(states, steps, n, h, cal); }
    }
  }

  lemma ActFrame(s: State, h: nat, act: Act, cal: Calendar, k: Key)
    requires h < |s.instances| && Possible(s, h, act, cal)
    requires k in Acted(s, h, act, cal).conns && Acted(s, h, act, cal).conns[k].frame.Publishing?
    ensures k in s.instances[h].conns && act != Publish(k)
    ensures var c, d := s.instances[h].conns[k], Acted(s, h, act, cal).conns[k];
            if act == Append(k) then c.frame.Deciding? && d.frame.entry == |s.entries| else d.frame == c.frame
    ensures act.Append? ==> act.k in s.instances[h].conns && s.instances[h].conns[act.k].frame.Deciding?
  {
    hide Acted, Possible, Moved, Turned, Alike;
    if OfConnection(act) {
      OnlyOne(s, h, act, cal);
      if act.Accept? { AcceptIsNew(s, h, act, cal); } else { MovedWaits(s, h, act, cal); }
    } else {
      TurnedKeeps(s, h, act, cal);
      TurnedAlike(s, h, act, cal);
      assert Alike(s.instances[h].conns[k], Acted(s, h, act, cal).conns[k]);
      AlikeFrames(s.instances[h].conns[k], Acted(s, h, act, cal).conns[k]);
    }
  }

  lemma AlikeFrames(c: Conn, d: Conn)
    requires Alike(c, d)
    ensures d.frame == c.frame
  {
  }

  lemma AppendsOne(states: seq<State>, steps: seq<Step>, n: nat, h: nat, cal: Calendar)
    requires Run(states, steps, cal) && n < |steps| && steps[n].At? && steps[n].i == h && steps[n].act.Append?
    requires h < |states[n].instances| && steps[n].act.k in states[n].instances[h].conns
    requires states[n].instances[h].conns[steps[n].act.k].frame.Deciding?
    ensures |states[n + 1].entries| == |states[n].entries| + 1
            && states[n + 1].entries[..|states[n].entries|] == states[n].entries
    ensures var entry := states[n + 1].entries[|states[n].entries|];
            entry.room == states[n].instances[h].room
            && entry.rec == states[n].instances[h].conns[steps[n].act.k].frame.rec
  {
    assert Enabled(states[n], steps[n], cal) && states[n + 1] == After(states[n], steps[n], cal);
    hide Run, Acted;
  }

  lemma EntriesGrow(s: State, step: Step, cal: Calendar)
    requires Enabled(s, step, cal)
    ensures s.entries <= After(s, step, cal).entries
  {
    hide Acted, Snapshot, Claimed, Free;
  }

  /** The publication at step `p`, of what the same frame had appended, put the event there. */
  ghost predicate PublishedAt(states: seq<State>, steps: seq<Step>, p: nat, n: nat, j: nat)
  {
    && p < |steps| < |states| && n < |states| && j < |states[n].bus| && steps[p].At? && steps[p].act.Publish?
    && |states[p].bus| == j
    && var e := states[n].bus[j];
       && e.exclude == steps[p].act.k && e.entry < |states[n].entries|
       && e.roomId == states[n].entries[e.entry].room.roomId
       && exists a :: 0 <= a < p && AppendedAt(states, steps, a, p, steps[p].i, e.exclude, e.entry)
  }

  /** Every event on the bus is there because a connection published it, after it had appended the message; the event
      names the room that the message was appended to and excludes that connection. */
  lemma {:induction false} EventsArePublished(states: seq<State>, steps: seq<Step>, n: nat, cal: Calendar, j: nat)
    requires Run(states, steps, cal) && n <= |steps| && j < |states[n].bus|
    ensures exists p :: 0 <= p < n && PublishedAt(states, steps, p, n, j)
    decreases n
  {
    hide Enabled, After, AppendedAt;
    if 0 < n {
      SameInstances(states, steps, n - 1, cal);
      BusMoves(states, steps, n - 1, cal);
      EntriesGrow(states[n - 1], steps[n - 1], cal);
      hide Started, Run;
      if j < |states[n - 1].bus| {
        EventsArePublished(states, steps, n - 1, cal, j);
        var p :| 0 <= p < n - 1 && PublishedAt(states, steps, p, n - 1, j);
        assert PublishedAt(states, steps, p, n, j);
      } else {
        var h, k := steps[n - 1].i, steps[n - 1].act.k;
        FrameAppended(states, steps, n - 1, cal, h, k);
        AppendedMeans(states, steps, n - 1, h, k, states[n].bus[j].entry);
        assert PublishedAt(states, steps, n - 1, n, j);
      }
    }
  }

  lemma AppendedMeans(states: seq<State>, steps: seq<Step>, n: nat, h: nat, k: Key, entry: nat)
    requires exists a :: 0 <= a < n && AppendedAt(states, steps, a, n, h, k, entry)
    ensures n < |states| && entry < |states[n].entries|
  {
  }

  lemma BusMoves(states: seq<State>, steps: seq<Step>, n: nat, cal: Calendar)
    requires Run(states, steps, cal) && n < |steps|
    ensures var s, t, step := states[n], states[n + 1], steps[n];
            if step.At? && step.act.Publish?
            then
              && step.i < |s.instances| && step.act.k in s.instances[step.i].conns
              && s.instances[step.i].conns[step.act.k].frame.Publishing?
              && var entry := s.instances[step.i].conns[step.act.k].frame.entry;
                 entry < |s.entries| && t.entries == s.entries
                 && t.bus == s.bus + [Event(s.entries[entry].room.roomId, entry, step.act.k)]
            else t.bus == s.bus
  {
    assert Enabled(states[n], steps[n], cal) && states[n + 1] == After(states[n], steps[n], cal);
    hide Run, Acted, Snapshot, Claimed, Free;
  }

  /** No message is published twice. */
  lemma PublishedOnce(states: seq<State>, steps: seq<Step>, n: nat, cal: Calendar, j: nat, l: nat)
    requires Run(states, steps, cal) && n <= |steps| && j < l < |states[n].bus|
    ensures states[n].bus[j].entry != states[n].bus[l].entry
  {
    assert |states| == |steps| + 1;
    hide Run, AppendedAt;
    EventsArePublished(states, steps, n, cal, j);
    EventsArePublished(states, steps, n, cal, l);
    var p :| 0 <= p < n && PublishedAt(states, steps, p, n, j);
    var q :| 0 <= q < n && PublishedAt(states, steps, q, n, l);
    var e, f := states[n].bus[j], states[n].bus[l];
    if e.entry == f.entry {
      var a :| 0 <= a < p && AppendedAt(states, steps, a, p, steps[p].i, e.exclude, e.entry);
      var b :| 0 <= b < q && AppendedAt(states, steps, b, q, steps[q].i, f.exclude, f.entry);
      OnePublication(states, steps, a, p, b, q, e.entry, n, cal);
    }
  }

  lemma OnePublication(states: seq<State>, steps: seq<Step>, a: nat, p: nat, b: nat, q: nat, entry: nat, n: nat,
                       cal: Calendar)
    requires Run(states, steps, cal) && n <= |steps| && p < n && q < n
    requires steps[p].At? && steps[p].act.Publish? && steps[q].At? && steps[q].act.Publish?
    requires AppendedAt(states, steps, a, p, steps[p].i, steps[p].act.k, entry)
    requires AppendedAt(states, steps, b, q, steps[q].i, steps[q].act.k, entry)
    ensures p == q
  {
    OneAppend(states, steps, a, b, n, cal);
  }

  /** An entry is appended by one step. */
  lemma OneAppend(states: seq<State>, steps: seq<Step>, a: nat, b: nat, n: nat, cal: Calendar)
    requires Run(states, steps, cal) && a < n <= |steps| && b < n
    requires steps[a].At? && steps[a].act.Append? && steps[b].At? && steps[b].act.Append?
    requires |states[a].entries| == |states[b].entries|
    ensures a == b
  {
    if a < b { EntriesGrowTo(states, steps, a, b, cal); }
    if b < a { EntriesGrowTo(states, steps, b, a, cal); }
  }

  lemma {:induction false} EntriesGrowTo(states: seq<State>, steps: seq<Step>, a: nat, b: nat, cal: Calendar)
    requires Run(states, steps, cal) && a < b <= |steps| && steps[a].At? && steps[a].act.Append?
    ensures |states[a].entries| < |states[b].entries|
    decreases b
  {
    assert Enabled(states[b - 1], steps[b - 1], cal) && states[b] == After(states[b - 1], steps[b - 1], cal);
    if a < b - 1 {
      EntriesGrowTo(states, steps, a, b - 1, cal);
      hide Enabled, After, Run;
      EntriesGrow(states[b - 1], steps[b - 1], cal);
    } else {
      hide Acted, Run;
    }
  }

  // ----- Nothing stands in its way -----

  /** Nothing has happened to the instance but deliveries and a flush. */
  ghost predicate OnlyServed(s: State, t: State, i: nat) {
    && i < |s.instances| == |t.instances| && t.bus == s.bus && t.instances[i].room == s.instances[i].room
    && t.instances[i].conns.Keys == s.instances[i].conns.Keys
    && forall k <- s.instances[i].conns ::
         var c, d := s.instances[i].conns[k], t.instances[i].conns[k];
         d.open == c.open && d.joined == c.joined && d.closed == c.closed && d.rec == c.rec
  }

  ghost predicate DeliveredFrom(fates: seq<Fate>, n: nat, roomId: string) {
    forall j :: n <= j < |fates| ==> if fates[j].event.roomId != roomId then fates[j].Dropped? else fates[j].Waiting?
  }

  /** What is on the bus can be delivered. */
  lemma {:induction false} DeliverAll(s: State, i: nat, cal: Calendar) returns (more: seq<Step>, t: State)
    requires i < |s.instances| && FanOutInv(s.instances[i], s.bus)
    ensures ClusterRuns.Leads(s, more, t, cal) && OnlyServed(s, t, i) && FanOutInv(t.instances[i], t.bus)
    ensures t.instances[i].conns == s.instances[i].conns
    ensures s.instances[i].fates <= t.instances[i].fates && |t.instances[i].fates| == |t.bus|
    ensures DeliveredFrom(t.instances[i].fates, |s.instances[i].fates|, t.instances[i].room.roomId)
    decreases |s.bus| - |s.instances[i].fates|
  {
    if |s.instances[i].fates| == |s.bus| {
      more, t := [], s;
    } else {
      var step := At(i, Deliver);
      assert Possible(s, i, Deliver, cal);
      ActDelivers(s, i, cal);
      ActKeepsFanOut(s, i, Deliver, cal);
      var s1 := After(s, step, cal);
      DeliverOnly(s, i, cal);
      hide FanOutInv, Enabled, After, Acted, Possible;
      var rest;
      rest, t := DeliverAll(s1, i, cal);
      more := [step] + rest;
      assert more[1..] == rest;
      FirstOfThem(s, s1, t, i, cal);
    }
  }

  lemma DeliverOnly(s: State, i: nat, cal: Calendar)
    requires i < |s.instances| && Possible(s, i, Deliver, cal)
    ensures Enabled(s, At(i, Deliver), cal)
    ensures var t := After(s, At(i, Deliver), cal);
            && OnlyServed(s, t, i) && t.instances[i].conns == s.instances[i].conns
            && t.instances[i] == Acted(s, i, Deliver, cal) && Shared(s, i, Deliver, cal).bus == t.bus
  {
    hide Free, Claimed, Snapshot, BatchEnd;
  }

  lemma FirstOfThem(s: State, s1: State, t: State, i: nat, cal: Calendar)
    requires OnlyServed(s, s1, i) && OnlyServed(s1, t, i)
    requires var n, roomId := |s.instances[i].fates|, s.instances[i].room.roomId;
             && |s1.instances[i].fates| == n + 1 && s1.instances[i].fates[..n] == s.instances[i].fates
             && s1.instances[i].fates <= t.instances[i].fates && DeliveredFrom(t.instances[i].fates, n + 1, roomId)
             && var f := s1.instances[i].fates[n]; if f.event.roomId != roomId then f.Dropped? else f.Waiting?
    ensures OnlyServed(s, t, i) && s.instances[i].fates <= t.instances[i].fates
    ensures DeliveredFrom(t.instances[i].fates, |s.instances[i].fates|, t.instances[i].room.roomId)
  {
    assert t.instances[i].fates[|s.instances[i].fates|] == s1.instances[i].fates[|s.instances[i].fates|];
  }

  /** And then what waits can be flushed. */
  lemma FlushAll(s: State, i: nat, cal: Calendar) returns (more: seq<Step>, t: State)
    requires i < |s.instances| && FanOutInv(s.instances[i], s.bus)
    ensures ClusterRuns.Leads(s, more, t, cal) && OnlyServed(s, t, i) && FanOutInv(t.instances[i], t.bus)
    ensures |t.instances[i].fates| == |s.instances[i].fates|
    ensures forall j :: 0 <= j < |s.instances[i].fates| ==>
              var f, g := s.instances[i].fates[j], t.instances[i].fates[j];
              !g.Waiting? && g.event == f.event
              && if f.Waiting? then g.Flushed? && ServedAs(s.instances[i], g) else g == f
  {
    if s.instances[i].flushScheduled {
      assert Possible(s, i, Flush, cal);
      t := After(s, At(i, Flush), cal);
      more := [At(i, Flush)];
      ActKeepsFanOut(s, i, Flush, cal);
      FlushOnly(s, i, cal);
      forall j | 0 <= j < |s.instances[i].fates|
        ensures var f, g := s.instances[i].fates[j], t.instances[i].fates[j];
                !g.Waiting? && g.event == f.event
                && if f.Waiting? then g.Flushed? && ServedAs(s.instances[i], g) else g == f
      {
        hide After, Acted, Possible, FanOutInv, ServedAs, Enabled;
        ActFlushes(s, i, cal, j);
      }
      hide *;
      OneStep(s, At(i, Flush), t, cal);
    } else {
      more, t := [], s;
      forall j | 0 <= j < |s.instances[i].fates|
        ensures !s.instances[i].fates[j].Waiting?
      {
        if s.instances[i].fates[j].Waiting? { SomeWaiting(s.instances[i].fates, j); }
      }
      hide FanOutInv;
    }
  }

  lemma NoSteps(t: State, cal: Calendar)
    ensures ClusterRuns.Leads(t, [], t, cal)
  {
  }

  lemma OneStep(s: State, step: Step, t: State, cal: Calendar)
    requires Enabled(s, step, cal) && After(s, step, cal) == t
    ensures ClusterRuns.Leads(s, [step], t, cal)
  {
    hide Enabled, After;
    assert [step][1..] == [];
    NoSteps(t, cal);
  }

  lemma FlushOnly(s: State, i: nat, cal: Calendar)
    requires i < |s.instances| && Possible(s, i, Flush, cal)
    ensures Enabled(s, At(i, Flush), cal)
    ensures var t := After(s, At(i, Flush), cal);
            && OnlyServed(s, t, i) && t.instances[i] == Acted(s, i, Flush, cal) && Shared(s, i, Flush, cal).bus == t.bus
            && |t.instances[i].fates| == |s.instances[i].fates|
  {
    TurnedAlike(s, i, Flush, cal);
    TurnedKeeps(s, i, Flush, cal);
    hide Free, Claimed, Snapshot, BatchEnd, Settled, Served, Members, Acted, Turned;
  }

  lemma {:induction false} LeadsOn(s: State, steps: seq<Step>, t: State, more: seq<Step>, u: State, cal: Calendar)
    requires ClusterRuns.Leads(s, steps, t, cal) && ClusterRuns.Leads(t, more, u, cal)
    ensures ClusterRuns.Leads(s, steps + more, u, cal)
    decreases |steps|
  {
    hide Enabled, After;
    if steps == [] {
      assert steps + more == more;
    } else {
      LeadsOn(After(s, steps[0], cal), steps[1..], t, more, u, cal);
      assert (steps + more)[1..] == steps[1..] + more;
    }
  }

  /** Whatever has happened, an instance can go on so that every event on the bus that it has not seen yet reaches the
      connections of its room that are open, except its sender, and no other connection. */
  lemma EventsCanArrive(states: seq<State>, steps: seq<Step>, n: nat, cal: Calendar, from: int, i: nat)
    returns (more: seq<Step>, t: State)
    requires Reached(states, steps, n, cal, from) && i < |states[n].instances|
    ensures ClusterRuns.Leads(states[n], more, t, cal) && OnlyServed(states[n], t, i)
    ensures forall k <- t.instances[i].conns, j: nat ::
              t.instances[i].conns[k].open && |states[n].instances[i].fates| <= j < |t.bus| ==>
                (j in t.instances[i].conns[k].received <==>
                 && t.bus[j].roomId == states[n].instances[i].room.roomId
                 && InRoom(states[n].instances[i].conns, k, t.bus[j].roomId) && t.bus[j].exclude != k)
  {
    RunKeeps(states, steps, n, cal, from);
    var s := states[n];
    assert InstanceInv(s.instances[i], s, cal, from);
    hide Run, Tiles, Inv, InstanceInv, FanOutInv;
    var s1, most, last;
    most, s1 := DeliverAll(s, i, cal);
    last, t := FlushAll(s1, i, cal);
    more := most + last;
    LeadsOn(s, most, s1, last, t, cal);
    hide ClusterRuns.Leads;
    forall k <- t.instances[i].conns, j: nat |
      t.instances[i].conns[k].open && |s.instances[i].fates| <= j < |t.bus|
      ensures j in t.instances[i].conns[k].received <==>
              && t.bus[j].roomId == s.instances[i].room.roomId
              && InRoom(s.instances[i].conns, k, t.bus[j].roomId) && t.bus[j].exclude != k
    {
      Arrives(s1, t, i, k, j);
    }
  }

  lemma Arrives(s: State, t: State, i: nat, k: Key, j: nat)
    requires OnlyServed(s, t, i) && FanOutInv(t.instances[i], t.bus) && j < |t.instances[i].fates|
    requires k in t.instances[i].conns && t.instances[i].conns[k].open
    requires j < |s.instances[i].fates|
    requires var f, g, roomId := s.instances[i].fates[j], t.instances[i].fates[j], s.instances[i].room.roomId;
             && (if f.event.roomId != roomId then f.Dropped? else f.Waiting?)
             && g.event == f.event && if f.Waiting? then g.Flushed? && ServedAs(s.instances[i], g) else g == f
    ensures j in t.instances[i].conns[k].received <==>
            && t.bus[j].roomId == s.instances[i].room.roomId
            && InRoom(s.instances[i].conns, k, t.bus[j].roomId) && t.bus[j].exclude != k
  {
    var inst := t.instances[i];
    assert Right(inst.conns[k], inst.fates, k) && inst.fates[j].event == t.bus[j];
    ExpectedMeaning(inst.fates, k, j);
    hide FanOutInv, Expected, InRoom;
    var g := inst.fates[j];
    if g.Flushed? {
      assert k in g.members && g.members[k] == g.roomId <==> InRoom(s.instances[i].conns, k, g.roomId);
    }
  }
}
