/** Exactly-once fan-out, in every run of the cluster. */
module ClusterFanOut {
  import opened Types
  import opened Day
  import opened Cluster

  /** Is a delivered event a broadcast for connection `k`? Its room was, at its flush, that of the instance
      and that of the connection's record; and the connection is not its sender. */
  predicate Eligible(f: Fate, k: Key) {
    f.Flushed? && f.event.roomId == f.roomId && k in f.members && f.members[k] == f.roomId && f.event.exclude != k
  }

  function Expected(fates: seq<Fate>, k: Key): seq<nat> {
    if fates == [] then []
    else Expected(fates[..|fates| - 1], k) + if Eligible(fates[|fates| - 1], k) then [|fates| - 1] else []
  }

  function WaitingOf(fates: seq<Fate>): seq<Item> {
    if fates == [] then []
    else
      var last := fates[|fates| - 1];
      WaitingOf(fates[..|fates| - 1]) + if last.Waiting? then [Item(|fates| - 1, last.event)] else []
  }

  /** Nothing that waits has been overtaken. */
  ghost predicate Ordered(fates: seq<Fate>) {
    forall i, j :: 0 <= i < j < |fates| && fates[i].Waiting? ==> !fates[j].Flushed?
  }

  ghost predicate FanOutInv(inst: Instance, bus: seq<Event>) {
    && |inst.fates| <= |bus| && (forall j :: 0 <= j < |inst.fates| ==> inst.fates[j].event == bus[j])
    && Ordered(inst.fates) && inst.outbox == WaitingOf(inst.fates) && (inst.outbox != [] ==> inst.flushScheduled)
    && MembersKnown(inst.fates, inst.conns)
    && forall k <- inst.conns :: Right(inst.conns[k], inst.fates, k)
  }

  ghost predicate MembersKnown(fates: seq<Fate>, conns: map<Key, Conn>) {
    forall j, k :: 0 <= j < |fates| && fates[j].Flushed? && k in fates[j].members ==> k in conns
  }

  /** An open connection has received exactly what it should have; any other no more than that. */
  ghost predicate Right(c: Conn, fates: seq<Fate>, k: Key) {
    && (c.closed ==> !c.open) && c.received <= Expected(fates, k)
    && (c.open ==> c.received == Expected(fates, k))
  }

  // ----- What a flush does -----

  lemma {:induction false} SettledAt(fates: seq<Fate>, roomId: string, members: map<Key, string>, j: nat)
    requires j < |fates|
    ensures Settled(fates, roomId, members)[j]
            == if fates[j].Waiting? then Flushed(fates[j].event, roomId, members) else fates[j]
  {
    if j < |fates| - 1 { SettledAt(fates[..|fates| - 1], roomId, members, j); }
  }

  /** A flush adds, for every connection, exactly its part of the outbox. */
  lemma {:induction false} SettledExpected(fates: seq<Fate>, roomId: string, members: map<Key, string>, k: Key)
    requires Ordered(fates)
    ensures Expected(Settled(fates, roomId, members), k) ==
            Expected(fates, k)
            + if k in members && members[k] == roomId then Chosen(WaitingOf(fates), roomId, k) else []
  {
    hide Ordered;
    if fates != [] {
      var before, last := fates[..|fates| - 1], fates[|fates| - 1];
      OrderedBefore(fates);
      SettledExpected(before, roomId, members, k);
      assert Settled(fates, roomId, members)[..|fates| - 1] == Settled(before, roomId, members);
      var mine := if k in members && members[k] == roomId then Chosen(WaitingOf(before), roomId, k) else [];
      if last.Waiting? {
        var items := WaitingOf(fates);
        assert items[..|items| - 1] == WaitingOf(before);
      } else {
        if last.Flushed? { assert mine == []; }
        assert WaitingOf(fates) == WaitingOf(before);
      }
    }
  }

  lemma OrderedBefore(fates: seq<Fate>)
    requires Ordered(fates) && fates != []
    ensures Ordered(fates[..|fates| - 1]) && (fates[|fates| - 1].Flushed? ==> WaitingOf(fates[..|fates| - 1]) == [])
  {
    if fates[|fates| - 1].Flushed? { NoneWaiting(fates[..|fates| - 1]); }
    hide WaitingOf;
  }

  lemma {:induction false} NoneWaiting(fates: seq<Fate>)
    requires forall i :: 0 <= i < |fates| ==> !fates[i].Waiting?
    ensures WaitingOf(fates) == []
  {
    if fates != [] { NoneWaiting(fates[..|fates| - 1]); }
  }

  lemma {:induction false} UnknownExpectsNothing(fates: seq<Fate>, k: Key)
    requires forall j :: 0 <= j < |fates| && fates[j].Flushed? ==> k !in fates[j].members
    ensures Expected(fates, k) == []
  {
    if fates != [] { UnknownExpectsNothing(fates[..|fates| - 1], k); }
  }

  lemma DeliveredKeeps(fates: seq<Fate>, f: Fate, k: Key)
    requires !f.Flushed?
    ensures Expected(fates + [f], k) == Expected(fates, k)
    ensures WaitingOf(fates + [f]) == WaitingOf(fates) + if f.Waiting? then [Item(|fates|, f.event)] else []
  {
    assert (fates + [f])[..|fates|] == fates;
  }

  // ----- Every step -----

  lemma ServedRight(inst: Instance, k: Key)
    requires k in inst.conns && Right(inst.conns[k], inst.fates, k) && inst.outbox == WaitingOf(inst.fates)
    requires var roomId, members := inst.room.roomId, Members(inst.conns);
             Expected(Settled(inst.fates, roomId, members), k) ==
             Expected(inst.fates, k)
             + if k in members && members[k] == roomId then Chosen(WaitingOf(inst.fates), roomId, k) else []
    ensures var roomId := inst.room.roomId;
            Right(Served(k, inst.conns[k], inst.outbox, roomId), Settled(inst.fates, roomId, Members(inst.conns)), k)
  {
    hide Settled, Chosen, Expected, WaitingOf;
  }

  lemma FlushKeeps(inst: Instance, bus: seq<Event>, flushed: Instance)
    requires FanOutInv(inst, bus)
    requires flushed.fates == Settled(inst.fates, inst.room.roomId, Members(inst.conns)) && flushed.outbox == []
    requires flushed.conns == map k | k in inst.conns :: Served(k, inst.conns[k], inst.outbox, inst.room.roomId)
    ensures FanOutInv(flushed, bus)
  {
    var roomId, members := inst.room.roomId, Members(inst.conns);
    hide Settled, Served, Chosen, Expected, WaitingOf, Right;
    forall j | 0 <= j < |inst.fates|
      ensures flushed.fates[j]
              == if inst.fates[j].Waiting? then Flushed(inst.fates[j].event, roomId, members) else inst.fates[j]
    {
      SettledAt(inst.fates, roomId, members, j);
    }
    NoneWaiting(flushed.fates);
    forall k <- flushed.conns
      ensures Right(flushed.conns[k], flushed.fates, k)
    {
      SettledExpected(inst.fates, roomId, members, k);
      ServedRight(inst, k);
    }
  }

  lemma DeliverKeeps(inst: Instance, bus: seq<Event>, f: Fate, delivered: Instance)
    requires FanOutInv(inst, bus) && |inst.fates| < |bus| && f.event == bus[|inst.fates|] && !f.Flushed?
    requires delivered.fates == inst.fates + [f] && delivered.conns == inst.conns
    requires delivered.outbox == inst.outbox + if f.Waiting? then [Item(|inst.fates|, f.event)] else []
    requires delivered.flushScheduled == (f.Waiting? || inst.flushScheduled)
    ensures FanOutInv(delivered, bus)
  {
    DeliveredKeeps(inst.fates, f, Key(0, 0));
    forall k <- inst.conns
      ensures Right(inst.conns[k], delivered.fates, k)
    {
      DeliveredKeeps(inst.fates, f, k);
    }
    hide Expected, WaitingOf;
  }

  /** Connections change, but neither what they received nor what was delivered. */
  ghost predicate Calm(inst: Instance, other: Instance) {
    && other.fates == inst.fates && other.outbox == inst.outbox && other.flushScheduled == inst.flushScheduled
    && (forall k <- inst.conns :: k in other.conns)
    && (forall k <- other.conns ::
          if k in inst.conns
          then
            && other.conns[k].received == inst.conns[k].received && (other.conns[k].open ==> inst.conns[k].open)
            && (other.conns[k].closed ==> inst.conns[k].closed || !other.conns[k].open)
          else other.conns[k] == NEW)
  }

  lemma CalmKeeps(inst: Instance, other: Instance, bus: seq<Event>, longer: seq<Event>)
    requires FanOutInv(inst, bus) && Calm(inst, other) && bus <= longer
    ensures FanOutInv(other, longer)
  {
    forall k <- other.conns
      ensures Right(other.conns[k], other.fates, k)
    {
      if k !in inst.conns { UnknownExpectsNothing(inst.fates, k); }
    }
    hide Expected, WaitingOf, Ordered;
  }

  lemma BusGrows(s: State, i: nat, act: Act, cal: Calendar)
    requires i < |s.instances| && Possible(s, i, act, cal)
    ensures s.bus <= Shared(s, i, act, cal).bus
  {
    hide Snapshot, Claimed, Free;
  }

  lemma BatchReceives(s: State, i: nat, cal: Calendar)
    requires i < |s.instances| && Possible(s, i, BatchStart, cal)
    ensures var inst, next := s.instances[i], Turned(s, i, BatchStart, cal);
            next.conns.Keys == inst.conns.Keys
            && forall k <- inst.conns :: next.conns[k].received == inst.conns[k].received
  {
    hide BatchEnd;
  }

  lemma CalmMoved(inst: Instance, other: Instance, k: Key, d: Conn)
    requires other.fates == inst.fates && other.outbox == inst.outbox && other.flushScheduled == inst.flushScheduled
    requires other.conns == inst.conns[k := d] && (k !in inst.conns ==> d == NEW)
    requires k in inst.conns ==>
               && d.received == inst.conns[k].received && (d.open ==> inst.conns[k].open)
               && (d.closed ==> inst.conns[k].closed || !d.open)
    ensures Calm(inst, other)
  {
  }

  lemma CalmTurned(inst: Instance, other: Instance)
    requires other.fates == inst.fates && other.outbox == inst.outbox && other.flushScheduled == inst.flushScheduled
    requires other.conns.Keys == inst.conns.Keys
    requires forall k <- inst.conns ::
             Alike(inst.conns[k], other.conns[k]) && other.conns[k].received == inst.conns[k].received
    ensures Calm(inst, other)
  {
    forall k <- inst.conns
      ensures other.conns[k].open == inst.conns[k].open && other.conns[k].closed == inst.conns[k].closed
    {
      assert Alike(inst.conns[k], other.conns[k]);
    }
  }

  lemma ActIsCalm(s: State, i: nat, act: Act, cal: Calendar)
    requires i < |s.instances| && Possible(s, i, act, cal) && !act.Flush? && !act.Deliver?
    ensures Calm(s.instances[i], Acted(s, i, act, cal)) && s.bus <= Shared(s, i, act, cal).bus
  {
    hide Moved, Acted, Turned, Possible, Shared, Alike, Calm;
    BusGrows(s, i, act, cal);
    var inst, next := s.instances[i], Acted(s, i, act, cal);
    if OfConnection(act) {
      OnlyOne(s, i, act, cal);
      if act.Accept? { AcceptIsNew(s, i, act, cal); } else { MovedKeeps(s, i, act, cal); }
      CalmMoved(inst, next, act.k, Moved(s, i, act, cal));
    } else {
      TurnedAlike(s, i, act, cal);
      TurnedKeeps(s, i, act, cal);
      if act.BatchStart? { BatchReceives(s, i, cal); }
      CalmTurned(inst, next);
    }
  }

  lemma AcceptIsNew(s: State, i: nat, act: Act, cal: Calendar)
    requires i < |s.instances| && Possible(s, i, act, cal) && act.Accept?
    ensures Moved(s, i, act, cal) == NEW
  {
  }

  lemma ActKeepsFanOut(s: State, i: nat, act: Act, cal: Calendar)
    requires i < |s.instances| && Possible(s, i, act, cal) && FanOutInv(s.instances[i], s.bus)
    ensures FanOutInv(Acted(s, i, act, cal), Shared(s, i, act, cal).bus)
  {
    var inst, next := s.instances[i], Acted(s, i, act, cal);
    if act.Flush? {
      hide FanOutInv;
      FlushKeeps(inst, s.bus, next);
    } else if act.Deliver? {
      hide FanOutInv;
      var e := s.bus[|inst.fates|];
      assert inst.outbox + [] == inst.outbox;
      DeliverKeeps(inst, s.bus, if e.roomId != inst.room.roomId then Dropped(e) else Waiting(e), next);
    } else {
      hide *;
      ActIsCalm(s, i, act, cal);
      CalmKeeps(inst, next, s.bus, Shared(s, i, act, cal).bus);
    }
  }
}
