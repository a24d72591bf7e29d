/** What every run of the cluster keeps besides fan-out: rooms and rollovers, stamps, locks and counts. */
module ClusterSafety {
  import opened Types
  import opened Day
  import opened Cluster
  import opened ClusterFanOut

  // ----- The calendar -----

  /** From instant `from` on, rooms tile time. */
  ghost predicate Tiles(cal: Calendar, from: int) {
    forall t, u :: from <= t && from <= u ==> Tile(cal.RoomAt(t), cal.RoomAt(u), t, u)
  }

  /** The calendar of a zone does tile time if the code is right about its midnights. */
  lemma ZoneTiles(off: Offset, epoch: Date, cal: Calendar)
    requires Clock(off) && ExactFrom(off, ERA) && forall t :: cal.RoomAt(t) == RoomAt(t, off, epoch)
    ensures Tiles(cal, (ERA + 1) * DAY_MS)
  {
    hide Tile, TileFrom, ExactFrom, RoomAt, DayFromYear, LocalDay, Clock;
    RoomsTile(off, epoch, ERA);
    forall t, u | (ERA + 1) * DAY_MS <= t && (ERA + 1) * DAY_MS <= u
      ensures Tile(cal.RoomAt(t), cal.RoomAt(u), t, u)
    {
      InEra(t, off);
      InEra(u, off);
      TwoTiles(off, epoch, t, u);
    }
  }

  lemma TwoTiles(off: Offset, epoch: Date, t: int, u: int)
    requires TileFrom(off, epoch, ERA) && ERA <= LocalDay(t, off) && ERA <= LocalDay(u, off)
    ensures Tile(RoomAt(t, off, epoch), RoomAt(u, off, epoch), t, u)
  {
    hide Tile, Follows, RoomAt, LocalDay, DayFromYear;
  }

  lemma InEra(t: int, off: Offset)
    requires Clock(off) && (ERA + 1) * DAY_MS <= t
    ensures ERA <= LocalDay(t, off)
  {
    hide DayFromYear;
  }

  // ----- Rooms -----

  ghost predicate RoomInv(inst: Instance, now: int, cal: Calendar, from: int) {
    from <= inst.since <= now && inst.room == cal.RoomAt(inst.since)
  }

  lemma ClockStays(s: State, i: nat, act: Act, cal: Calendar)
    requires i < |s.instances| && Possible(s, i, act, cal)
    ensures Shared(s, i, act, cal).now == s.now
  {
    hide Possible, Free;
  }

  lemma ActKeepsRoom(s: State, i: nat, act: Act, cal: Calendar, from: int)
    requires i < |s.instances| && Possible(s, i, act, cal) && RoomInv(s.instances[i], s.now, cal, from)
    ensures RoomInv(Acted(s, i, act, cal), s.now, cal, from) && Shared(s, i, act, cal).now == s.now
    ensures act.CheckRoom? || Acted(s, i, act, cal).room == s.instances[i].room
  {
    SharedGrows(s, i, act, cal);
    hide Acted, Moved, Turned, Possible, Shared, Grows;
    ClockStays(s, i, act, cal);
    if OfConnection(act) {
      OnlyOne(s, i, act, cal);
    } else {
      TurnedKeeps(s, i, act, cal);
      TurnedRoll(s, i, act, cal);
    }
  }

  ghost predicate IsRoom(room: Room, cal: Calendar, from: int) {
    exists t: int :: from <= t && cal.RoomAt(t) == room
  }

  /** A room that an instance is leaving, or has left and is cleaning, has ended. */
  ghost predicate EndedInv(inst: Instance, cal: Calendar, from: int) {
    inst.roll.Locking? || inst.roll.Cleaning? ==>
      inst.roll.prev.endsAt <= inst.since && IsRoom(inst.roll.prev, cal, from)
  }

  lemma LeftRoomEnded(inst: Instance, s: State, cal: Calendar, from: int)
    requires RoomInv(inst, s.now, cal, from) && Tiles(cal, from) && cal.RoomAt(s.now).roomId != inst.room.roomId
    ensures inst.room.endsAt <= s.now && IsRoom(inst.room, cal, from)
  {
    assert Tile(inst.room, cal.RoomAt(s.now), inst.since, s.now);
  }

  lemma ActKeepsEnded(s: State, i: nat, act: Act, cal: Calendar, from: int)
    requires i < |s.instances| && Possible(s, i, act, cal) && Tiles(cal, from)
             && RoomInv(s.instances[i], s.now, cal, from)
    requires EndedInv(s.instances[i], cal, from)
    ensures EndedInv(Acted(s, i, act, cal), cal, from)
  {
    hide Acted, Moved, Turned, Possible, Tiles, RoomInv, IsRoom;
    if OfConnection(act) {
      OnlyOne(s, i, act, cal);
    } else {
      TurnedKeepsEnded(s, i, act, cal, from);
    }
  }

  lemma TurnedKeepsEnded(s: State, i: nat, act: Act, cal: Calendar, from: int)
    requires i < |s.instances| && Possible(s, i, act, cal) && !OfConnection(act) && Tiles(cal, from)
    requires RoomInv(s.instances[i], s.now, cal, from) && EndedInv(s.instances[i], cal, from)
    ensures EndedInv(Acted(s, i, act, cal), cal, from)
  {
    hide Acted, Turned, Possible, Snapshot, Free, Tiles, RoomInv, IsRoom;
    TurnedKeeps(s, i, act, cal);
    TurnedRoll(s, i, act, cal);
    if act.CheckRoom? {
      LeftRoomEnded(s.instances[i], s, cal, from);
    } else if act.LockReply? || act.CleanupDone? || act.CleanupFail? {
      TurnedSnapshot(s, i, act, cal);
    }
  }

  // ----- Rollover -----

  ghost predicate RollInv(inst: Instance, sids: set<nat>) {
    inst.roll.Batching? ==>
      && var Batching(live, begun, waiting, known) := inst.roll;
      && begun <= |live| && known <= sids
      && (forall i, j :: 0 <= i < j < |live| ==> live[i] != live[j])
      && (forall i :: 0 <= i < |live| ==> live[i] in inst.conns && inst.conns[live[i]].joined)
      && (forall k <- waiting :: k in live[..begun] && k in inst.conns && inst.conns[k].carry.Some?)
      && (forall i :: begun <= i < |live| ==> live[i] !in waiting)
      && (forall i :: 0 <= i < begun && live[i] !in waiting ==> Renewed(inst.conns[live[i]], inst.room.roomId, known))
  }

  /** Closed, closing, or with a record of the room that did not exist when the rollover began. */
  ghost predicate Renewed(c: Conn, roomId: string, known: set<nat>) {
    c.closed || !c.open || (c.rec.Some? && c.rec.value.roomId == roomId && c.rec.value.sid !in known)
  }

  /** Steps that leave the rollover alone. */
  ghost predicate Aside(inst: Instance, other: Instance) {
    && other.room == inst.room && other.roll == inst.roll
    && forall k <- inst.conns ::
         && k in other.conns
         && (inst.conns[k].joined ==> other.conns[k].joined && other.conns[k].rec == inst.conns[k].rec)
         && (inst.conns[k].closed ==> other.conns[k].closed) && (other.conns[k].open ==> inst.conns[k].open)
         && (inst.conns[k].carry.Some? ==> other.conns[k].carry.Some?)
  }

  lemma AsideKeepsRoll(inst: Instance, other: Instance, sids: set<nat>, more: set<nat>)
    requires RollInv(inst, sids) && Aside(inst, other) && sids <= more
    ensures RollInv(other, more)
  {
  }

  lemma ActIsAside(s: State, i: nat, act: Act, cal: Calendar)
    requires i < |s.instances| && Possible(s, i, act, cal)
    requires act.Deliver? || act.Flush? || (OfConnection(act) && !act.ConnRolled? && !act.ConnRollFailed?)
    ensures Aside(s.instances[i], Acted(s, i, act, cal)) && Shared(s, i, act, cal).sids == s.sids
  {
    SharedSids(s, i, act, cal);
    hide Acted, Moved, Turned, Possible, Shared;
    if OfConnection(act) {
      OnlyOne(s, i, act, cal);
      if !act.Accept? {
        MovedKeeps(s, i, act, cal);
        MovedSession(s, i, act, cal);
        MovedChallenge(s, i, act, cal);
      }
    } else {
      TurnedAlike(s, i, act, cal);
      TurnedKeeps(s, i, act, cal);
      TurnedRoll(s, i, act, cal);
    }
  }

  lemma SharedSids(s: State, i: nat, act: Act, cal: Calendar)
    requires i < |s.instances| && Possible(s, i, act, cal) && !act.ConnRolled?
    ensures Shared(s, i, act, cal).sids == s.sids
  {
    hide Snapshot, Claimed, Free;
  }

  lemma ActKeepsRoll(s: State, i: nat, act: Act, cal: Calendar)
    requires i < |s.instances| && Possible(s, i, act, cal) && RollInv(s.instances[i], s.sids)
    ensures RollInv(Acted(s, i, act, cal), Shared(s, i, act, cal).sids)
  {
    hide Possible, Acted, Shared, Moved, Turned, RollInv, Aside;
    var inst := s.instances[i];
    match act {
      case ConnRolled(k, _, _) => ReplyKeepsRoll(s, i, act, k, cal);
      case ConnRollFailed(k) => ReplyKeepsRoll(s, i, act, k, cal);
      case BatchStart => BatchKeepsRoll(s, i, cal); SharedSids(s, i, act, cal);
      case CheckRoom => StartKeepsRoll(s, i, act, cal);
      case LockReply(_) => StartKeepsRoll(s, i, act, cal);
      case CleanupDone(_) => StartKeepsRoll(s, i, act, cal);
      case CleanupFail(_) => StartKeepsRoll(s, i, act, cal);
      case RollEnd => StartKeepsRoll(s, i, act, cal);
      case _ =>
        ActIsAside(s, i, act, cal);
        AsideKeepsRoll(inst, Acted(s, i, act, cal), s.sids, Shared(s, i, act, cal).sids);
    }
  }

  lemma SnapshotJoined(live: seq<Key>, conns: map<Key, Conn>)
    requires Snapshot(live, conns)
    ensures forall n :: 0 <= n < |live| ==> live[n] in conns && conns[live[n]].joined
    ensures forall m, n :: 0 <= m < n < |live| ==> live[m] != live[n]
  {
    assert forall n :: 0 <= n < |live| ==> live[n] in live && live[n] in JoinedKeys(conns);
  }

  lemma StartKeepsRoll(s: State, i: nat, act: Act, cal: Calendar)
    requires i < |s.instances| && Possible(s, i, act, cal) && RollInv(s.instances[i], s.sids)
    requires act.CheckRoom? || act.LockReply? || act.CleanupDone? || act.CleanupFail? || act.RollEnd?
    ensures RollInv(Acted(s, i, act, cal), Shared(s, i, act, cal).sids)
  {
    SharedSids(s, i, act, cal);
    hide Acted, Turned, Possible, Shared, Snapshot, Renewed, Free, Alike;
    TurnedAlike(s, i, act, cal);
    TurnedKeeps(s, i, act, cal);
    TurnedRoll(s, i, act, cal);
    if act.LockReply? || act.CleanupDone? || act.CleanupFail? {
      TurnedSnapshot(s, i, act, cal);
      SnapshotJoined(act.live, s.instances[i].conns);
    }
  }

  lemma InBatch(live: seq<Key>, begun: nat, end: nat)
    requires begun <= end <= |live| && forall i, j :: 0 <= i < j < |live| ==> live[i] != live[j]
    ensures forall n :: 0 <= n < |live| ==> (live[n] in live[begun..end] <==> begun <= n < end)
    ensures forall k <- live[begun..end] :: k in live
  {
    var batch := live[begun..end];
    assert forall m :: begun <= m < end ==> batch[m - begun] == live[m];
  }

  /** The next batch of renewals begins. */
  lemma Begun(inst: Instance, next: Instance, batch: seq<Key>, end: nat, sids: set<nat>)
    requires RollInv(inst, sids) && inst.roll.Batching? && inst.roll.begun <= end <= |inst.roll.live|
             && inst.roll.waiting == {}
    requires forall n :: 0 <= n < |inst.roll.live| ==> (inst.roll.live[n] in batch <==> inst.roll.begun <= n < end)
    requires next.roll
             == inst.roll.(begun := end, waiting := set k | k in batch && k in inst.conns && !inst.conns[k].closed)
    requires next.conns == map k | k in inst.conns :: Carrying(inst.conns[k], k in batch)
    requires next.room == inst.room && forall k <- batch :: k in inst.roll.live
    ensures RollInv(next, sids)
  {
    var live, waiting := inst.roll.live, next.roll.waiting;
    forall k <- waiting
      ensures k in live[..end] && k in next.conns && next.conns[k].carry.Some?
    {
      var n :| 0 <= n < |live| && live[n] == k;
      assert live[..end][n] == k;
    }
    forall n | 0 <= n < end && live[n] !in waiting
      ensures Renewed(next.conns[live[n]], next.room.roomId, inst.roll.known)
    {
      if n < inst.roll.begun { assert Renewed(inst.conns[live[n]], inst.room.roomId, inst.roll.known); }
    }
    hide Renewed;
  }

  lemma BatchKeepsRoll(s: State, i: nat, cal: Calendar)
    requires i < |s.instances| && Possible(s, i, BatchStart, cal) && RollInv(s.instances[i], s.sids)
    ensures RollInv(Acted(s, i, BatchStart, cal), s.sids)
  {
    var inst, next := s.instances[i], Acted(s, i, BatchStart, cal);
    var live, begun, end := inst.roll.live, inst.roll.begun, BatchEnd(inst.roll);
    var batch := live[begun..end];
    InBatch(live, begun, end);
    hide BatchEnd, RollInv, Carrying;
    Begun(inst, next, batch, end, s.sids);
  }

  /** The reply is a new record, or the connection is, or gets, closed. */
  lemma ReplyRenews(s: State, i: nat, act: Act, cal: Calendar)
    requires i < |s.instances| && Possible(s, i, act, cal) && RollInv(s.instances[i], s.sids)
             && (act.ConnRolled? || act.ConnRollFailed?)
    ensures s.instances[i].roll.Batching?
    ensures Renewed(Moved(s, i, act, cal), s.instances[i].room.roomId, s.instances[i].roll.known)
    ensures s.sids <= Shared(s, i, act, cal).sids
    ensures act.k in s.instances[i].conns && Moved(s, i, act, cal).joined == s.instances[i].conns[act.k].joined
  {
    hide Claimed;
  }

  lemma Replied(inst: Instance, next: Instance, k: Key, d: Conn, sids: set<nat>, more: set<nat>)
    requires RollInv(inst, sids) && inst.roll.Batching? && sids <= more && k in inst.conns
             && d.joined == inst.conns[k].joined
    requires next.roll == inst.roll.(waiting := inst.roll.waiting - {k}) && next.room == inst.room
    requires next.conns == inst.conns[k := d] && Renewed(d, inst.room.roomId, inst.roll.known)
    ensures RollInv(next, more)
  {
    hide Renewed;
  }

  lemma ReplyKeepsRoll(s: State, i: nat, act: Act, k: Key, cal: Calendar)
    requires i < |s.instances| && Possible(s, i, act, cal) && RollInv(s.instances[i], s.sids)
    requires act == ConnRollFailed(k) || (act.ConnRolled? && act.k == k)
    ensures RollInv(Acted(s, i, act, cal), Shared(s, i, act, cal).sids)
  {
    var inst, next := s.instances[i], Acted(s, i, act, cal);
    ReplyRenews(s, i, act, cal);
    hide Acted, Moved, Possible, Shared, Renewed;
    OnlyOne(s, i, act, cal);
    Replied(inst, next, act.k, Moved(s, i, act, cal), s.sids, Shared(s, i, act, cal).sids);
  }

  // ----- Stamps -----

  ghost predicate FrameRight(f: Frame, inst: Instance, s: State, cal: Calendar, from: int) {
    match f
    case Idle => true
    case Joining(rec, _) => Claimed(s.claims, rec)
    case Deciding(ts, rec, room, switches) =>
      && Claimed(s.claims, rec) && rec.roomId == room.roomId && from <= ts && room == cal.RoomAt(ts)
      && switches <= inst.switches && (switches == inst.switches ==> room == inst.room)
      && (switches < inst.switches ==> room.day < inst.room.day)
    case Publishing(entry) => entry < |s.entries|
    case Verifying(_) => true
  }

  /** A message belongs to its room when its timestamp does, and its author is a session of that room. */
  ghost predicate WellStamped(e: Entry, claims: map<(string, string), nat>) {
    e.room.startsAt <= e.ts < e.room.endsAt && e.rec.roomId == e.room.roomId && Claimed(claims, e.rec)
  }

  ghost predicate EntryRight(e: Entry, claims: map<(string, string), nat>, cal: Calendar, from: int) {
    && Claimed(claims, e.rec) && e.rec.roomId == e.checked.roomId && from <= e.ts && e.checked == cal.RoomAt(e.ts)
    && from <= e.since && e.room == cal.RoomAt(e.since)
    && (if e.straddled then e.checked.day < e.room.day else e.checked == e.room)
  }

  ghost predicate StoreInv(s: State, cal: Calendar, from: int) {
    && (forall n :: 0 <= n < |s.entries| ==> EntryRight(s.entries[n], s.claims, cal, from))
    && (forall n :: 0 <= n < |s.bus| ==>
        s.bus[n].entry < |s.entries| && s.bus[n].roomId == s.entries[s.bus[n].entry].room.roomId)
  }

  ghost predicate StampInv(inst: Instance, s: State, cal: Calendar, from: int) {
    forall k <- inst.conns :: ConnRight(inst.conns[k], inst, s, cal, from)
  }

  ghost predicate ConnRight(c: Conn, inst: Instance, s: State, cal: Calendar, from: int) {
    (c.rec.Some? ==> Claimed(s.claims, c.rec.value)) && FrameRight(c.frame, inst, s, cal, from)
  }

  /** The store and the bus only grow, and claims stay. */
  ghost predicate Grows(s: State, t: State) {
    && s.entries <= t.entries && s.bus <= t.bus && s.sids <= t.sids && s.now <= t.now
    && forall p <- s.claims :: p in t.claims && t.claims[p] == s.claims[p]
  }

  lemma StepGrows(s: State, step: Step, cal: Calendar)
    requires Enabled(s, step, cal)
    ensures Grows(s, After(s, step, cal))
  {
    hide Snapshot, BatchEnd, Free, Acted;
  }

  lemma GrowthKeepsStamps(inst: Instance, s: State, t: State, cal: Calendar, from: int)
    requires StampInv(inst, s, cal, from) && Grows(s, t)
    ensures StampInv(inst, t, cal, from)
  {
  }

  /** A switch moves an instance to a later day. */
  lemma SwitchGoesForward(inst: Instance, s: State, cal: Calendar, from: int)
    requires RoomInv(inst, s.now, cal, from) && Tiles(cal, from) && cal.RoomAt(s.now).roomId != inst.room.roomId
    ensures inst.room.day < cal.RoomAt(s.now).day
  {
    assert Tile(inst.room, cal.RoomAt(s.now), inst.since, s.now);
  }

  /** What a step adds to the store is there for the connection that adds it. */
  lemma StampsShared(s: State, i: nat, act: Act, cal: Calendar)
    requires i < |s.instances| && Possible(s, i, act, cal)
    ensures act.Append? ==> |Shared(s, i, act, cal).entries| == |s.entries| + 1
    ensures act.ConnRolled? ==>
            Claimed(Shared(s, i, act, cal).claims, Rec(s.instances[i].room.roomId, act.name, act.sid))
  {
    hide Snapshot, Free;
  }

  /** A room with the id of the clock's room is that room. */
  lemma NowInRoom(inst: Instance, s: State, cal: Calendar, from: int)
    requires RoomInv(inst, s.now, cal, from) && Tiles(cal, from) && cal.RoomAt(s.now).roomId == inst.room.roomId
    ensures cal.RoomAt(s.now) == inst.room && from <= s.now
  {
    assert Tile(inst.room, cal.RoomAt(s.now), inst.since, s.now);
  }

  lemma MovedKeepsStamps(s: State, i: nat, act: Act, cal: Calendar, from: int)
    requires i < |s.instances| && Possible(s, i, act, cal) && OfConnection(act) && Tiles(cal, from)
    requires RoomInv(s.instances[i], s.now, cal, from) && StampInv(s.instances[i], s, cal, from)
    ensures ConnRight(Moved(s, i, act, cal), s.instances[i], Shared(s, i, act, cal), cal, from)
  {
    var inst, t := s.instances[i], Shared(s, i, act, cal);
    SharedGrows(s, i, act, cal);
    if act.Accept? {
      AcceptIsNew(s, i, act, cal);
    } else {
      MovedWaits(s, i, act, cal);
      MovedSession(s, i, act, cal);
      StampsShared(s, i, act, cal);
      assert ConnRight(inst.conns[act.k], inst, s, cal, from);
    }
    hide Tiles, Possible, Moved, Shared, StampInv;
    if act.DecideStart? { NowInRoom(inst, s, cal, from); }
  }

  lemma OneMoreRight(inst: Instance, other: Instance, k: Key, c: Conn, s: State, t: State, cal: Calendar, from: int)
    requires StampInv(inst, s, cal, from) && Grows(s, t) && ConnRight(c, inst, t, cal, from)
    requires other.conns == inst.conns[k := c] && other.room == inst.room && other.switches == inst.switches
    ensures StampInv(other, t, cal, from)
  {
    GrowthKeepsStamps(inst, s, t, cal, from);
    hide Grows, Claimed;
  }

  lemma AlikeRight(c: Conn, d: Conn, inst: Instance, next: Instance, s: State, cal: Calendar, from: int)
    requires ConnRight(c, inst, s, cal, from) && Alike(c, d) && inst.switches <= next.switches
    requires if next.switches == inst.switches then next.room == inst.room else inst.room.day < next.room.day
    ensures ConnRight(d, next, s, cal, from)
  {
    hide Claimed;
  }

  lemma TurnedKeepsStamps(s: State, i: nat, act: Act, cal: Calendar, from: int)
    requires i < |s.instances| && Possible(s, i, act, cal) && !OfConnection(act) && Tiles(cal, from)
    requires RoomInv(s.instances[i], s.now, cal, from) && StampInv(s.instances[i], s, cal, from)
    ensures StampInv(Turned(s, i, act, cal), s, cal, from)
  {
    var inst, next := s.instances[i], Turned(s, i, act, cal);
    hide Tiles, Possible, Turned, Acted, Alike, ConnRight, RoomInv, Snapshot;
    TurnedAlike(s, i, act, cal);
    TurnedKeeps(s, i, act, cal);
    TurnedRoll(s, i, act, cal);
    if act.CheckRoom? { SwitchGoesForward(inst, s, cal, from); }
    forall k <- next.conns
      ensures ConnRight(next.conns[k], next, s, cal, from)
    {
      assert ConnRight(inst.conns[k], inst, s, cal, from);
      AlikeRight(inst.conns[k], next.conns[k], inst, next, s, cal, from);
    }
  }

  lemma ActKeepsStamps(s: State, i: nat, act: Act, cal: Calendar, from: int)
    requires i < |s.instances| && Possible(s, i, act, cal) && Tiles(cal, from)
             && RoomInv(s.instances[i], s.now, cal, from)
    requires StampInv(s.instances[i], s, cal, from)
    ensures StampInv(Acted(s, i, act, cal), Shared(s, i, act, cal), cal, from)
  {
    var inst := s.instances[i];
    SharedGrows(s, i, act, cal);
    if OfConnection(act) {
      hide *;
      OnlyOne(s, i, act, cal);
      MovedKeepsStamps(s, i, act, cal, from);
      OneMoreRight(inst, Acted(s, i, act, cal), act.k, Moved(s, i, act, cal), s, Shared(s, i, act, cal), cal, from);
    } else {
      assert Acted(s, i, act, cal) == Turned(s, i, act, cal);
      hide *;
      TurnedKeepsStamps(s, i, act, cal, from);
      GrowthKeepsStamps(Turned(s, i, act, cal), s, Shared(s, i, act, cal), cal, from);
    }
  }

  lemma SharedGrows(s: State, i: nat, act: Act, cal: Calendar)
    requires i < |s.instances| && Possible(s, i, act, cal)
    ensures Grows(s, Shared(s, i, act, cal))
  {
    hide Snapshot, BatchEnd, Free;
  }

  lemma ActKeepsStore(s: State, i: nat, act: Act, cal: Calendar, from: int)
    requires i < |s.instances| && Possible(s, i, act, cal) && RoomInv(s.instances[i], s.now, cal, from)
    requires StampInv(s.instances[i], s, cal, from) && StoreInv(s, cal, from)
    ensures StoreInv(Shared(s, i, act, cal), cal, from)
  {
    hide Snapshot, BatchEnd, Free;
  }

  // ----- Counts -----

  /** The joined connections, and one too many for every join that was committed after its connection closed. */
  ghost predicate CountInv(inst: Instance) {
    inst.joinedCount == |JoinedKeys(inst.conns)| + inst.lateJoins
  }

  lemma ActKeepsCount(s: State, i: nat, act: Act, cal: Calendar)
    requires i < |s.instances| && Possible(s, i, act, cal) && CountInv(s.instances[i])
    ensures CountInv(Acted(s, i, act, cal))
  {
    if act.JoinCommit? {
      hide *;
      JoinIsCounted(s, i, act.k, cal);
    } else if act.Close? {
      hide *;
      CloseIsCounted(s, i, act.k, cal);
    } else {
      ActCountsNothing(s, i, act, cal);
      hide *;
      SameCount(s.instances[i], Acted(s, i, act, cal));
    }
  }

  lemma SameCount(inst: Instance, other: Instance)
    requires CountInv(inst) && JoinedKeys(other.conns) == JoinedKeys(inst.conns)
    requires other.joinedCount == inst.joinedCount && other.lateJoins == inst.lateJoins
    ensures CountInv(other)
  {
    hide JoinedKeys;
  }

  lemma JoinIsCounted(s: State, i: nat, k: Key, cal: Calendar)
    requires i < |s.instances| && Possible(s, i, JoinCommit(k), cal) && CountInv(s.instances[i])
    ensures CountInv(Acted(s, i, JoinCommit(k), cal))
  {
    var conns := s.instances[i].conns;
    var c := Moved(s, i, JoinCommit(k), cal);
    assert k in conns && !conns[k].joined && c.joined && c.closed == conns[k].closed;
    hide Moved, Possible, Misses, JoinedKeys;
    OneMoreJoined(conns, k, c);
  }

  lemma OneMoreJoined(conns: map<Key, Conn>, k: Key, c: Conn)
    requires k in conns && !conns[k].joined && c.joined && c.closed == conns[k].closed
    ensures |JoinedKeys(conns[k := c])| == |JoinedKeys(conns)| + if c.closed then 0 else 1
  {
    assert JoinedKeys(conns[k := c]) == JoinedKeys(conns) + if c.closed then {} else {k};
  }

  lemma CloseIsCounted(s: State, i: nat, k: Key, cal: Calendar)
    requires i < |s.instances| && Possible(s, i, Close(k), cal) && CountInv(s.instances[i])
    ensures CountInv(Acted(s, i, Close(k), cal))
  {
    var inst, next := s.instances[i], Acted(s, i, Close(k), cal);
    assert JoinedKeys(next.conns) == JoinedKeys(inst.conns) - {k};
  }

  lemma AlikeJoined(conns: map<Key, Conn>, others: map<Key, Conn>)
    requires others.Keys == conns.Keys && forall k <- conns :: Alike(conns[k], others[k])
    ensures JoinedKeys(others) == JoinedKeys(conns)
  {
    forall k <- conns
      ensures others[k].joined == conns[k].joined && others[k].closed == conns[k].closed
    {
      assert Alike(conns[k], others[k]);
    }
  }

  lemma ActCountsNothing(s: State, i: nat, act: Act, cal: Calendar)
    requires i < |s.instances| && Possible(s, i, act, cal) && !act.JoinCommit? && !act.Close?
    ensures var inst, next := s.instances[i], Acted(s, i, act, cal);
            JoinedKeys(next.conns) == JoinedKeys(inst.conns) && next.joinedCount == inst.joinedCount
            && next.lateJoins == inst.lateJoins
  {
    hide Acted, Moved, Turned, Possible, Alike;
    if OfConnection(act) {
      if act.Accept? { AcceptIsNew(s, i, act, cal); } else { MovedKeeps(s, i, act, cal); }
      OnlyOne(s, i, act, cal);
    } else {
      TurnedAlike(s, i, act, cal);
      TurnedKeeps(s, i, act, cal);
      AlikeJoined(s.instances[i].conns, Turned(s, i, act, cal).conns);
    }
  }

  // ----- Sessions of the current room -----

  /** The rollover has yet to give `k` a new record. */
  predicate Due(roll: Roll, k: Key) {
    match roll
    case Still => false
    case Batching(live, begun, waiting, _) => k in waiting || (begun <= |live| && k in live[begun..])
    case _ => true
  }

  /** An open, joined connection that no rollover is about to renew holds a session of the current room,
      exactly if its join did not miss the snapshot. */
  ghost predicate CurrentInv(inst: Instance) {
    forall k <- inst.conns :: Current(inst.conns[k], inst, k)
  }

  ghost predicate Current(c: Conn, inst: Instance, k: Key) {
    && (c.joined <==> c.rec.Some?) && (c.closed ==> !c.open)
    && (c.joined && c.open && !Due(inst.roll, k) ==> (c.rec.value.roomId == inst.room.roomId <==> !c.missed))
  }

  lemma ActKeepsCurrent(s: State, i: nat, act: Act, cal: Calendar)
    requires i < |s.instances| && Possible(s, i, act, cal) && RollInv(s.instances[i], s.sids)
             && CurrentInv(s.instances[i])
    ensures CurrentInv(Acted(s, i, act, cal))
  {
    if OfConnection(act) {
      MovedIsCurrent(s, i, act, cal);
      hide Acted, Moved, Possible, RollInv, Current;
      OnlyOne(s, i, act, cal);
      OthersStayCurrent(s.instances[i], Acted(s, i, act, cal), act.k, Moved(s, i, act, cal));
    } else {
      TurnedIsCurrent(s, i, act, cal);
      hide Turned, Moved, Possible, RollInv, Current, CurrentInv;
    }
  }

  /** Who was due a renewal still is, unless closed; and a switch makes everybody due. */
  lemma DueEnough(s: State, i: nat, act: Act, cal: Calendar)
    requires i < |s.instances| && Possible(s, i, act, cal) && !OfConnection(act) && !act.BatchStart?
    ensures var inst, next := s.instances[i], Turned(s, i, act, cal);
            forall k <- inst.conns :: inst.conns[k].joined && !inst.conns[k].closed ==>
              Due(next.roll, k) || (!Due(inst.roll, k) && next.room == inst.room)
  {
    hide Turned, Acted, Possible, Free, Snapshot;
    TurnedKeeps(s, i, act, cal);
    TurnedRoll(s, i, act, cal);
    if act.LockReply? || act.CleanupDone? || act.CleanupFail? {
      TurnedSnapshot(s, i, act, cal);
      SnapshotIsDue(s.instances[i], act.live);
    }
  }

  lemma AlikeCurrent(inst: Instance, next: Instance, c: Conn, d: Conn, k: Key)
    requires Current(c, inst, k) && Alike(c, d)
    requires c.joined && !c.closed ==> Due(next.roll, k) || (!Due(inst.roll, k) && next.room == inst.room)
    ensures Current(d, next, k)
  {
    hide Due;
  }

  lemma TurnedIsCurrent(s: State, i: nat, act: Act, cal: Calendar)
    requires i < |s.instances| && Possible(s, i, act, cal) && !OfConnection(act)
    requires RollInv(s.instances[i], s.sids) && CurrentInv(s.instances[i])
    ensures CurrentInv(Turned(s, i, act, cal))
  {
    var inst, next := s.instances[i], Turned(s, i, act, cal);
    if act.BatchStart? {
      BatchKeepsCurrent(s, i, cal);
    } else {
      hide Turned, Acted, Possible, RollInv, Alike, Snapshot, Current, Due, Free;
      TurnedAlike(s, i, act, cal);
      TurnedKeeps(s, i, act, cal);
      DueEnough(s, i, act, cal);
      forall k <- next.conns
        ensures Current(next.conns[k], next, k)
      {
        assert Current(inst.conns[k], inst, k);
        AlikeCurrent(inst, next, inst.conns[k], next.conns[k], k);
      }
    }
  }

  lemma OthersStayCurrent(inst: Instance, other: Instance, k: Key, c: Conn)
    requires CurrentInv(inst) && other.conns == inst.conns[k := c] && Current(c, other, k) && other.room == inst.room
    requires other.roll == inst.roll
             || (inst.roll.Batching? && other.roll == inst.roll.(waiting := inst.roll.waiting - {k}))
    ensures CurrentInv(other)
  {
  }

  lemma MovedIsCurrent(s: State, i: nat, act: Act, cal: Calendar)
    requires i < |s.instances| && Possible(s, i, act, cal) && OfConnection(act)
    requires RollInv(s.instances[i], s.sids) && CurrentInv(s.instances[i])
    ensures Current(Moved(s, i, act, cal), Acted(s, i, act, cal), act.k)
  {
    var inst := s.instances[i];
    OnlyOne(s, i, act, cal);
    hide Acted, Snapshot, Claimed;
    if act.JoinCommit? || act.Accept? {
      assert inst.roll.Batching? ==> act.k !in inst.roll.live && act.k !in inst.roll.waiting;
    }
    if !act.JoinCommit? && !act.Accept? && !act.ConnRolled? && !act.ConnRollFailed? {
      MovedKeeps(s, i, act, cal);
      MovedRecord(s, i, act, cal);
      assert Current(inst.conns[act.k], inst, act.k);
      hide Moved, Possible, RollInv;
    }
  }

  lemma SnapshotIsDue(inst: Instance, live: seq<Key>)
    requires Snapshot(live, inst.conns)
    ensures forall k <- inst.conns :: inst.conns[k].joined && !inst.conns[k].closed ==> k in live && k in live[0..]
  {
    assert live[0..] == live;
    assert forall k <- inst.conns :: inst.conns[k].joined && !inst.conns[k].closed ==> k in JoinedKeys(inst.conns);
  }

  lemma BatchKeepsCurrent(s: State, i: nat, cal: Calendar)
    requires i < |s.instances| && Possible(s, i, BatchStart, cal) && RollInv(s.instances[i], s.sids)
             && CurrentInv(s.instances[i])
    ensures CurrentInv(Turned(s, i, BatchStart, cal))
  {
    var inst, next := s.instances[i], Turned(s, i, BatchStart, cal);
    var live, begun, end := inst.roll.live, inst.roll.begun, BatchEnd(inst.roll);
    assert live[begun..] == live[begun..end] + live[end..];
    hide RollInv, Snapshot, BatchEnd;
    forall k <- next.conns
      ensures Current(next.conns[k], next, k)
    {
      assert Current(inst.conns[k], inst, k);
      assert inst.conns[k].open && Due(inst.roll, k) ==> Due(next.roll, k);
    }
  }

  // ----- The lock on an old room -----

  ghost predicate LockInv(s: State, cal: Calendar, from: int) {
    && (forall i :: 0 <= i < |s.cleanups| ==>
          && s.cleanups[i].room.endsAt <= s.cleanups[i].at <= s.now && s.cleanups[i].room.roomId in s.locks
          && IsRoom(s.cleanups[i].room, cal, from)
          && s.cleanups[i].at + LOCK_MS <= s.locks[s.cleanups[i].room.roomId])
    && (forall i, j :: 0 <= i < j < |s.cleanups| && s.cleanups[i].room.roomId == s.cleanups[j].room.roomId ==>
          s.cleanups[i].at + LOCK_MS <= s.cleanups[j].at)
  }

  lemma LocksStay(s: State, t: State, cal: Calendar, from: int)
    requires LockInv(s, cal, from) && t.locks == s.locks && t.cleanups == s.cleanups && s.now <= t.now
    ensures LockInv(t, cal, from)
  {
  }

  lemma LockTaken(s: State, t: State, room: Room, cal: Calendar, from: int)
    requires LockInv(s, cal, from) && Free(s, room.roomId) && room.endsAt <= s.now && t.now == s.now
             && IsRoom(room, cal, from)
    requires t.locks == s.locks[room.roomId := s.now + LOCK_MS] && t.cleanups == s.cleanups + [Cleanup(room, s.now)]
    ensures LockInv(t, cal, from)
  {
  }

  lemma StepKeepsLocks(s: State, step: Step, cal: Calendar, from: int)
    requires Enabled(s, step, cal) && LockInv(s, cal, from)
    requires step.At? ==> EndedInv(s.instances[step.i], cal, from) && s.instances[step.i].since <= s.now
    ensures LockInv(After(s, step, cal), cal, from)
  {
    hide Snapshot, BatchEnd, Acted, Claimed, LockInv;
    if step.At? && step.act.LockReply? && Free(s, s.instances[step.i].roll.prev.roomId) {
      LockTaken(s, After(s, step, cal), s.instances[step.i].roll.prev, cal, from);
    } else {
      LocksStay(s, After(s, step, cal), cal, from);
    }
  }

  // ----- Challenges -----

  /** While a rollover awaits the new record, the pending flag of the old one is what was carried if it has
      changed an even number of times; and a challenge whose answer is being verified is pending. */
  ghost predicate ChallengeInv(inst: Instance) {
    forall k <- inst.conns :: Challenged(inst.conns[k])
  }

  predicate Even(n: nat) {
    n % 2 == 0
  }

  lemma NextIsOdd(n: nat)
    ensures Even(0) && (Even(n + 1) <==> !Even(n))
  {
  }

  ghost predicate Challenged(c: Conn) {
    && (c.carry.Some? ==> (c.pending == c.carry.value <==> Even(c.flips)))
    && (c.frame.Verifying? && c.rec.Some? && c.rec.value.sid == c.frame.sid ==> c.pending)
    && (c.carry.Some? ==> c.joined) && (c.joined <==> c.rec.Some?)
       && (c.frame.Deciding? || c.frame.Verifying? ==> c.joined)
  }

  /** Session ids in use are known. */
  ghost predicate KnownInv(inst: Instance, sids: set<nat>) {
    forall k <- inst.conns :: Known(inst.conns[k], sids)
  }

  ghost predicate Known(c: Conn, sids: set<nat>) {
    && (c.rec.Some? ==> c.rec.value.sid in sids) && (c.frame.Verifying? ==> c.frame.sid in sids)
    && (c.frame.Joining? ==> c.frame.rec.sid in sids)
  }

  ghost predicate ClaimsKnown(s: State) {
    forall p <- s.claims :: s.claims[p] in s.sids
  }

  lemma NewSid(s: State, i: nat, act: Act, cal: Calendar)
    requires i < |s.instances| && Possible(s, i, act, cal)
    ensures act.ConnRolled? ==> act.sid in Shared(s, i, act, cal).sids && act.sid !in s.sids
  {
    hide Snapshot, Free, Claimed;
  }

  lemma MovedStaysKnown(s: State, i: nat, act: Act, cal: Calendar)
    requires i < |s.instances| && Possible(s, i, act, cal) && OfConnection(act)
    requires KnownInv(s.instances[i], s.sids) && ClaimsKnown(s)
    ensures Known(Moved(s, i, act, cal), Shared(s, i, act, cal).sids)
  {
    SharedGrows(s, i, act, cal);
    if act.Accept? {
      AcceptIsNew(s, i, act, cal);
    } else {
      MovedWaits(s, i, act, cal);
      MovedSession(s, i, act, cal);
      NewSid(s, i, act, cal);
      assert Known(s.instances[i].conns[act.k], s.sids);
    }
    hide Possible, Moved, Shared, KnownInv;
  }

  lemma MovedStaysChallenged(s: State, i: nat, act: Act, cal: Calendar)
    requires i < |s.instances| && Possible(s, i, act, cal) && OfConnection(act)
    requires ChallengeInv(s.instances[i]) && KnownInv(s.instances[i], s.sids)
    ensures Challenged(Moved(s, i, act, cal))
  {
    hide Possible, Moved, Shared, Even;
    if act.Accept? {
      AcceptIsNew(s, i, act, cal);
    } else {
      MovedWaits(s, i, act, cal);
      MovedSession(s, i, act, cal);
      MovedChallenge(s, i, act, cal);
      var c := s.instances[i].conns[act.k];
      NewSid(s, i, act, cal);
      NextIsOdd(c.flips);
      assert Challenged(c) && Known(c, s.sids);
      hide ChallengeInv, KnownInv, Claimed;
    }
  }

  lemma KnownStays(c: Conn, sids: set<nat>, more: set<nat>)
    requires Known(c, sids) && sids <= more
    ensures Known(c, more)
  {
  }

  lemma AlikeChallenged(c: Conn, d: Conn, sids: set<nat>)
    requires Challenged(c) && Known(c, sids) && Alike(c, d) && d.carry == c.carry && d.flips == c.flips
    ensures Challenged(d) && Known(d, sids)
  {
    hide Even;
  }

  lemma OthersChallenged(inst: Instance, next: Instance, k: Key, d: Conn, sids: set<nat>, more: set<nat>)
    requires ChallengeInv(inst) && KnownInv(inst, sids) && sids <= more && next.conns == inst.conns[k := d]
    requires Challenged(d) && Known(d, more)
    ensures ChallengeInv(next) && KnownInv(next, more)
  {
    hide Challenged, Known;
    forall j <- next.conns
      ensures Challenged(next.conns[j]) && Known(next.conns[j], more)
    {
      if j != k { KnownStays(inst.conns[j], sids, more); }
    }
  }

  lemma AllChallenged(inst: Instance, next: Instance, sids: set<nat>, more: set<nat>)
    requires ChallengeInv(inst) && KnownInv(inst, sids) && sids <= more && next.conns.Keys == inst.conns.Keys
    requires forall k <- inst.conns ::
               && Alike(inst.conns[k], next.conns[k]) && next.conns[k].carry == inst.conns[k].carry
               && next.conns[k].flips == inst.conns[k].flips
    ensures ChallengeInv(next) && KnownInv(next, more)
  {
    hide Challenged, Known, Alike;
    forall k <- next.conns
      ensures Challenged(next.conns[k]) && Known(next.conns[k], more)
    {
      KnownStays(inst.conns[k], sids, more);
      AlikeChallenged(inst.conns[k], next.conns[k], more);
    }
  }

  lemma ActKeepsChallenges(s: State, i: nat, act: Act, cal: Calendar)
    requires i < |s.instances| && Possible(s, i, act, cal) && ClaimsKnown(s) && RollInv(s.instances[i], s.sids)
    requires ChallengeInv(s.instances[i]) && KnownInv(s.instances[i], s.sids)
    ensures ChallengeInv(Acted(s, i, act, cal)) && KnownInv(Acted(s, i, act, cal), Shared(s, i, act, cal).sids)
  {
    SharedGrows(s, i, act, cal);
    hide Acted, Moved, Turned, Possible, Shared, Challenged, Known, RollInv, Alike, ChallengeInv, KnownInv;
    var inst, next := s.instances[i], Acted(s, i, act, cal);
    if OfConnection(act) {
      MovedStaysKnown(s, i, act, cal);
      MovedStaysChallenged(s, i, act, cal);
      OnlyOne(s, i, act, cal);
      OthersChallenged(inst, next, act.k, Moved(s, i, act, cal), s.sids, Shared(s, i, act, cal).sids);
    } else if act.BatchStart? {
      BatchKeepsChallenges(s, i, cal);
    } else {
      TurnedKeeps(s, i, act, cal);
      TurnedAlike(s, i, act, cal);
      AllChallenged(inst, next, s.sids, Shared(s, i, act, cal).sids);
    }
  }

  lemma CarryingIsChallenged(c: Conn, begins: bool, sids: set<nat>)
    requires Challenged(c) && Known(c, sids) && (begins ==> c.joined)
    ensures Challenged(Carrying(c, begins)) && Known(Carrying(c, begins), sids)
  {
    NextIsOdd(0);
    hide Even;
  }

  lemma BatchKeepsChallenges(s: State, i: nat, cal: Calendar)
    requires i < |s.instances| && Possible(s, i, BatchStart, cal) && RollInv(s.instances[i], s.sids)
    requires ChallengeInv(s.instances[i]) && KnownInv(s.instances[i], s.sids)
    ensures ChallengeInv(Acted(s, i, BatchStart, cal)) && KnownInv(Acted(s, i, BatchStart, cal), s.sids)
  {
    var inst, next := s.instances[i], Acted(s, i, BatchStart, cal);
    var batch := inst.roll.live[inst.roll.begun..BatchEnd(inst.roll)];
    assert next.conns == map k | k in inst.conns :: Carrying(inst.conns[k], k in batch);
    assert forall k <- batch :: k in inst.conns && inst.conns[k].joined;
    hide Acted, Turned, Possible, RollInv, BatchEnd, Challenged, Known, Carrying;
    forall k <- inst.conns
      ensures Challenged(next.conns[k]) && Known(next.conns[k], s.sids)
    {
      CarryingIsChallenged(inst.conns[k], k in batch, s.sids);
    }
  }

  lemma StepKeepsClaimsKnown(s: State, step: Step, cal: Calendar)
    requires Enabled(s, step, cal) && ClaimsKnown(s)
    ensures ClaimsKnown(After(s, step, cal))
  {
    hide Snapshot, BatchEnd, Acted, Claimed, Free;
  }

  // ----- All of it, in every run -----

  ghost predicate InstanceInv(inst: Instance, s: State, cal: Calendar, from: int) {
    && RoomInv(inst, s.now, cal, from) && FanOutInv(inst, s.bus) && RollInv(inst, s.sids)
    && StampInv(inst, s, cal, from) && CountInv(inst)
    && CurrentInv(inst) && EndedInv(inst, cal, from) && ChallengeInv(inst) && KnownInv(inst, s.sids)
  }

  ghost predicate Inv(s: State, cal: Calendar, from: int) {
    StoreInv(s, cal, from) && LockInv(s, cal, from) && ClaimsKnown(s)
    && forall i :: 0 <= i < |s.instances| ==> InstanceInv(s.instances[i], s, cal, from)
  }

  /** An instance that a step does not touch. */
  lemma GrowthKeepsInstance(inst: Instance, s: State, t: State, cal: Calendar, from: int)
    requires InstanceInv(inst, s, cal, from) && Grows(s, t)
    ensures InstanceInv(inst, t, cal, from)
  {
    GrowthKeepsStamps(inst, s, t, cal, from);
    AsideKeepsRoll(inst, inst, s.sids, t.sids);
    CalmKeeps(inst, inst, s.bus, t.bus);
    hide FanOutInv, RollInv, StampInv, CountInv, CurrentInv, EndedInv, ChallengeInv;
  }

  lemma ActKeepsInstance(s: State, i: nat, act: Act, cal: Calendar, from: int)
    requires i < |s.instances| && Possible(s, i, act, cal) && Tiles(cal, from) && from <= s.now
             && InstanceInv(s.instances[i], s, cal, from)
    requires ClaimsKnown(s)
    ensures InstanceInv(Acted(s, i, act, cal), Shared(s, i, act, cal), cal, from)
  {
    hide FanOutInv, RollInv, StampInv, CountInv, CurrentInv, EndedInv, ChallengeInv, Tiles, Possible, Acted, Shared,
      RoomInv;
    ActKeepsRoom(s, i, act, cal, from);
    ActKeepsFanOut(s, i, act, cal);
    ActKeepsRoll(s, i, act, cal);
    ActKeepsStamps(s, i, act, cal, from);
    ActKeepsCount(s, i, act, cal);
    ActKeepsCurrent(s, i, act, cal);
    ActKeepsEnded(s, i, act, cal, from);
    ActKeepsChallenges(s, i, act, cal);
  }

  /** What an instance keeps does not depend on the other instances. */
  lemma InstancesApart(inst: Instance, s: State, instances: seq<Instance>, cal: Calendar, from: int)
    requires InstanceInv(inst, s, cal, from)
    ensures InstanceInv(inst, s.(instances := instances), cal, from)
  {
    hide FanOutInv, RollInv, CountInv, CurrentInv, EndedInv, ChallengeInv;
  }

  lemma EndedFor(inst: Instance, s: State, cal: Calendar, from: int)
    requires InstanceInv(inst, s, cal, from)
    ensures EndedInv(inst, cal, from) && inst.since <= s.now
  {
    hide FanOutInv, RollInv, StampInv, CountInv, CurrentInv, EndedInv, ChallengeInv, KnownInv;
  }

  lemma AtKeeps(s: State, i: nat, act: Act, cal: Calendar, from: int)
    requires Enabled(s, At(i, act), cal) && Tiles(cal, from) && from <= s.now && Inv(s, cal, from)
    ensures var t := After(s, At(i, act), cal);
            StoreInv(t, cal, from) && forall j :: 0 <= j < |t.instances| ==> InstanceInv(t.instances[j], t, cal, from)
  {
    var t := After(s, At(i, act), cal);
    StepGrows(s, At(i, act), cal);
    hide InstanceInv, LockInv, Grows, Tiles, ClaimsKnown, Possible, Shared, Acted, StoreInv;
    StoreApart(s, i, act, t.instances, cal, from);
    var shared, inst := Shared(s, i, act, cal), Acted(s, i, act, cal);
    ActKeepsInstance(s, i, act, cal, from);
    InstancesApart(inst, shared, t.instances, cal, from);
    SameInstancesNow(s, i, act, cal);
    RestStays(s, t, i, inst, cal, from);
  }

  lemma StoreApart(s: State, i: nat, act: Act, instances: seq<Instance>, cal: Calendar, from: int)
    requires i < |s.instances| && Possible(s, i, act, cal) && Inv(s, cal, from)
    ensures StoreInv(Shared(s, i, act, cal).(instances := instances), cal, from)
  {
    assert InstanceInv(s.instances[i], s, cal, from);
    hide InstanceInv, Possible, Shared, LockInv, ClaimsKnown;
    ActKeepsEntries(s, i, act, cal, from);
  }

  lemma RestStays(s: State, t: State, i: nat, inst: Instance, cal: Calendar, from: int)
    requires i < |s.instances| && Inv(s, cal, from) && Grows(s, t) && InstanceInv(inst, t, cal, from)
    requires t.instances == s.instances[i := inst]
    ensures forall j :: 0 <= j < |t.instances| ==> InstanceInv(t.instances[j], t, cal, from)
  {
    hide InstanceInv, LockInv, StoreInv, ClaimsKnown, Grows;
    forall j | 0 <= j < |t.instances|
      ensures InstanceInv(t.instances[j], t, cal, from)
    {
      if j != i { GrowthKeepsInstance(s.instances[j], s, t, cal, from); }
    }
  }

  lemma SameInstancesNow(s: State, i: nat, act: Act, cal: Calendar)
    requires i < |s.instances| && Possible(s, i, act, cal)
    ensures Shared(s, i, act, cal).instances == s.instances
  {
    hide Possible, Free;
  }

  lemma OthersKeep(s: State, step: Step, cal: Calendar, from: int)
    requires Enabled(s, step, cal) && Inv(s, cal, from) && !step.At?
    ensures var t := After(s, step, cal);
            StoreInv(t, cal, from) && forall j :: 0 <= j < |t.instances| ==> InstanceInv(t.instances[j], t, cal, from)
  {
    var t := After(s, step, cal);
    StepGrows(s, step, cal);
    hide InstanceInv, LockInv, Grows, ClaimsKnown, StoreInv;
    GrowthKeepsStore(s, t, cal, from);
    forall j | 0 <= j < |t.instances|
      ensures InstanceInv(t.instances[j], t, cal, from)
    {
      GrowthKeepsInstance(s.instances[j], s, t, cal, from);
    }
  }

  lemma StepKeeps(s: State, step: Step, cal: Calendar, from: int)
    requires Enabled(s, step, cal) && Tiles(cal, from) && from <= s.now && Inv(s, cal, from)
    ensures Inv(After(s, step, cal), cal, from)
  {
    var t := After(s, step, cal);
    hide InstanceInv, LockInv, StoreInv, Grows, Tiles, ClaimsKnown, Possible, Acted, Shared, After;
    if step.At? { assert InstanceInv(s.instances[step.i], s, cal, from); EndedFor(s.instances[step.i], s, cal, from); }
    StepKeepsLocks(s, step, cal, from);
    StepKeepsClaimsKnown(s, step, cal);
    if step.At? { AtKeeps(s, step.i, step.act, cal, from); } else { OthersKeep(s, step, cal, from); }
  }

  lemma ActKeepsEntries(s: State, i: nat, act: Act, cal: Calendar, from: int)
    requires i < |s.instances| && Possible(s, i, act, cal) && InstanceInv(s.instances[i], s, cal, from)
             && StoreInv(s, cal, from)
    ensures StoreInv(Shared(s, i, act, cal), cal, from)
  {
    hide FanOutInv, RollInv, StampInv, CountInv, CurrentInv, EndedInv, ChallengeInv, RoomInv, StoreInv, Possible,
      Shared;
    ActKeepsStore(s, i, act, cal, from);
  }

  lemma GrowthKeepsStore(s: State, t: State, cal: Calendar, from: int)
    requires StoreInv(s, cal, from) && Grows(s, t) && t.entries == s.entries && t.bus == s.bus
    ensures StoreInv(t, cal, from)
  {
  }

  lemma StartedRight(s: State, cal: Calendar, from: int)
    requires Started(s, cal) && from <= s.now
    ensures Inv(s, cal, from)
  {
    assert WaitingOf([]) == [];
  }

  /** Every state of every run. */
  lemma {:induction false} RunKeeps(states: seq<State>, steps: seq<Step>, n: nat, cal: Calendar, from: int)
    requires Run(states, steps, cal) && Tiles(cal, from) && from <= states[0].now && n <= |steps|
    ensures Inv(states[n], cal, from) && from <= states[n].now
  {
    hide Inv, Tiles, After, Enabled, Started;
    if n == 0 {
      StartedRight(states[0], cal, from);
    } else {
      RunKeeps(states, steps, n - 1, cal, from);
      assert Enabled(states[n - 1], steps[n - 1], cal) && states[n - 1 + 1] == After(states[n - 1], steps[n - 1], cal);
      StepKeeps(states[n - 1], steps[n - 1], cal, from);
      ClockGoesOn(states[n - 1], steps[n - 1], cal);
    }
  }

  lemma ClockGoesOn(s: State, step: Step, cal: Calendar)
    requires Enabled(s, step, cal)
    ensures s.now <= After(s, step, cal).now
  {
    StepGrows(s, step, cal);
    hide After, Enabled;
  }
}
