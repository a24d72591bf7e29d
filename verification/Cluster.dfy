/** The room protocol of several instances (src/gateway/room-server.ts, src/gateway/connection.ts) over one
    store and one bus (src/store/memory.ts). A step is what runs between two awaits; any step that is
    enabled may come next. */
module Cluster {
  import opened Types
  import opened Day

  const RESET_BATCH := 250
  const LOCK_MS := 3_600_000

  datatype Key = Key(instance: nat, n: nat)

  /** The part of a session record that matters here. */
  datatype Rec = Rec(roomId: string, name: string, sid: nat)

  /** What the frame handler of a connection is waiting for. */
  datatype Frame =
    | Idle
    | Joining(rec: Rec, pending: bool)
    | Deciding(ts: int, rec: Rec, room: Room, switches: nat)
    | Publishing(entry: nat)
    | Verifying(sid: nat)

  /** `received` are the positions on the bus of the broadcasts it was sent; `missed` says that its join was
      committed with a session of another room when no snapshot was to come. `pending` is the challenge of the
      current record; while its rollover awaits the new record, `carry` is what that record will say, and `flips`
      counts how often the old one has changed since. */
  datatype Conn = Conn(
    joined: bool, open: bool, closed: bool, rec: Option<Rec>, frame: Frame, received: seq<nat>, missed: bool,
    pending: bool, carry: Option<bool>, flips: nat)
  {
    function Flipped(to: bool): Conn {
      this.(frame := Idle, pending := to, flips := flips + if carry.Some? then 1 else 0)
    }
  }

  const NEW := Conn(false, true, false, None, Idle, [], false, false, None, 0)

  /** A message in the store: the room it was appended to (chosen at `since`), and what `decide` had checked. */
  datatype Entry = Entry(room: Room, since: int, ts: int, rec: Rec, checked: Room, straddled: bool)

  datatype Event = Event(roomId: string, entry: nat, exclude: Key)

  datatype Item = Item(index: nat, event: Event)

  /** What became of a delivered event; `members` are the rooms of the joined connections at its flush. */
  datatype Fate =
    | Dropped(event: Event)
    | Waiting(event: Event)
    | Flushed(event: Event, roomId: string, members: map<Key, string>)

  datatype Roll =
    | Still
    | Locking(prev: Room)
    | Cleaning(prev: Room)
    | Batching(live: seq<Key>, begun: nat, waiting: set<Key>, known: set<nat>)

  /** `fates` has one element for every event delivered so far; `since` is the instant that chose the room. */
  datatype Instance = Instance(
    room: Room, since: int, switches: nat, outbox: seq<Item>, flushScheduled: bool, fates: seq<Fate>,
    conns: map<Key, Conn>, joinedCount: int, lateJoins: nat, roll: Roll)
  {
    function With(k: Key, c: Conn): Instance {
      this.(conns := conns[k := c])
    }
  }

  datatype Cleanup = Cleanup(room: Room, at: int)

  datatype State = State(
    now: int, instances: seq<Instance>, bus: seq<Event>, entries: seq<Entry>, locks: map<string, int>,
    cleanups: seq<Cleanup>, claims: map<(string, string), nat>, sids: set<nat>)

  datatype Act =
    | Accept(k: Key)
    | JoinCheck(k: Key, rec: Rec, pending: bool)
    | JoinBlocked(k: Key)
    | JoinCommit(k: Key)
    | DecideStart(k: Key)
    | DecideReject(k: Key)
    | Append(k: Key)
    | Publish(k: Key)
    | PublishFail(k: Key)
    | Issue(k: Key)
    | ResponseStart(k: Key)
    | ResponsePass(k: Key)
    | ResponseFail(k: Key)
    | Disconnect(k: Key)
    | Close(k: Key)
    | Deliver
    | Flush
    | CheckRoom
    | LockReply(live: seq<Key>)
    | CleanupDone(live: seq<Key>)
    | CleanupFail(live: seq<Key>)
    | BatchStart
    | ConnRolled(k: Key, name: string, sid: nat)
    | ConnRollFailed(k: Key)
    | RollEnd

  datatype Step = Tick(elapsed: nat) | Claim(roomId: string, name: string, sid: nat) | At(i: nat, act: Act)

  // ----- Helpers -----

  predicate Claimed(claims: map<(string, string), nat>, rec: Rec) {
    (rec.roomId, rec.name) in claims && claims[(rec.roomId, rec.name)] == rec.sid
  }

  /** The connections a flush looks at, with the rooms of their records. */
  function Members(conns: map<Key, Conn>): map<Key, string> {
    map k | k in conns && conns[k].joined && conns[k].rec.Some? && !conns[k].closed :: conns[k].rec.value.roomId
  }

  function JoinedKeys(conns: map<Key, Conn>): set<Key> {
    set k | k in conns && conns[k].joined && !conns[k].closed
  }

  /** The batch for one connection: what waits for this room and is not its own. */
  function Chosen(outbox: seq<Item>, roomId: string, k: Key): seq<nat> {
    if outbox == [] then []
    else
      var last := outbox[|outbox| - 1];
      Chosen(outbox[..|outbox| - 1], roomId, k) +
      if last.event.roomId == roomId && last.event.exclude != k then [last.index] else []
  }

  function Served(k: Key, c: Conn, outbox: seq<Item>, roomId: string): Conn {
    if c.joined && c.rec.Some? && !c.closed && c.rec.value.roomId == roomId && c.open
    then c.(received := c.received + Chosen(outbox, roomId, k))
    else c
  }

  function Settled(fates: seq<Fate>, roomId: string, members: map<Key, string>): (settled: seq<Fate>)
    ensures |settled| == |fates|
  {
    if fates == [] then []
    else
      var last := fates[|fates| - 1];
      Settled(fates[..|fates| - 1], roomId, members) +
      [if last.Waiting? then Flushed(last.event, roomId, members) else last]
  }

  /** The snapshot of a rollover: every joined connection, once. */
  ghost predicate Snapshot(live: seq<Key>, conns: map<Key, Conn>) {
    && (forall k :: k in live <==> k in JoinedKeys(conns))
    && (forall i, j :: 0 <= i < j < |live| ==> live[i] != live[j])
  }

  function BatchEnd(roll: Roll): nat
    requires roll.Batching? && roll.begun <= |roll.live|
  {
    if roll.begun + RESET_BATCH <= |roll.live| then roll.begun + RESET_BATCH else |roll.live|
  }

  /** The start of a connection's rollover reads the pending challenge. */
  function Carrying(c: Conn, begins: bool): Conn {
    if begins && !c.closed then c.(carry := Some(c.pending), flips := 0) else c
  }

  /** A session of another room, taken into use when the rollover has made its snapshot already. */
  predicate Misses(inst: Instance, rec: Rec) {
    rec.roomId != inst.room.roomId && !inst.roll.Locking? && !inst.roll.Cleaning?
  }

  // ----- Steps -----

  predicate Free(s: State, roomId: string) {
    roomId !in s.locks || s.locks[roomId] <= s.now
  }

  ghost predicate Enabled(s: State, step: Step, cal: Calendar) {
    match step
    case Tick(_) => true
    case Claim(roomId, name, sid) => (roomId, name) !in s.claims && sid !in s.sids
    case At(i, act) => i < |s.instances| && Possible(s, i, act, cal)
  }

  ghost predicate Possible(s: State, i: nat, act: Act, cal: Calendar)
    requires i < |s.instances|
  {
    var inst := s.instances[i];
    match act
    case Accept(k) => k.instance == i && k !in inst.conns
    case JoinCheck(k, rec, _) =>
      && k in inst.conns && inst.conns[k].frame.Idle? && !inst.conns[k].joined && !inst.conns[k].closed
      && rec.roomId == inst.room.roomId && Claimed(s.claims, rec)
    case JoinBlocked(k) => k in inst.conns && inst.conns[k].frame.Joining?
    case JoinCommit(k) => k in inst.conns && inst.conns[k].frame.Joining? && !inst.conns[k].joined
    case DecideStart(k) =>
      && k in inst.conns && inst.conns[k].frame.Idle? && inst.conns[k].joined && inst.conns[k].rec.Some?
      && !inst.conns[k].closed
      && cal.RoomAt(s.now).roomId == inst.room.roomId && inst.conns[k].rec.value.roomId == inst.room.roomId
      && !inst.conns[k].pending
    case DecideReject(k) => k in inst.conns && inst.conns[k].frame.Deciding?
    case Append(k) => k in inst.conns && inst.conns[k].frame.Deciding?
    case Publish(k) => k in inst.conns && inst.conns[k].frame.Publishing? && inst.conns[k].frame.entry < |s.entries|
    case PublishFail(k) => k in inst.conns && inst.conns[k].frame.Publishing?
    case Issue(k) => k in inst.conns && inst.conns[k].frame.Deciding? && !inst.conns[k].pending
    case ResponseStart(k) =>
      && k in inst.conns && inst.conns[k].frame.Idle? && !inst.conns[k].closed && inst.conns[k].rec.Some?
      && inst.conns[k].pending
    case ResponsePass(k) => k in inst.conns && inst.conns[k].frame.Verifying?
    case ResponseFail(k) => k in inst.conns && inst.conns[k].frame.Verifying?
    case Disconnect(k) => k in inst.conns
    case Close(k) => k in inst.conns && !inst.conns[k].closed
    case Deliver => |inst.fates| < |s.bus|
    case Flush => inst.flushScheduled
    case CheckRoom => inst.roll.Still? && cal.RoomAt(s.now).roomId != inst.room.roomId
    case LockReply(live) => inst.roll.Locking? && Snapshot(live, inst.conns)
    case CleanupDone(live) => inst.roll.Cleaning? && Snapshot(live, inst.conns)
    case CleanupFail(live) => (inst.roll.Locking? || inst.roll.Cleaning?) && Snapshot(live, inst.conns)
    case BatchStart => inst.roll.Batching? && inst.roll.waiting == {} && inst.roll.begun < |inst.roll.live|
    case ConnRolled(k, name, sid) =>
      && inst.roll.Batching? && k in inst.roll.waiting && k in inst.conns && inst.conns[k].carry.Some?
      && (inst.room.roomId, name) !in s.claims && sid !in s.sids
    case ConnRollFailed(k) => inst.roll.Batching? && k in inst.roll.waiting && k in inst.conns
    case RollEnd => inst.roll.Batching? && inst.roll.waiting == {} && inst.roll.begun == |inst.roll.live|
  }

  /** Is it a step of one connection? */
  predicate OfConnection(act: Act) {
    && !act.Deliver? && !act.Flush? && !act.CheckRoom? && !act.LockReply? && !act.CleanupDone? && !act.CleanupFail?
    && !act.BatchStart? && !act.RollEnd?
  }

  /** What a step of a connection does to it. */
  ghost function Moved(s: State, i: nat, act: Act, cal: Calendar): Conn
    requires i < |s.instances| && Possible(s, i, act, cal) && OfConnection(act)
  {
    var inst := s.instances[i];
    if act.Accept? then NEW
    else
      var c := inst.conns[act.k];
      match act
      case JoinCheck(_, rec, pending) => c.(frame := Joining(rec, pending))
      case JoinCommit(_) =>
        c.(joined := true, rec := Some(c.frame.rec), frame := Idle, missed := Misses(inst, c.frame.rec),
           pending := c.frame.pending)
      case DecideStart(_) => c.(frame := Deciding(s.now, c.rec.value, inst.room, inst.switches))
      case Append(_) => c.(frame := Publishing(|s.entries|))
      case ResponseStart(_) => c.(frame := Verifying(c.rec.value.sid))
      case ResponsePass(_) =>
        if !c.closed && c.rec.Some? && c.rec.value.sid == c.frame.sid then c.Flipped(false) else c.(frame := Idle)
      case Issue(_) => c.Flipped(true)
      case JoinBlocked(_) => c.(frame := Idle, open := false)
      case Disconnect(_) => c.(open := false)
      case Close(_) => c.(open := false, closed := true)
      case ConnRolled(_, name, sid) =>
        if c.closed then c.(carry := None)
        else c.(rec := Some(Rec(inst.room.roomId, name, sid)), missed := false, pending := c.carry.value, carry := None)
      case ConnRollFailed(_) => c.(open := false, carry := None)
      case _ => c.(frame := Idle)
  }

  /** What a step does to its instance. */
  ghost function Acted(s: State, i: nat, act: Act, cal: Calendar): Instance
    requires i < |s.instances| && Possible(s, i, act, cal)
  {
    var inst := s.instances[i];
    if OfConnection(act) then
      var next := inst.With(act.k, Moved(s, i, act, cal));
      match act
      case JoinCommit(k) =>
        next.(joinedCount := inst.joinedCount + 1, lateJoins := inst.lateJoins + if inst.conns[k].closed then 1 else 0)
      case Close(k) => next.(joinedCount := inst.joinedCount - if inst.conns[k].joined then 1 else 0)
      case ConnRolled(k, _, _) => next.(roll := inst.roll.(waiting := inst.roll.waiting - {k}))
      case ConnRollFailed(k) => next.(roll := inst.roll.(waiting := inst.roll.waiting - {k}))
      case _ => next
    else Turned(s, i, act, cal)
  }

  /** A step of a connection leaves the others and most of the instance alone. */
  lemma OnlyOne(s: State, i: nat, act: Act, cal: Calendar)
    requires i < |s.instances| && Possible(s, i, act, cal) && OfConnection(act)
    ensures var inst, next := s.instances[i], Acted(s, i, act, cal);
            && next.conns == inst.conns[act.k := Moved(s, i, act, cal)] && (act.Accept? <==> act.k !in inst.conns)
            && next.fates == inst.fates && next.outbox == inst.outbox && next.flushScheduled == inst.flushScheduled
            && next.room == inst.room && next.since == inst.since && next.switches == inst.switches
            && (!act.JoinCommit? ==> next.lateJoins == inst.lateJoins)
            && (!act.JoinCommit? && !act.Close? ==> next.joinedCount == inst.joinedCount)
            && (if act.ConnRolled? || act.ConnRollFailed?
                then inst.roll.Batching? && next.roll == inst.roll.(waiting := inst.roll.waiting - {act.k})
                else next.roll == inst.roll)
  {
    hide Moved, Claimed, Snapshot;
  }

  /** What hardly any step of a connection changes. */
  lemma MovedKeeps(s: State, i: nat, act: Act, cal: Calendar)
    requires i < |s.instances| && Possible(s, i, act, cal) && OfConnection(act) && !act.Accept?
    ensures act.k in s.instances[i].conns
    ensures var c, d := s.instances[i].conns[act.k], Moved(s, i, act, cal);
            && d.received == c.received && (d.open ==> c.open) && (d.closed ==> c.closed || !d.open)
            && (act.Close? || d.closed == c.closed) && (act.JoinCommit? || d.joined == c.joined)
  {
    hide Claimed, Snapshot, Misses;
  }

  lemma MovedRecord(s: State, i: nat, act: Act, cal: Calendar)
    requires i < |s.instances| && Possible(s, i, act, cal) && OfConnection(act) && !act.Accept?
    ensures act.k in s.instances[i].conns
    ensures var c, d := s.instances[i].conns[act.k], Moved(s, i, act, cal);
            act.JoinCommit? || act.ConnRolled? || (d.rec == c.rec && d.missed == c.missed)
  {
    hide Claimed, Snapshot, Misses;
  }

  /** The frame that a step leaves a connection in. */
  lemma MovedWaits(s: State, i: nat, act: Act, cal: Calendar)
    requires i < |s.instances| && Possible(s, i, act, cal) && OfConnection(act) && !act.Accept?
    ensures act.k in s.instances[i].conns
    ensures var c, f := s.instances[i].conns[act.k], Moved(s, i, act, cal).frame;
            && (act.JoinCheck? ==> f == Joining(act.rec, act.pending) && Claimed(s.claims, act.rec))
            && (act.DecideStart? ==>
                  && c.joined && c.rec.Some? && !c.pending
                  && f == Deciding(s.now, c.rec.value, s.instances[i].room, s.instances[i].switches)
                  && cal.RoomAt(s.now).roomId == s.instances[i].room.roomId == c.rec.value.roomId)
            && (act.Append? ==> f == Publishing(|s.entries|) && c.frame.Deciding?)
            && (act.ResponseStart? ==> c.rec.Some? && c.pending && f == Verifying(c.rec.value.sid))
            && (act.Disconnect? || act.Close? || act.ConnRolled? || act.ConnRollFailed? ==> f == c.frame)
            && (f.Idle? || act.JoinCheck? || act.DecideStart? || act.Append? || act.ResponseStart?
                || act.Disconnect? || act.Close? || act.ConnRolled? || act.ConnRollFailed?)
  {
    hide Claimed, Snapshot, Misses;
  }

  /** The challenge, and what a renewal will say of it. */
  lemma MovedChallenge(s: State, i: nat, act: Act, cal: Calendar)
    requires i < |s.instances| && Possible(s, i, act, cal) && OfConnection(act) && !act.Accept?
    ensures act.k in s.instances[i].conns
    ensures var c, d := s.instances[i].conns[act.k], Moved(s, i, act, cal);
            var passes := act.ResponsePass? && !c.closed && c.rec.Some? && c.rec.value.sid == c.frame.sid;
            && (act.Issue? ==> c.frame.Deciding? && !c.pending) && (act.ResponsePass? ==> c.frame.Verifying?)
            && (act.ConnRolled? ==> c.carry.Some?) && (act.JoinCommit? ==> c.frame.Joining? && !c.joined)
            && d.carry == (if act.ConnRolled? || act.ConnRollFailed? then None else c.carry)
            && d.flips == c.flips + (if (act.Issue? || passes) && c.carry.Some? then 1 else 0)
            && d.pending == (if act.JoinCommit? then c.frame.pending
                             else if act.Issue? then true
                             else if passes then false
                             else if act.ConnRolled? && !c.closed then c.carry.value
                             else c.pending)
  {
    hide Claimed, Snapshot, Misses;
  }

  /** The session. */
  lemma MovedSession(s: State, i: nat, act: Act, cal: Calendar)
    requires i < |s.instances| && Possible(s, i, act, cal) && OfConnection(act) && !act.Accept?
    ensures act.k in s.instances[i].conns
    ensures var c, d := s.instances[i].conns[act.k], Moved(s, i, act, cal);
            && (act.JoinCommit? ==> c.frame.Joining? && !c.joined && d.joined && d.rec == Some(c.frame.rec))
            && (act.ConnRolled? && !c.closed ==> d.rec == Some(Rec(s.instances[i].room.roomId, act.name, act.sid)))
            && (!act.JoinCommit? ==> d.joined == c.joined)
            && (!act.JoinCommit? && !(act.ConnRolled? && !c.closed) ==> d.rec == c.rec)
  {
    hide Claimed, Snapshot, Misses;
  }

  /** Steps of the instance as a whole. */
  ghost function Turned(s: State, i: nat, act: Act, cal: Calendar): Instance
    requires i < |s.instances| && Possible(s, i, act, cal) && !OfConnection(act)
  {
    var inst := s.instances[i];
    match act
    case Deliver =>
      var n, e := |inst.fates|, s.bus[|inst.fates|];
      if e.roomId != inst.room.roomId then inst.(fates := inst.fates + [Dropped(e)])
      else inst.(fates := inst.fates + [Waiting(e)], outbox := inst.outbox + [Item(n, e)], flushScheduled := true)
    case Flush =>
      inst.(conns := map k | k in inst.conns :: Served(k, inst.conns[k], inst.outbox, inst.room.roomId),
            fates := Settled(inst.fates, inst.room.roomId, Members(inst.conns)), outbox := [], flushScheduled := false)
    case CheckRoom =>
      inst.(room := cal.RoomAt(s.now), since := s.now, switches := inst.switches + 1, roll := Locking(inst.room))
    case LockReply(live) =>
      if Free(s, inst.roll.prev.roomId) then inst.(roll := Cleaning(inst.roll.prev))
      else inst.(roll := Batching(live, 0, {}, s.sids))
    case CleanupDone(live) => inst.(roll := Batching(live, 0, {}, s.sids))
    case CleanupFail(live) => inst.(roll := Batching(live, 0, {}, s.sids))
    case BatchStart =>
      var batch := inst.roll.live[inst.roll.begun..BatchEnd(inst.roll)];
      inst.(roll := inst.roll.(begun := BatchEnd(inst.roll),
                               waiting := set k | k in batch && k in inst.conns && !inst.conns[k].closed),
            conns := map k | k in inst.conns :: Carrying(inst.conns[k], k in batch))
    case RollEnd => inst.(roll := Still)
  }

  /** The same but for what it has received and what a renewal is to say of it. */
  ghost predicate Alike(c: Conn, d: Conn) {
    d == c.(received := d.received, carry := d.carry, flips := d.flips)
  }

  /** A step of the instance as a whole leaves its connections alike. */
  lemma TurnedAlike(s: State, i: nat, act: Act, cal: Calendar)
    requires i < |s.instances| && Possible(s, i, act, cal) && !OfConnection(act)
    ensures var inst, next := s.instances[i], Turned(s, i, act, cal);
            && next.conns.Keys == inst.conns.Keys
            && (forall k <- inst.conns :: Alike(inst.conns[k], next.conns[k]))
            && (!act.Flush? && !act.BatchStart? ==> next.conns == inst.conns)
            && (!act.BatchStart? ==>
                  forall k <- inst.conns ::
                    next.conns[k].carry == inst.conns[k].carry && next.conns[k].flips == inst.conns[k].flips)
  {
    if act.Flush? {
      hide *;
      FlushAlike(s, i, cal);
    } else if act.BatchStart? {
      hide *;
      BatchAlike(s, i, cal);
    } else {
      hide Snapshot, BatchEnd, Free, Claimed, Chosen, Members, Settled, Carrying;
    }
  }

  lemma FlushAlike(s: State, i: nat, cal: Calendar)
    requires i < |s.instances| && Possible(s, i, Flush, cal)
    ensures var inst, next := s.instances[i], Turned(s, i, Flush, cal);
            && next.conns.Keys == inst.conns.Keys
            && forall k <- inst.conns ::
                 && Alike(inst.conns[k], next.conns[k]) && next.conns[k].carry == inst.conns[k].carry
                 && next.conns[k].flips == inst.conns[k].flips
  {
    hide Chosen, Members, Settled;
  }

  lemma BatchAlike(s: State, i: nat, cal: Calendar)
    requires i < |s.instances| && Possible(s, i, BatchStart, cal)
    ensures var inst, next := s.instances[i], Turned(s, i, BatchStart, cal);
            next.conns.Keys == inst.conns.Keys && forall k <- inst.conns :: Alike(inst.conns[k], next.conns[k])
  {
    var batch := s.instances[i].roll.live[s.instances[i].roll.begun..BatchEnd(s.instances[i].roll)];
    hide BatchEnd, Carrying;
    forall k <- s.instances[i].conns
      ensures Alike(s.instances[i].conns[k], Carrying(s.instances[i].conns[k], k in batch))
    {
      CarryingAlike(s.instances[i].conns[k], k in batch);
    }
    hide Alike;
  }

  lemma CarryingAlike(c: Conn, begins: bool)
    ensures Alike(c, Carrying(c, begins))
  {
  }

  /** Nor does it touch what is not its business. */
  lemma TurnedKeeps(s: State, i: nat, act: Act, cal: Calendar)
    requires i < |s.instances| && Possible(s, i, act, cal) && !OfConnection(act)
    ensures Acted(s, i, act, cal) == Turned(s, i, act, cal)
    ensures var inst, next := s.instances[i], Turned(s, i, act, cal);
            && next.joinedCount == inst.joinedCount && next.lateJoins == inst.lateJoins
            && (!act.CheckRoom? ==>
                  next.room == inst.room && next.since == inst.since && next.switches == inst.switches)
            && (!act.Flush? && !act.Deliver? ==>
                  next.fates == inst.fates && next.outbox == inst.outbox && next.flushScheduled == inst.flushScheduled)
  {
    hide Snapshot, BatchEnd, Free, Claimed, Chosen, Members, Settled, Carrying, Moved;
  }

  /** How it moves the rollover on. */
  lemma TurnedRoll(s: State, i: nat, act: Act, cal: Calendar)
    requires i < |s.instances| && Possible(s, i, act, cal) && !OfConnection(act)
    ensures var inst, next := s.instances[i], Turned(s, i, act, cal);
            && (act.Deliver? || act.Flush? ==> next.roll == inst.roll)
            && (act.CheckRoom? ==>
                  && inst.roll.Still? && next.roll == Locking(inst.room) && next.switches == inst.switches + 1
                  && next.room == cal.RoomAt(s.now) && next.since == s.now && next.room.roomId != inst.room.roomId)
            && (act.BatchStart? ==>
                  && inst.roll.Batching? && next.roll.Batching? && next.roll.live == inst.roll.live
                  && next.roll.known == inst.roll.known && inst.roll.waiting == {}
                  && inst.roll.begun < |inst.roll.live|)
            && (act.RollEnd? ==>
                  inst.roll.Batching? && inst.roll.waiting == {} && inst.roll.begun == |inst.roll.live|
                  && next.roll == Still)
  {
    hide Snapshot, BatchEnd, Free, Claimed, Chosen, Members, Settled, Carrying;
  }

  /** The batches begin with a snapshot, once the lock is refused or the old room is cleaned. */
  lemma TurnedSnapshot(s: State, i: nat, act: Act, cal: Calendar)
    requires i < |s.instances| && Possible(s, i, act, cal) && (act.LockReply? || act.CleanupDone? || act.CleanupFail?)
    ensures var inst, next := s.instances[i], Turned(s, i, act, cal);
            && (inst.roll.Locking? || inst.roll.Cleaning?) && Snapshot(act.live, inst.conns)
            && next.roll == if act.LockReply? && Free(s, inst.roll.prev.roomId) then Cleaning(inst.roll.prev)
                            else Batching(act.live, 0, {}, s.sids)
  {
    hide Snapshot, Free;
  }

  /** What a step does to the store and the bus. */
  ghost function Shared(s: State, i: nat, act: Act, cal: Calendar): State
    requires i < |s.instances| && Possible(s, i, act, cal)
  {
    var inst := s.instances[i];
    match act
    case Append(k) =>
      var f := inst.conns[k].frame;
      s.(entries := s.entries + [Entry(inst.room, inst.since, f.ts, f.rec, f.room, f.switches != inst.switches)])
    case Publish(k) =>
      var n := inst.conns[k].frame.entry;
      s.(bus := s.bus + [Event(s.entries[n].room.roomId, n, k)])
    case LockReply(_) =>
      var roomId := inst.roll.prev.roomId;
      if Free(s, roomId) then
        s.(locks := s.locks[roomId := s.now + LOCK_MS], cleanups := s.cleanups + [Cleanup(inst.roll.prev, s.now)])
      else s
    case ConnRolled(k, name, sid) => s.(claims := s.claims[(inst.room.roomId, name) := sid], sids := s.sids + {sid})
    case _ => s
  }

  ghost function After(s: State, step: Step, cal: Calendar): State
    requires Enabled(s, step, cal)
  {
    match step
    case Tick(elapsed) => s.(now := s.now + elapsed)
    case Claim(roomId, name, sid) => s.(claims := s.claims[(roomId, name) := sid], sids := s.sids + {sid})
    case At(i, act) => Shared(s, i, act, cal).(instances := s.instances[i := Acted(s, i, act, cal)])
  }

  /** Instances that have just started. */
  ghost predicate Started(s: State, cal: Calendar) {
    && s.bus == [] && s.entries == [] && s.locks == map[] && s.cleanups == [] && s.claims == map[] && s.sids == {}
    && forall i :: 0 <= i < |s.instances| ==>
         s.instances[i] == Instance(cal.RoomAt(s.now), s.now, 0, [], false, [], map[], 0, 0, Still)
  }

  /** `states` is a run: it starts with started instances, and every next state is a step away. */
  ghost predicate Run(states: seq<State>, steps: seq<Step>, cal: Calendar) {
    && |states| == |steps| + 1 && Started(states[0], cal)
    && forall n :: 0 <= n < |steps| ==>
       Enabled(states[n], steps[n], cal) && states[n + 1] == After(states[n], steps[n], cal)
  }
}
