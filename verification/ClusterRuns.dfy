/** Runs that show what the room protocol does not promise: each is a run at every calendar that tiles time. */
module ClusterRuns {
  import opened Types
  import opened Day
  import opened Cluster
  import opened ClusterFanOut
  import opened ClusterSafety

  const ALICE := Key(0, 0)

  /** One instance, in the last millisecond of a day. */
  ghost function LateNight(room: Room): State {
    State(room.endsAt - 1, [Instance(room, room.endsAt - 1, 0, [], false, [], map[], 0, 0, Still)], [], [], map[], [],
          map[], {})
  }

  /** The last and the first millisecond around a midnight after `t`. */
  lemma Midnight(cal: Calendar, from: int, t: int)
    requires Tiles(cal, from) && from <= t
    ensures var r := cal.RoomAt(t);
            && t <= r.endsAt - 1 && cal.RoomAt(r.endsAt - 1) == r
            && cal.RoomAt(r.endsAt).roomId != r.roomId && cal.RoomAt(r.endsAt) != r
            && Started(LateNight(r), cal)
  {
    var r := cal.RoomAt(t);
    assert Tile(r, r, t, t);
    assert Tile(r, cal.RoomAt(r.endsAt - 1), t, r.endsAt - 1);
    assert Tile(r, cal.RoomAt(r.endsAt), t, r.endsAt);
  }

  /** Execution of steps one after the other. */
  ghost predicate Leads(s: State, steps: seq<Step>, t: State, cal: Calendar)
    decreases |steps|
  {
    if steps == [] then s == t else Enabled(s, steps[0], cal) && Leads(After(s, steps[0], cal), steps[1..], t, cal)
  }

  /** What leads from one state to another can be written as the states of a run. */
  lemma {:induction false} LeadsIsRun(s: State, steps: seq<Step>, t: State, cal: Calendar) returns (states: seq<State>)
    requires Leads(s, steps, t, cal)
    ensures |states| == |steps| + 1 && states[0] == s && states[|steps|] == t
    ensures forall n :: 0 <= n < |steps| ==>
            Enabled(states[n], steps[n], cal) && states[n + 1] == After(states[n], steps[n], cal)
    decreases |steps|
  {
    hide Enabled, After;
    if steps == [] {
      states := [s];
    } else {
      var rest := LeadsIsRun(After(s, steps[0], cal), steps[1..], t, cal);
      states := [s] + rest;
      forall n | 0 <= n < |steps|
        ensures Enabled(states[n], steps[n], cal) && states[n + 1] == After(states[n], steps[n], cal)
      {
        if 0 < n {
          assert steps[n] == steps[1..][n - 1] && states[n] == rest[n - 1] && states[n + 1] == rest[n - 1 + 1];
        }
      }
    }
  }

  lemma {:induction false} LeadsOn(s: State, steps: seq<Step>, t: State, step: Step, u: State, cal: Calendar)
    requires Leads(s, steps, t, cal) && Enabled(t, step, cal) && u == After(t, step, cal)
    ensures Leads(s, steps + [step], u, cal)
    decreases |steps|
  {
    hide Enabled, After;
    if steps == [] {
      assert steps + [step] == [step] && [step][1..] == [];
    } else {
      LeadsOn(After(s, steps[0], cal), steps[1..], t, step, u, cal);
      assert (steps + [step])[1..] == steps[1..] + [step];
    }
  }

  // ----- The state after each step, for one instance with one connection -----

  function AliceOf(room: Room): Rec {
    Rec(room.roomId, "Alice", 1)
  }

  function Joined(room: Room): Conn {
    NEW.(joined := true, rec := Some(AliceOf(room)))
  }

  ghost function Alone(s: State, inst: Instance): State {
    s.(instances := [inst])
  }

  ghost function WithAlice(inst: Instance, c: Conn): Instance {
    inst.(conns := map[ALICE := c])
  }

  /** A session exists, and its connection has checked that it belongs to the current room. */
  ghost function CheckedIn(room: Room, pending: bool): State {
    Alone(LateNight(room), WithAlice(LateNight(room).instances[0], NEW.(frame := Joining(AliceOf(room), pending))))
    .(claims := map[(room.roomId, "Alice") := 1], sids := {1})
  }

  /** The last millisecond of the day, with a connection `c` that has joined. */
  ghost function Night(room: Room, c: Conn): State {
    Alone(CheckedIn(room, false), WithAlice(LateNight(room).instances[0], c).(joinedCount := 1))
  }

  ghost predicate NoPass(steps: seq<Step>) {
    forall l :: 0 <= l < |steps| ==> steps[l] != At(0, ResponsePass(ALICE))
  }

  /** One more step of the only instance. */
  lemma Then(s0: State, steps: seq<Step>, s: State, act: Act, inst: Instance, t: State, cal: Calendar)
      returns (more: seq<Step>)
    requires Leads(s0, steps, s, cal) && |s.instances| == 1 && Possible(s, 0, act, cal)
    requires inst == Acted(s, 0, act, cal) && t == Alone(Shared(s, 0, act, cal), inst)
    ensures Leads(s0, more, t, cal) && more == steps + [At(0, act)]
  {
    hide Possible, Acted, Shared;
    more := steps + [At(0, act)];
    assert s.instances[0 := inst] == [inst];
    LeadsOn(s0, steps, s, At(0, act), t, cal);
  }

  /** One more step of the only connection, if it counts nothing. */
  lemma ThenAlice(s0: State, steps: seq<Step>, s: State, act: Act, c: Conn, d: Conn, t: State, cal: Calendar)
      returns (more: seq<Step>)
    requires Leads(s0, steps, s, cal) && |s.instances| == 1 && Possible(s, 0, act, cal) && OfConnection(act)
    requires !act.JoinCommit? && !act.Close? && !act.ConnRolled? && !act.ConnRollFailed? && act.k == ALICE
    requires s.instances[0].conns == map[ALICE := c] && d == Moved(s, 0, act, cal)
    requires t == Alone(Shared(s, 0, act, cal), WithAlice(s.instances[0], d))
    ensures Leads(s0, more, t, cal) && more == steps + [At(0, act)]
  {
    OneConnection(c, d);
    assert Acted(s, 0, act, cal) == WithAlice(s.instances[0], d);
    hide Possible, Acted, Shared, Moved, Leads;
    more := Then(s0, steps, s, act, WithAlice(s.instances[0], d), t, cal);
  }

  lemma OneConnection(c: Conn, d: Conn)
    ensures map[ALICE := c][ALICE := d] == map[ALICE := d] && map[][ALICE := d] == map[ALICE := d]
  {
  }

  lemma Ticks(s0: State, steps: seq<Step>, s: State, elapsed: nat, t: State, cal: Calendar) returns (more: seq<Step>)
    requires Leads(s0, steps, s, cal) && t == s.(now := s.now + elapsed)
    ensures Leads(s0, more, t, cal) && more == steps + [Tick(elapsed)]
  {
    hide Leads;
    LeadsOn(s0, steps, s, Tick(elapsed), t, cal);
    more := steps + [Tick(elapsed)];
  }

  lemma Arrives(room: Room, cal: Calendar) returns (steps: seq<Step>, s2: State)
    ensures s2
            == Alone(LateNight(room), WithAlice(LateNight(room).instances[0], NEW))
               .(claims := map[(room.roomId, "Alice") := 1], sids := {1})
    ensures Leads(LateNight(room), steps, s2, cal) && NoPass(steps)
  {
    var s0 := LateNight(room);
    OneConnection(NEW, NEW);
    var s1 := Alone(s0, WithAlice(s0.instances[0], NEW));
    steps := Then(s0, [], s0, Accept(ALICE), WithAlice(s0.instances[0], NEW), s1, cal);
    s2 := s1.(claims := map[(room.roomId, "Alice") := 1], sids := {1});
    assert s2 == After(s1, Claim(room.roomId, "Alice", 1), cal);
    LeadsOn(s0, steps, s1, Claim(room.roomId, "Alice", 1), s2, cal);
    steps := steps + [Claim(room.roomId, "Alice", 1)];
  }

  lemma ChecksIn(room: Room, pending: bool, cal: Calendar) returns (steps: seq<Step>)
    ensures Leads(LateNight(room), steps, CheckedIn(room, pending), cal) && NoPass(steps)
  {
    var s2: State;
    steps, s2 := Arrives(room, cal);
    steps := ThenAlice(LateNight(room), steps, s2, JoinCheck(ALICE, AliceOf(room), pending), NEW,
                       NEW.(frame := Joining(AliceOf(room), pending)), CheckedIn(room, pending), cal);
  }

  lemma JoinsIn(room: Room, pending: bool, cal: Calendar) returns (steps: seq<Step>)
    ensures Leads(LateNight(room), steps, Night(room, Joined(room).(pending := pending)), cal) && NoPass(steps)
  {
    steps := ChecksIn(room, pending, cal);
    var s1, c := CheckedIn(room, pending), Joined(room).(pending := pending);
    OneConnection(s1.instances[0].conns[ALICE], c);
    steps := Then(LateNight(room), steps, s1, JoinCommit(ALICE), Night(room, c).instances[0], Night(room, c), cal);
  }

  /** A run of the instances that `LateNight` starts. */
  ghost predicate Happens(states: seq<State>, steps: seq<Step>, last: State, cal: Calendar) {
    Run(states, steps, cal) && states[|steps|] == last
  }

  // ----- A connection that is closed while its join awaits -----

  ghost predicate Overcounted(s: State) {
    |s.instances| == 1 && JoinedKeys(s.instances[0].conns) == {} && s.instances[0].joinedCount == 1
  }

  lemma ClosesJoining(room: Room, before: seq<Step>, cal: Calendar) returns (steps: seq<Step>, last: State)
    requires Leads(LateNight(room), before, CheckedIn(room, false), cal)
    ensures Leads(LateNight(room), steps, last, cal) && Overcounted(last)
  {
    hide Leads;
    var s1 := CheckedIn(room, false);
    var inst := s1.instances[0];
    var c, e := inst.conns[ALICE], Joined(room).(open := false, closed := true);
    var d := c.(open := false, closed := true);
    OneConnection(c, d);
    OneConnection(d, e);
    var s2 := Alone(s1, WithAlice(inst, d));
    steps := Then(LateNight(room), before, s1, Close(ALICE), WithAlice(inst, d), s2, cal);
    var late := WithAlice(inst, e).(joinedCount := 1, lateJoins := 1);
    last := Alone(s2, late);
    steps := Then(LateNight(room), steps, s2, JoinCommit(ALICE), late, last, cal);
  }

  /** A close during the last await of a join leaves the joined count one too high for good. */
  lemma LateJoinOvercounts(cal: Calendar, from: int) returns (states: seq<State>, steps: seq<Step>, last: State)
    requires Tiles(cal, from)
    ensures Happens(states, steps, last, cal) && Overcounted(last)
  {
    hide Tiles, Leads;
    Midnight(cal, from, from);
    var room := cal.RoomAt(from);
    steps := ChecksIn(room, false, cal);
    steps, last := ClosesJoining(room, steps, cal);
    states := LeadsIsRun(LateNight(room), steps, last, cal);
  }

  // ----- A join that straddles midnight -----

  /** Nothing is rolling over, and yet an open, joined connection holds a session of yesterday. */
  ghost predicate LeftBehind(s: State) {
    && |s.instances| == 1 && s.instances[0].roll.Still?
    && ALICE in s.instances[0].conns
    && var c := s.instances[0].conns[ALICE];
       c.joined && c.open && !c.closed && c.rec.Some? && c.rec.value.roomId != s.instances[0].room.roomId
  }

  /** The first millisecond of the next day: the only instance has switched from `inst`, and rolls over. */
  ghost function Rolling(s: State, room: Room, next: Room, inst: Instance, roll: Roll): State {
    Alone(s.(now := room.endsAt), inst.(room := next, since := room.endsAt, switches := 1, roll := roll))
    .(locks := map[room.roomId := room.endsAt + LOCK_MS], cleanups := [Cleanup(room, room.endsAt)])
  }

  /** Midnight comes, and the instance gets to its snapshot. */
  lemma SwitchesRoom(room: Room, next: Room, s: State, s0: State, before: seq<Step>, live: seq<Key>, cal: Calendar)
    returns (steps: seq<Step>)
    requires Leads(s0, before, s, cal) && |s.instances| == 1 && s.now == room.endsAt - 1
    requires s.instances[0].room == room && s.instances[0].roll.Still? && s.instances[0].switches == 0
    requires s.locks == map[] && s.cleanups == [] && Snapshot(live, s.instances[0].conns)
    requires next == cal.RoomAt(room.endsAt) && next.roomId != room.roomId
    ensures Leads(s0, steps, Rolling(s, room, next, s.instances[0], Batching(live, 0, {}, s.sids)), cal)
    ensures |steps| == |before| + 4 && steps[..|before|] == before && (NoPass(before) ==> NoPass(steps))
  {
    var inst := s.instances[0];
    var s1 := s.(now := room.endsAt);
    var i2 := inst.(room := next, since := room.endsAt, switches := 1, roll := Locking(room));
    var s2 := Alone(s1, i2);
    hide Leads, Snapshot;
    steps := Ticks(s0, before, s, 1, s1, cal);
    steps := Then(s0, steps, s1, CheckRoom, i2, s2, cal);
    steps := Cleans(room, next, inst, s, s2, s0, steps, live, cal);
  }

  lemma CleaningEnds(s: State, room: Room, live: seq<Key>, cal: Calendar)
    requires |s.instances| == 1 && s.instances[0].roll == Cleaning(room) && Snapshot(live, s.instances[0].conns)
    ensures Possible(s, 0, CleanupDone(live), cal) && Shared(s, 0, CleanupDone(live), cal) == s
    ensures Acted(s, 0, CleanupDone(live), cal) == s.instances[0].(roll := Batching(live, 0, {}, s.sids))
  {
    hide Snapshot;
  }

  lemma LocksRoom(room: Room, next: Room, inst: Instance, s: State, s2: State, s0: State, before: seq<Step>,
                  live: seq<Key>, cal: Calendar)
    returns (steps: seq<Step>)
    requires s2
             == Alone(s.(now := room.endsAt),
                      inst.(room := next, since := room.endsAt, switches := 1, roll := Locking(room)))
    requires Leads(s0, before, s2, cal) && s.locks == map[] && s.cleanups == [] && Snapshot(live, inst.conns)
    ensures Leads(s0, steps, Rolling(s, room, next, inst, Cleaning(room)), cal)
            && steps == before + [At(0, LockReply(live))]
  {
    hide Leads, Snapshot;
    var s3 := Rolling(s, room, next, inst, Cleaning(room));
    steps := Then(s0, before, s2, LockReply(live), s3.instances[0], s3, cal);
  }

  lemma Cleans(room: Room, next: Room, inst: Instance, s: State, s2: State, s0: State, before: seq<Step>,
               live: seq<Key>, cal: Calendar)
    returns (steps: seq<Step>)
    requires s2
             == Alone(s.(now := room.endsAt),
                      inst.(room := next, since := room.endsAt, switches := 1, roll := Locking(room)))
    requires Leads(s0, before, s2, cal) && s.locks == map[] && s.cleanups == [] && Snapshot(live, inst.conns)
    ensures Leads(s0, steps, Rolling(s, room, next, inst, Batching(live, 0, {}, s.sids)), cal)
    ensures steps == before + [At(0, LockReply(live))] + [At(0, CleanupDone(live))]
  {
    hide Leads, Snapshot;
    steps := LocksRoom(room, next, inst, s, s2, s0, before, live, cal);
    hide Possible, Acted, Shared;
    var s3, s4 := Rolling(s, room, next, inst, Cleaning(room)),
      Rolling(s, room, next, inst, Batching(live, 0, {}, s.sids));
    CleaningEnds(s3, room, live, cal);
    steps := Then(s0, steps, s3, CleanupDone(live), s4.instances[0], s4, cal);
  }

  lemma NobodyJoined(room: Room)
    ensures Snapshot([], CheckedIn(room, false).instances[0].conns)
  {
  }

  /** A join that checked its room before midnight and commits after the snapshot is missed by the rollover. */
  lemma JoinMissesRollover(cal: Calendar, from: int) returns (states: seq<State>, steps: seq<Step>, last: State)
    requires Tiles(cal, from)
    ensures Happens(states, steps, last, cal) && LeftBehind(last)
  {
    Midnight(cal, from, from);
    var room, next := cal.RoomAt(from), cal.RoomAt(cal.RoomAt(from).endsAt);
    var s0, s1 := LateNight(room), CheckedIn(room, false);
    hide Tiles, Leads, Snapshot;
    steps := ChecksIn(room, false, cal);
    NobodyJoined(room);
    steps := SwitchesRoom(room, next, s1, s0, steps, [], cal);
    var s2, s3 := Rolling(s1, room, next, s1.instances[0], Batching([], 0, {}, {1})),
      Rolling(s1, room, next, s1.instances[0], Still);
    steps := Then(s0, steps, s2, RollEnd, s3.instances[0], s3, cal);
    steps, last := MissesIt(room, next, s0, steps, s3, cal);
    states := LeadsIsRun(s0, steps, last, cal);
  }

  lemma MissesIt(room: Room, next: Room, s0: State, before: seq<Step>, s: State, cal: Calendar)
      returns (steps: seq<Step>, last: State)
    requires s == Rolling(CheckedIn(room, false), room, next, CheckedIn(room, false).instances[0], Still)
    requires Leads(s0, before, s, cal) && next.roomId != room.roomId
    ensures Leads(s0, steps, last, cal) && LeftBehind(last)
  {
    var inst, c := s.instances[0], Joined(room).(missed := true);
    OneConnection(inst.conns[ALICE], c);
    hide Leads;
    var late := WithAlice(inst, c).(joinedCount := 1);
    last := Alone(s, late);
    steps := Then(s0, before, s, JoinCommit(ALICE), late, last, cal);
  }

  // ----- A send that straddles midnight -----

  ghost predicate WrongDay(s: State) {
    |s.entries| == 1 && !WellStamped(s.entries[0], s.claims) && s.entries[0].ts < s.entries[0].room.startsAt
  }

  /** The frame of a send that has passed its checks in the last millisecond of the day. */
  function Waits(room: Room): Frame {
    Deciding(room.endsAt - 1, AliceOf(room), room, 0)
  }

  lemma StartsToDecide(room: Room, cal: Calendar) returns (steps: seq<Step>)
    requires cal.RoomAt(room.endsAt - 1) == room
    ensures Leads(LateNight(room), steps, Night(room, Joined(room).(frame := Waits(room))), cal) && NoPass(steps)
  {
    hide Leads;
    steps := JoinsIn(room, false, cal);
    var c := Joined(room);
    steps := ThenAlice(LateNight(room), steps, Night(room, c), DecideStart(ALICE), c, c.(frame := Waits(room)),
                       Night(room, c.(frame := Waits(room))), cal);
  }

  /** A send checked before midnight and appended after it goes to tomorrow's room with yesterday's timestamp. */
  lemma SendStraddlesMidnight(cal: Calendar, from: int) returns (states: seq<State>, steps: seq<Step>, last: State)
    requires Tiles(cal, from)
    ensures Happens(states, steps, last, cal) && WrongDay(last)
  {
    Midnight(cal, from, from);
    var room, next := cal.RoomAt(from), cal.RoomAt(cal.RoomAt(from).endsAt);
    assert Tile(next, room, room.endsAt, room.endsAt - 1);
    var s0, c := LateNight(room), Joined(room).(frame := Waits(room));
    hide Tiles, Leads, Tile;
    steps := StartsToDecide(room, cal);
    AliceIsLive(c);
    var s1 := Night(room, c);
    steps := SwitchesRoom(room, next, s1, s0, steps, [ALICE], cal);
    var s2 := Rolling(s1, room, next, s1.instances[0], Batching([ALICE], 0, {}, {1}));
    var entry := Entry(next, room.endsAt, room.endsAt - 1, AliceOf(room), room, true);
    last := Alone(s2, WithAlice(s2.instances[0], c.(frame := Publishing(0)))).(entries := [entry]);
    hide Snapshot;
    steps := ThenAlice(s0, steps, s2, Append(ALICE), c, c.(frame := Publishing(0)), last, cal);
    states := LeadsIsRun(s0, steps, last, cal);
  }

  lemma AliceIsLive(c: Conn)
    requires c.joined && !c.closed
    ensures Snapshot([ALICE], map[ALICE := c])
  {
  }

  // ----- A challenge that straddles midnight -----

  /** A challenge was issued, no verification has ever passed, and yet a send was accepted that began `wait` later. */
  ghost predicate Unanswered(steps: seq<Step>, wait: nat) {
    NoPass(steps) && exists l, m, n ::
      && 0 <= l < m < n < |steps| && steps[l] == At(0, Issue(ALICE)) && steps[m] == Tick(wait)
      && steps[m + 1] == At(0, DecideStart(ALICE)) && steps[n] == At(0, Append(ALICE))
  }

  /** The batch has begun: the new record of `c` will carry its pending flag. */
  ghost function Begun(s: State, room: Room, next: Room, c: Conn): State
    requires |s.instances| == 1
  {
    Rolling(s, room, next, WithAlice(s.instances[0], c), Batching([ALICE], 1, {ALICE}, {1}))
  }

  lemma Begins(room: Room, next: Room, c: Conn, s0: State, before: seq<Step>, cal: Calendar) returns (steps: seq<Step>)
    requires Leads(s0, before, Night(room, c), cal) && c.joined && !c.closed && c.rec.Some?
    requires next == cal.RoomAt(room.endsAt) && next.roomId != room.roomId
    ensures Leads(s0, steps, Begun(Night(room, c), room, next, c.(carry := Some(c.pending), flips := 0)), cal)
    ensures NoPass(before) ==> NoPass(steps)
  {
    var s1 := Night(room, c);
    AliceIsLive(c);
    hide Leads;
    steps := SwitchesRoom(room, next, s1, s0, before, [ALICE], cal);
    steps := BeginsBatch(room, next, c, s0, steps, cal);
  }

  lemma AliceBegins(s: State, c: Conn, cal: Calendar)
    requires |s.instances| == 1 && s.instances[0].conns == map[ALICE := c] && !c.closed
    requires s.instances[0].roll == Batching([ALICE], 0, {}, {1})
    ensures Possible(s, 0, BatchStart, cal) && Shared(s, 0, BatchStart, cal) == s
    ensures Acted(s, 0, BatchStart, cal)
            == WithAlice(s.instances[0], c.(carry := Some(c.pending), flips := 0))
               .(roll := Batching([ALICE], 1, {ALICE}, {1}))
  {
    var conns, d := s.instances[0].conns, c.(carry := Some(c.pending), flips := 0);
    assert [ALICE][0..1] == [ALICE];
    assert (map k | k in conns :: Carrying(conns[k], k in [ALICE])) == map[ALICE := d];
    assert (set k | k in [ALICE] && k in conns && !conns[k].closed) == {ALICE};
  }

  lemma BeginsBatch(room: Room, next: Room, c: Conn, s0: State, before: seq<Step>, cal: Calendar)
      returns (steps: seq<Step>)
    requires c.joined && !c.closed
    requires Leads(s0, before,
                   Rolling(Night(room, c), room, next, Night(room, c).instances[0], Batching([ALICE], 0, {}, {1})), cal)
    ensures Leads(s0, steps, Begun(Night(room, c), room, next, c.(carry := Some(c.pending), flips := 0)), cal)
    ensures NoPass(before) ==> NoPass(steps)
  {
    var s1, d := Night(room, c), c.(carry := Some(c.pending), flips := 0);
    var s2, s3 := Rolling(s1, room, next, s1.instances[0], Batching([ALICE], 0, {}, {1})), Begun(s1, room, next, d);
    AliceBegins(s2, c, cal);
    hide Leads, Possible, Acted, Shared;
    steps := Then(s0, before, s2, BatchStart, s3.instances[0], s3, cal);
  }

  function BobOf(next: Room): Rec {
    Rec(next.roomId, "Bob", 2)
  }

  /** The new record is in place, and the rollover has ended. */
  ghost function Renamed(s: State, room: Room, next: Room, c: Conn, roll: Roll): State
    requires |s.instances| == 1
  {
    Rolling(s, room, next, WithAlice(s.instances[0], c), roll)
    .(claims := s.claims[(next.roomId, "Bob") := 2], sids := {1, 2})
  }

  /** The record after the rollover of `c`. */
  ghost function RenewedConn(next: Room, c: Conn): Conn
    requires c.carry.Some?
  {
    c.(rec := Some(BobOf(next)), missed := false, pending := c.carry.value, carry := None)
  }

  lemma EndsRoll(room: Room, next: Room, s: State, c: Conn, s0: State, before: seq<Step>, cal: Calendar)
      returns (steps: seq<Step>)
    requires |s.instances| == 1 && s.sids == {1} && Leads(s0, before, Begun(s, room, next, c), cal)
    requires !c.closed && c.carry.Some? && (next.roomId, "Bob") !in s.claims
    ensures Leads(s0, steps, Renamed(s, room, next, RenewedConn(next, c), Still), cal)
    ensures steps == before + [At(0, ConnRolled(ALICE, "Bob", 2))] + [At(0, RollEnd)]
  {
    var d := RenewedConn(next, c);
    hide Leads, RenewedConn;
    steps := Renames(room, next, s, c, s0, before, cal);
    var s2, s3 := Renamed(s, room, next, d, Batching([ALICE], 1, {}, {1})), Renamed(s, room, next, d, Still);
    steps := Then(s0, steps, s2, RollEnd, s3.instances[0], s3, cal);
  }

  lemma Renames(room: Room, next: Room, s: State, c: Conn, s0: State, before: seq<Step>, cal: Calendar)
      returns (steps: seq<Step>)
    requires |s.instances| == 1 && s.sids == {1} && Leads(s0, before, Begun(s, room, next, c), cal)
    requires !c.closed && c.carry.Some? && (next.roomId, "Bob") !in s.claims
    ensures Leads(s0, steps, Renamed(s, room, next, RenewedConn(next, c), Batching([ALICE], 1, {}, {1})), cal)
    ensures steps == before + [At(0, ConnRolled(ALICE, "Bob", 2))]
  {
    var d := RenewedConn(next, c);
    OneConnection(c, d);
    var s1, s2 := Begun(s, room, next, c), Renamed(s, room, next, d, Batching([ALICE], 1, {}, {1}));
    var act := ConnRolled(ALICE, "Bob", 2);
    assert {ALICE} - {ALICE} == {} && {1} + {2} == {1, 2};
    assert Possible(s1, 0, act, cal) && Moved(s1, 0, act, cal) == d;
    assert Acted(s1, 0, act, cal) == s2.instances[0];
    assert Alone(Shared(s1, 0, act, cal), s2.instances[0]) == s2;
    hide Leads, Possible, Moved, Acted, Shared, RenewedConn, Renamed, Begun;
    steps := Then(s0, before, s1, act, s2.instances[0], s2, cal);
  }

  /** A challenge issued while the rollover of its connection awaits the new record is forgotten, for as long as the
      new day lasts. (The code judges a send again; once the score has decayed below the threshold, it accepts it.) */
  lemma ChallengeIsForgotten(cal: Calendar, from: int, wait: nat)
      returns (states: seq<State>, steps: seq<Step>, last: State)
    requires Tiles(cal, from) && cal.RoomAt(cal.RoomAt(from).endsAt + wait) == cal.RoomAt(cal.RoomAt(from).endsAt)
    ensures Happens(states, steps, last, cal) && Unanswered(steps, wait)
  {
    hide Tiles, Leads, Unanswered, Night, Begun;
    Midnight(cal, from, from);
    var room, next := cal.RoomAt(from), cal.RoomAt(cal.RoomAt(from).endsAt);
    var s0, c := LateNight(room), Joined(room).(frame := Waits(room));
    var before := StartsToDecide(room, cal);
    before := Begins(room, next, c, s0, before, cal);
    steps, last := Forgets(room, next, c, before, wait, cal);
    FiveLater(before, steps, wait);
    states := LeadsIsRun(s0, steps, last, cal);
  }

  lemma Forgets(room: Room, next: Room, c: Conn, before: seq<Step>, wait: nat, cal: Calendar)
      returns (steps: seq<Step>, last: State)
    requires c == Joined(room).(frame := Waits(room)) && next.roomId != room.roomId
             && cal.RoomAt(room.endsAt + wait) == next
    requires Leads(LateNight(room), before,
                   Begun(Night(room, c), room, next, c.(carry := Some(c.pending), flips := 0)), cal)
    ensures Leads(LateNight(room), steps, last, cal)
    ensures steps == before + [At(0, Issue(ALICE))] + [At(0, ConnRolled(ALICE, "Bob", 2))] + [At(0, RollEnd)]
                     + [Tick(wait)] + [At(0, DecideStart(ALICE))] + [At(0, Append(ALICE))]
  {
    NightIs(room, c);
    hide Leads, Night, Begun, Renamed, LateNight;
    var s0, s, d := LateNight(room), Night(room, c), c.(carry := Some(false), flips := 0);
    steps := Issues(room, next, d, s0, before, cal);
    steps := EndsRoll(room, next, s, d.Flipped(true), s0, steps, cal);
    steps, last := SendsAgain(room, next, s, RenewedConn(next, d.Flipped(true)), s0, steps, wait, cal);
  }

  lemma NightIs(room: Room, c: Conn)
    ensures var s := Night(room, c);
            |s.instances| == 1 && s.sids == {1} && s.entries == [] && s.claims.Keys == {(room.roomId, "Alice")}
  {
  }

  lemma FiveLater(before: seq<Step>, steps: seq<Step>, wait: nat)
    requires NoPass(before)
    requires steps == before + [At(0, Issue(ALICE))] + [At(0, ConnRolled(ALICE, "Bob", 2))] + [At(0, RollEnd)]
                      + [Tick(wait)] + [At(0, DecideStart(ALICE))] + [At(0, Append(ALICE))]
    ensures Unanswered(steps, wait)
  {
    var n := |before|;
    assert steps[n] == At(0, Issue(ALICE)) && steps[n + 3] == Tick(wait);
    assert steps[n + 3 + 1] == At(0, DecideStart(ALICE)) && steps[n + 5] == At(0, Append(ALICE));
  }

  lemma Issues(room: Room, next: Room, d: Conn, s0: State, before: seq<Step>, cal: Calendar) returns (steps: seq<Step>)
    requires d == Joined(room).(frame := Waits(room), carry := Some(false), flips := 0)
    requires Leads(s0, before, Begun(Night(room, Joined(room).(frame := Waits(room))), room, next, d), cal)
    ensures Leads(s0, steps, Begun(Night(room, Joined(room).(frame := Waits(room))), room, next, d.Flipped(true)), cal)
    ensures steps == before + [At(0, Issue(ALICE))]
  {
    hide Leads;
    var s := Night(room, Joined(room).(frame := Waits(room)));
    steps := ThenAlice(s0, before, Begun(s, room, next, d), Issue(ALICE), d, d.Flipped(true),
                       Begun(s, room, next, d.Flipped(true)), cal);
  }

  lemma BobDecides(s: State, c: Conn, d: Conn, cal: Calendar)
    requires |s.instances| == 1 && s.instances[0].conns == map[ALICE := c] && s.instances[0].room == cal.RoomAt(s.now)
    requires c.joined && c.rec == Some(BobOf(s.instances[0].room)) && c.frame.Idle? && !c.closed && !c.pending
    requires d == c.(frame := Deciding(s.now, BobOf(s.instances[0].room), s.instances[0].room, s.instances[0].switches))
    ensures Possible(s, 0, DecideStart(ALICE), cal) && Moved(s, 0, DecideStart(ALICE), cal) == d
    ensures Shared(s, 0, DecideStart(ALICE), cal) == s
  {
  }

  lemma SendsAgain(room: Room, next: Room, s: State, c: Conn, s0: State, before: seq<Step>, wait: nat, cal: Calendar)
    returns (steps: seq<Step>, last: State)
    requires |s.instances| == 1 && s.entries == [] && Leads(s0, before, Renamed(s, room, next, c, Still), cal)
    requires c.joined && c.rec == Some(BobOf(next)) && c.frame.Idle? && !c.closed && !c.pending
    requires cal.RoomAt(room.endsAt + wait) == next
    ensures Leads(s0, steps, last, cal)
    ensures steps == before + [Tick(wait)] + [At(0, DecideStart(ALICE))] + [At(0, Append(ALICE))]
  {
    var now := room.endsAt + wait;
    var d := c.(frame := Deciding(now, BobOf(next), next, 1));
    var s1, s2 := Renamed(s, room, next, c, Still).(now := now), Renamed(s, room, next, d, Still).(now := now);
    hide Leads;
    steps := Ticks(s0, before, Renamed(s, room, next, c, Still), wait, s1, cal);
    BobDecides(s1, c, d, cal);
    hide Possible, Moved, Shared;
    steps := ThenAlice(s0, steps, s1, DecideStart(ALICE), c, d, s2, cal);
    steps, last := AppendsNow(room, next, s, d, s0, steps, now, cal);
  }

  lemma AppendsNow(room: Room, next: Room, s: State, d: Conn, s0: State, before: seq<Step>, now: int, cal: Calendar)
    returns (steps: seq<Step>, last: State)
    requires |s.instances| == 1 && s.entries == []
             && Leads(s0, before, Renamed(s, room, next, d, Still).(now := now), cal)
    requires d.frame == Deciding(now, BobOf(next), next, 1)
    ensures Leads(s0, steps, last, cal) && steps == before + [At(0, Append(ALICE))]
  {
    var e := d.(frame := Publishing(0));
    hide Leads;
    last := Renamed(s, room, next, e, Still)
            .(now := now, entries := [Entry(next, room.endsAt, now, BobOf(next), next, false)]);
    steps := ThenAlice(s0, before, Renamed(s, room, next, d, Still).(now := now), Append(ALICE), d, e, last, cal);
  }

  /** The last thing that happened to the challenge was that it was passed, and yet it is pending. */
  ghost predicate PassedInVain(steps: seq<Step>, last: State) {
    && |last.instances| == 1 && ALICE in last.instances[0].conns && last.instances[0].conns[ALICE].pending
    && exists m ::
       0 <= m < |steps| && steps[m] == At(0, ResponsePass(ALICE))
       && forall n :: m < n < |steps| ==> steps[n] != At(0, Issue(ALICE))
  }

  /** A challenge passed while the rollover of its connection awaits the new record is pending again afterwards. */
  lemma PassIsForgotten(cal: Calendar, from: int) returns (states: seq<State>, steps: seq<Step>, last: State)
    requires Tiles(cal, from)
    ensures Happens(states, steps, last, cal) && PassedInVain(steps, last)
  {
    Midnight(cal, from, from);
    var room, next := cal.RoomAt(from), cal.RoomAt(cal.RoomAt(from).endsAt);
    var s0, p := LateNight(room), Joined(room).(pending := true);
    var c := p.(frame := Verifying(1));
    var d := c.(carry := Some(true), flips := 0);
    hide Tiles, Leads, PassedInVain;
    steps := JoinsIn(room, true, cal);
    steps := Responds(room, steps, cal);
    var before := Begins(room, next, c, s0, steps, cal);
    steps := PassesNow(room, next, Night(room, c), d, s0, before, cal);
    steps := EndsRoll(room, next, Night(room, c), d.Flipped(false), s0, steps, cal);
    last := Renamed(Night(room, c), room, next, RenewedConn(next, d.Flipped(false)), Still);
    assert PassedInVain(steps, last) by { InVain(before, steps, last); }
    states := LeadsIsRun(s0, steps, last, cal);
  }

  lemma Responds(room: Room, before: seq<Step>, cal: Calendar) returns (steps: seq<Step>)
    requires Leads(LateNight(room), before, Night(room, Joined(room).(pending := true)), cal)
    ensures Leads(LateNight(room), steps, Night(room, Joined(room).(pending := true, frame := Verifying(1))), cal)
  {
    var p := Joined(room).(pending := true);
    hide Leads;
    steps := ThenAlice(LateNight(room), before, Night(room, p), ResponseStart(ALICE), p, p.(frame := Verifying(1)),
                       Night(room, p.(frame := Verifying(1))), cal);
  }

  lemma PassesNow(room: Room, next: Room, s: State, d: Conn, s0: State, before: seq<Step>, cal: Calendar)
      returns (steps: seq<Step>)
    requires |s.instances| == 1 && Leads(s0, before, Begun(s, room, next, d), cal)
    requires d.frame == Verifying(1) && d.rec == Some(AliceOf(room)) && !d.closed
    ensures Leads(s0, steps, Begun(s, room, next, d.Flipped(false)), cal)
            && steps == before + [At(0, ResponsePass(ALICE))]
  {
    hide Leads;
    steps := ThenAlice(s0, before, Begun(s, room, next, d), ResponsePass(ALICE), d, d.Flipped(false),
                       Begun(s, room, next, d.Flipped(false)), cal);
  }

  lemma InVain(before: seq<Step>, steps: seq<Step>, last: State)
    requires steps == before + [At(0, ResponsePass(ALICE))] + [At(0, ConnRolled(ALICE, "Bob", 2))] + [At(0, RollEnd)]
    requires |last.instances| == 1 && ALICE in last.instances[0].conns && last.instances[0].conns[ALICE].pending
    ensures PassedInVain(steps, last)
  {
    assert steps[|before|] == At(0, ResponsePass(ALICE));
  }
}
