/** What the models say of each other: the calls that a run of the cluster and the lives of connections make are calls
    of the store's log, so the session service's theorems hold of them. */
module Together {
  import opened Types
  import opened Store
  import opened Sessions
  import Day
  import C = Cluster
  import Safety = ClusterSafety
  import Theorems = ClusterTheorems
  import G = Gateway

  /** Rooms are deleted only by the cluster's cleanups, each some time after its lock was taken. */
  ghost predicate DeletedByCleanups(log: seq<Timed>, cleanups: seq<C.Cleanup>) {
    forall i :: 0 <= i < |log| && log[i].op.DeleteRoom? ==>
      exists a :: 0 <= a < |cleanups| && cleanups[a].room.roomId == log[i].op.roomId && cleanups[a].at <= log[i].at
  }

  /** The cluster deletes no room before its end. */
  lemma CleanupsKeepRooms(log: seq<Timed>, room: Day.Room, states: seq<C.State>, steps: seq<C.Step>, n: nat,
                          cal: Day.Calendar, from: int)
    requires Theorems.Reached(states, steps, n, cal, from) && DeletedByCleanups(log, states[n].cleanups)
    requires Safety.IsRoom(room, cal, from)
    ensures RoomKept(log, room)
  {
    forall i | 0 <= i < |log| && log[i].op == Op.DeleteRoom(room.roomId)
      ensures room.endsAt <= log[i].at
    {
      var a :| 0 <= a < |states[n].cleanups| && states[n].cleanups[a].room.roomId == log[i].op.roomId
               && states[n].cleanups[a].at <= log[i].at;
      Theorems.CleanedAfterEnd(states, steps, n, cal, from, a);
      OneRoom(room, states[n].cleanups[a].room, cal, from);
    }
  }

  /** Rooms of the calendar with the same id are the same. */
  lemma OneRoom(r: Day.Room, q: Day.Room, cal: Day.Calendar, from: int)
    requires Safety.Tiles(cal, from) && Safety.IsRoom(r, cal, from) && Safety.IsRoom(q, cal, from)
             && r.roomId == q.roomId
    ensures r == q
  {
    var t: int :| from <= t && cal.RoomAt(t) == r;
    var u: int :| from <= u && cal.RoomAt(u) == q;
    assert Day.Tile(cal.RoomAt(t), cal.RoomAt(u), t, u);
  }

  /** So in every run of the cluster two sessions created for the same room before its end never share a name. */
  lemma NamesAreUniqueInTheCluster(log: seq<Timed>, room: Day.Room, rec1: SessionRecord, rec2: SessionRecord,
                                   hash1: string, hash2: string, i1: nat, j1: nat, i2: nat, j2: nat,
                                   states: seq<C.State>, steps: seq<C.Step>, n: nat, cal: Day.Calendar, from: int)
    requires Theorems.Reached(states, steps, n, cal, from) && Safety.IsRoom(room, cal, from)
    requires Run(log) && DeletedByCleanups(log, states[n].cleanups)
    requires Created(log, room, rec1, hash1, i1, j1) && Created(log, room, rec2, hash2, i2, j2)
    requires i1 != i2 && log[i1].at < room.endsAt && log[i2].at < room.endsAt
    ensures rec1.name != rec2.name
  {
    CleanupsKeepRooms(log, room, states, steps, n, cal, from);
    NamesAreUnique(log, room, rec1, rec2, hash1, hash2, i1, j1, i2, j2);
  }

  /** From call `n` on, the session is saved only by connections that use it, each time until the end of the room it is
      saved under, and its token is not issued again. */
  ghost predicate SavedByConnections(log: seq<Timed>, n: nat, rec: SessionRecord, hash: string, saves: seq<G.Save>) {
    forall i :: n <= i < |log| ==>
      && (log[i].op.SaveSession? && log[i].op.rec.sid == rec.sid ==>
            exists s <- saves :: log[i].op == Op.SaveSession(s.rec, s.room.endsAt))
      && (log[i].op.SetResume? ==> log[i].op.hash != hash)
  }

  /** Connections save the session as it was created, until its room's end. */
  lemma SavesRespect(log: seq<Timed>, n: nat, rec: SessionRecord, hash: string, room: Day.Room, saves: seq<G.Save>,
                     cal: Day.Calendar, from: int)
    requires SavedByConnections(log, n, rec, hash, saves) && G.Filed(saves, cal) && from <= 0
    requires forall s <- saves :: s.rec.sid == rec.sid ==> G.Identity(Some(s.rec)) == G.Identity(Some(rec))
    requires Safety.Tiles(cal, from) && Safety.IsRoom(room, cal, from) && rec.roomId == room.roomId
    ensures Respected(log, n, rec, hash, room.endsAt)
  {
    forall i | n <= i < |log| && log[i].op.SaveSession? && log[i].op.rec.sid == rec.sid
      ensures log[i].op.rec.name == rec.name && log[i].op.rec.roomId == rec.roomId && room.endsAt <= log[i].op.expireAt
    {
      var s :| s in saves && log[i].op == Op.SaveSession(s.rec, s.room.endsAt);
      assert G.Shown(cal, s.room);
      OneRoom(room, s.room, cal, from);
    }
  }

  /** So a token resumes to its session until the room's end, whatever connections save meanwhile. */
  lemma TokenResumesForConnections(log: seq<Timed>, room: Day.Room, rec: SessionRecord, hash: string, i: nat, j: nat,
                                   first: nat, second: nat, roomId: string, found: Option<SessionRecord>,
                                   saves: seq<G.Save>, cal: Day.Calendar, from: int)
    requires Run(log) && Created(log, room, rec, hash, i, j) && SavedByConnections(log, j + 2, rec, hash, saves)
    requires G.Filed(saves, cal) && from <= 0 && Safety.Tiles(cal, from) && Safety.IsRoom(room, cal, from)
    requires forall s <- saves :: s.rec.sid == rec.sid ==> G.Identity(Some(s.rec)) == G.Identity(Some(rec))
    requires j + 1 < first && Resumed(log, first, second, roomId, found)
    requires first < |log| && log[first].op == Op.ResolveResume(hash)
    requires log[first].at < room.endsAt && (second < |log| ==> log[second].at < room.endsAt)
    ensures roomId == room.roomId ==> found.Some? && found.value.sid == rec.sid && found.value.name == rec.name
    ensures roomId != room.roomId ==> found == None
  {
    hide SavedByConnections, G.Filed, Safety.Tiles, Safety.IsRoom, Respected, Resumed, Run;
    SavesRespect(log, j + 2, rec, hash, room, saves, cal, from);
    TokenResumes(log, room, rec, hash, i, j, first, second, roomId, found);
  }
}
