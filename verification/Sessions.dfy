/** Anonymous, per-day sessions (src/identity/sessions.ts) over a store that other calls use meanwhile. */
module Sessions {
  import opened Types
  import opened Store
  import opened StoreRuns
  import Day

  /** A call by somebody else, some time after the previous one. */
  datatype Later = Later(after: nat, op: Op)

  ghost predicate AllCallable(others: seq<Later>) {
    forall i :: 0 <= i < |others| ==> Callable(others[i].op)
  }

  /** What every method of this module does to the store's log: it only adds to it. */
  twostate predicate Continues(store: MemoryStore)
    reads store
  {
    store.Valid() && old(store.log) <= store.log
  }

  /** The calls others make while this one awaits. */
  method Await(store: MemoryStore, others: seq<Later>)
    requires store.Valid() && AllCallable(others)
    modifies store
    ensures Continues(store)
  {
    for i := 0 to |others|
      invariant Continues(store)
    {
      store.Advance(store.now + others[i].after);
      Perform(store, others[i].op);
    }
  }

  method Perform(store: MemoryStore, op: Op)
    requires store.Valid() && Callable(op)
    modifies store
    ensures Continues(store)
  {
    match op {
      case ClaimName(roomId, name, sid, expireAt) => var _ := store.ClaimName(roomId, name, sid, expireAt);
      case NameOwner(roomId, name) => var _ := store.NameOwner(roomId, name);
      case SaveSession(rec, expireAt) => store.SaveSession(rec, expireAt);
      case GetSession(sid) => var _ := store.GetSession(sid);
      case SetResume(hash, sid, expireAt) => store.SetResume(hash, sid, expireAt);
      case ResolveResume(hash) => var _ := store.ResolveResume(hash);
      case Hit(counter, windowMs, amount) => var _ := store.Hit(counter, windowMs, amount);
      case AddToSet(s, member, ttlMs) => var _ := store.AddToSet(s, member, ttlMs);
      case SetBlock(blocked, ttlMs, reason) => store.SetBlock(blocked, ttlMs, reason);
      case BlockTtl(blocked) => var _ := store.BlockTtl(blocked);
      case DeleteBlock(blocked) => store.DeleteBlock(blocked);
      case AcquireOnce(lock, ttlMs) => var _ := store.AcquireOnce(lock, ttlMs);
      case AppendMessage(roomId, msg, keep, expireAt) => store.AppendMessage(roomId, msg, keep, expireAt);
      case RecentMessages(roomId, limit) => var _ := store.RecentMessages(roomId, limit);
      case DeleteRoom(roomId) => store.DeleteRoom(roomId);
    }
  }

  datatype NewSession = NewSession(ipHash: string, country: Option<string>, now: int, suspicion: real,
                                   challengePending: bool)

  /** At `i` the name was claimed for the session, at `j` its record was saved and at `j + 1` its token,
      all of them until the room's end. */
  ghost predicate Created(log: seq<Timed>, room: Day.Room, rec: SessionRecord, hash: string, i: nat, j: nat)
    requires Run(log)
  {
    && i < j && j + 1 < |log|
    && rec.roomId == room.roomId
    && log[i].op == Op.ClaimName(room.roomId, rec.name, rec.sid, room.endsAt) && ReplyAt(log, i) == Flag(true)
    && log[j].op == Op.SaveSession(rec, room.endsAt)
    && log[j + 1].op == Op.SetResume(hash, rec.sid, room.endsAt)
  }

  ghost predicate Claimed(log: seq<Timed>, roomId: string, name: string, sid: string, expireAt: int, yes: bool, i: nat)
    requires Run(log)
  {
    i < |log| && log[i].op == Op.ClaimName(roomId, name, sid, expireAt) && ReplyAt(log, i) == Flag(yes)
  }

  lemma ReplyStays(log: seq<Timed>, longer: seq<Timed>, i: nat)
    requires Run(longer) && log <= longer && i < |log|
    ensures Run(log) && ReplyAt(longer, i) == ReplyAt(log, i)
  {
    hide Apply, Callable;
    assert forall k :: 0 <= k < |log| ==> log[k] == longer[k];
    assert longer[..i] == log[..i];
  }

  /** Claims already in the log keep their answers. */
  lemma ClaimsStay(log: seq<Timed>, longer: seq<Timed>, roomId: string, sid: string, expireAt: int)
    requires Run(log) && Run(longer) && log <= longer
    ensures forall name, yes, n: nat :: Claimed(log, roomId, name, sid, expireAt, yes, n) ==>
              Claimed(longer, roomId, name, sid, expireAt, yes, n)
  {
    forall name, yes, n: nat | Claimed(log, roomId, name, sid, expireAt, yes, n)
      ensures Claimed(longer, roomId, name, sid, expireAt, yes, n)
    {
      ReplyStays(log, longer, n);
    }
  }

  /** Some claim of the name, from call `from` on, was refused. */
  ghost predicate Refused(log: seq<Timed>, roomId: string, name: string, sid: string, expireAt: int, from: nat)
    requires Run(log)
  {
    exists i :: from <= i && Claimed(log, roomId, name, sid, expireAt, false, i)
  }

  lemma RefusedStays(log: seq<Timed>, longer: seq<Timed>, roomId: string, name: string, sid: string, expireAt: int,
                     from: nat)
    requires Run(log) && Run(longer) && log <= longer && Refused(log, roomId, name, sid, expireAt, from)
    ensures Refused(longer, roomId, name, sid, expireAt, from)
  {
    var i :| from <= i && Claimed(log, roomId, name, sid, expireAt, false, i);
    ReplyStays(log, longer, i);
    assert Claimed(longer, roomId, name, sid, expireAt, false, i);
  }

  class SessionService {
    const store: MemoryStore
    const hashToken: string -> string

    constructor (store: MemoryStore, hashToken: string -> string)
      ensures this.store == store && this.hashToken == hashToken
    {
      this.store := store;
      this.hashToken := hashToken;
    }

    /** Tries up to ten random names; `others` are the calls made during each await. Either a session is
        created, or every candidate was refused and nothing but the claims was tried. */
    method Create(room: Day.Room, input: NewSession, sid: string, candidates: seq<string>, token: string,
                  others: seq<seq<Later>>)
      returns (created: Option<SessionRecord>, ghost claim: nat, ghost save: nat)
      requires store.Valid() && |candidates| == 10 && |others| == 11
      requires forall i :: 0 <= i < 11 ==> AllCallable(others[i])
      modifies store
      ensures Continues(store)
      ensures created.Some? ==>
                && created.value
                   == SessionRecord(sid, room.roomId, created.value.name, input.country, input.ipHash, input.now,
                     input.suspicion, input.now, input.challengePending, 0, 0, 0)
                && created.value.name in candidates
                && old(|store.log|) <= claim && Created(store.log, room, created.value, hashToken(token), claim, save)
      ensures created.None? ==> forall k :: 0 <= k < 10 ==>
                Refused(store.log, room.roomId, candidates[k], sid, room.endsAt, old(|store.log|))
    {
      hide Run, After, ReplyAt, Apply, Callable;
      var name: Option<string> := None;
      var i := 0;
      claim, save := 0, 0;
      while i < 10 && name.None?
        invariant 0 <= i <= 10 && Continues(store)
        invariant name.Some? ==>
                    && name.value in candidates && old(|store.log|) <= claim
                    && Claimed(store.log, room.roomId, name.value, sid, room.endsAt, true, claim)
        invariant name.None? ==> forall k :: 0 <= k < i ==>
                    Refused(store.log, room.roomId, candidates[k], sid, room.endsAt, old(|store.log|))
        decreases 10 - i
      {
        var candidate := candidates[i];
        ghost var log0 := store.log;
        var claimed, at := Try(room, candidate, sid, others[i]);
        ClaimsStay(log0, store.log, room.roomId, sid, room.endsAt);
        forall k | 0 <= k < i && name.None?
          ensures Refused(store.log, room.roomId, candidates[k], sid, room.endsAt, old(|store.log|))
        {
          RefusedStays(log0, store.log, room.roomId, candidates[k], sid, room.endsAt, old(|store.log|));
        }
        if claimed {
          name, claim := Some(candidate), at;
        }
        i := i + 1;
      }
      if name.None? {
        return None, claim, save;
      }
      var rec := SessionRecord(sid, room.roomId, name.value, input.country, input.ipHash, input.now, input.suspicion,
                               input.now, input.challengePending, 0, 0, 0);
      ghost var log1 := store.log;
      save := Keep(room, rec, token, others[10]);
      ClaimsStay(log1, store.log, room.roomId, sid, room.endsAt);
      created := Some(rec);
    }

    /** One candidate. */
    method Try(room: Day.Room, candidate: string, sid: string, others: seq<Later>)
        returns (claimed: bool, ghost at: nat)
      requires store.Valid() && AllCallable(others)
      modifies store
      ensures Continues(store) && at == |old(store.log)|
      ensures Claimed(store.log, room.roomId, candidate, sid, room.endsAt, claimed, at)
    {
      hide Run, After, ReplyAt, Apply, Callable;
      at := |store.log|;
      claimed := store.ClaimName(room.roomId, candidate, sid, room.endsAt);
      ghost var log := store.log;
      Await(store, others);
      ClaimsStay(log, store.log, room.roomId, sid, room.endsAt);
    }

    /** The session's record and its token. */
    method Keep(room: Day.Room, rec: SessionRecord, token: string, others: seq<Later>) returns (ghost save: nat)
      requires store.Valid() && AllCallable(others)
      modifies store
      ensures Continues(store) && save == |old(store.log)| && save + 1 < |store.log|
      ensures store.log[save].op == Op.SaveSession(rec, room.endsAt)
      ensures store.log[save + 1].op == Op.SetResume(hashToken(token), rec.sid, room.endsAt)
    {
      hide Run, After, ReplyAt, Apply, Callable;
      save := |store.log|;
      store.SaveSession(rec, room.endsAt);
      store.SetResume(hashToken(token), rec.sid, room.endsAt);
      Await(store, others);
    }

    /** Reads only: `others` are the calls made between the two reads. */
    method Resume(room: Day.Room, token: string, others: seq<Later>) returns (rec: Option<SessionRecord>, ghost n: nat)
      requires store.Valid() && AllCallable(others)
      modifies store
      ensures Continues(store)
      ensures rec.Some? ==> rec.value.roomId == room.roomId
      ensures !(0 < |token| <= 128) ==> rec == None && store.log == old(store.log)
      ensures 0 < |token| <= 128 ==>
                && old(|store.log|) < |store.log|
                && store.log[old(|store.log|)] == Timed(old(store.now), Op.ResolveResume(hashToken(token)))
                && Resumed(store.log, old(|store.log|), n, room.roomId, rec)
    {
      n := 0;
      if |token| == 0 || |token| > 128 {
        return None, n;
      }
      ghost var first := |store.log|;
      var sid := store.ResolveResume(hashToken(token));
      ghost var log1 := store.log;
      if sid.None? {
        return None, n;
      }
      Await(store, others);
      n := |store.log|;
      var found := store.GetSession(sid.value);
      ReplyStays(log1, store.log, first);
      if found.None? || found.value.roomId != room.roomId {
        return None, n;
      }
      return found, n;
    }
  }

  /** `rec` is what the two answers at `i` and `n` of the log amount to for a room. */
  ghost predicate Resumed(log: seq<Timed>, i: nat, n: nat, roomId: string, rec: Option<SessionRecord>)
    requires Run(log)
  {
    && i < |log| && log[i].op.ResolveResume? && ReplyAt(log, i).Id?
    && match ReplyAt(log, i).id
       case None => rec == None
       case Some(sid) =>
         && i < n < |log| && log[n].op == Op.GetSession(sid) && ReplyAt(log, n).Record?
         && rec == (match ReplyAt(log, n).rec
                    case Some(r) => if r.roomId == roomId then Some(r) else None
                    case None => None)
  }

  // ----- Cluster-wide identity -----

  /** Nobody deletes the room before it ends. */
  ghost predicate RoomKept(log: seq<Timed>, room: Day.Room) {
    forall i :: 0 <= i < |log| && log[i].op == Op.DeleteRoom(room.roomId) ==> room.endsAt <= log[i].at
  }

  /** Two sessions created for the same room before its end never share a name, whoever creates them and
      whatever happens in between. */
  lemma NamesAreUnique(log: seq<Timed>, room: Day.Room, rec1: SessionRecord, rec2: SessionRecord, hash1: string,
                       hash2: string, i1: nat, j1: nat, i2: nat, j2: nat)
    requires Run(log) && RoomKept(log, room)
    requires Created(log, room, rec1, hash1, i1, j1) && Created(log, room, rec2, hash2, i2, j2)
    requires i1 != i2 && log[i1].at < room.endsAt && log[i2].at < room.endsAt
    ensures rec1.name != rec2.name
  {
    if rec1.name == rec2.name {
      NameClaimedOnce(log, if i1 < i2 then i1 else i2, if i1 < i2 then i2 else i1);
    }
  }

  /** From call `n` on, saves of the session keep its identity and its life, and its token is not reissued. */
  ghost predicate Respected(log: seq<Timed>, n: nat, rec: SessionRecord, hash: string, end: int) {
    forall i :: n <= i < |log| ==>
      && (log[i].op.SaveSession? && log[i].op.rec.sid == rec.sid ==>
            log[i].op.rec.name == rec.name && log[i].op.rec.roomId == rec.roomId && end <= log[i].op.expireAt)
      && (log[i].op.SetResume? ==> log[i].op.hash != hash)
  }

  ghost predicate SameSession(s: State, rec: SessionRecord, end: int) {
    && SessionKey(rec.sid) in s.kv
    && var e := s.kv[SessionKey(rec.sid)];
       e.v.Session? && e.v.rec.sid == rec.sid && e.v.rec.name == rec.name && e.v.rec.roomId == rec.roomId
       && end <= e.exp
  }

  lemma SessionStep(s: State, op: Op, now: int, rec: SessionRecord, end: int)
    requires SameSession(s, rec, end) && Callable(op) && now < end
    requires op.SaveSession? && op.rec.sid == rec.sid ==>
               op.rec.name == rec.name && op.rec.roomId == rec.roomId && end <= op.expireAt
    ensures SameSession(Apply(s, op, now).0, rec, end)
  {
    var k := SessionKey(rec.sid);
    if !(op.SaveSession? && op.rec.sid == rec.sid) { StepKeeps(s, op, now, k, s.kv[k]); }
  }

  lemma {:induction false} SessionKept(log: seq<Timed>, n: nat, rec: SessionRecord, hash: string, end: int)
    requires Run(log) && n <= |log| && SameSession(After(log[..n]), rec, end) && Respected(log, n, rec, hash, end)
    requires forall i :: n <= i < |log| ==> log[i].at < end
    ensures SameSession(After(log), rec, end)
  {
    if n == |log| {
      assert log[..n] == log;
    } else {
      var before, last := log[..|log| - 1], log[|log| - 1];
      assert before[..n] == log[..n];
      SessionKept(before, n, rec, hash, end);
      hide SameSession, Apply;
      SessionStep(After(before), last.op, last.at, rec, end);
    }
  }

  /** A token resumes to its session, same sid and same name, under any interleaved store calls until the
      room's end; and for any other room it resumes to nothing. */
  lemma TokenResumes(log: seq<Timed>, room: Day.Room, rec: SessionRecord, hash: string, i: nat, j: nat,
                     first: nat, second: nat, roomId: string, found: Option<SessionRecord>)
    requires Run(log) && Created(log, room, rec, hash, i, j) && Respected(log, j + 2, rec, hash, room.endsAt)
    requires j + 1 < first && Resumed(log, first, second, roomId, found)
    requires first < |log| && log[first].op == Op.ResolveResume(hash)
    requires log[first].at < room.endsAt && (second < |log| ==> log[second].at < room.endsAt)
    ensures roomId == room.roomId ==> found.Some? && found.value.sid == rec.sid && found.value.name == rec.name
    ensures roomId != room.roomId ==> found == None
  {
    hide *;
    TokenInPlace(log, room, rec, hash, i, j);
    TokenResolves(log, rec, hash, j + 2, room.endsAt, first);
    ResumedMeans(log, first, second, roomId, found, rec.sid);
    SessionFound(log, rec, hash, j + 2, room.endsAt, second);
  }

  lemma ResumedMeans(log: seq<Timed>, i: nat, n: nat, roomId: string, found: Option<SessionRecord>, sid: string)
    requires Run(log) && Resumed(log, i, n, roomId, found) && i < |log| && ReplyAt(log, i) == Id(Some(sid))
    ensures i < n < |log| && log[n].op == Op.GetSession(sid) && ReplyAt(log, n).Record?
    ensures ReplyAt(log, n).rec.Some? ==>
              found == if ReplyAt(log, n).rec.value.roomId == roomId then ReplyAt(log, n).rec else None
  {
    hide ReplyAt, Run;
  }

  lemma TokenInPlace(log: seq<Timed>, room: Day.Room, rec: SessionRecord, hash: string, i: nat, j: nat)
    requires Run(log) && Created(log, room, rec, hash, i, j)
    ensures rec.roomId == room.roomId && j + 2 <= |log| && Run(log[..j + 2])
            && SameSession(After(log[..j + 2]), rec, room.endsAt)
    ensures Under(After(log[..j + 2]), ResumeKey(hash), Entry(Owner(rec.sid), room.endsAt))
  {
    hide Apply, After, SameSession, Under;
    CreatedMeans(log, room, rec, hash, i, j);
    AfterStep(log, j);
    AfterStep(log, j + 1);
    Saves(After(log[..j]), rec, room.endsAt, log[j].at);
    Issues(After(log[..j + 1]), rec, room.endsAt, hash, log[j + 1].at);
  }

  lemma CreatedMeans(log: seq<Timed>, room: Day.Room, rec: SessionRecord, hash: string, i: nat, j: nat)
    requires Run(log) && Created(log, room, rec, hash, i, j)
    ensures j + 1 < |log| && rec.roomId == room.roomId
    ensures log[j].op == Op.SaveSession(rec, room.endsAt) && log[j + 1].op == Op.SetResume(hash, rec.sid, room.endsAt)
  {
    hide Run, ReplyAt;
  }

  lemma Saves(s: State, rec: SessionRecord, end: int, now: int)
    ensures SameSession(Apply(s, Op.SaveSession(rec, end), now).0, rec, end)
  {
  }

  lemma Issues(s: State, rec: SessionRecord, end: int, hash: string, now: int)
    requires SameSession(s, rec, end)
    ensures var s' := Apply(s, Op.SetResume(hash, rec.sid, end), now).0;
            SameSession(s', rec, end) && Under(s', ResumeKey(hash), Entry(Owner(rec.sid), end))
  {
  }

  lemma TokenResolves(log: seq<Timed>, rec: SessionRecord, hash: string, n: nat, end: int, first: nat)
    requires Run(log) && n <= first < |log| && log[first].op == Op.ResolveResume(hash) && log[first].at < end
    requires Under(After(log[..n]), ResumeKey(hash), Entry(Owner(rec.sid), end)) && Respected(log, n, rec, hash, end)
    ensures ReplyAt(log, first) == Id(Some(rec.sid))
  {
    assert log[..first][..n] == log[..n];
    forall i | n <= i < |log[..first]|
      ensures log[..first][i].at < end && !Overwrites(log[..first][i].op, ResumeKey(hash))
    {
      assert log[i].at <= log[first].at;
    }
    hide Apply;
    EntryKept(log[..first], n, ResumeKey(hash), Entry(Owner(rec.sid), end));
    AfterStep(log, first);
    ResolveFinds(After(log[..first]), hash, rec.sid, end, log[first].at);
  }

  lemma ResolveFinds(s: State, hash: string, sid: string, end: int, now: int)
    requires Under(s, ResumeKey(hash), Entry(Owner(sid), end)) && now < end
    ensures Apply(s, Op.ResolveResume(hash), now).1 == Id(Some(sid))
  {
  }

  lemma SessionFound(log: seq<Timed>, rec: SessionRecord, hash: string, n: nat, end: int, second: nat)
    requires Run(log) && n <= second < |log| && log[second].op == Op.GetSession(rec.sid) && log[second].at < end
    requires SameSession(After(log[..n]), rec, end) && Respected(log, n, rec, hash, end)
    ensures var r := ReplyAt(log, second);
            r.Record? && r.rec.Some? && r.rec.value.sid == rec.sid && r.rec.value.name == rec.name
            && r.rec.value.roomId == rec.roomId
  {
    assert log[..second][..n] == log[..n];
    forall i | n <= i < |log[..second]|
      ensures log[..second][i].at < end
    {
      assert log[i].at <= log[second].at;
    }
    hide Apply;
    SessionKept(log[..second], n, rec, hash, end);
    AfterStep(log, second);
    GetFinds(After(log[..second]), rec, end, log[second].at);
  }

  lemma GetFinds(s: State, rec: SessionRecord, end: int, now: int)
    requires SameSession(s, rec, end) && now < end
    ensures Apply(s, Op.GetSession(rec.sid), now).1 == Record(Some(s.kv[SessionKey(rec.sid)].v.rec))
  {
  }
}
