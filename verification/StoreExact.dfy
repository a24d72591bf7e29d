/** What every answer of the store is, in terms of the calls made before it. */
module StoreExact {
  import opened Types
  import opened Store
  import opened StoreRuns

  // ----- One key -----

  /** Counters and sets grow; under every other key an entry is written once and for all. */
  predicate Plain(k: Key) {
    !k.RateKey? && !k.SetKey?
  }

  /** What a call wrote under `k`, given its answer. */
  function Written(t: Timed, reply: Reply, k: Key): Option<Entry> {
    match t.op
    case ClaimName(roomId, name, sid, expireAt) =>
      if k == NameKey(roomId, name) && reply == Flag(true) then Some(Entry(Owner(sid), expireAt)) else None
    case SaveSession(rec, expireAt) => if k == SessionKey(rec.sid) then Some(Entry(Session(rec), expireAt)) else None
    case SetResume(hash, sid, expireAt) => if k == ResumeKey(hash) then Some(Entry(Owner(sid), expireAt)) else None
    case SetBlock(blocked, ttlMs, reason) =>
      if k == BlockKey(blocked) then Some(Entry(Reason(reason), t.at + ttlMs)) else None
    case AcquireOnce(lock, ttlMs) =>
      if k == LockKey(lock) && reply == Flag(true) then Some(Entry(Held, t.at + ttlMs)) else None
    case _ => None
  }

  predicate Clears(op: Op, k: Key) {
    || (op.DeleteBlock? && k == BlockKey(op.blocked))
    || (op.DeleteRoom? && k.NameKey? && k.roomId == op.roomId)
  }

  lemma StepWrites(s: State, op: Op, now: int, k: Key)
    requires Callable(op) && Plain(k)
    ensures var (s', reply) := Apply(s, op, now);
            var w := Written(Timed(now, op), reply, k);
            && (w.Some? ==> Under(s', k, w.value))
            && (Clears(op, k) ==> k !in s'.kv && w.None?)
            && (w.None? && k in s'.kv ==> Under(s, k, s'.kv[k]))
            && (w.None? && !Clears(op, k) && k in s.kv && now < s.kv[k].exp ==> Under(s', k, s.kv[k]))
  {
  }

  /** Call `j` wrote under `k`. */
  ghost predicate Writes(ops: seq<Timed>, j: int, k: Key)
    requires Run(ops)
  {
    0 <= j < |ops| && Written(ops[j], ReplyAt(ops, j), k).Some?
  }

  /** Nothing has been written or cleared under `k` from call `j` on. */
  ghost predicate Quiet(ops: seq<Timed>, j: nat, k: Key)
    requires Run(ops)
  {
    forall m :: j <= m < |ops| ==> !Writes(ops, m, k) && !Clears(ops[m].op, k)
  }

  /** The last call but one, and what was before it. */
  lemma Before(ops: seq<Timed>)
    requires Run(ops) && ops != []
    ensures var before, last := ops[..|ops| - 1], ops[|ops| - 1];
            && Run(before) && Callable(last.op) && After(ops) == Apply(After(before), last.op, last.at).0
            && ReplyAt(ops, |ops| - 1) == Apply(After(before), last.op, last.at).1
            && (forall j :: 0 <= j < |before| ==> ReplyAt(before, j) == ReplyAt(ops, j) && before[j] == ops[j])
  {
    hide Apply;
    var before := ops[..|ops| - 1];
    forall j | 0 <= j < |before|
      ensures ReplyAt(before, j) == ReplyAt(ops, j)
    {
      assert before[..j] == ops[..j];
    }
  }

  /** What is there was written last, and by a call since which it has not been cleared. */
  lemma {:induction false} WrittenLast(ops: seq<Timed>, k: Key) returns (j: nat)
    requires Run(ops) && Plain(k) && k in After(ops).kv
    ensures Writes(ops, j, k) && Written(ops[j], ReplyAt(ops, j), k) == Some(After(ops).kv[k])
    ensures Quiet(ops, j + 1, k)
  {
    hide Apply, Written, Clears;
    if ops != [] {
      var before, last := ops[..|ops| - 1], ops[|ops| - 1];
      Before(ops);
      StepWrites(After(before), last.op, last.at, k);
      if Writes(ops, |ops| - 1, k) {
        j := |ops| - 1;
      } else {
        assert Under(After(before), k, After(ops).kv[k]);
        hide Run, ReplyAt;
        j := WrittenLast(before, k);
      }
    }
  }

  /** What was written stays until it expires, if nothing is written or cleared. */
  lemma {:induction false} StillThere(ops: seq<Timed>, j: nat, k: Key, now: int)
    requires Run(ops) && Plain(k) && Writes(ops, j, k) && Quiet(ops, j + 1, k)
    requires forall m :: 0 <= m < |ops| ==> ops[m].at <= now
    requires now < Written(ops[j], ReplyAt(ops, j), k).value.exp
    ensures Under(After(ops), k, Written(ops[j], ReplyAt(ops, j), k).value)
  {
    hide Apply, Written, Clears;
    var before, last := ops[..|ops| - 1], ops[|ops| - 1];
    Before(ops);
    StepWrites(After(before), last.op, last.at, k);
    if j < |ops| - 1 {
      assert Quiet(before, j + 1, k);
      StillThere(before, j, k, now);
    }
  }

  /** The entry that a read under `k` finds at call `i` is that of call `j`. */
  ghost predicate Stands(ops: seq<Timed>, j: int, i: nat, k: Key)
    requires Run(ops) && i < |ops|
  {
    && 0 <= j < i && Writes(ops, j, k) && ops[i].at < Written(ops[j], ReplyAt(ops, j), k).value.exp
    && forall m :: j < m < i ==> !Writes(ops, m, k) && !Clears(ops[m].op, k)
  }

  function Finds(s: State, k: Key, now: int): Option<Entry> {
    if k in s.kv && now < s.kv[k].exp then Some(s.kv[k]) else None
  }

  /** So a read finds the last entry written, unless it has expired or been cleared, and nothing else. */
  lemma FindsExactly(ops: seq<Timed>, i: nat, k: Key)
    requires Run(ops) && i < |ops| && Plain(k)
    ensures forall j :: Stands(ops, j, i, k) ==>
              Finds(After(ops[..i]), k, ops[i].at) == Written(ops[j], ReplyAt(ops, j), k)
    ensures Finds(After(ops[..i]), k, ops[i].at).Some? ==> exists j :: Stands(ops, j, i, k)
  {
    hide Apply, Written, Clears, After, ReplyAt;
    var before := ops[..i];
    Prefix(ops, i);
    forall j | Stands(ops, j, i, k)
      ensures Finds(After(before), k, ops[i].at) == Written(ops[j], ReplyAt(ops, j), k)
    {
      assert Writes(before, j, k);
      StillThere(before, j, k, ops[i].at);
    }
    if Finds(After(before), k, ops[i].at).Some? {
      var j := WrittenLast(before, k);
      assert Stands(ops, j, i, k);
    }
  }

  lemma Prefix(ops: seq<Timed>, i: nat)
    requires Run(ops) && i <= |ops|
    ensures Run(ops[..i]) && forall j :: 0 <= j < i ==> ReplyAt(ops[..i], j) == ReplyAt(ops, j) && ops[..i][j] == ops[j]
    ensures i < |ops| ==> forall j :: 0 <= j < i ==> ops[j].at <= ops[i].at
  {
    hide Apply;
    forall j | 0 <= j < i
      ensures ReplyAt(ops[..i], j) == ReplyAt(ops, j)
    {
      assert ops[..i][..j] == ops[..j];
    }
  }

  // ----- The answers -----

  /** Was the name claimed at `j`, and is it kept at call `i`? */
  ghost predicate Keeps(ops: seq<Timed>, j: int, i: nat, roomId: string, name: string)
    requires Run(ops) && i < |ops|
  {
    && 0 <= j < i && ops[j].op.ClaimName? && ops[j].op.roomId == roomId && ops[j].op.name == name
    && ReplyAt(ops, j) == Flag(true) && ops[i].at < ops[j].op.expireAt
    && forall m :: j < m < i ==> ops[m].op != Op.DeleteRoom(roomId)
  }

  lemma KeptStands(ops: seq<Timed>, j: int, i: nat, roomId: string, name: string)
    requires Run(ops) && i < |ops|
    ensures Keeps(ops, j, i, roomId, name) <==> Stands(ops, j, i, NameKey(roomId, name))
  {
    var k := NameKey(roomId, name);
    hide Run, ReplyAt, After;
    if Keeps(ops, j, i, roomId, name) {
      forall m | j < m < i
        ensures !Writes(ops, m, k) && !Clears(ops[m].op, k)
      {
        if Writes(ops, m, k) {
          InOrder(ops, i);
          NameClaimedOnce(ops, j, m);
        }
      }
    }
  }

  lemma NameAnswers(s: State, op: Op, now: int, roomId: string, name: string)
    requires Callable(op)
    ensures var found := Finds(s, NameKey(roomId, name), now);
            && (op.ClaimName? && op.roomId == roomId && op.name == name ==> Apply(s, op, now).1 == Flag(found.None?))
            && (op == NameOwner(roomId, name) ==> Apply(s, op, now).1 == Id(OwnerOf(found)))
  {
  }

  /** A claim is granted exactly if no granted claim of the name in the room is kept; and a name has exactly the owner
      that keeps it. */
  lemma NamesExactly(ops: seq<Timed>, i: nat, roomId: string, name: string)
    requires Run(ops) && i < |ops|
    ensures ops[i].op.ClaimName? && ops[i].op.roomId == roomId && ops[i].op.name == name ==>
              ReplyAt(ops, i) == Flag(!exists j :: Keeps(ops, j, i, roomId, name))
    ensures ops[i].op == NameOwner(roomId, name) ==>
              && (forall j :: Keeps(ops, j, i, roomId, name) ==> ReplyAt(ops, i) == Id(Some(ops[j].op.sid)))
              && ((!exists j :: Keeps(ops, j, i, roomId, name)) ==> ReplyAt(ops, i) == Id(None))
  {
    var k := NameKey(roomId, name);
    FindsExactly(ops, i, k);
    NameAnswers(After(ops[..i]), ops[i].op, ops[i].at, roomId, name);
    hide Apply, After, Stands, Run, Finds;
    forall j
      ensures Keeps(ops, j, i, roomId, name) <==> Stands(ops, j, i, k)
    {
      KeptStands(ops, j, i, roomId, name);
    }
  }

  /** A lock is granted exactly if the life of every grant before it is over. */
  lemma LocksExactly(ops: seq<Timed>, i: nat)
    requires Run(ops) && i < |ops| && ops[i].op.AcquireOnce?
    ensures ReplyAt(ops, i) == Flag(!exists j :: Locks(ops, j, i, ops[i].op.lock))
  {
    var k := LockKey(ops[i].op.lock);
    FindsExactly(ops, i, k);
    LockAnswers(After(ops[..i]), ops[i].op, ops[i].at);
    hide Apply, After, Run, Finds, Stands, Locks;
    forall j
      ensures Locks(ops, j, i, ops[i].op.lock) <==> Stands(ops, j, i, k)
    {
      LockStands(ops, j, i, ops[i].op.lock);
    }
  }

  /** Was the lock granted at `j`, for a time that is not over at call `i`? */
  ghost predicate Locks(ops: seq<Timed>, j: int, i: nat, lock: string)
    requires Run(ops) && i < |ops|
  {
    && 0 <= j < i && ops[j].op.AcquireOnce? && ops[j].op.lock == lock && ReplyAt(ops, j) == Flag(true)
    && ops[i].at < ops[j].at + ops[j].op.ttlMs
  }

  lemma LockStands(ops: seq<Timed>, j: int, i: nat, lock: string)
    requires Run(ops) && i < |ops|
    ensures Locks(ops, j, i, lock) <==> Stands(ops, j, i, LockKey(lock))
  {
    var k := LockKey(lock);
    hide Run, ReplyAt, After;
    if Locks(ops, j, i, lock) {
      forall m | j < m < i
        ensures !Writes(ops, m, k) && !Clears(ops[m].op, k)
      {
        if Writes(ops, m, k) {
          InOrder(ops, i);
          LockedOnce(ops, j, m);
        }
      }
    }
  }

  lemma LockAnswers(s: State, op: Op, now: int)
    requires op.AcquireOnce?
    ensures Apply(s, op, now).1 == Flag(Finds(s, LockKey(op.lock), now).None?)
  {
  }

  /** Is `j` the last save of the session before call `i`? */
  predicate LastSave(ops: seq<Timed>, j: int, i: nat, sid: string)
    requires i < |ops|
  {
    && 0 <= j < i && ops[j].op.SaveSession? && ops[j].op.rec.sid == sid
    && forall m :: j < m < i && ops[m].op.SaveSession? ==> ops[m].op.rec.sid != sid
  }

  /** A session reads as it was last saved until that save expires, and as none otherwise. */
  lemma SessionsExactly(ops: seq<Timed>, i: nat)
    requires Run(ops) && i < |ops| && ops[i].op.GetSession?
    ensures forall j :: LastSave(ops, j, i, ops[i].op.sid) ==>
              ReplyAt(ops, i) == Record(if ops[i].at < ops[j].op.expireAt then Some(ops[j].op.rec) else None)
    ensures (!exists j :: LastSave(ops, j, i, ops[i].op.sid)) ==> ReplyAt(ops, i) == Record(None)
  {
    var sid := ops[i].op.sid;
    var k := SessionKey(sid);
    FindsExactly(ops, i, k);
    SessionAnswers(After(ops[..i]), sid, ops[i].at);
    hide Apply, After, Run, Finds, ReplyAt, Stands, LastSave, Written;
    forall j
      ensures Stands(ops, j, i, k) <==> LastSave(ops, j, i, sid) && ops[i].at < ops[j].op.expireAt
      ensures LastSave(ops, j, i, sid) ==> SaveOf(ops[j].op, ops[j].at, ReplyAt(ops, j), k)
    {
      SaveStands(ops, j, i, sid);
    }
    OneSave(ops, i, sid);
  }

  ghost predicate SaveOf(op: Op, at: int, reply: Reply, k: Key) {
    op.SaveSession? && Written(Timed(at, op), reply, k) == Some(Entry(Session(op.rec), op.expireAt))
  }

  lemma SaveStands(ops: seq<Timed>, j: int, i: nat, sid: string)
    requires Run(ops) && i < |ops|
    ensures Stands(ops, j, i, SessionKey(sid)) <==> LastSave(ops, j, i, sid) && ops[i].at < ops[j].op.expireAt
    ensures LastSave(ops, j, i, sid) ==> SaveOf(ops[j].op, ops[j].at, ReplyAt(ops, j), SessionKey(sid))
  {
    hide Run, ReplyAt;
  }

  lemma OneSave(ops: seq<Timed>, i: nat, sid: string)
    requires i < |ops|
    ensures forall j, l :: LastSave(ops, j, i, sid) && LastSave(ops, l, i, sid) ==> j == l
  {
  }

  lemma SessionAnswers(s: State, sid: string, now: int)
    ensures var found := Finds(s, SessionKey(sid), now);
            Apply(s, GetSession(sid), now).1
            == Record(if found.Some? && found.value.v.Session? then Some(found.value.v.rec) else None)
  {
  }

  predicate LastToken(ops: seq<Timed>, j: int, i: nat, hash: string)
    requires i < |ops|
  {
    && 0 <= j < i && ops[j].op.SetResume? && ops[j].op.hash == hash
    && forall m :: j < m < i && ops[m].op.SetResume? ==> ops[m].op.hash != hash
  }

  /** So does a token's session. */
  lemma TokensExactly(ops: seq<Timed>, i: nat)
    requires Run(ops) && i < |ops| && ops[i].op.ResolveResume?
    ensures forall j :: LastToken(ops, j, i, ops[i].op.hash) ==>
              ReplyAt(ops, i) == Id(if ops[i].at < ops[j].op.expireAt then Some(ops[j].op.sid) else None)
    ensures (!exists j :: LastToken(ops, j, i, ops[i].op.hash)) ==> ReplyAt(ops, i) == Id(None)
  {
    var hash := ops[i].op.hash;
    var k := ResumeKey(hash);
    FindsExactly(ops, i, k);
    TokenAnswers(After(ops[..i]), hash, ops[i].at);
    hide Apply, After, Run, Finds, ReplyAt, Stands, LastToken, Written;
    forall j
      ensures Stands(ops, j, i, k) <==> LastToken(ops, j, i, hash) && ops[i].at < ops[j].op.expireAt
      ensures LastToken(ops, j, i, hash) ==> TokenOf(ops[j].op, ops[j].at, ReplyAt(ops, j), k)
    {
      TokenStands(ops, j, i, hash);
    }
    OneToken(ops, i, hash);
  }

  ghost predicate TokenOf(op: Op, at: int, reply: Reply, k: Key) {
    op.SetResume? && Written(Timed(at, op), reply, k) == Some(Entry(Owner(op.sid), op.expireAt))
  }

  lemma TokenStands(ops: seq<Timed>, j: int, i: nat, hash: string)
    requires Run(ops) && i < |ops|
    ensures Stands(ops, j, i, ResumeKey(hash)) <==> LastToken(ops, j, i, hash) && ops[i].at < ops[j].op.expireAt
    ensures LastToken(ops, j, i, hash) ==> TokenOf(ops[j].op, ops[j].at, ReplyAt(ops, j), ResumeKey(hash))
  {
    hide Run, ReplyAt;
  }

  lemma OneToken(ops: seq<Timed>, i: nat, hash: string)
    requires i < |ops|
    ensures forall j, l :: LastToken(ops, j, i, hash) && LastToken(ops, l, i, hash) ==> j == l
  {
  }

  lemma TokenAnswers(s: State, hash: string, now: int)
    ensures Apply(s, ResolveResume(hash), now).1 == Id(OwnerOf(Finds(s, ResumeKey(hash), now)))
  {
  }

  /** Is `j` the last call before `i` that sets or deletes the block? */
  predicate LastBlock(ops: seq<Timed>, j: int, i: nat, blocked: string)
    requires i < |ops|
  {
    && 0 <= j < i && OnBlock(ops[j].op, blocked)
    && forall m :: j < m < i ==> !OnBlock(ops[m].op, blocked)
  }

  predicate OnBlock(op: Op, blocked: string) {
    (op.SetBlock? || op.DeleteBlock?) && op.blocked == blocked
  }

  /** A block that was set last tells what is left of its time, and nothing else is blocked. */
  lemma BlocksExactly(ops: seq<Timed>, i: nat)
    requires Run(ops) && i < |ops| && ops[i].op.BlockTtl?
    ensures forall j :: LastBlock(ops, j, i, ops[i].op.blocked) ==>
              ReplyAt(ops, i) == Number(if Blocking(ops[j], ops[i].at)
                                        then ops[j].at + ops[j].op.ttlMs - ops[i].at else 0)
    ensures (!exists j :: LastBlock(ops, j, i, ops[i].op.blocked)) ==> ReplyAt(ops, i) == Number(0)
  {
    var blocked, s := ops[i].op.blocked, After(ops[..i]);
    hide Apply, Finds, LastBlock;
    assert ReplyAt(ops, i) == Apply(s, ops[i].op, ops[i].at).1;
    hide Run, After, ReplyAt;
    BlockAnswers(s, blocked, ops[i].at);
    forall j | LastBlock(ops, j, i, blocked)
      ensures 0 <= j < i
      ensures Finds(s, BlockKey(blocked), ops[i].at)
              == if Blocking(ops[j], ops[i].at)
                 then Some(Entry(Reason(ops[j].op.reason), ops[j].at + ops[j].op.ttlMs)) else None
    {
      BlockFound(ops, i, blocked, j);
    }
    if !exists j :: LastBlock(ops, j, i, blocked) { NoBlockFound(ops, i, blocked); }
  }

  predicate Blocking(t: Timed, now: int) {
    t.op.SetBlock? && now < t.at + t.op.ttlMs
  }

  lemma BlockFound(ops: seq<Timed>, i: nat, blocked: string, j: int)
    requires Run(ops) && i < |ops| && LastBlock(ops, j, i, blocked)
    ensures 0 <= j < i
    ensures Finds(After(ops[..i]), BlockKey(blocked), ops[i].at)
            == if Blocking(ops[j], ops[i].at)
               then Some(Entry(Reason(ops[j].op.reason), ops[j].at + ops[j].op.ttlMs)) else None
  {
    var k := BlockKey(blocked);
    BlockStands(ops, j, i, blocked);
    hide Apply, After, Run, Finds, ReplyAt, Stands, LastBlock, Written;
    if Blocking(ops[j], ops[i].at) { FindsExactly(ops, i, k); } else { NoneBlocking(ops, i, blocked, j); }
  }

  lemma NoneBlocking(ops: seq<Timed>, i: nat, blocked: string, j: int)
    requires Run(ops) && i < |ops| && LastBlock(ops, j, i, blocked)
    ensures 0 <= j < i
    ensures Finds(After(ops[..i]), BlockKey(blocked), ops[i].at).Some? ==> Blocking(ops[j], ops[i].at)
  {
    var k := BlockKey(blocked);
    FindsExactly(ops, i, k);
    BlockStands(ops, j, i, blocked);
    hide Apply, After, Run, Finds, ReplyAt, Stands, LastBlock, Written;
    if Finds(After(ops[..i]), k, ops[i].at).Some? {
      var l :| Stands(ops, l, i, k);
      BlockStands(ops, l, i, blocked);
      OneBlock(ops, i, blocked, j, l);
    }
  }

  lemma NoBlockFound(ops: seq<Timed>, i: nat, blocked: string)
    requires Run(ops) && i < |ops| && !exists j :: LastBlock(ops, j, i, blocked)
    ensures Finds(After(ops[..i]), BlockKey(blocked), ops[i].at) == None
  {
    var k := BlockKey(blocked);
    FindsExactly(ops, i, k);
    hide Apply, After, Run, Finds, ReplyAt, Stands, LastBlock, Written;
    if Finds(After(ops[..i]), k, ops[i].at).Some? {
      var j :| Stands(ops, j, i, k);
      BlockStands(ops, j, i, blocked);
    }
  }

  ghost predicate BlockOf(t: Timed, reply: Reply, k: Key, now: int) {
    && Blocking(t, now)
    && Written(t, reply, k) == Some(Entry(Reason(t.op.reason), t.at + t.op.ttlMs))
  }

  lemma BlockStands(ops: seq<Timed>, j: int, i: nat, blocked: string)
    requires Run(ops) && i < |ops|
    ensures Stands(ops, j, i, BlockKey(blocked)) <==>
            LastBlock(ops, j, i, blocked) && BlockOf(ops[j], ReplyAt(ops, j), BlockKey(blocked), ops[i].at)
    ensures LastBlock(ops, j, i, blocked) ==>
              0 <= j < i && (Blocking(ops[j], ops[i].at) ==>
                               BlockOf(ops[j], ReplyAt(ops, j), BlockKey(blocked), ops[i].at))
  {
    hide Run, ReplyAt;
  }

  lemma OneBlock(ops: seq<Timed>, i: nat, blocked: string, j: int, l: int)
    requires i < |ops| && LastBlock(ops, j, i, blocked) && LastBlock(ops, l, i, blocked)
    ensures j == l
  {
  }

  lemma BlockAnswers(s: State, blocked: string, now: int)
    ensures var found := Finds(s, BlockKey(blocked), now);
            Apply(s, BlockTtl(blocked), now).1 == Number(if found.Some? then found.value.exp - now else 0)
  {
  }

  // ----- Sets and histories -----

  /** Who was added to a set, as it reads at `now`: every addition prolongs the life of all before it. */
  ghost function Added(ops: seq<Timed>, set_: string, now: int): set<string> {
    if ops == [] then {}
    else
      var before, last := ops[..|ops| - 1], ops[|ops| - 1];
      if !(last.op.AddToSet? && last.op.set_ == set_) then Added(before, set_, now)
      else if last.at + last.op.ttlMs <= now then {}
      else Added(before, set_, last.at) + {last.op.member}
  }

  function MembersOf(found: Option<Entry>): set<string> {
    if found.Some? && found.value.v.Members? then found.value.v.members else {}
  }

  /** A set answers how many different members it has, the new one included. */
  lemma SetsExactly(ops: seq<Timed>, i: nat)
    requires Run(ops) && i < |ops| && ops[i].op.AddToSet?
    ensures ReplyAt(ops, i) == Number(|Added(ops[..i], ops[i].op.set_, ops[i].at) + {ops[i].op.member}|)
  {
    Prefix(ops, i);
    SetRead(ops[..i], ops[i].op.set_, ops[i].at);
    SetAnswers(After(ops[..i]), ops[i].op, ops[i].at);
  }

  lemma SetAnswers(s: State, op: Op, now: int)
    requires op.AddToSet?
    ensures Apply(s, op, now).1 == Number(|MembersOf(Finds(s, SetKey(op.set_), now)) + {op.member}|)
  {
  }

  lemma {:induction false} SetRead(ops: seq<Timed>, set_: string, now: int)
    requires Run(ops) && forall m :: 0 <= m < |ops| ==> ops[m].at <= now
    ensures MembersOf(Finds(After(ops), SetKey(set_), now)) == Added(ops, set_, now)
  {
    if ops != [] {
      hide Apply, Finds, MembersOf;
      var before, last := ops[..|ops| - 1], ops[|ops| - 1];
      Before(ops);
      SetStep(After(before), last.op, last.at, set_, now);
      if last.op.AddToSet? && last.op.set_ == set_ {
        SetRead(before, set_, last.at);
      } else {
        SetRead(before, set_, now);
      }
    } else {
      assert After(ops) == EMPTY;
    }
  }

  lemma SetStep(s: State, op: Op, at: int, set_: string, now: int)
    requires Callable(op) && at <= now
    ensures var k, s' := SetKey(set_), Apply(s, op, at).0;
            MembersOf(Finds(s', k, now))
            == if !(op.AddToSet? && op.set_ == set_) then MembersOf(Finds(s, k, now))
               else if at + op.ttlMs <= now then {}
               else MembersOf(Finds(s, k, at)) + {op.member}
  {
    if op.AddToSet? && op.set_ == set_ {
      SetAdds(s, op, at);
      hide Apply;
    } else {
      hide Apply, KeyOf, Overwrites;
      SetsApart(op, at, set_);
      Untouched(s, op, at, SetKey(set_));
    }
  }

  lemma SetAdds(s: State, op: Op, at: int)
    requires op.AddToSet?
    ensures Under(Apply(s, op, at).0, SetKey(op.set_),
                  Entry(Members(MembersOf(Finds(s, SetKey(op.set_), at)) + {op.member}), at + op.ttlMs))
  {
  }

  lemma SetsApart(op: Op, at: int, set_: string)
    requires Callable(op) && !(op.AddToSet? && op.set_ == set_)
    ensures if Keyed(op) then KeyOf(op, at) != SetKey(set_) else !Overwrites(op, SetKey(set_))
  {
  }

  /** What was appended to a room's history, as it reads at `now`: every append prolongs the life of all before it, and
      deleting the room starts over. */
  ghost function Appended(ops: seq<Timed>, roomId: string, now: int): seq<StoredMessage> {
    if ops == [] then []
    else
      var before, last := ops[..|ops| - 1], ops[|ops| - 1];
      match last.op
      case AppendMessage(r, msg, _, expireAt) =>
        if r != roomId then Appended(before, roomId, now)
        else if expireAt <= now then []
        else Appended(before, roomId, last.at) + [msg]
      case DeleteRoom(r) => if r == roomId then [] else Appended(before, roomId, now)
      case _ => Appended(before, roomId, now)
  }

  function Least(m: int, n: int): nat {
    if m <= 0 || n <= 0 then 0 else if m <= n then m else n
  }

  /** The last elements of a sequence, in their order: as many as are asked for, or all of them. */
  ghost predicate Tail(s: seq<StoredMessage>, all: seq<StoredMessage>, n: int) {
    |s| == Least(|all|, n) && forall a :: 0 <= a < |s| ==> s[a] == all[|all| - |s| + a]
  }

  /** A history shows the last messages appended, in their order, as many as are asked for but no more than are kept. */
  lemma HistoriesExactly(ops: seq<Timed>, i: nat, keep: nat)
    requires Run(ops) && i < |ops| && ops[i].op.RecentMessages?
    requires forall m :: 0 <= m < |ops| ==> Capped(ops[m].op, keep)
    ensures ReplyAt(ops, i).Messages?
    ensures Tail(ReplyAt(ops, i).messages, Appended(ops[..i], ops[i].op.roomId, ops[i].at),
                 Least(keep, ops[i].op.limit))
  {
    var s, op, at := After(ops[..i]), ops[i].op, ops[i].at;
    hide Apply, Shown, Appended, Tail, Least;
    assert ReplyAt(ops, i) == Apply(s, op, at).1;
    hide Run, After, ReplyAt;
    HistoryBefore(ops, i, keep);
    HistoryAnswers(s, op, at);
    TailOfTail(Shown(s, op.roomId, at), Appended(ops[..i], op.roomId, at), Apply(s, op, at).1.messages, keep, op.limit);
  }

  lemma HistoryBefore(ops: seq<Timed>, i: nat, keep: nat)
    requires Run(ops) && i < |ops| && ops[i].op.RecentMessages?
    requires forall m :: 0 <= m < |ops| ==> Capped(ops[m].op, keep)
    ensures Tail(Shown(After(ops[..i]), ops[i].op.roomId, ops[i].at),
                 Appended(ops[..i], ops[i].op.roomId, ops[i].at), keep)
  {
    hide Apply, Shown, Appended, Tail, After, ReplyAt;
    Prefix(ops, i);
    HistoryRead(ops[..i], ops[i].op.roomId, ops[i].at, keep);
  }

  lemma TailOfTail(s: seq<StoredMessage>, all: seq<StoredMessage>, shown: seq<StoredMessage>, keep: nat, limit: int)
    requires Tail(s, all, keep) && Tail(shown, s, limit)
    ensures Tail(shown, all, Least(keep, limit))
  {
    var d, e := |all| - |s|, |s| - |shown|;
    forall a | 0 <= a < |shown|
      ensures shown[a] == all[|all| - |shown| + a]
    {
      assert shown[a] == s[e + a] == all[d + (e + a)];
    }
  }

  /** The messages of a list that is alive. */
  function Shown(s: State, roomId: string, now: int): seq<StoredMessage> {
    if roomId in s.lists && now < s.lists[roomId].exp then s.lists[roomId].messages else []
  }

  lemma HistoryAnswers(s: State, op: Op, now: int)
    requires op.RecentMessages?
    ensures Apply(s, op, now).1.Messages? && Tail(Apply(s, op, now).1.messages, Shown(s, op.roomId, now), op.limit)
  {
  }

  lemma {:induction false} HistoryRead(ops: seq<Timed>, roomId: string, now: int, keep: nat)
    requires Run(ops) && forall m :: 0 <= m < |ops| ==> ops[m].at <= now && Capped(ops[m].op, keep)
    ensures Tail(Shown(After(ops), roomId, now), Appended(ops, roomId, now), keep)
  {
    if ops != [] {
      hide Apply, Tail, Shown;
      var before, last := ops[..|ops| - 1], ops[|ops| - 1];
      Before(ops);
      HistoryStep(After(before), last.op, last.at, roomId, now);
      NoTail(keep);
      if last.op.AppendMessage? && last.op.roomId == roomId {
        HistoryRead(before, roomId, last.at, keep);
        TailPush(Shown(After(before), roomId, last.at), Appended(before, roomId, last.at), last.op.msg, keep);
      } else {
        HistoryRead(before, roomId, now, keep);
      }
    } else {
      assert After(ops) == EMPTY;
    }
  }

  lemma NoTail(keep: nat)
    ensures Tail([], [], keep)
  {
  }

  lemma TailPush(s: seq<StoredMessage>, all: seq<StoredMessage>, msg: StoredMessage, keep: nat)
    requires Tail(s, all, keep)
    ensures Tail(Last(s + [msg], keep), all + [msg], keep)
  {
    var longer, r := s + [msg], Last(s + [msg], keep);
    forall a | 0 <= a < |r|
      ensures r[a] == (all + [msg])[|all| + 1 - |r| + a]
    {
      var b := |longer| - |r| + a;
      assert r[a] == longer[b];
      if b < |s| { assert longer[b] == s[b] == all[|all| - |s| + b]; }
    }
  }

  lemma HistoryStep(s: State, op: Op, at: int, roomId: string, now: int)
    requires Callable(op) && at <= now
    ensures var s' := Apply(s, op, at).0;
            Shown(s', roomId, now)
            == if op.AppendMessage? && op.roomId == roomId
               then (if op.expireAt <= now then [] else Last(Shown(s, roomId, at) + [op.msg], op.keep))
               else if op.DeleteRoom? && op.roomId == roomId then []
               else Shown(s, roomId, now)
  {
    hide Outcome;
  }
}
