/** The in-memory store (src/store/memory.ts): lazily expiring keys, capped lists, fixed-window counters. */
module Store {
  import opened Types

  // ----- The store as a value -----

  datatype Key =
    | NameKey(roomId: string, name: string)
    | SessionKey(sid: string)
    | ResumeKey(hash: string)
    | RateKey(counter: string, window: int)
    | SetKey(set_: string)
    | BlockKey(blocked: string)
    | LockKey(lock: string)

  datatype Value =
    | Owner(owner: string)
    | Session(rec: SessionRecord)
    | Count(n: int)
    | Members(members: set<string>)
    | Reason(reason: string)
    | Held

  datatype Entry = Entry(v: Value, exp: int)

  datatype List = List(messages: seq<StoredMessage>, exp: int)

  datatype State = State(kv: map<Key, Entry>, lists: map<string, List>)

  const EMPTY := State(map[], map[])

  /** One call to the store. */
  datatype Op =
    | ClaimName(roomId: string, name: string, sid: string, expireAt: int)
    | NameOwner(roomId: string, name: string)
    | SaveSession(rec: SessionRecord, expireAt: int)
    | GetSession(sid: string)
    | SetResume(hash: string, sid: string, expireAt: int)
    | ResolveResume(hash: string)
    | Hit(counter: string, windowMs: int, amount: int)
    | AddToSet(set_: string, member: string, ttlMs: int)
    | SetBlock(blocked: string, ttlMs: int, reason: string)
    | BlockTtl(blocked: string)
    | DeleteBlock(blocked: string)
    | AcquireOnce(lock: string, ttlMs: int)
    | AppendMessage(roomId: string, msg: StoredMessage, keep: nat, expireAt: int)
    | RecentMessages(roomId: string, limit: int)
    | DeleteRoom(roomId: string)

  datatype Reply =
    | Done
    | Flag(yes: bool)
    | Number(number: int)
    | Id(id: Option<string>)
    | Record(rec: Option<SessionRecord>)
    | Messages(messages: seq<StoredMessage>)

  datatype Timed = Timed(at: int, op: Op)

  predicate Keyed(op: Op) {
    !op.AppendMessage? && !op.RecentMessages? && !op.DeleteRoom?
  }

  /** The key an operation works on. */
  function KeyOf(op: Op, now: int): Key
    requires Keyed(op) && (op.Hit? ==> 0 < op.windowMs)
  {
    match op
    case ClaimName(roomId, name, _, _) => NameKey(roomId, name)
    case NameOwner(roomId, name) => NameKey(roomId, name)
    case SaveSession(rec, _) => SessionKey(rec.sid)
    case GetSession(sid) => SessionKey(sid)
    case SetResume(hash, _, _) => ResumeKey(hash)
    case ResolveResume(hash) => ResumeKey(hash)
    case Hit(counter, windowMs, _) => RateKey(counter, now / windowMs)
    case AddToSet(s, _, _) => SetKey(s)
    case SetBlock(blocked, _, _) => BlockKey(blocked)
    case BlockTtl(blocked) => BlockKey(blocked)
    case DeleteBlock(blocked) => BlockKey(blocked)
    case AcquireOnce(lock, _) => LockKey(lock)
  }

  datatype Effect = Keep | Put(entry: Entry) | Drop

  /** What a keyed operation does to its key and answers, given the live entry it finds there. */
  function Outcome(op: Op, found: Option<Entry>, now: int): (Effect, Reply)
    requires Keyed(op)
  {
    match op
    case ClaimName(_, _, sid, expireAt) =>
      if found.Some? then (Keep, Flag(false)) else (Put(Entry(Owner(sid), expireAt)), Flag(true))
    case NameOwner(_, _) => (Keep, Id(OwnerOf(found)))
    case SaveSession(rec, expireAt) => (Put(Entry(Session(rec), expireAt)), Done)
    case GetSession(_) =>
      (Keep, Record(if found.Some? && found.value.v.Session? then Some(found.value.v.rec) else None))
    case SetResume(_, sid, expireAt) => (Put(Entry(Owner(sid), expireAt)), Done)
    case ResolveResume(_) => (Keep, Id(OwnerOf(found)))
    case Hit(_, windowMs, amount) =>
      var n := (if found.Some? && found.value.v.Count? then found.value.v.n else 0) + amount;
      (Put(Entry(Count(n), now + windowMs)), Number(n))
    case AddToSet(_, member, ttlMs) =>
      var members := (if found.Some? && found.value.v.Members? then found.value.v.members else {}) + {member};
      (Put(Entry(Members(members), now + ttlMs)), Number(|members|))
    case SetBlock(_, ttlMs, reason) => (Put(Entry(Reason(reason), now + ttlMs)), Done)
    case BlockTtl(_) => (Keep, Number(if found.Some? then found.value.exp - now else 0))
    case DeleteBlock(_) => (Drop, Done)
    case AcquireOnce(_, ttlMs) =>
      if found.Some? then (Keep, Flag(false)) else (Put(Entry(Held, now + ttlMs)), Flag(true))
  }

  function OwnerOf(found: Option<Entry>): Option<string> {
    if found.Some? && found.value.v.Owner? then Some(found.value.v.owner) else None
  }

  function Affected(kv: map<Key, Entry>, k: Key, effect: Effect): map<Key, Entry> {
    match effect
    case Keep => kv
    case Put(entry) => kv[k := entry]
    case Drop => kv - {k}
  }

  /** The last `n` elements. */
  function Last<T>(s: seq<T>, n: nat): seq<T> {
    if |s| <= n then s else s[|s| - n..]
  }

  function WithoutNames(kv: map<Key, Entry>, roomId: string): map<Key, Entry> {
    map k | k in kv && !(k.NameKey? && k.roomId == roomId) :: kv[k]
  }

  // ----- The lazy store: what the code keeps -----

  /** The live entry under a key, and the map without it when it has expired. */
  function Get(kv: map<Key, Entry>, k: Key, now: int): (map<Key, Entry>, Option<Entry>) {
    if k !in kv then (kv, None)
    else if kv[k].exp <= now then (kv - {k}, None)
    else (kv, Some(kv[k]))
  }

  /** Only reads through `get` delete what they find expired; plain writes and `blockTtl` do not. */
  predicate Purges(op: Op) {
    !op.SaveSession? && !op.SetResume? && !op.SetBlock? && !op.BlockTtl? && !op.DeleteBlock?
  }

  ghost predicate Callable(op: Op) {
    op.Hit? ==> 0 < op.windowMs
  }

  function Apply(s: State, op: Op, now: int): (State, Reply)
    requires Callable(op)
  {
    match op
    case AppendMessage(roomId, msg, keep, expireAt) =>
      var old_ := if roomId in s.lists && now < s.lists[roomId].exp then s.lists[roomId].messages else [];
      (s.(lists := s.lists[roomId := List(Last(old_ + [msg], keep), expireAt)]), Done)
    case RecentMessages(roomId, limit) =>
      (s, Messages(if roomId !in s.lists || s.lists[roomId].exp <= now || limit <= 0 then []
                   else Last(s.lists[roomId].messages, limit)))
    case DeleteRoom(roomId) => (State(WithoutNames(s.kv, roomId), s.lists - {roomId}), Done)
    case _ =>
      var k := KeyOf(op, now);
      var (purged, found) := Get(s.kv, k, now);
      var (effect, reply) := Outcome(op, found, now);
      (s.(kv := Affected(if Purges(op) then purged else s.kv, k, effect)), reply)
  }

  // ----- Runs -----

  ghost predicate Run(ops: seq<Timed>) {
    && (forall i :: 0 <= i < |ops| ==> Callable(ops[i].op))
    && (forall i, j :: 0 <= i <= j < |ops| ==> ops[i].at <= ops[j].at)
  }

  /** The store after a run of calls that starts from the empty store. */
  ghost function After(ops: seq<Timed>): State
    requires Run(ops)
  {
    if ops == [] then EMPTY
    else
      var last := ops[|ops| - 1];
      Apply(After(ops[..|ops| - 1]), last.op, last.at).0
  }

  /** What call number `i` of a run answers. */
  ghost function ReplyAt(ops: seq<Timed>, i: nat): Reply
    requires Run(ops) && i < |ops|
  {
    Apply(After(ops[..i]), ops[i].op, ops[i].at).1
  }

  lemma Extended(ops: seq<Timed>, t: Timed)
    requires Run(ops) && Callable(t.op) && forall i :: 0 <= i < |ops| ==> ops[i].at <= t.at
    ensures Run(ops + [t]) && After(ops + [t]) == Apply(After(ops), t.op, t.at).0
    ensures ReplyAt(ops + [t], |ops|) == Apply(After(ops), t.op, t.at).1
  {
    hide Apply, Callable;
    assert (ops + [t])[..|ops|] == ops;
  }

  class MemoryStore {
    var kv: map<Key, Entry>
    var lists: map<string, List>
    /** What `nowFn` answers. */
    var now: int
    /** Every call so far. */
    ghost var log: seq<Timed>

    ghost predicate Valid()
      reads this
    {
      && Run(log)
      && (forall i :: 0 <= i < |log| ==> log[i].at <= now)
      && State(kv, lists) == After(log)
    }

    constructor (now: int)
      ensures Valid() && this.now == now && log == []
    {
      kv, lists, log := map[], map[], [];
      this.now := now;
    }

    /** The call just made, and its answer, are the ones the run prescribes. */
    twostate predicate Did(op: Op, reply: Reply)
      reads this
    {
      && Valid() && now == old(now)
      && log == old(log) + [Timed(now, op)]
      && reply == ReplyAt(log, |old(log)|)
    }

    twostate lemma Logged(op: Op)
      requires old(Valid()) && Callable(op) && now == old(now) && log == old(log) + [Timed(now, op)]
      requires State(kv, lists) == Apply(State(old(kv), old(lists)), op, now).0
      ensures Did(op, Apply(State(old(kv), old(lists)), op, now).1)
    {
      hide Apply;
      Extended(old(log), Timed(now, op));
    }

    method Advance(t: int)
      requires Valid() && now <= t
      modifies this`now
      ensures Valid() && now == t
    {
      now := t;
    }

    method Read(k: Key) returns (found: Option<Entry>)
      modifies this`kv
      ensures (kv, found) == Get(old(kv), k, now)
    {
      if k !in kv {
        return None;
      }
      var e := kv[k];
      if e.exp <= now {
        kv := kv - {k};
        return None;
      }
      return Some(e);
    }

    method ClaimName(roomId: string, name: string, sid: string, expireAt: int) returns (claimed: bool)
      requires Valid()
      modifies this
      ensures Did(Op.ClaimName(roomId, name, sid, expireAt), Flag(claimed))
    {
      var found := Read(NameKey(roomId, name));
      claimed := found.None?;
      if claimed {
        kv := kv[NameKey(roomId, name) := Entry(Owner(sid), expireAt)];
      }
      log := log + [Timed(now, Op.ClaimName(roomId, name, sid, expireAt))];
      Logged(Op.ClaimName(roomId, name, sid, expireAt));
    }

    method NameOwner(roomId: string, name: string) returns (owner: Option<string>)
      requires Valid()
      modifies this
      ensures Did(Op.NameOwner(roomId, name), Id(owner))
    {
      var found := Read(NameKey(roomId, name));
      owner := OwnerOf(found);
      log := log + [Timed(now, Op.NameOwner(roomId, name))];
      Logged(Op.NameOwner(roomId, name));
    }

    method SaveSession(rec: SessionRecord, expireAt: int)
      requires Valid()
      modifies this
      ensures Did(Op.SaveSession(rec, expireAt), Done)
    {
      kv := kv[SessionKey(rec.sid) := Entry(Session(rec), expireAt)];
      log := log + [Timed(now, Op.SaveSession(rec, expireAt))];
      Logged(Op.SaveSession(rec, expireAt));
    }

    method GetSession(sid: string) returns (rec: Option<SessionRecord>)
      requires Valid()
      modifies this
      ensures Did(Op.GetSession(sid), Record(rec))
    {
      var found := Read(SessionKey(sid));
      rec := if found.Some? && found.value.v.Session? then Some(found.value.v.rec) else None;
      log := log + [Timed(now, Op.GetSession(sid))];
      Logged(Op.GetSession(sid));
    }

    method SetResume(hash: string, sid: string, expireAt: int)
      requires Valid()
      modifies this
      ensures Did(Op.SetResume(hash, sid, expireAt), Done)
    {
      kv := kv[ResumeKey(hash) := Entry(Owner(sid), expireAt)];
      log := log + [Timed(now, Op.SetResume(hash, sid, expireAt))];
      Logged(Op.SetResume(hash, sid, expireAt));
    }

    method ResolveResume(hash: string) returns (sid: Option<string>)
      requires Valid()
      modifies this
      ensures Did(Op.ResolveResume(hash), Id(sid))
    {
      var found := Read(ResumeKey(hash));
      sid := OwnerOf(found);
      log := log + [Timed(now, Op.ResolveResume(hash))];
      Logged(Op.ResolveResume(hash));
    }

    method AppendMessage(roomId: string, msg: StoredMessage, keep: nat, expireAt: int)
      requires Valid()
      modifies this
      ensures Did(Op.AppendMessage(roomId, msg, keep, expireAt), Done)
    {
      var messages: seq<StoredMessage> := [];
      if roomId in lists && now < lists[roomId].exp {
        messages := lists[roomId].messages;
      }
      messages := messages + [msg];
      if keep < |messages| {
        messages := messages[|messages| - keep..];
      }
      lists := lists[roomId := List(messages, expireAt)];
      log := log + [Timed(now, Op.AppendMessage(roomId, msg, keep, expireAt))];
      Logged(Op.AppendMessage(roomId, msg, keep, expireAt));
    }

    method RecentMessages(roomId: string, limit: int) returns (messages: seq<StoredMessage>)
      requires Valid()
      modifies this`log
      ensures Did(Op.RecentMessages(roomId, limit), Messages(messages))
    {
      if roomId !in lists || lists[roomId].exp <= now || limit <= 0 {
        messages := [];
      } else {
        messages := Last(lists[roomId].messages, limit);
      }
      log := log + [Timed(now, Op.RecentMessages(roomId, limit))];
      Logged(Op.RecentMessages(roomId, limit));
    }

    method DeleteRoom(roomId: string)
      requires Valid()
      modifies this
      ensures Did(Op.DeleteRoom(roomId), Done)
    {
      lists := lists - {roomId};
      DeleteNames(roomId);
      log := log + [Timed(now, Op.DeleteRoom(roomId))];
      Logged(Op.DeleteRoom(roomId));
    }

    method DeleteNames(roomId: string)
      modifies this`kv
      ensures kv == WithoutNames(old(kv), roomId)
    {
      var keys := kv.Keys;
      ghost var before := kv;
      while keys != {}
        invariant keys <= before.Keys && kv.Keys <= before.Keys
        invariant forall k :: k in before && (k in keys || !(k.NameKey? && k.roomId == roomId)) ==> k in kv
        invariant forall k :: k in kv ==> kv[k] == before[k] && (k in keys || !(k.NameKey? && k.roomId == roomId))
        decreases keys
      {
        var k :| k in keys;
        if k.NameKey? && k.roomId == roomId {
          kv := kv - {k};
        }
        keys := keys - {k};
      }
    }

    method Hit(counter: string, windowMs: int, amount: int) returns (n: int)
      requires Valid() && 0 < windowMs
      modifies this
      ensures Did(Op.Hit(counter, windowMs, amount), Number(n))
    {
      hide Valid, Did, Run, After, ReplyAt;
      var k := RateKey(counter, now / windowMs);
      var found := Read(k);
      n := (if found.Some? && found.value.v.Count? then found.value.v.n else 0) + amount;
      kv := kv[k := Entry(Count(n), now + windowMs)];
      log := log + [Timed(now, Op.Hit(counter, windowMs, amount))];
      Logged(Op.Hit(counter, windowMs, amount));
    }

    method AddToSet(set_: string, member: string, ttlMs: int) returns (size: int)
      requires Valid()
      modifies this
      ensures Did(Op.AddToSet(set_, member, ttlMs), Number(size))
    {
      var found := Read(SetKey(set_));
      var members := (if found.Some? && found.value.v.Members? then found.value.v.members else {}) + {member};
      kv := kv[SetKey(set_) := Entry(Members(members), now + ttlMs)];
      size := |members|;
      log := log + [Timed(now, Op.AddToSet(set_, member, ttlMs))];
      Logged(Op.AddToSet(set_, member, ttlMs));
    }

    method SetBlock(blocked: string, ttlMs: int, reason: string)
      requires Valid()
      modifies this
      ensures Did(Op.SetBlock(blocked, ttlMs, reason), Done)
    {
      kv := kv[BlockKey(blocked) := Entry(Reason(reason), now + ttlMs)];
      log := log + [Timed(now, Op.SetBlock(blocked, ttlMs, reason))];
      Logged(Op.SetBlock(blocked, ttlMs, reason));
    }

    method BlockTtl(blocked: string) returns (ttl: int)
      requires Valid()
      modifies this`log
      ensures Did(Op.BlockTtl(blocked), Number(ttl))
    {
      var k := BlockKey(blocked);
      if k !in kv {
        ttl := 0;
      } else {
        ttl := if 0 <= kv[k].exp - now then kv[k].exp - now else 0;
      }
      log := log + [Timed(now, Op.BlockTtl(blocked))];
      Logged(Op.BlockTtl(blocked));
    }

    method DeleteBlock(blocked: string)
      requires Valid()
      modifies this
      ensures Did(Op.DeleteBlock(blocked), Done)
    {
      kv := kv - {BlockKey(blocked)};
      log := log + [Timed(now, Op.DeleteBlock(blocked))];
      Logged(Op.DeleteBlock(blocked));
    }

    method AcquireOnce(lock: string, ttlMs: int) returns (acquired: bool)
      requires Valid()
      modifies this
      ensures Did(Op.AcquireOnce(lock, ttlMs), Flag(acquired))
    {
      var found := Read(LockKey(lock));
      acquired := found.None?;
      if acquired {
        kv := kv[LockKey(lock) := Entry(Held, now + ttlMs)];
      }
      log := log + [Timed(now, Op.AcquireOnce(lock, ttlMs))];
      Logged(Op.AcquireOnce(lock, ttlMs));
    }
  }

  // ----- The eager store: what the lazy one stands for -----

  datatype History = History(appended: seq<StoredMessage>, exp: int)

  /** Every entry is dropped the moment it expires, and histories are kept whole. */
  datatype Spec = Spec(kv: map<Key, Entry>, histories: map<string, History>)

  function Live(kv: map<Key, Entry>, now: int): map<Key, Entry> {
    map k | k in kv && now < kv[k].exp :: kv[k]
  }

  function LiveHistories(histories: map<string, History>, now: int): map<string, History> {
    map r | r in histories && now < histories[r].exp :: histories[r]
  }

  function Serve(e: Spec, op: Op, now: int, keep: nat): (Spec, Reply)
    requires Callable(op)
  {
    var kv, histories := Live(e.kv, now), LiveHistories(e.histories, now);
    match op
    case AppendMessage(roomId, msg, _, expireAt) =>
      var appended := (if roomId in histories then histories[roomId].appended else []) + [msg];
      (Spec(kv, histories[roomId := History(appended, expireAt)]), Done)
    case RecentMessages(roomId, limit) =>
      (Spec(kv, histories), Messages(
        if roomId in histories && 0 < limit
          then Last(histories[roomId].appended, if limit <= keep then limit else keep) else []))
    case DeleteRoom(roomId) => (Spec(WithoutNames(kv, roomId), histories - {roomId}), Done)
    case _ =>
      var k := KeyOf(op, now);
      var (effect, reply) := Outcome(op, if k in kv then Some(kv[k]) else None, now);
      (Spec(Affected(kv, k, effect), histories), reply)
  }

  ghost function Served(ops: seq<Timed>, keep: nat): Spec
    requires Run(ops)
  {
    if ops == [] then Spec(map[], map[])
    else
      var last := ops[|ops| - 1];
      Serve(Served(ops[..|ops| - 1], keep), last.op, last.at, keep).0
  }

  ghost function ServedReply(ops: seq<Timed>, i: nat, keep: nat): Reply
    requires Run(ops) && i < |ops|
  {
    Serve(Served(ops[..i], keep), ops[i].op, ops[i].at, keep).1
  }

  /** Read at `now`, the lazy store shows the live part of the eager one, and of each history the last `keep`. */
  ghost predicate Agree(s: State, e: Spec, now: int, keep: nat) {
    Live(s.kv, now) == Live(e.kv, now) && ListsAgree(s.lists, e.histories, now, keep)
  }

  ghost predicate ListsAgree(lists: map<string, List>, histories: map<string, History>, now: int, keep: nat) {
    && (forall r :: (r in lists && now < lists[r].exp) <==> (r in histories && now < histories[r].exp))
    && (forall r :: r in lists && now < lists[r].exp ==>
          lists[r].exp == histories[r].exp && lists[r].messages == Last(histories[r].appended, keep))
  }

  lemma AgreeLater(s: State, e: Spec, now: int, t: int, keep: nat)
    requires Agree(s, e, now, keep) && now <= t
    ensures Agree(s, e, t, keep)
  {
    assert Live(s.kv, t) == Live(Live(s.kv, now), t);
    assert Live(e.kv, t) == Live(Live(e.kv, now), t);
  }

  lemma LastOfLast<T>(s: seq<T>, x: T, n: nat)
    ensures Last(Last(s, n) + [x], n) == Last(s + [x], n)
  {
  }

  /** Every history is capped at the one configured limit. */
  ghost predicate Capped(op: Op, keep: nat) {
    op.AppendMessage? ==> op.keep == keep
  }

  lemma StepAgrees(s: State, e: Spec, op: Op, now: int, keep: nat)
    requires Agree(s, e, now, keep) && Callable(op) && Capped(op, keep)
    ensures Apply(s, op, now).1 == Serve(e, op, now, keep).1
    ensures Agree(Apply(s, op, now).0, Serve(e, op, now, keep).0, now, keep)
  {
    hide Agree, Apply, Serve;
    match op
    case AppendMessage(_, _, _, _) => AppendAgrees(s, e, op, now, keep);
    case RecentMessages(_, _) => RecentAgrees(s, e, op, now, keep);
    case DeleteRoom(_) => DeleteAgrees(s, e, op, now, keep);
    case _ => KeyedAgrees(s, e, op, now, keep);
  }

  lemma AppendAgrees(s: State, e: Spec, op: Op, now: int, keep: nat)
    requires Agree(s, e, now, keep) && op.AppendMessage? && Capped(op, keep)
    ensures Apply(s, op, now).1 == Serve(e, op, now, keep).1
    ensures Agree(Apply(s, op, now).0, Serve(e, op, now, keep).0, now, keep)
  {
    assert Live(e.kv, now) == Live(Live(e.kv, now), now);
    ListsGrow(s.lists, e.histories, op.roomId, op.msg, op.expireAt, now, keep);
    hide ListsAgree, Live, LiveHistories, Last, Outcome, KeyOf, Get, Affected, WithoutNames;
  }

  lemma ListsGrow(lists: map<string, List>, histories: map<string, History>, roomId: string, msg: StoredMessage,
                  exp: int, now: int, keep: nat)
    requires ListsAgree(lists, histories, now, keep)
    ensures var old_ := if roomId in lists && now < lists[roomId].exp then lists[roomId].messages else [];
            var live := LiveHistories(histories, now);
            var appended := (if roomId in live then live[roomId].appended else []) + [msg];
            ListsAgree(lists[roomId := List(Last(old_ + [msg], keep), exp)], live[roomId := History(appended, exp)],
                       now, keep)
  {
    var live := LiveHistories(histories, now);
    if roomId in live { LastOfLast(live[roomId].appended, msg, keep); }
    hide Last;
  }

  lemma RecentAgrees(s: State, e: Spec, op: Op, now: int, keep: nat)
    requires Agree(s, e, now, keep) && op.RecentMessages?
    ensures Apply(s, op, now).1 == Serve(e, op, now, keep).1
    ensures Agree(Apply(s, op, now).0, Serve(e, op, now, keep).0, now, keep)
  {
    assert Live(e.kv, now) == Live(Live(e.kv, now), now);
    hide Live, Outcome, KeyOf, Get, Affected, WithoutNames;
    if op.roomId in s.lists && now < s.lists[op.roomId].exp && 0 < op.limit {
      LastMin(e.histories[op.roomId].appended, keep, op.limit);
    }
    hide Last;
  }

  lemma LastMin<T>(s: seq<T>, keep: nat, limit: nat)
    ensures Last(Last(s, keep), limit) == Last(s, if limit <= keep then limit else keep)
  {
  }

  lemma LiveTwice(kv: map<Key, Entry>, now: int)
    ensures Live(Live(kv, now), now) == Live(kv, now)
  {
  }

  lemma ListsStay(lists: map<string, List>, histories: map<string, History>, now: int, keep: nat)
    requires ListsAgree(lists, histories, now, keep)
    ensures ListsAgree(lists, LiveHistories(histories, now), now, keep)
  {
    hide Last;
  }

  lemma ListsShrink(lists: map<string, List>, histories: map<string, History>, roomId: string, now: int, keep: nat)
    requires ListsAgree(lists, histories, now, keep)
    ensures ListsAgree(lists - {roomId}, histories - {roomId}, now, keep)
  {
    hide Last;
  }

  lemma NamesLive(kv: map<Key, Entry>, live: map<Key, Entry>, roomId: string, now: int)
    requires Live(kv, now) == Live(live, now)
    ensures Live(WithoutNames(kv, roomId), now) == Live(WithoutNames(live, roomId), now)
  {
    NamesCommute(kv, roomId, now);
    NamesCommute(live, roomId, now);
  }

  lemma NamesCommute(kv: map<Key, Entry>, roomId: string, now: int)
    ensures Live(WithoutNames(kv, roomId), now) == WithoutNames(Live(kv, now), roomId)
  {
  }

  lemma DeleteAgrees(s: State, e: Spec, op: Op, now: int, keep: nat)
    requires Agree(s, e, now, keep) && op.DeleteRoom?
    ensures Apply(s, op, now).1 == Serve(e, op, now, keep).1
    ensures Agree(Apply(s, op, now).0, Serve(e, op, now, keep).0, now, keep)
  {
    hide Outcome, KeyOf, Get, Affected, Last, Live, LiveHistories, WithoutNames, ListsAgree;
    LiveTwice(e.kv, now);
    NamesLive(s.kv, Live(e.kv, now), op.roomId, now);
    ListsStay(s.lists, e.histories, now, keep);
    ListsShrink(s.lists, LiveHistories(e.histories, now), op.roomId, now, keep);
  }

  lemma GetFinds(kv: map<Key, Entry>, k: Key, now: int)
    ensures Get(kv, k, now).1 == if k in Live(kv, now) then Some(Live(kv, now)[k]) else None
    ensures Live(Get(kv, k, now).0, now) == Live(kv, now)
  {
  }

  lemma KeyedAgrees(s: State, e: Spec, op: Op, now: int, keep: nat)
    requires Agree(s, e, now, keep) && Callable(op) && Keyed(op)
    ensures Apply(s, op, now).1 == Serve(e, op, now, keep).1
    ensures Agree(Apply(s, op, now).0, Serve(e, op, now, keep).0, now, keep)
  {
    hide Outcome, KeyOf, Get, Affected, Live, LiveHistories, ListsAgree, Purges, Last, WithoutNames;
    var k := KeyOf(op, now);
    var live := Live(e.kv, now);
    GetFinds(s.kv, k, now);
    LiveTwice(e.kv, now);
    ListsStay(s.lists, e.histories, now, keep);
    var (purged, found) := Get(s.kv, k, now);
    var kv := if Purges(op) then purged else s.kv;
    AffectedLive(kv, live, k, Outcome(op, found, now).0, now);
  }

  lemma AffectedLive(kv: map<Key, Entry>, live: map<Key, Entry>, k: Key, effect: Effect, now: int)
    requires Live(kv, now) == Live(live, now)
    ensures Live(Affected(kv, k, effect), now) == Live(Affected(live, k, effect), now)
  {
    forall j
      ensures j in Live(Affected(kv, k, effect), now) <==> j in Live(Affected(live, k, effect), now)
      ensures j in Live(Affected(kv, k, effect), now) ==>
              Live(Affected(kv, k, effect), now)[j] == Live(Affected(live, k, effect), now)[j]
    {
      assert j in Live(kv, now) <==> j in Live(live, now);
      assert j in Live(kv, now) ==> Live(kv, now)[j] == Live(live, now)[j];
    }
  }

  /** The lazily expiring store refines the eagerly expiring one: under a clock that does not go back, every
      call of every run gets the same answer from both. */
  lemma {:induction false} LazyRefinesEager(ops: seq<Timed>, keep: nat, i: nat)
    requires Run(ops) && i < |ops| && forall j :: 0 <= j < |ops| ==> Capped(ops[j].op, keep)
    ensures ReplyAt(ops, i) == ServedReply(ops, i, keep)
  {
    hide Apply, Serve, Agree;
    PrefixAgrees(ops[..i], keep, ops[i].at);
    StepAgrees(After(ops[..i]), Served(ops[..i], keep), ops[i].op, ops[i].at, keep);
  }

  lemma {:induction false} PrefixAgrees(ops: seq<Timed>, keep: nat, t: int)
    requires Run(ops) && forall j :: 0 <= j < |ops| ==> Capped(ops[j].op, keep) && ops[j].at <= t
    ensures Agree(After(ops), Served(ops, keep), t, keep)
  {
    if ops != [] {
      hide Apply, Serve, Agree;
      var before, last := ops[..|ops| - 1], ops[|ops| - 1];
      PrefixAgrees(before, keep, last.at);
      StepAgrees(After(before), Served(before, keep), last.op, last.at, keep);
      AgreeLater(After(ops), Served(ops, keep), last.at, t, keep);
    }
  }
}
