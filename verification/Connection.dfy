/** One client connection (src/gateway/connection.ts): its frames are handled one after the other, and at
    every await the rest of the instance may run. */
module Gateway {
  import opened Types
  import opened Wire
  import opened RateLimit
  import opened Reals
  import opened Pipeline
  import opened Utf16
  import opened Positions
  import M = Machine
  import S = Suspicion
  import V = Validate
  import Day

  const TRUST_WINDOW_MS := 1_800_000
  const STALE_ROOM_GRACE_MS := 3_000
  const STRIKE_MEMORY_MS := 60_000
  const NETWORK_MSG_LIMIT := 80
  const CROSS_DUP_MIN_CHARS := 12
  const CROSS_DUP_SESSIONS := 4
  const KICK_MS := 60_000

  /** What duplicates of a text have in common. */
  datatype Fingerprint = Fingerprint(of: Text -> Text) {
    function Of(text: Text): Text { of(text) }
  }

  ghost predicate Shown(calendar: Day.Calendar, room: Day.Room) {
    exists t: int :: 0 <= t && calendar.RoomAt(t) == room
  }

  /** The part of the server a connection looks at. */
  class Host {
    var now: int
    var room: Day.Room
    var rolling: bool
    ghost var switches: nat
    const calendar: Day.Calendar
    const challenges: bool
    const turnstile: bool
    const limits: V.Limits
    const unicode: V.Unicode
    const fingerprint: Fingerprint
    const sessionsPerHour: nat

    /** A server starts in the room of its clock. */
    constructor (now: int, calendar: Day.Calendar, challenges: bool, turnstile: bool, limits: V.Limits,
                 unicode: V.Unicode, fingerprint: Fingerprint, sessionsPerHour: nat)
      ensures this.now == now && this.calendar == calendar && room == calendar.RoomAt(now) && switches == 0 && !rolling
      ensures 0 <= now ==> Right()
    {
      this.now, this.calendar, this.challenges, this.turnstile := now, calendar, challenges, turnstile;
      this.limits, this.unicode, this.fingerprint, this.sessionsPerHour :=
        limits, unicode, fingerprint, sessionsPerHour;
      room, switches, rolling := calendar.RoomAt(now), 0, false;
    }

    /** The room is one that the calendar has shown. */
    ghost predicate Right()
      reads `now, `room
    {
      0 <= now && Shown(calendar, room)
    }

    /** Time has passed, and unless a switch happened the room is the same. */
    twostate predicate Later()
      reads this
    {
      old(now) <= now && old(switches) <= switches && (switches == old(switches) ==> room == old(room))
    }

    /** Time passes, a rollover may end, and the boundary check may run. */
    method Pass()
      modifies this
      ensures Later() && (old(Right()) ==> Right())
    {
      var elapsed: nat, ended: bool, due: bool :| true;
      now := now + elapsed;
      rolling := rolling && !ended;
      if due {
        CheckRoom();
      }
    }

    /** Switches to the room of the clock and starts a rollover, unless one is in flight. */
    method CheckRoom()
      modifies `room, `switches, `rolling
      ensures Later() && (old(Right()) ==> Right())
      ensures if !old(rolling) && calendar.RoomAt(now).roomId != old(room).roomId
              then room == calendar.RoomAt(now) && switches == old(switches) + 1 && rolling
              else room == old(room) && switches == old(switches) && rolling == old(rolling)
    {
      if rolling {
        return;
      }
      var next := calendar.RoomAt(now);
      if next.roomId != room.roomId {
        room, switches, rolling := next, switches + 1, true;
      }
    }
  }

  datatype Send = Send(clientId: string, text: Text, day: Option<int>)

  datatype Incoming =
    | Malformed
    | JoinFrame(resume: Option<string>, verification: Option<string>, visits: (Visit, Visit), blocked: nat,
                history: seq<StoredMessage>)
    | SendFrame(send: Send, answers: Answers)
    | ResponseFrame(ok: bool)
    | Midnight(next: Day.Room, created: Option<Named>)

  /** What the store and the bus answer while a send is decided: how many messages the network sent in its window, how
      many sessions sent this text, and whether the message, which gets a new id, is kept and handed out. */
  datatype Answers = Answers(network: nat, senders: nat, id: string, stored: bool, published: bool)

  /** The ids, the name and the token of a session that is created. */
  datatype Named = Named(sid: string, name: string, token: string)

  /** What a join may be answered in one attempt: the live session of its token, how often that session or its network
      has come lately, and the session that can be created, unless no name is free. */
  datatype Visit = Visit(stored: Option<SessionRecord>, rejoins: nat, arrivals: nat, created: Option<Named>)

  /** What comes of a verification. */
  datatype Outcome = Unheard | Admitted | Failed | FailedOut

  /** What comes of a verification that is heard, after so many failures. */
  function Verdict(ok: bool, fails: nat): Outcome {
    if ok then Admitted else if fails < 2 then Failed else FailedOut
  }

  lemma ReflectsTrust(trace: seq<M.Event>, rec: SessionRecord, until: int)
    requires M.Reflects(trace, Some(rec))
    ensures M.Reflects(trace, Some(rec.(trustedUntil := until)))
  {
    hide M.Lawful, M.Owes;
  }

  /** What is given to the store and to the bus. */
  datatype Call =
    | Append(roomId: string, stored: StoredMessage, expireAt: int)
    | Publish(roomId: string, message: ChatMessage, exclude: string)

  /** A session record saved until the end of a room. */
  datatype Save = Save(rec: SessionRecord, room: Day.Room)

  /** How a join ends: it was one already, it stops, the session is blocked, or the session is in use, beginning with
      the score of `began` after that of `before`. */
  datatype Joining = Already | Stopped | Held(ttl: nat) | Entered(before: S.Score, began: Check)

  const CHURN_LIMIT := 12

  /** Does the token name a session of the room? */
  predicate Resumes(resume: string, visit: Visit, room: Day.Room) {
    resume != "" && visit.stored.Some? && visit.stored.value.roomId == room.roomId
  }

  /** The signal of one attempt of a join, if any. */
  function VisitTells(resume: string, visit: Visit, room: Day.Room, perHour: nat): seq<S.Signal> {
    if Resumes(resume, visit, room) then (if CHURN_LIMIT < visit.rejoins then [S.ReconnectChurn] else [])
    else if perHour < visit.arrivals <= 3 * perHour then [S.ManyNewSessionsFromNetwork]
    else []
  }

  /** The history as a client may see it. */
  function Public(history: seq<StoredMessage>): (messages: seq<ChatMessage>)
    ensures |messages| == |history| && forall i :: 0 <= i < |history| ==> messages[i] == history[i].message
  {
    seq(|history|, i requires 0 <= i < |history| => history[i].message)
  }

  /** What the handshake gives away. */
  function Handshake(automated: bool, hasOrigin: bool, at: int): seq<S.Event> {
    (if automated then [S.Signalled(at, S.AutomationUserAgent, false)] else [])
    + (if !hasOrigin then [S.Signalled(at, S.MissingOrigin, false)] else [])
  }

  /** A session without a past of its own. */
  predicate Unused(rec: SessionRecord, room: Day.Room, pending: bool, now: int) {
    && rec.roomId == room.roomId && rec.challengePending == pending && rec.createdAt == now && rec.suspicionAt == now
    && rec.challengeFails == 0 && rec.blocks == 0 && rec.trustedUntil == 0
  }

  /** Have enough sessions sent the text? Short ones do not count. */
  predicate Crosses(fp: Text, senders: nat) {
    CROSS_DUP_MIN_CHARS <= |CodePoints(fp)| && CROSS_DUP_SESSIONS <= senders
  }

  /** Does a block reach the network? */
  predicate Wide(n: nat, judged: S.Score, now: int, decay: int -> real) {
    2 <= n || S.SEVERE <= S.Value(judged, now, decay)
  }

  datatype BlockCall = SessionBlock(sid: string, ttl: int) | NetworkBlock(ttl: int)

  /** The session for its time, and perhaps the network for a quarter of an hour a block, at most a day. */
  function BlockCalls(sid: string, n: nat, ttl: int, wide: bool): seq<BlockCall> {
    [SessionBlock(sid, ttl)] +
    if wide then [NetworkBlock(if 900_000 * n <= 86_400_000 then 900_000 * n else 86_400_000)] else []
  }

  function Rejection(clientId: string, reason: RejectReason, retryAfterMs: int): ServerEvent {
    Reject(clientId, reason, if retryAfterMs != 0 then Some(retryAfterMs) else None)
  }

  function ReasonFor(reason: V.Reason): RejectReason {
    if reason == V.TooLong then TooLong else Invalid
  }

  /** A record but for the two fields that saving it refreshes. */
  function Core(rec: Option<SessionRecord>): Option<SessionRecord> {
    if rec.Some? then Some(rec.value.(suspicion := 0.0, suspicionAt := 0)) else None
  }

  function Identity(rec: Option<SessionRecord>): Option<(string, string, string, Option<string>)> {
    if rec.Some? then Some((rec.value.sid, rec.value.roomId, rec.value.name, rec.value.country)) else None
  }

  function Saves(rec: Option<SessionRecord>, room: Day.Room): seq<Save> {
    if rec.Some? && rec.value.roomId == room.roomId then [Save(rec.value, room)] else []
  }

  /** What has been saved since is the session `of`. */
  ghost predicate SavesOf(before: seq<Save>, after: seq<Save>, of: Option<(string, string, string, Option<string>)>) {
    before <= after && forall i :: |before| <= i < |after| ==> Identity(Some(after[i].rec)) == of
  }

  /** Each record is saved until the end of a room that the calendar shows under the record's room id. */
  ghost predicate Filed(saved: seq<Save>, calendar: Day.Calendar) {
    forall s <- saved :: s.rec.roomId == s.room.roomId && Shown(calendar, s.room)
  }

  lemma FiledOne(saved: seq<Save>, rec: SessionRecord, room: Day.Room, calendar: Day.Calendar)
    requires Filed(saved, calendar) && rec.roomId == room.roomId && Shown(calendar, room)
    ensures Filed(saved + [Save(rec, room)], calendar)
  {
  }

  lemma SavesNothing(saved: seq<Save>, of: Option<(string, string, string, Option<string>)>)
    ensures SavesOf(saved, saved, of)
  {
  }

  lemma SavesOne(saved: seq<Save>, rec: Option<SessionRecord>, room: Day.Room)
    ensures SavesOf(saved, saved, Identity(rec)) && SavesOf(saved, saved + Saves(rec, room), Identity(rec))
  {
  }

  lemma SavesOn(saved: seq<Save>, saved1: seq<Save>, saved2: seq<Save>,
                of: Option<(string, string, string, Option<string>)>)
    requires SavesOf(saved, saved1, of) && SavesOf(saved1, saved2, of)
    ensures SavesOf(saved, saved2, of)
  {
  }

  function Pending(rec: Option<SessionRecord>): bool {
    rec.Some? && rec.value.challengePending
  }

  function TrustedUntil(rec: Option<SessionRecord>): int {
    if rec.Some? then rec.value.trustedUntil else 0
  }

  function Longer(ms1: int, ms2: int): int {
    if ms1 <= ms2 then ms2 else ms1
  }

  /** Own messages of the last minute. */
  function Recent(own: seq<(Text, int)>, now: int): (recent: seq<(Text, int)>)
    ensures |recent| <= |own| && forall m :: m in recent <==> m in own && now - m.1 < 60_000
  {
    if own == [] then []
    else (if now - own[0].1 < 60_000 then [own[0]] else []) + Recent(own[1..], now)
  }

  ghost function Fresh(own: seq<(Text, int)>, now: int): (marked: seq<bool>)
    ensures |marked| == |own| && forall i :: 0 <= i < |own| ==> marked[i] == (now - own[i].1 < 60_000)
  {
    seq(|own|, i requires 0 <= i < |own| => now - own[i].1 < 60_000)
  }

  lemma {:induction false} RecentKeeps(own: seq<(Text, int)>, now: int) returns (pos: seq<nat>)
    ensures Keeps(own, Recent(own, now), pos, Fresh(own, now))
  {
    if own == [] {
      pos := [];
    } else {
      var more := RecentKeeps(own[1..], now);
      var n := if now - own[0].1 < 60_000 then 1 else 0;
      assert Fresh(own, now) == First(n, 1) + Fresh(own[1..], now);
      assert Recent(own, now) == own[..n] + Recent(own[1..], now);
      hide Recent, Keeps;
      pos := KeepsOn(own, n, 1, Recent(own[1..], now), more, Fresh(own[1..], now), Fresh(own, now));
    }
  }

  /** What is remembered of the own messages after one more: those of the last minute in their order, without the first
      of them if there are more than eight, and the new one last. */
  lemma OwnExactly(own: seq<(Text, int)>, fp: Text, now: int) returns (pos: seq<nat>)
    requires |own| <= 8
    ensures forall a, b :: 0 <= a < b < |pos| ==> pos[a] < pos[b]
    ensures forall i: nat :: i in pos <==> i < |own| && now - own[i].1 < 60_000
    ensures var kept, drop := Kept(Recent(own, now) + [(fp, now)]), if |pos| == 8 then 1 else 0;
            && |kept| == |pos| - drop + 1 && kept[|kept| - 1] == (fp, now)
            && forall a :: 0 <= a < |kept| - 1 ==> pos[a + drop] < |own| && kept[a] == own[pos[a + drop]]
  {
    pos := RecentKeeps(own, now);
    hide Recent;
    EightAtMost(pos, |own|);
  }

  lemma {:induction false} EightAtMost(pos: seq<nat>, n: nat)
    requires (forall a, b :: 0 <= a < b < |pos| ==> pos[a] < pos[b]) && forall i :: i in pos ==> i < n
    ensures |pos| <= n
  {
    if pos != [] {
      assert pos[|pos| - 1] in pos;
      EightAtMost(pos[..|pos| - 1], pos[|pos| - 1]);
    }
  }

  /** Has the text been sent within the minute? */
  predicate Repeats(own: seq<(Text, int)>, fp: Text, now: int) {
    exists m :: m in own && m.0 == fp && now - m.1 < 60_000
  }

  /** The signals of a send, in the order in which they are counted. */
  function Tells(regular: bool, instant: bool, repeated: bool, crossed: bool): seq<S.Signal> {
    (if regular then [S.MachineRegularTiming] else []) + (if instant then [S.InstantAfterJoin] else [])
    + (if repeated then [S.OwnDuplicate] else []) + (if crossed then [S.CrossSessionDuplicate] else [])
  }

  /** At most eight of them. */
  function Kept(own: seq<(Text, int)>): seq<(Text, int)> {
    if |own| > 8 then own[1..] else own
  }

  /** A message carries its author's name and country, the normalised text and the server's timestamp. */
  function Composed(id: string, rec: SessionRecord, text: Text, now: int): ChatMessage {
    ChatMessage(id, rec.name, text, now, rec.country)
  }

  function Posts(room: Day.Room, message: ChatMessage, sid: string, key: string): seq<Call> {
    [Append(room.roomId, StoredMessage(message, sid), room.endsAt), Publish(room.roomId, message, key)]
  }

  /** The calls that succeed: neither, the first, or both. */
  function Done(posts: seq<Call>, answers: Answers): seq<Call>
    requires |posts| == 2
  {
    if !answers.stored then [] else if !answers.published then posts[..1] else posts
  }

  /** What a send finds. */
  datatype Moment = Moment(
    now: int, room: Day.Room, switches: nat, rec: Option<SessionRecord>, score: S.Score, log: seq<S.Event>,
      timing: S.Timing,
    own: seq<(Text, int)>, noted: seq<S.Signal>, posted: seq<Call>, trace: seq<M.Event>)

  /** What a refusal looks at and moves. */
  datatype Pace = Pace(until: int, strikes: nat, lastStrikeAt: int, lastIgnored: int)

  function Wait(b: Bucket, now: int): int {
    if b.refillPerSec == 0.0 then 0 else Taken(b, now, 1.0).1
  }

  /** What the rate limit finds: the instant, its own fields, the bucket's wait, the score, trust, and the signals
      noted. */
  datatype Strain = Strain(now: int, pace: Pace, wait: int, score: S.Score, trusted: bool, noted: seq<S.Signal>)

  /** A refusal by the bucket is one strike more, or the first again after a quiet minute, and the cooldown is the
      longer of what the bucket and the strikes call for; in a running cooldown nothing moves. */
  ghost predicate Paced(p: Pace, wait: int, now: int, until: int, strikes: nat, lastStrikeAt: int) {
    if now < p.until then until == p.until && strikes == p.strikes && lastStrikeAt == p.lastStrikeAt
    else
      && lastStrikeAt == now && strikes == (if now - p.lastStrikeAt > 60_000 then 1 else p.strikes + 1)
      && until == now + Longer(wait, ViolationCooldownMs(strikes))
  }

  /** The signal of a refusal: in a cooldown, one every quarter of a second. */
  function Complaint(p: Pace, now: int): Option<S.Signal> {
    if p.until <= now then Some(S.RateLimitHit)
    else if now - p.lastIgnored >= 250 then Some(S.IgnoredCooldown)
    else None
  }

  /** Does that signal bring the score to where the session must stop? */
  predicate StopsThen(p: Pace, s: S.Score, trusted: bool, now: int, challenges: bool, decay: int -> real) {
    && Complaint(p, now).Some?
    && Stops(S.Value(S.Added(s, S.Points(Complaint(p, now).value), now, trusted, decay), now, decay), trusted,
             challenges)
  }

  function Refusal(clientId: string, rest: int, stops: bool, challenges: bool): ServerEvent {
    if !stops then Reject(clientId, RateLimited, Some(rest))
    else Reject(clientId, if challenges then ChallengeRequired else Blocked, None)
  }

  function AsSeq(signal: Option<S.Signal>): seq<S.Signal> {
    if signal.Some? then [signal.value] else []
  }

  ghost predicate Passable(until: int, b: Bucket, now: int) {
    until <= now && b.refillPerSec != 0.0 && Taken(b, now, 1.0).1 == 0
  }

  /** The score and its log when the escalation check reads them. */
  datatype Check = Check(score: S.Score, log: seq<S.Event>)

  /** Must a session with this score stop sending? Without a challenge provider only severe abuse must. */
  predicate Stops(v: real, trusted: bool, challenges: bool) {
    if challenges then S.Escalates(v, trusted) else S.SEVERE <= v
  }

  /** So it takes sixty points where a challenge can be asked for and trust has not been earned, and ninety
      otherwise. */
  lemma StopsExactly(v: real, trusted: bool, challenges: bool)
    ensures Stops(v, trusted, challenges) <==> (if challenges && !trusted then 60.0 else 90.0) <= v
  {
  }

  /** The answer to a send that has a token to spend. */
  function Judgement(clientId: string, answers: Answers, message: ChatMessage, stops: bool, challenges: bool)
      : ServerEvent
  {
    if NETWORK_MSG_LIMIT < answers.network then Reject(clientId, RateLimited, Some(5_000))
    else if stops then Reject(clientId, if challenges then ChallengeRequired else Blocked, None)
    else if answers.stored && answers.published then Ack(clientId, message)
    else Reject(clientId, Invalid, None)
  }

  /** Each of the signals has been logged since. */
  ghost predicate Counted(log: seq<S.Event>, at: nat, names: seq<S.Signal>) {
    forall name <- names :: exists i :: at <= i < |log| && log[i].Signalled? && log[i].signal == name
  }

  /** The score moves by what is logged, and these signals are among it. */
  ghost predicate Tallied(s: S.Score, log: seq<S.Event>, s': S.Score, log': seq<S.Event>, names: seq<S.Signal>,
                          decay: int -> real) {
    S.Follows(s, log, s', log', decay) && Counted(log', |log|, names)
  }

  lemma TalliedFollows(s: S.Score, log: seq<S.Event>, s': S.Score, log': seq<S.Event>, names: seq<S.Signal>,
                       decay: int -> real)
    requires Tallied(s, log, s', log', names, decay)
    ensures S.Follows(s, log, s', log', decay)
  {
  }

  lemma TalliedNothing(s: S.Score, log: seq<S.Event>, s': S.Score, log': seq<S.Event>, decay: int -> real)
    requires S.Follows(s, log, s', log', decay)
    ensures Tallied(s, log, s', log', [], decay)
  {
  }

  lemma TalliedOn(s: S.Score, log: seq<S.Event>, s1: S.Score, log1: seq<S.Event>, s2: S.Score, log2: seq<S.Event>,
                  names: seq<S.Signal>, more: seq<S.Signal>, decay: int -> real)
    requires Tallied(s, log, s1, log1, names, decay) && Tallied(s1, log1, s2, log2, more, decay)
    ensures Tallied(s, log, s2, log2, names + more, decay)
  {
    S.FollowsOn(s, log, s1, log1, s2, log2, decay);
    assert log <= log1 <= log2;
    hide S.RunFrom;
    forall name <- names + more
      ensures exists i :: |log| <= i < |log2| && log2[i].Signalled? && log2[i].signal == name
    {
      if name in names {
        var i :| |log| <= i < |log1| && log1[i].Signalled? && log1[i].signal == name;
        assert log2[i] == log1[i];
      } else {
        var i :| |log1| <= i < |log2| && log2[i].Signalled? && log2[i].signal == name;
      }
    }
  }

  /** Nobody else's signals matter: the check reads a score that these signals have reached. */
  ghost predicate Reached(s: S.Score, log: seq<S.Event>, seen: Check, log': seq<S.Event>, names: seq<S.Signal>,
                          decay: int -> real) {
    Tallied(s, log, seen.score, seen.log, names, decay) && seen.log <= log'
  }

  lemma ReachedNow(s: S.Score, log: seq<S.Event>, seen: Check, names: seq<S.Signal>, decay: int -> real)
    requires Tallied(s, log, seen.score, seen.log, names, decay)
    ensures Reached(s, log, seen, seen.log, names, decay)
  {
  }

  lemma ReachedLonger(s: S.Score, log: seq<S.Event>, seen: Check, log1: seq<S.Event>, log2: seq<S.Event>,
                      names: seq<S.Signal>, decay: int -> real)
    requires Reached(s, log, seen, log1, names, decay) && log1 <= log2
    ensures Reached(s, log, seen, log2, names, decay)
  {
    hide Tallied;
  }

  lemma ReachedGrows(s: S.Score, log: seq<S.Event>, seen: Check, s1: S.Score, log1: seq<S.Event>, s2: S.Score,
                     log2: seq<S.Event>, names: seq<S.Signal>, decay: int -> real)
    requires Reached(s, log, seen, log1, names, decay) && S.Follows(s1, log1, s2, log2, decay)
    ensures Reached(s, log, seen, log2, names, decay)
  {
    hide Tallied;
  }

  /** The client has been sent this since. */
  ghost predicate SentSince(sent: seq<ServerEvent>, n: nat, evt: ServerEvent) {
    exists i :: n <= i < |sent| && sent[i] == evt
  }

  lemma SentOn(sent: seq<ServerEvent>, n: nat, sent': seq<ServerEvent>, n': nat, evt: ServerEvent)
    requires SentSince(sent, n, evt) && sent <= sent' && n' <= n
    ensures SentSince(sent', n', evt)
  {
    var i :| n <= i < |sent| && sent[i] == evt;
    assert sent'[i] == evt;
  }

  lemma SentNow(sent: seq<ServerEvent>, n: nat, evt: ServerEvent)
    requires n <= |sent|
    ensures SentSince(sent + [evt], n, evt)
  {
    assert (sent + [evt])[|sent|] == evt;
  }

  lemma SavedOn(n: nat, n': nat, saved: seq<Save>, saved': seq<Save>, rec: Option<SessionRecord>,
                rec': Option<SessionRecord>)
    requires SavedSince(n, saved, rec) && n' <= n && saved <= saved' && Core(rec) == Core(rec')
    ensures SavedSince(n', saved', rec')
  {
    var i :| n <= i < |saved| && Core(Some(saved[i].rec)) == Core(rec);
    assert saved'[i] == saved[i];
  }

  /** The record has been saved since. */
  ghost predicate SavedSince(n: nat, saved: seq<Save>, rec: Option<SessionRecord>) {
    exists i :: n <= i < |saved| && Core(Some(saved[i].rec)) == Core(rec)
  }

  lemma ReflectsCore(trace: seq<M.Event>, rec1: Option<SessionRecord>, rec2: Option<SessionRecord>)
    requires M.Reflects(trace, rec1) && Core(rec1) == Core(rec2)
    ensures M.Reflects(trace, rec2)
  {
    assert rec1.Some? ==> Core(rec1).value.challengePending == rec1.value.challengePending;
    assert rec1.Some? ==> Core(rec1).value.challengeFails == rec1.value.challengeFails;
    assert rec1.Some? ==> Core(rec1).value.blocks == rec1.value.blocks;
    hide M.Lawful, M.Owes;
  }

  class Connection {
    const host: Host
    const key: string
    const ipHash: string
    const country: Option<string>
    const score: S.SuspicionScore
    const timing: S.TimingAnalyzer

    var rec: Option<SessionRecord>
    var joined: bool
    var closed: bool
    var open: bool
    var sent: seq<ServerEvent>
    var joinedAt: int
    var rolledAt: int
    var invalidFrames: nat
    var bucket: TokenBucket
    var tier: Tier
    var strikes: nat
    var lastStrikeAt: int
    var cooldownUntil: int
    var lastIgnoredSignal: int
    var blockedUntil: int
    var recentOwn: seq<(Text, int)>
    var replies: seq<(string, ServerEvent)>
    var lastChallengeAttempt: int
    var lastChallengeSent: int
    var verifying: nat
    var posted: seq<Call>
    var blocks: seq<BlockCall>
    var saved: seq<Save>

    ghost var decided: seq<(string, ServerEvent)>
    ghost var trace: seq<M.Event>
    ghost var sends: seq<Pass>
    ghost var epoch: nat
    ghost var promised: bool
    ghost var scoreLog: seq<S.Event>
    ghost var fromZero: bool
    ghost var passed: bool
    ghost var noted: seq<S.Signal>
    ghost var since: int
    ghost var left: nat
    ghost var asked: bool

    ghost function View(): Gate
      reads `tier, `bucket, bucket, `cooldownUntil, `promised, `sends, `epoch, score, `scoreLog, `fromZero, `passed,
        `since, `left
    {
      Gate(tier, bucket.View(), cooldownUntil, promised, sends, epoch, score.View(), scoreLog, fromZero, passed,
           since, left)
    }

    /** What every step of a connection keeps. */
    ghost predicate Valid()
      reads `rec, `joined, `bucket, `tier, `cooldownUntil, `recentOwn, `replies, `decided, `trace, `sends, `epoch
      reads `promised, `scoreLog, `fromZero, `passed, `since, `left, `asked, `verifying, `saved, score, timing,
        bucket, host
    {
      Sound() && M.Reflects(trace, rec)
    }

    /** The same but for the record, which lags behind the trace while a block is due. */
    ghost predicate Sound()
      reads `rec, `joined, `bucket, `tier, `cooldownUntil, `recentOwn, `replies, `decided, `sends, `epoch
      reads `promised, `scoreLog, `fromZero, `passed, `since, `left, `asked, `verifying, `saved, score, timing,
        bucket, host
    {
      Fixed() && RepliesInv(replies, decided) && GateInv(View(), TrustedUntil(rec), host.now, score.decay)
    }

    ghost predicate Fixed()
      reads `rec, `joined, `recentOwn, `sends, `passed, `left, `asked, `verifying, `saved, timing, host
    {
      && Filed(saved, host.calendar) && host.Right() && verifying <= left <= 1
      && (!asked ==> left == 1 && verifying == 0) && (asked ==> joined)
      && timing.View().Valid() && |recentOwn| <= 8 && 1 <= host.limits.maxLines
      && (joined <==> rec.Some?) && (!joined ==> sends == [] && !passed)
    }

    /** Nothing has happened yet. */
    predicate Blank()
      reads `sent, `blocks, `recentOwn, `replies, `invalidFrames, `strikes, `lastStrikeAt, `cooldownUntil,
        `lastIgnoredSignal, `blockedUntil, `rolledAt, `lastChallengeAttempt, `lastChallengeSent
    {
      && sent == [] && blocks == [] && recentOwn == [] && replies == [] && invalidFrames == 0 && strikes == 0
      && lastStrikeAt == 0 && cooldownUntil == 0 && lastIgnoredSignal == 0 && blockedUntil == 0 && rolledAt == 0
      && lastChallengeAttempt == 0 && lastChallengeSent == 0
    }

    constructor (host: Host, key: string, ipHash: string, country: Option<string>, decay: int -> real,
                 sqrt: real -> real, automated: bool, hasOrigin: bool)
      requires S.HalfLife(decay) && 1 <= host.limits.maxLines && host.Right()
      ensures Valid() && this.host == host && this.key == key && score.decay == decay && timing.sqrt == sqrt
      ensures fresh(score) && fresh(timing) && fresh(bucket)
      ensures !joined && !closed && open && posted == [] && saved == [] && Blank()
      ensures fromZero && scoreLog == Handshake(automated, hasOrigin, host.now)
    {
      hide Valid, Handshake, S.HalfLife, TrustedUntil, Blank;
      this.host, this.key, this.ipHash, this.country := host, key, ipHash, country;
      score := new S.SuspicionScore(0.0, 0, decay);
      timing := new S.TimingAnalyzer(sqrt);
      bucket := new TokenBucket(NORMAL.capacity, NORMAL.refillPerSec, host.now);
      rec, joined, closed, open, sent, joinedAt, rolledAt, invalidFrames := None, false, false, true, [], 0, 0, 0;
      tier, strikes, lastStrikeAt, cooldownUntil, lastIgnoredSignal, blockedUntil := NORMAL, 0, 0, 0, 0, 0;
      recentOwn, replies, lastChallengeAttempt, lastChallengeSent, verifying, posted, blocks := [], [], 0, 0, 0, [], [];
      decided, trace, sends, epoch, promised, scoreLog, fromZero, passed, noted :=
        [], [], [], 0, false, [], true, false, [];
      since, left, asked, saved := host.now, 1, false, [];
      new;
      Born();
      hide *;
      Profile(automated, hasOrigin);
    }

    lemma Born()
      requires View()
               == Gate(NORMAL, Full(NORMAL.capacity, NORMAL.refillPerSec, host.now), 0, false, [], 0, S.ZERO, [],
                       true, false, host.now, 1)
      requires S.HalfLife(score.decay) && host.Right() && 1 <= host.limits.maxLines && timing.View().Valid()
      requires rec == None && !joined && !asked && verifying == 0 && trace == [] && saved == [] && recentOwn == []
               && replies == [] && decided == []
      requires sent == [] && blocks == [] && invalidFrames == 0 && strikes == 0 && lastStrikeAt == 0 && rolledAt == 0
      requires cooldownUntil == 0 && lastIgnoredSignal == 0 && blockedUntil == 0
      requires lastChallengeAttempt == 0 && lastChallengeSent == 0
      ensures Valid() && TrustedUntil(rec) <= host.now && Blank()
    {
      hide GateInv, RepliesInv, S.HalfLife;
      GateStarts(host.now, score.decay);
      NothingDecided();
    }

    /** What the handshake alone gives away. */
    method Profile(automated: bool, hasOrigin: bool)
      requires Valid() && since == host.now && !passed && TrustedUntil(rec) <= host.now
      modifies score, bucket, `tier, `promised, `scoreLog, `left
      ensures Valid() && scoreLog == old(scoreLog) + Handshake(automated, hasOrigin, host.now)
    {
      hide Valid, TrustedUntil, S.Value, S.Added, TierFor;
      if automated { Signal(S.AutomationUserAgent); }
      if !hasOrigin { Signal(S.MissingOrigin); }
    }

    // ----- Transport -----

    method Transmit(evt: ServerEvent)
      modifies `sent
      ensures sent == old(sent) + (if open then [evt] else [])
    {
      if open {
        sent := sent + [evt];
      }
    }

    // ----- Scoring -----

    method Signal(name: S.Signal)
      requires Valid() && (name == S.VerificationFailed ==> asked && verifying == 0)
      requires Ready(name, scoreLog, since, passed, left, host.now)
      modifies score, bucket, `tier, `promised, `scoreLog, `left
      ensures Valid() && left == if name == S.VerificationFailed then 0 else old(left)
      ensures score.View()
              == S.Added(old(score.View()), S.Points(name), host.now, TrustedUntil(rec) > host.now, score.decay)
      ensures scoreLog == old(scoreLog) + [S.Signalled(host.now, name, TrustedUntil(rec) > host.now)]
      ensures promised == (old(promised) && tier == old(tier))
      ensures tier == TierFor(S.Value(score.View(), host.now, score.decay))
      ensures name != S.MachineRegularTiming && old(S.Unsaid(scoreLog, since)) ==> S.Unsaid(scoreLog, since)
    {
      hide GateInv, RepliesInv, M.Reflects, Filed, S.Value, S.Added, Reconfigured, TierFor, Ready, S.Unsaid, Retiered,
        S.Points;
      GateSignalled(View(), name, TrustedUntil(rec), host.now, score.decay);
      Count(name, host.now, TrustedUntil(rec) > host.now);
    }

    /** The points of a signal and the tier of the new score. */
    method Count(name: S.Signal, now: int, trusted: bool)
      modifies score, bucket, `tier, `promised, `scoreLog, `left
      ensures View()
              == Judged(old(View()), S.Added(old(score.View()), S.Points(name), now, trusted, score.decay), now,
                        score.decay)
                          .(log := old(scoreLog) + [S.Signalled(now, name, trusted)],
                            left := if name == S.VerificationFailed then 0 else old(left))
    {
      hide S.Value, S.Added, Reconfigured, TierFor, Retiered, S.Points;
      score.Add(S.Points(name), now, trusted);
      scoreLog := scoreLog + [S.Signalled(now, name, trusted)];
      if name == S.VerificationFailed {
        left := 0;
      }
      ApplyTier(now);
    }

    /** A signal that the frame in hand gives, as opposed to one that arrives while it waits. */
    method Note(name: S.Signal)
      requires Valid() && name != S.VerificationFailed && Ready(name, scoreLog, since, passed, left, host.now)
      modifies score, bucket, `tier, `promised, `scoreLog, `left, `noted
      ensures Valid() && noted == old(noted) + [name] && promised == (old(promised) && tier == old(tier))
              && left == old(left)
      ensures scoreLog == old(scoreLog) + [S.Signalled(host.now, name, TrustedUntil(rec) > host.now)]
      ensures name != S.MachineRegularTiming && old(S.Unsaid(scoreLog, since)) ==> S.Unsaid(scoreLog, since)
      ensures Tallied(old(score.View()), old(scoreLog), score.View(), scoreLog, [name], score.decay)
      ensures score.View()
              == S.Added(old(score.View()), S.Points(name), host.now, TrustedUntil(rec) > host.now, score.decay)
    {
      hide Valid, S.Added, S.Value, TierFor, Ready, S.Unsaid, TrustedUntil, S.Follows;
      S.FollowsOne(score.View(), scoreLog, S.Signalled(host.now, name, TrustedUntil(rec) > host.now), score.decay);
      Signal(name);
      noted := noted + [name];
      assert scoreLog[|scoreLog| - 1].signal == name;
    }

    /** Chooses the tier for the score at `now` and gives the bucket its limits. */
    method ApplyTier(now: int)
      modifies bucket, `tier, `promised
      ensures (tier, bucket.View()) == Retiered(old(tier), old(bucket.View()), score.View(), now, score.decay)
      ensures promised == (old(promised) && tier == old(tier))
    {
      var v := score.CurrentValue(now);
      var next := TierFor(v);
      if next != tier {
        tier, promised := next, false;
        bucket.Reconfigure(next.capacity, next.refillPerSec, now);
      }
    }

    /** A frame begins to be handled. */
    ghost method Begins()
      requires Valid()
      modifies `since
      ensures Valid() && since == host.now && S.Unsaid(scoreLog, since)
    {
      hide GateInv, RepliesInv, M.Reflects, Filed, S.Unsaid;
      GateBegins(View(), TrustedUntil(rec), host.now, score.decay);
      since := host.now;
    }

    // ----- What may happen during an await -----

    method Tick()
      requires Valid()
      modifies host
      ensures Valid() && host.Later()
    {
      hide GateInv, RepliesInv, M.Reflects, Filed;
      ghost var now := host.now;
      host.Pass();
      GateTick(View(), TrustedUntil(rec), now, host.now, score.decay);
    }

    /** A frame beyond the queue's limit. */
    method Overflow()
      requires Valid()
      modifies `lastIgnoredSignal, score, bucket, `tier, `promised, `scoreLog, `left
      ensures Valid()
      ensures scoreLog == old(scoreLog) + if host.now - old(lastIgnoredSignal) >= 250
                then [S.Signalled(host.now, S.IgnoredCooldown, TrustedUntil(rec) > host.now)] else []
      ensures lastIgnoredSignal == if host.now - old(lastIgnoredSignal) >= 250 then host.now else old(lastIgnoredSignal)
      ensures old(S.Unsaid(scoreLog, since)) ==> S.Unsaid(scoreLog, since)
      ensures S.Follows(old(score.View()), old(scoreLog), score.View(), scoreLog, score.decay)
    {
      hide Valid, S.Added, S.Value, S.HalfLife, TierFor, S.Follows, S.Unsaid, TrustedUntil;
      ghost var s, log := score.View(), scoreLog;
      S.FollowsNothing(s, log, score.decay);
      if host.now - lastIgnoredSignal >= 250 {
        lastIgnoredSignal := host.now;
        Signal(S.IgnoredCooldown);
        S.FollowsOne(s, log, S.Signalled(host.now, S.IgnoredCooldown, TrustedUntil(rec) > host.now), score.decay);
      }
    }

    /** A frame that is binary, not JSON or not an event. */
    method Invalidate(signal: S.Signal)
      requires Valid() && (signal == S.BinaryFrame || (signal == S.MalformedFrame && since == host.now))
      modifies `invalidFrames, `sent, `open, score, bucket, `tier, `promised, `scoreLog, `left
      ensures Valid() && invalidFrames == old(invalidFrames) + 1 && open == (old(open) && invalidFrames < 5)
      ensures sent == old(sent) + (if old(open) then [Error("bad_request")] else [])
      ensures scoreLog == old(scoreLog) + [S.Signalled(host.now, signal, TrustedUntil(rec) > host.now)]
      ensures score.View()
              == S.Added(old(score.View()), S.Points(signal), host.now, TrustedUntil(rec) > host.now, score.decay)
      ensures old(S.Unsaid(scoreLog, since)) ==> S.Unsaid(scoreLog, since)
      ensures S.Follows(old(score.View()), old(scoreLog), score.View(), scoreLog, score.decay)
    {
      hide Valid, S.Added, S.Value, S.HalfLife, TierFor, S.Follows, S.Unsaid, TrustedUntil;
      S.FollowsOne(score.View(), scoreLog, S.Signalled(host.now, signal, TrustedUntil(rec) > host.now), score.decay);
      invalidFrames := invalidFrames + 1;
      Signal(signal);
      Transmit(Error("bad_request"));
      if invalidFrames >= 5 {
        open := false;
      }
    }

    /** Tells the client and disconnects. */
    method BlockedFor(ttl: int)
      modifies `blockedUntil, `sent, `open
      ensures blockedUntil == host.now + ttl && !open
              && sent == old(sent) + (if old(open) then [Error("blocked")] else [])
    {
      blockedUntil := host.now + ttl;
      Transmit(Error("blocked"));
      open := false;
    }

    method OnClose()
      requires Valid()
      modifies `closed, `open, `rec, `saved
      ensures Valid() && Core(rec) == old(Core(rec)) && closed && !open
      ensures saved == old(saved) + (if old(closed) then [] else Saves(rec, host.room))
    {
      hide Valid, S.Value;
      open := false;
      if !closed {
        closed := true;
        Snapshot();
      }
    }

    /** A record of the current room is saved until the room ends, with its suspicion refreshed. */
    method Snapshot()
      requires Valid()
      modifies `rec, `saved
      ensures Valid() && Core(rec) == old(Core(rec)) && saved == old(saved) + Saves(rec, host.room)
      ensures rec.Some? && rec.value.roomId == host.room.roomId ==>
                rec.value.suspicionAt == host.now
                && -0.05 < rec.value.suspicion - S.Value(score.View(), host.now, score.decay) <= 0.05
    {
      hide GateInv, RepliesInv, M.Reflects, Filed, S.Value;
      if rec.Some? && rec.value.roomId == host.room.roomId {
        Refresh();
        ReflectsCore(trace, old(rec), rec);
        FiledOne(old(saved), rec.value, host.room, host.calendar);
      }
    }

    method Refresh()
      requires rec.Some?
      modifies `rec, `saved
      ensures rec.Some? && rec == Some(old(rec.value).(suspicion := rec.value.suspicion, suspicionAt := host.now))
      ensures -0.05 < rec.value.suspicion - S.Value(score.View(), host.now, score.decay) <= 0.05
      ensures saved == old(saved) + [Save(rec.value, host.room)]
    {
      hide S.Value, S.Rounded;
      var suspicion, at := score.Snapshot(host.now);
      rec := Some(rec.value.(suspicion := suspicion, suspicionAt := at));
      saved := saved + [Save(rec.value, host.room)];
    }

    method Persist()
      requires Valid()
      modifies host, score, bucket, `rec, `closed, `open, `sent, `tier, `promised, `scoreLog, `lastIgnoredSignal,
        `invalidFrames, `blockedUntil, `verifying, `left, `saved
      ensures Valid() && host.Later() && Core(rec) == old(Core(rec))
      ensures old(S.Unsaid(scoreLog, since)) ==> S.Unsaid(scoreLog, since)
      ensures S.Follows(old(score.View()), old(scoreLog), score.View(), scoreLog, score.decay)
      ensures SavesOf(old(saved), saved, Identity(rec)) && Onward(old(sent), old(open), old(closed))
      ensures old(Current()) ==> SavedSince(|old(saved)|, saved, rec)
      ensures old(scoreLog) <= scoreLog
    {
      hide Valid, S.Value, S.RunFrom, S.Unsaid;
      Snapshot();
      SavesOne(old(saved), rec, host.room);
      ghost var saved1 := saved;
      Await();
      SavesOn(old(saved), saved1, saved, Identity(rec));
      assert old(Current()) ==> Core(Some(saved[|old(saved)|].rec)) == Core(rec);
    }

    /** Is the record one of the instance's room? */
    predicate Current()
      reads `rec, host
    {
      rec.Some? && rec.value.roomId == host.room.roomId
    }

    /** A client is sent more, and a socket that is closed stays closed. */
    ghost predicate Onward(sent: seq<ServerEvent>, open: bool, closed: bool)
      reads `sent, `open, `closed
    {
      sent <= this.sent && (this.open ==> open) && (closed ==> this.closed)
    }

    /** The background verification of a join has been answered, if one was under way: success takes fifteen points
        off and leaves the tier to the next signal, failure is a signal. */
    method Verified(ok: bool) returns (ghost answer: Option<bool>)
      requires Valid()
      modifies `verifying, score, bucket, `tier, `promised, `scoreLog, `left
      ensures Valid() && answer == (if 0 < old(verifying) then Some(ok) else None)
              && verifying == if answer.Some? then old(verifying) - 1 else 0
      ensures answer.None? ==> score.View() == old(score.View()) && scoreLog == old(scoreLog)
      ensures answer == Some(true) ==>
                && score.View() == S.Added(old(score.View()), -15.0, host.now, false, score.decay)
                && scoreLog == old(scoreLog) + [S.Lowered(host.now, 15.0)]
      ensures answer == Some(false) ==>
                && score.View() == S.Added(old(score.View()), 25.0, host.now, TrustedUntil(rec) > host.now, score.decay)
                && scoreLog
                   == old(scoreLog) + [S.Signalled(host.now, S.VerificationFailed, TrustedUntil(rec) > host.now)]
                && tier == TierFor(S.Value(score.View(), host.now, score.decay)) && left == 0
      ensures answer != Some(false) ==> tier == old(tier) && bucket.View() == old(bucket.View()) && left == old(left)
      ensures old(S.Unsaid(scoreLog, since)) ==> S.Unsaid(scoreLog, since)
      ensures S.Follows(old(score.View()), old(scoreLog), score.View(), scoreLog, score.decay)
    {
      hide GateInv, RepliesInv, M.Reflects, Filed, S.Added, S.Value, TierFor, S.Follows, S.Unsaid;
      S.FollowsNothing(score.View(), scoreLog, score.decay);
      answer := None;
      if verifying > 0 {
        verifying := verifying - 1;
        answer := Some(ok);
        if ok {
          S.FollowsOne(score.View(), scoreLog, S.Lowered(host.now, 15.0), score.decay);
          Lower();
        } else {
          S.FollowsOne(score.View(), scoreLog,
                       S.Signalled(host.now, S.VerificationFailed, TrustedUntil(rec) > host.now), score.decay);
          Signal(S.VerificationFailed);
        }
      }
    }

    method Lower()
      requires Valid()
      modifies score, `scoreLog
      ensures Valid() && score.View() == S.Added(old(score.View()), -15.0, host.now, false, score.decay)
      ensures scoreLog == old(scoreLog) + [S.Lowered(host.now, 15.0)]
      ensures old(S.Unsaid(scoreLog, since)) ==> S.Unsaid(scoreLog, since)
    {
      hide GateInv, RepliesInv, M.Reflects, Filed, S.Added, S.Unsaid;
      GateLowered(View(), 15.0, TrustedUntil(rec), host.now, score.decay);
      score.Add(-15.0, host.now, false);
      scoreLog := scoreLog + [S.Lowered(host.now, 15.0)];
    }

    /** One thing that can happen while a frame waits. */
    method Disturb()
      requires Valid()
      modifies host, score, bucket, `rec, `closed, `open, `sent, `tier, `promised, `scoreLog, `lastIgnoredSignal,
        `invalidFrames, `blockedUntil, `verifying, `left, `saved
      ensures Valid() && host.Later() && Core(rec) == old(Core(rec))
      ensures old(S.Unsaid(scoreLog, since)) ==> S.Unsaid(scoreLog, since)
      ensures S.Follows(old(score.View()), old(scoreLog), score.View(), scoreLog, score.decay)
      ensures SavesOf(old(saved), saved, Identity(rec)) && Onward(old(sent), old(open), old(closed))
    {
      hide Valid, S.Value, S.Follows, S.Unsaid, S.Added, TierFor, Saves, SavesOf;
      S.FollowsNothing(score.View(), scoreLog, score.decay);
      SavesNothing(saved, Identity(rec));
      var what: nat :| true;
      if what == 0 {
        Tick();
      } else if what == 1 {
        Overflow();
      } else if what == 2 {
        Invalidate(S.BinaryFrame);
      } else if what == 3 {
        BlockedFor(KICK_MS);
      } else if what == 4 {
        OnClose();
        SavesOne(old(saved), rec, host.room);
        assert old(saved) + [] == old(saved);
      } else if what == 5 {
        Snapshot();
        SavesOne(old(saved), rec, host.room);
      } else if what == 6 {
        var ok: bool :| true;
        var _ := Verified(ok);
      } else if what == 7 {
        open := false;
      } else {
        var batch: seq<ChatMessage> :| true;
        Transmit(Messages(batch));
      }
    }

    /** Any number of them. The score moves by what is logged, and what is saved is the session in use. */
    method Await()
      requires Valid()
      modifies host, score, bucket, `rec, `closed, `open, `sent, `tier, `promised, `scoreLog, `lastIgnoredSignal,
        `invalidFrames, `blockedUntil, `verifying, `left, `saved
      ensures Valid() && host.Later() && Core(rec) == old(Core(rec))
      ensures old(S.Unsaid(scoreLog, since)) ==> S.Unsaid(scoreLog, since)
      ensures S.Follows(old(score.View()), old(scoreLog), score.View(), scoreLog, score.decay)
      ensures SavesOf(old(saved), saved, Identity(rec)) && Onward(old(sent), old(open), old(closed))
    {
      hide Valid, S.Follows, S.Unsaid, Saves, SavesOf;
      S.FollowsNothing(score.View(), scoreLog, score.decay);
      SavesNothing(saved, Identity(rec));
      var steps: nat :| true;
      for i := 0 to steps
        invariant Valid() && host.Later() && Core(rec) == old(Core(rec))
        invariant old(S.Unsaid(scoreLog, since)) ==> S.Unsaid(scoreLog, since)
        invariant S.Follows(old(score.View()), old(scoreLog), score.View(), scoreLog, score.decay)
        invariant SavesOf(old(saved), saved, Identity(rec)) && Onward(old(sent), old(open), old(closed))
      {
        ghost var s, log, saved0 := score.View(), scoreLog, saved;
        Disturb();
        S.FollowsOn(old(score.View()), old(scoreLog), s, log, score.View(), scoreLog, score.decay);
        SavesOn(old(saved), saved0, saved, Identity(rec));
      }
    }

    // ----- Enforcement -----

    /** An event that opens a session, and the challenge if one is pending. */
    method Announce(evt: ServerEvent, pending: bool)
      modifies `lastChallengeSent, `sent
      ensures sent == old(sent) + if open then [evt] + (if pending && host.challenges then [Challenge] else []) else []
    {
      Transmit(evt);
      if pending {
        SendChallenge(true);
      }
    }

    method SendChallenge(force: bool)
      modifies `lastChallengeSent, `sent
      ensures host.challenges && (force || host.now - old(lastChallengeSent) >= 5_000) ==>
                sent == old(sent) + (if open then [Challenge] else []) && lastChallengeSent == host.now
      ensures !(host.challenges && (force || host.now - old(lastChallengeSent) >= 5_000)) ==>
                sent == old(sent) && lastChallengeSent == old(lastChallengeSent)
    {
      if !host.challenges || (!force && host.now - lastChallengeSent < 5_000) {
        return;
      }
      lastChallengeSent := host.now;
      Transmit(Challenge);
    }

    /** Changes the record the way `e` says. */
    method Mark(e: M.Event)
      requires Sound() && rec.Some? && M.Carries(trace, rec) && M.Allowed(trace, e) && !e.Joined? && !e.RolledOver?
      modifies `rec, `trace
      ensures Sound() && rec == Some(M.Applied(old(rec.value), e)) && trace == old(trace) + [e] && M.Carries(trace, rec)
      ensures !(e.Failed? && 3 <= rec.value.challengeFails) ==> Valid()
    {
      hide GateInv, RepliesInv, M.Carries, M.Reflects, M.Allowed;
      M.Moves(trace, rec.value, e);
      rec, trace := Some(M.Applied(rec.value, e)), trace + [e];
    }

    method StartChallenge()
      requires Valid() && rec.Some?
      modifies host, score, bucket, `rec, `closed, `open, `sent, `tier, `promised, `scoreLog, `lastIgnoredSignal,
        `invalidFrames, `blockedUntil, `verifying, `left, `saved, `trace, `lastChallengeSent
      ensures Valid() && host.Later() && Pending(rec) && Identity(rec) == old(Identity(rec))
      ensures trace == if old(Pending(rec)) then old(trace) else old(trace) + [M.Issued]
      ensures old(scoreLog) <= scoreLog
      ensures !old(Pending(rec)) && open && host.challenges ==> SentSince(sent, |old(sent)|, Challenge)
      ensures !old(Pending(rec)) && old(Current()) ==> SavedSince(|old(saved)|, saved, rec)
      ensures Onward(old(sent), old(open), old(closed))
    {
      hide Valid, Sound, M.Carries, M.Reflects, M.Allowed, SentSince, SavedSince, SavesOf, S.Follows, S.Unsaid;
      if rec.value.challengePending {
        return;
      }
      Loosened();
      AllowedNow(M.Issued);
      Mark(M.Issued);
      Persist();
      ghost var told := sent;
      SendChallenge(true);
      SentNow(told, |old(sent)|, Challenge);
    }

    /** Blocks the session, longer every time, and its network too from the second block on, or at once if the score is
        severe; `judged` is the score when the store has taken the session's block. */
    method TempBlock() returns (ghost judged: S.Score)
      requires Sound() && rec.Some? && M.Carries(trace, rec)
      modifies host, score, bucket, `rec, `closed, `open, `sent, `tier, `promised, `scoreLog, `lastIgnoredSignal,
        `invalidFrames, `blockedUntil, `verifying, `left, `saved, `trace, `blocks
      ensures Valid() && host.Later() && !open
      ensures var n := old(rec.value.blocks) + 1;
              var ttl := M.BlockTtl(n, old(host.now), old(host.room.endsAt));
              && Core(rec) == Core(Some(old(rec.value).(blocks := n)))
              && trace == old(trace) + [M.Blocked(n, ttl, old(host.now), old(host.room.endsAt))]
              && blockedUntil == host.now + ttl
              && blocks == old(blocks)
                 + BlockCalls(old(rec.value.sid), n, ttl, Wide(n, judged, old(host.now), score.decay))
      ensures S.Between(old(score.View()), old(scoreLog), judged, scoreLog, score.decay)
      ensures old(scoreLog) <= scoreLog
      ensures old(Current()) && host.switches == old(host.switches) ==> SavedSince(|old(saved)|, saved, rec)
      ensures Onward(old(sent), old(open), old(closed))
    {
      hide SavedSince, Sound, M.Owes, M.Lawful, Valid, M.Reflects, BlockCalls, Wide, S.Follows, SavesOf, S.Unsaid,
        S.Between;
      var now := host.now;
      var n := rec.value.blocks + 1;
      var ttl := M.BlockTtl(n, now, host.room.endsAt);
      Mark(M.Blocked(n, ttl, now, host.room.endsAt));
      hide M.Carries, M.BlockTtl;
      judged := Enforce(ttl, now);
      BlockedFor(ttl);
    }

    /** Blocks in the store, then saves. */
    method Enforce(ttl: int, now: int) returns (ghost judged: S.Score)
      requires Valid() && rec.Some?
      modifies host, score, bucket, `rec, `closed, `open, `sent, `tier, `promised, `scoreLog, `lastIgnoredSignal,
        `invalidFrames, `blockedUntil, `verifying, `left, `saved, `blocks
      ensures Valid() && host.Later() && Core(rec) == old(Core(rec))
      ensures blocks == old(blocks) + BlockCalls(old(rec.value.sid), old(rec.value.blocks), ttl,
                                                 Wide(old(rec.value.blocks), judged, now, score.decay))
      ensures S.Between(old(score.View()), old(scoreLog), judged, scoreLog, score.decay)
      ensures old(scoreLog) <= scoreLog
      ensures old(Current()) && host.switches == old(host.switches) ==> SavedSince(|old(saved)|, saved, rec)
      ensures Onward(old(sent), old(open), old(closed))
    {
      hide Valid, S.Value, S.Follows, SavesOf, S.Unsaid, S.Between, BlockCalls, Wide, SavedSince;
      judged := Punish(ttl, now);
      ghost var s, log, before := score.View(), scoreLog, |saved|;
      Persist();
      if old(Current()) && host.switches == old(host.switches) {
        SavedOn(before, |old(saved)|, saved, saved, rec, rec);
      }
      S.BetweenGrows(old(score.View()), old(scoreLog), judged, s, log, score.View(), scoreLog, score.decay);
    }

    /** Blocks the session in the store, and its network only for repeated or severe cases. */
    method Punish(ttl: int, now: int) returns (ghost judged: S.Score)
      requires Valid() && rec.Some?
      modifies host, score, bucket, `rec, `closed, `open, `sent, `tier, `promised, `scoreLog, `lastIgnoredSignal,
        `invalidFrames, `blockedUntil, `verifying, `left, `saved, `blocks
      ensures Valid() && host.Later() && Core(rec) == old(Core(rec))
      ensures blocks == old(blocks) + BlockCalls(old(rec.value.sid), old(rec.value.blocks), ttl,
                                                 Wide(old(rec.value.blocks), judged, now, score.decay))
      ensures S.Between(old(score.View()), old(scoreLog), judged, scoreLog, score.decay)
      ensures old(scoreLog) <= scoreLog && |old(saved)| <= |saved| && Onward(old(sent), old(open), old(closed))
    {
      hide Valid, S.Value, S.RunFrom, S.Unsaid, S.Between;
      var n := rec.value.blocks;
      blocks := blocks + [SessionBlock(rec.value.sid, ttl)];
      Await();
      judged := score.View();
      ghost var log := scoreLog;
      S.FollowsThere(old(score.View()), old(scoreLog), judged, log, score.decay);
      var v := score.CurrentValue(now);
      if n >= 2 || v >= S.SEVERE {
        blocks := blocks + [NetworkBlock(if 900_000 * n <= 86_400_000 then 900_000 * n else 86_400_000)];
        Await();
        S.BetweenGrows(old(score.View()), old(scoreLog), judged, judged, log, score.View(), scoreLog, score.decay);
      }
    }

    lemma Counts(now: int)
      requires Valid() && now == since && fromZero
               && S.Escalates(S.Value(score.View(), now, score.decay), TrustedUntil(rec) > now)
      ensures EnoughSignals(scoreLog, passed && TrustedUntil(rec) > host.now, now, host.now, score.decay)
    {
      hide RepliesInv, S.HalfLife, TierInv, WindowInv, PromiseInv, ScoreInv, EnoughSignals, M.Reflects, S.Value, LogInv;
      EscalationCounts(score.View(), scoreLog, passed, TrustedUntil(rec), left, now, host.now, score.decay);
    }

    /** Must the session stop sending? `now` was read earlier in the same frame. */
    method Escalate(now: int) returns (reason: Option<RejectReason>, ghost v: real)
      requires Valid() && rec.Some? && !Pending(rec) && now == since && now <= host.now
      modifies host, score, bucket, `rec, `closed, `open, `sent, `tier, `promised, `scoreLog, `lastIgnoredSignal,
        `invalidFrames, `blockedUntil, `verifying, `left, `saved, `trace, `lastChallengeSent, `blocks
      ensures Valid() && host.Later() && Identity(rec) == old(Identity(rec))
      ensures v == S.Value(old(score.View()), now, score.decay)
      ensures host.challenges ==> (reason.Some? <==> S.Escalates(v, old(TrustedUntil(rec)) > now))
      ensures !host.challenges ==> (reason.Some? <==> S.SEVERE <= v)
      ensures reason.Some? && fromZero ==>
                EnoughSignals(old(scoreLog), passed && old(TrustedUntil(rec)) > old(host.now), now, old(host.now),
                              score.decay)
      ensures reason.None? ==>
              v < S.SEVERE && trace == old(trace) && blocks == old(blocks) && Core(rec) == old(Core(rec))
      ensures reason.None? ==> S.Follows(old(score.View()), old(scoreLog), score.View(), scoreLog, score.decay)
      ensures reason.Some? ==> old(scoreLog) <= scoreLog
      ensures reason.Some? && host.challenges ==>
                reason.value == ChallengeRequired && Pending(rec) && trace == old(trace) + [M.Issued]
                && blocks == old(blocks)
      ensures reason.Some? && !host.challenges ==>
                reason.value == Blocked && !open && |trace| == |old(trace)| + 1 && trace[|trace| - 1].Blocked?
    {
      hide Valid, M.Reflects, TrustedUntil, EnoughSignals, S.Value, S.Between, S.Follows, SavesOf, S.Unsaid, SavedSince,
        SentSince, Onward, Current, BlockCalls, Wide, M.BlockTtl, S.RunFrom;
      var trusted := TrustedUntil(rec) > now;
      var live := score.CurrentValue(now);
      v := live;
      if fromZero && S.Escalates(v, trusted) {
        Counts(now);
      }
      if live < S.CHALLENGE || (trusted && live < S.SEVERE) {
        Await();
        return None, v;
      }
      if host.challenges || live >= S.SEVERE {
        var stopped := Stop();
        return Some(stopped), v;
      }
      Await();
      return None, v;
    }

    /** A challenge if there is a provider, and otherwise a block. */
    method Stop() returns (reason: RejectReason)
      requires Valid() && rec.Some? && !Pending(rec)
      modifies host, score, bucket, `rec, `closed, `open, `sent, `tier, `promised, `scoreLog, `lastIgnoredSignal,
        `invalidFrames, `blockedUntil, `verifying, `left, `saved, `trace, `lastChallengeSent, `blocks
      ensures Valid() && host.Later() && Identity(rec) == old(Identity(rec)) && old(scoreLog) <= scoreLog
      ensures host.challenges ==>
                reason == ChallengeRequired && Pending(rec) && trace == old(trace) + [M.Issued] && blocks == old(blocks)
      ensures !host.challenges ==>
                reason == Blocked && !open && |trace| == |old(trace)| + 1 && trace[|trace| - 1].Blocked?
    {
      hide Valid, Sound, M.Carries, S.Between, SavedSince, SentSince, Onward, Current, BlockCalls, Wide, M.BlockTtl;
      if host.challenges {
        StartChallenge();
        return ChallengeRequired;
      }
      Loosened();
      var _ := TempBlock();
      return Blocked;
    }

    // ----- Sending -----

    method Take(now: int) returns (wait: int)
      requires Valid() && rec.Some? && now == host.now
      modifies bucket, `sends, `promised
      ensures Valid() && !promised
      ensures old(bucket.View()).Valid() && old(bucket.View()).last <= now && 1.0 <= old(bucket.View()).capacity
      ensures (bucket.View(), wait) == Taken(old(bucket.View()), now, 1.0) && 0 <= wait
      ensures sends == if wait == 0 then old(sends) + [Pass(now, epoch)] else old(sends)
      ensures old(promised) && cooldownUntil <= now ==> wait == 0
    {
      hide GateInv, RepliesInv, M.Reflects, Filed, Taken;
      GateTaken(View(), TrustedUntil(rec), now, score.decay);
      wait := bucket.Take(now, 1.0);
      promised := false;
      if wait == 0 {
        sends := sends + [Pass(now, epoch)];
      }
    }

    /** Counts a violation and starts the cooldown that goes with it. */
    method Cool(now: int, wait: int)
      modifies `strikes, `lastStrikeAt, `cooldownUntil
      ensures lastStrikeAt == now
              && strikes == if now - old(lastStrikeAt) > STRIKE_MEMORY_MS then 1 else old(strikes) + 1
      ensures cooldownUntil == now + Longer(wait, ViolationCooldownMs(strikes))
    {
      hide ViolationCooldownMs;
      if now - lastStrikeAt > STRIKE_MEMORY_MS {
        strikes := 0;
      }
      strikes := strikes + 1;
      lastStrikeAt := now;
      cooldownUntil := now + Longer(wait, ViolationCooldownMs(strikes));
    }

    /** A refusal by a bucket that held `b`: the first request after the cooldown is promised to pass. */
    method Strike(now: int, wait: int, ghost b: Bucket)
      requires Valid() && now == host.now && b.Valid() && b.last <= now && 1.0 <= b.capacity
      requires wait != 0 && Taken(b, now, 1.0) == (bucket.View(), wait)
      modifies `promised, `strikes, `lastStrikeAt, `cooldownUntil
      ensures Valid() && promised
      ensures lastStrikeAt == now
              && strikes == if now - old(lastStrikeAt) > STRIKE_MEMORY_MS then 1 else old(strikes) + 1
      ensures cooldownUntil == now + Longer(wait, ViolationCooldownMs(strikes))
    {
      hide GateInv, RepliesInv, M.Reflects, Filed, Taken, ViolationCooldownMs;
      ghost var g := View();
      CoolDown(now, wait);
      GateStruck(g, b, cooldownUntil, TrustedUntil(rec), now, score.decay);
    }

    method CoolDown(now: int, wait: int)
      modifies `promised, `strikes, `lastStrikeAt, `cooldownUntil
      ensures lastStrikeAt == now
              && strikes == if now - old(lastStrikeAt) > STRIKE_MEMORY_MS then 1 else old(strikes) + 1
      ensures cooldownUntil == now + Longer(wait, ViolationCooldownMs(strikes)) && promised
    {
      hide ViolationCooldownMs;
      Cool(now, wait);
      promised := true;
    }

    ghost function Strained(): Strain
      reads `cooldownUntil, `strikes, `lastStrikeAt, `lastIgnoredSignal, `bucket, bucket, score, `rec, `noted, host
    {
      Strain(host.now, Pace(cooldownUntil, strikes, lastStrikeAt, lastIgnoredSignal), Wait(bucket.View(), host.now),
             score.View(), TrustedUntil(rec) > host.now, noted)
    }

    /** The rate limit of the session: grants a send, or says why not. */
    method Limit(clientId: string, now: int) returns (refusal: Option<ServerEvent>)
      requires Valid() && rec.Some? && !Pending(rec) && now == since == host.now
      modifies host, score, bucket, `rec, `closed, `open, `sent, `tier, `promised, `scoreLog, `lastIgnoredSignal,
        `invalidFrames, `blockedUntil, `verifying, `left, `saved, `trace, `lastChallengeSent, `blocks, `sends,
        `strikes, `lastStrikeAt, `cooldownUntil, `noted
      ensures Valid() && host.Later() && Identity(rec) == old(Identity(rec))
      ensures refusal.None? ==>
                && old(cooldownUntil) <= now && scoreLog == old(scoreLog) && score.View() == old(score.View())
                && sends == old(sends) + [Pass(now, epoch)] && noted == old(noted)
                && trace == old(trace) && rec == old(rec) && blocks == old(blocks)
                && host.switches == old(host.switches) && host.now == now && Now() == old(Now())
      ensures refusal.None? <==> Passable(old(cooldownUntil), old(bucket.View()), now)
      ensures refusal.Some? ==> sends == old(sends) && Refuses(old(Strained()), clientId, refusal.value)
      ensures old(promised) && old(cooldownUntil) <= now ==> refusal.None?
    {
      hide Valid, Taken, Core, Now, Refuses, TrustedUntil;
      ghost var before := Strained();
      if now < cooldownUntil {
        var reply := Ignore(clientId, now, before);
        return Some(reply);
      }
      ghost var b := bucket.View();
      var wait := Take(now);
      if wait > 0 {
        Strike(now, wait, b);
        var reply := Struck(clientId, now, before);
        return Some(reply);
      }
      return None;
    }

    /** Sending on in a cooldown is a signal, but not too often. */
    method Ignore(clientId: string, now: int, ghost before: Strain) returns (reply: ServerEvent)
      requires Valid() && rec.Some? && !Pending(rec) && now == since == host.now && now < cooldownUntil
      requires before == Strained()
      modifies host, score, bucket, `rec, `closed, `open, `sent, `tier, `promised, `scoreLog, `lastIgnoredSignal,
        `invalidFrames, `blockedUntil, `verifying, `left, `saved, `trace, `lastChallengeSent, `blocks, `noted
      ensures Valid() && host.Later() && Identity(rec) == old(Identity(rec)) && Refuses(before, clientId, reply)
    {
      hide Valid, S.Added, S.Value, Core, Stops, TrustedUntil, S.Points, Wait;
      if now - lastIgnoredSignal >= 250 {
        lastIgnoredSignal := now;
        reply := Refuse(S.IgnoredCooldown, clientId, now);
        return;
      }
      return Rejection(clientId, RateLimited, cooldownUntil - now);
    }

    /** A strike is always one. */
    method Struck(clientId: string, now: int, ghost before: Strain) returns (reply: ServerEvent)
      requires Valid() && rec.Some? && !Pending(rec) && now == since == host.now == before.now && now < cooldownUntil
      requires before.score == score.View() && before.trusted == (TrustedUntil(rec) > now) && before.noted == noted
      requires before.pace.until <= now && Paced(before.pace, before.wait, now, cooldownUntil, strikes, lastStrikeAt)
      modifies host, score, bucket, `rec, `closed, `open, `sent, `tier, `promised, `scoreLog, `lastIgnoredSignal,
        `invalidFrames, `blockedUntil, `verifying, `left, `saved, `trace, `lastChallengeSent, `blocks, `noted
      ensures Valid() && host.Later() && Identity(rec) == old(Identity(rec)) && Refuses(before, clientId, reply)
    {
      hide Valid, S.Added, S.Value, Core, Stops, TrustedUntil, S.Points, Paced;
      reply := Refuse(S.RateLimitHit, clientId, now);
    }

    /** Counts the signal, and either escalates or tells the rest of the cooldown. */
    method Refuse(name: S.Signal, clientId: string, now: int) returns (reply: ServerEvent)
      requires Valid() && rec.Some? && !Pending(rec) && now == since == host.now && now < cooldownUntil
      requires name in {S.IgnoredCooldown, S.RateLimitHit}
      modifies host, score, bucket, `rec, `closed, `open, `sent, `tier, `promised, `scoreLog, `lastIgnoredSignal,
        `invalidFrames, `blockedUntil, `verifying, `left, `saved, `trace, `lastChallengeSent, `blocks, `noted
      ensures Valid() && host.Later() && Identity(rec) == old(Identity(rec)) && noted == old(noted) + [name]
      ensures var trusted := old(TrustedUntil(rec)) > now;
              var v := S.Value(S.Added(old(score.View()), S.Points(name), now, trusted, score.decay), now, score.decay);
              var stops := Stops(v, trusted, host.challenges);
              && reply == Refusal(clientId, cooldownUntil - now, stops, host.challenges)
              && (stops ==> if host.challenges then Pending(rec) else !open)
    {
      hide Valid, EnoughSignals, S.Value, S.Unsaid, S.Follows, TrustedUntil, Core, TierFor, S.Added, Tallied, S.Points;
      Note(name);
      var escalated, _ := Escalate(now);
      if escalated.Some? {
        return Rejection(clientId, escalated.value, 0);
      }
      return Rejection(clientId, RateLimited, cooldownUntil - now);
    }

    /** A refusal to send: the strikes and the cooldown are moved, the signal may stop the session, and otherwise the
        rest of the cooldown is told. */
    ghost predicate Refuses(b: Strain, clientId: string, reply: ServerEvent)
      reads `cooldownUntil, `strikes, `lastStrikeAt, `rec, `open, `noted
    {
      var stops := StopsThen(b.pace, b.score, b.trusted, b.now, host.challenges, score.decay);
      && Paced(b.pace, b.wait, b.now, cooldownUntil, strikes, lastStrikeAt) && b.now < cooldownUntil
      && noted == b.noted + AsSeq(Complaint(b.pace, b.now))
      && reply == Refusal(clientId, cooldownUntil - b.now, stops, host.challenges)
      && (stops ==> if host.challenges then Pending(rec) else !open)
    }

    /** What a send tells by itself, and by what the store says of it. */
    ghost function Telling(now: int, text: Text, senders: nat): seq<S.Signal>
      reads timing, `joinedAt, `recentOwn
    {
      Tells(S.Recorded(timing.View(), now, timing.sqrt).1, now - joinedAt < 400,
            Repeats(recentOwn, host.fingerprint.Of(text), now), Crosses(host.fingerprint.Of(text), senders))
    }

    /** The safeguard of the network and the behavioural signals, each weak on its own. */
    method Observe(now: int, text: Text, answers: Answers) returns (flood: bool)
      requires Valid() && now == since && now <= host.now && S.Unsaid(scoreLog, since)
      modifies host, score, bucket, `rec, `closed, `open, `sent, `tier, `promised, `scoreLog, `lastIgnoredSignal,
        `invalidFrames, `blockedUntil, `verifying, `left, `saved, timing, `recentOwn, `noted, `since
      ensures Valid() && host.Later() && Core(rec) == old(Core(rec)) && (!flood ==> since == now)
      ensures flood <==> NETWORK_MSG_LIMIT < answers.network
      ensures !flood ==> Tallied(old(score.View()), old(scoreLog), score.View(), scoreLog,
                                 old(Telling(now, text, answers.senders)), score.decay)
      ensures noted == old(noted) + if flood then [S.NetworkFlood] else old(Telling(now, text, answers.senders))
      ensures timing.View() == if flood then old(timing.View()) else S.Recorded(old(timing.View()), now, timing.sqrt).0
      ensures recentOwn
              == if flood then old(recentOwn)
                 else Kept(Recent(old(recentOwn), now) + [(host.fingerprint.Of(text), now)])
    {
      hide Valid, Core, S.Value, S.Recorded, Kept, Recent, Repeats, Crosses, S.Unsaid, S.Follows, SavesOf, Tallied,
        Tells;
      Await();
      TalliedNothing(old(score.View()), old(scoreLog), score.View(), scoreLog, score.decay);
      if answers.network > NETWORK_MSG_LIMIT {
        Flood();
        return true;
      }
      ghost var s, log, tells := score.View(), scoreLog, Telling(now, text, answers.senders);
      Weigh(now, host.fingerprint.Of(text), answers.senders);
      TalliedOn(old(score.View()), old(scoreLog), s, log, score.View(), scoreLog, [], tells, score.decay);
      assert [] + tells == tells;
      return false;
    }

    /** The send goes no further, so what it counts comes after it. */
    method Flood()
      requires Valid()
      modifies score, bucket, `tier, `promised, `scoreLog, `left, `noted, `since
      ensures Valid() && noted == old(noted) + [S.NetworkFlood]
    {
      hide Valid, S.Unsaid;
      Begins();
      Note(S.NetworkFlood);
    }

    method WeighCadence(now: int)
      requires Valid() && S.Unsaid(scoreLog, since)
      modifies score, bucket, `tier, `promised, `scoreLog, `left, timing, `noted
      ensures Valid() && timing.View() == S.Recorded(old(timing.View()), now, timing.sqrt).0
      ensures var tells :=
              Tells(S.Recorded(old(timing.View()), now, timing.sqrt).1, now - joinedAt < 400, false, false);
              && noted == old(noted) + tells
              && Tallied(old(score.View()), old(scoreLog), score.View(), scoreLog, tells, score.decay)
    {
      hide Valid, S.Recorded, S.Unsaid, S.Follows, Tallied, Tells;
      TellsAlone();
      S.FollowsNothing(score.View(), scoreLog, score.decay);
      TalliedNothing(score.View(), scoreLog, score.View(), scoreLog, score.decay);
      var regular := Record(now);
      if regular { Note(S.MachineRegularTiming); }
      if now - joinedAt < 400 {
        ghost var s, log := score.View(), scoreLog;
        Note(S.InstantAfterJoin);
        TalliedOn(old(score.View()), old(scoreLog), s, log, score.View(), scoreLog,
                  if regular then [S.MachineRegularTiming] else [], [S.InstantAfterJoin], score.decay);
      }
    }

    method WeighOwn(now: int, fp: Text)
      requires Valid()
      modifies score, bucket, `tier, `promised, `scoreLog, `left, `recentOwn, `noted
      ensures Valid() && recentOwn == Kept(Recent(old(recentOwn), now) + [(fp, now)])
      ensures var tells := Tells(false, false, Repeats(old(recentOwn), fp, now), false);
              && noted == old(noted) + tells
              && Tallied(old(score.View()), old(scoreLog), score.View(), scoreLog, tells, score.decay)
    {
      hide Valid, Kept, Recent, Repeats, S.Unsaid, S.Follows, Tallied, Tells;
      TellsAlone();
      S.FollowsNothing(score.View(), scoreLog, score.decay);
      TalliedNothing(score.View(), scoreLog, score.View(), scoreLog, score.decay);
      var repeated := Own(now, fp);
      if repeated { Note(S.OwnDuplicate); }
    }

    /** `senders` is how many sessions have sent the text, which the store is asked only if it is long enough. */
    method WeighOthers(fp: Text, senders: nat)
      requires Valid()
      modifies host, score, bucket, `rec, `closed, `open, `sent, `tier, `promised, `scoreLog, `lastIgnoredSignal,
        `invalidFrames, `blockedUntil, `verifying, `left, `saved, `noted
      ensures Valid() && host.Later() && Core(rec) == old(Core(rec))
      ensures var tells := Tells(false, false, false, Crosses(fp, senders));
              && noted == old(noted) + tells
              && Tallied(old(score.View()), old(scoreLog), score.View(), scoreLog, tells, score.decay)
    {
      hide Valid, Core, S.Unsaid, S.Follows, SavesOf, Tallied, Tells;
      TellsAlone();
      S.FollowsNothing(score.View(), scoreLog, score.decay);
      TalliedNothing(score.View(), scoreLog, score.View(), scoreLog, score.decay);
      if |CodePoints(fp)| >= CROSS_DUP_MIN_CHARS {
        Await();
        TalliedNothing(old(score.View()), old(scoreLog), score.View(), scoreLog, score.decay);
        if senders >= CROSS_DUP_SESSIONS {
          ghost var s, log := score.View(), scoreLog;
          Note(S.CrossSessionDuplicate);
          TalliedOn(old(score.View()), old(scoreLog), s, log, score.View(), scoreLog, [], [S.CrossSessionDuplicate],
                    score.decay);
        }
      }
    }

    /** The behavioural signals in the order of the source: cadence, haste, own duplicates, duplicates of others. */
    method Weigh(now: int, fp: Text, senders: nat)
      requires Valid() && S.Unsaid(scoreLog, since)
      modifies host, score, bucket, `rec, `closed, `open, `sent, `tier, `promised, `scoreLog, `lastIgnoredSignal,
        `invalidFrames, `blockedUntil, `verifying, `left, `saved, timing, `recentOwn, `noted
      ensures Valid() && host.Later() && Core(rec) == old(Core(rec))
      ensures timing.View() == S.Recorded(old(timing.View()), now, timing.sqrt).0
      ensures recentOwn == Kept(Recent(old(recentOwn), now) + [(fp, now)])
      ensures var tells := Tells(S.Recorded(old(timing.View()), now, timing.sqrt).1, now - joinedAt < 400,
                                 Repeats(old(recentOwn), fp, now), Crosses(fp, senders));
              && noted == old(noted) + tells
              && Tallied(old(score.View()), old(scoreLog), score.View(), scoreLog, tells, score.decay)
    {
      hide Valid, Core, S.Recorded, Kept, Recent, Repeats, Crosses, S.Unsaid, S.Follows, Tallied, Tells;
      ghost var s0, log0, noted0 := score.View(), scoreLog, noted;
      ghost var regular, instant := S.Recorded(timing.View(), now, timing.sqrt).1, now - joinedAt < 400;
      ghost var repeated, crossed := Repeats(recentOwn, fp, now), Crosses(fp, senders);
      WeighCadence(now);
      ghost var s, log := score.View(), scoreLog;
      WeighOwn(now, fp);
      TalliedOn(s0, log0, s, log, score.View(), scoreLog, Tells(regular, instant, false, false),
                Tells(false, false, repeated, false), score.decay);
      s, log := score.View(), scoreLog;
      WeighOthers(fp, senders);
      TalliedOn(s0, log0, s, log, score.View(), scoreLog,
                Tells(regular, instant, false, false) + Tells(false, false, repeated, false),
                Tells(false, false, false, crossed), score.decay);
      TellsTogether(regular, instant, repeated, crossed, noted0);
    }

    static lemma TellsAlone()
      ensures Tells(false, false, false, false) == [] && Tells(false, false, true, false) == [S.OwnDuplicate]
      ensures Tells(true, false, false, false) == [S.MachineRegularTiming]
      ensures Tells(false, true, false, false) == [] + [S.InstantAfterJoin]
      ensures Tells(true, true, false, false) == [S.MachineRegularTiming] + [S.InstantAfterJoin]
      ensures Tells(false, false, false, true) == [] + [S.CrossSessionDuplicate]
    {
    }

    lemma TellsTogether(regular: bool, instant: bool, repeated: bool, crossed: bool, noted: seq<S.Signal>)
      ensures var t1, t2, t3 := Tells(regular, instant, false, false), Tells(false, false, repeated, false),
                                Tells(false, false, false, crossed);
              && t1 + t2 + t3 == Tells(regular, instant, repeated, crossed)
              && noted + t1 + t2 + t3 == noted + Tells(regular, instant, repeated, crossed)
    {
    }

    method Record(now: int) returns (regular: bool)
      requires Valid()
      modifies timing
      ensures Valid() && (timing.View(), regular) == S.Recorded(old(timing.View()), now, timing.sqrt)
    {
      hide GateInv, RepliesInv, M.Reflects, Filed, S.Recorded;
      regular := timing.Record(now);
    }

    /** Has the same text been sent within the minute? */
    method Own(now: int, fp: Text) returns (repeated: bool)
      requires Valid()
      modifies `recentOwn
      ensures Valid() && recentOwn == Kept(Recent(old(recentOwn), now) + [(fp, now)])
      ensures repeated == Repeats(old(recentOwn), fp, now)
    {
      hide GateInv, RepliesInv, M.Reflects, Filed, Recent, Kept, Repeats;
      repeated := Push(now, fp);
    }

    /** The own messages of the last minute, at most eight of them. */
    method Push(now: int, fp: Text) returns (repeated: bool)
      requires |recentOwn| <= 8
      modifies `recentOwn
      ensures recentOwn == Kept(Recent(old(recentOwn), now) + [(fp, now)]) && |recentOwn| <= 8
      ensures repeated == Repeats(old(recentOwn), fp, now)
    {
      recentOwn := Recent(recentOwn, now);
      repeated := exists m :: m in recentOwn && m.0 == fp;
      recentOwn := recentOwn + [(fp, now)];
      if |recentOwn| > 8 {
        recentOwn := recentOwn[1..];
      }
    }

    /** Keeps the message for the day, hands it to every instance, and acknowledges it; `now` is its timestamp. */
    method Accept(clientId: string, now: int, text: Text, answers: Answers, ghost v: real) returns (reply: ServerEvent)
      requires Valid() && rec.Some? && !Pending(rec) && v < S.SEVERE
      modifies host, score, bucket, `rec, `closed, `open, `sent, `tier, `promised, `scoreLog, `lastIgnoredSignal,
        `invalidFrames, `blockedUntil, `verifying, `left, `saved, `trace, `posted
      ensures Valid() && host.Later() && Core(rec) == old(Core(rec))
      ensures var message := Composed(answers.id, old(rec.value), text, now);
              && posted == old(posted) + Done(Posts(old(host.room), message, old(rec.value.sid), key), answers)
              && reply == (if answers.stored && answers.published then Ack(clientId, message)
                           else Reject(clientId, Invalid, None))
      ensures trace == if reply.Ack? then old(trace) + [M.Acked(v)] else old(trace)
      ensures S.Follows(old(score.View()), old(scoreLog), score.View(), scoreLog, score.decay)
    {
      hide Valid, S.Follows, S.Unsaid, SavesOf;
      hide M.Reflects;
      var message := ChatMessage(answers.id, rec.value.name, text, now, rec.value.country);
      var room := host.room;
      ghost var calls := Posts(room, message, rec.value.sid, key);
      if !answers.stored {
        Await();
        return Rejection(clientId, Invalid, 0);
      }
      posted := posted + [Append(room.roomId, StoredMessage(message, rec.value.sid), room.endsAt)];
      Await();
      if !answers.published {
        ghost var s, log := score.View(), scoreLog;
        Await();
        S.FollowsOn(old(score.View()), old(scoreLog), s, log, score.View(), scoreLog, score.decay);
        assert posted == old(posted) + calls[..1];
        return Rejection(clientId, Invalid, 0);
      }
      posted := posted + [Publish(room.roomId, message, key)];
      ghost var s, log := score.View(), scoreLog;
      Await();
      S.FollowsOn(old(score.View()), old(scoreLog), s, log, score.View(), scoreLog, score.decay);
      Acknowledge(v);
      return Ack(clientId, message);
    }

    ghost method Acknowledge(v: real)
      requires Valid() && rec.Some? && !Pending(rec) && v < S.SEVERE
      modifies `trace
      ensures Valid() && trace == old(trace) + [M.Acked(v)]
    {
      hide Sound, M.Lawful;
      M.Moves(trace, rec.value, M.Acked(v));
      trace := trace + [M.Acked(v)];
    }

    /** Has the clock reached another room? */
    predicate Late()
      reads host
    {
      host.calendar.RoomAt(host.now).roomId != host.room.roomId
    }

    /** The day boundary: is a send meant for another room than the one its timestamp falls in? */
    predicate Stale(e: Send)
      requires rec.Some?
      reads host, `rec, `rolledAt
    {
      || host.calendar.RoomAt(host.now).roomId != host.room.roomId
      || (e.day.Some? && e.day.value != host.room.day)
      || (e.day.None? && host.now - rolledAt < STALE_ROOM_GRACE_MS)
      || rec.value.roomId != host.room.roomId
    }

    function Checked(e: Send): V.ValidationResult
      requires 1 <= host.limits.maxLines
    {
      V.Normalized(e.text, host.limits, host.unicode)
    }

    /** The text that is judged and posted. */
    function Content(e: Send): Text
      requires 1 <= host.limits.maxLines
    {
      if Checked(e).Accepted? then Checked(e).text else []
    }

    /** May the send go on to the rate limit? If not, this is the answer. */
    function Barred(e: Send): Option<ServerEvent>
      requires rec.Some? && 1 <= host.limits.maxLines
      reads host, `rec, `rolledAt, `blockedUntil
    {
      if Stale(e) then Some(Rejection(e.clientId, StaleRoom, 0))
      else if blockedUntil > host.now then Some(Rejection(e.clientId, Blocked, blockedUntil - host.now))
      else if rec.value.challengePending then Some(Rejection(e.clientId, ChallengeRequired, 0))
      else if Checked(e).Rejected? then Some(Rejection(e.clientId, ReasonFor(Checked(e).reason), 0))
      else None
    }

    /** A send goes on exactly if the clock, the client and the record agree on the room of the instance, no block is
        running, no challenge is pending and the text is accepted;
          otherwise the first of these that fails is the reason,
        and the rest of a block is told. */
    lemma BarredExactly(e: Send)
      requires rec.Some? && 1 <= host.limits.maxLines
      ensures var bar, room, now := Barred(e), host.room, host.now;
              var here := host.calendar.RoomAt(now).roomId == room.roomId == rec.value.roomId
                          && (if e.day.Some? then e.day.value == room.day else 3_000 <= now - rolledAt);
              && (bar.None? <==> here && blockedUntil <= now && !rec.value.challengePending && Checked(e).Accepted?)
              && (bar.Some? ==> bar.value.Reject? && bar.value.clientId == e.clientId)
              && (!here ==> bar.value == Reject(e.clientId, StaleRoom, None))
              && (here && now < blockedUntil ==> bar.value == Reject(e.clientId, Blocked, Some(blockedUntil - now)))
              && (here && blockedUntil <= now && rec.value.challengePending ==>
                    bar.value == Reject(e.clientId, ChallengeRequired, None))
              && (here && blockedUntil <= now && !rec.value.challengePending && Checked(e).Rejected? ==>
                    bar.value == Reject(e.clientId, if Checked(e).reason == V.TooLong then TooLong else Invalid, None))
    {
      hide V.Normalized;
    }

    /** Does the send have a pending challenge shown again? */
    predicate Asks(e: Send)
      requires rec.Some? && 1 <= host.limits.maxLines
      reads host, `rec, `rolledAt, `blockedUntil, `open, `lastChallengeSent
    {
      && Barred(e) == Some(Reject(e.clientId, ChallengeRequired, None))
      && open && host.challenges && 5_000 <= host.now - lastChallengeSent
    }

    /** Steps 1 to 3: day boundary, enforcement state, content. */
    method Bar(e: Send) returns (bar: Option<ServerEvent>, text: Text)
      requires Valid() && rec.Some?
      modifies host, `lastChallengeSent, `sent
      ensures Valid() && host.Later() && 1 <= host.limits.maxLines && bar == old(Barred(e))
      ensures bar.None? ==>
              host.now == old(host.now) && host.switches == old(host.switches) && Checked(e) == V.Accepted(text)
      ensures old(Late()) ==> bar.Some? && (!old(host.rolling) ==> host.room == old(host.calendar.RoomAt(host.now)))
      ensures sent == old(sent) + (if old(Asks(e)) then [Challenge] else [])
    {
      hide GateInv, RepliesInv, M.Reflects, Filed, V.Normalized;
      assert Valid();
      text := [];
      if host.calendar.RoomAt(host.now).roomId != host.room.roomId {
        host.CheckRoom();
        return Some(Rejection(e.clientId, StaleRoom, 0)), text;
      }
      if e.day.Some? && e.day.value != host.room.day { return Some(Rejection(e.clientId, StaleRoom, 0)), text; }
      if e.day.None? && host.now - rolledAt < STALE_ROOM_GRACE_MS {
        return Some(Rejection(e.clientId, StaleRoom, 0)), text;
      }
      if rec.value.roomId != host.room.roomId { return Some(Rejection(e.clientId, StaleRoom, 0)), text; }
      if blockedUntil > host.now { return Some(Rejection(e.clientId, Blocked, blockedUntil - host.now)), text; }
      if rec.value.challengePending {
        SendChallenge(false);
        return Some(Rejection(e.clientId, ChallengeRequired, 0)), text;
      }
      var v := V.NormalizeText(e.text, host.limits, host.unicode);
      if v.Rejected? { return Some(Rejection(e.clientId, ReasonFor(v.reason), 0)), text; }
      return None, v.text;
    }

    /** Is there a token for a send, and no cooldown in its way? */
    ghost predicate Passes()
      reads `cooldownUntil, `bucket, bucket, host
    {
      Passable(cooldownUntil, bucket.View(), host.now)
    }

    /** What is known of a send that has been judged: the answer that the store's answers and the score call for, the
        signals that it gave, and that the score the check read had counted them. */
    ghost predicate Ruled(before: Moment, clientId: string, text: Text, answers: Answers, tells: seq<S.Signal>,
                           reply: ServerEvent, room: Day.Room, seen: Check)
      reads `rec, `open, `trace, `posted, `noted, `recentOwn, timing, score, `scoreLog, host
      requires before.rec.Some?
    {
      var message := Composed(answers.id, before.rec.value, text, before.now);
      var stops := Stops(S.Value(seen.score, before.now, score.decay), TrustedUntil(before.rec) > before.now,
                         host.challenges);
      && reply == Judgement(clientId, answers, message, stops, host.challenges)
      && if NETWORK_MSG_LIMIT < answers.network
         then
           && noted == before.noted + [S.NetworkFlood] && posted == before.posted && trace == before.trace
           && timing.View() == before.timing && recentOwn == before.own
         else
           && noted == before.noted + tells
           && Reached(before.score, before.log, seen, scoreLog, tells, score.decay)
           && timing.View() == S.Recorded(before.timing, before.now, timing.sqrt).0
           && recentOwn == Kept(Recent(before.own, before.now) + [(host.fingerprint.Of(text), before.now)])
           && (stops ==> posted == before.posted)
           && (stops && host.challenges ==> Pending(rec) && trace == before.trace + [M.Issued])
           && (stops && !host.challenges ==>
                 !open && |trace| == |before.trace| + 1 && trace[|trace| - 1].Blocked?)
           && (!stops ==>
                 && posted == before.posted + Done(Posts(room, message, before.rec.value.sid, key), answers)
                 && trace == before.trace + (if reply.Ack? then [M.Acked(S.Value(seen.score, before.now, score.decay))]
                                             else [])
                 && (host.switches == before.switches ==> room == before.room))
    }

    ghost function Now(): Moment
      reads `rec, `trace, `posted, `noted, `recentOwn, timing, score, `scoreLog, host
    {
      Moment(host.now, host.room, host.switches, rec, score.View(), scoreLog, timing.View(), recentOwn, noted,
             posted,
             trace)
    }

    /** Decides a send. `room` is the room the message went to, `seen` the score that the escalation check read. */
    method Decide(e: Send, answers: Answers) returns (reply: ServerEvent, ghost room: Day.Room, ghost seen: Check)
      requires Valid() && rec.Some? && 1 <= host.limits.maxLines
      modifies host, score, bucket, `rec, `closed, `open, `sent, `tier, `promised, `scoreLog, `lastIgnoredSignal,
        `invalidFrames, `blockedUntil, `verifying, `left, `saved, timing, `trace, `lastChallengeSent, `blocks, `sends,
        `strikes, `lastStrikeAt, `cooldownUntil, `recentOwn, `posted, `noted, `since
      ensures Valid() && host.Later() && Identity(rec) == old(Identity(rec))
      ensures old(Barred(e)).Some? ==>
                && reply == old(Barred(e)).value && rec == old(rec) && trace == old(trace) && noted == old(noted)
                && sends == old(sends) && posted == old(posted)
                && sent == old(sent) + (if old(Asks(e)) then [Challenge] else [])
      ensures old(!host.rolling && Late()) ==> host.room == old(host.calendar.RoomAt(host.now))
      ensures old(Barred(e).None? && !Passes()) ==>
              Refuses(old(Strained()), e.clientId, reply) && sends == old(sends) && posted == old(posted)
      ensures old(Barred(e).None? && Passes()) ==>
                && Checked(e).Accepted? && sends == old(sends) + [Pass(old(host.now), epoch)]
                && Ruled(old(Now()), e.clientId, Content(e), answers,
                          old(Telling(host.now, Content(e), answers.senders)), reply, room, seen)
    {
      hide Valid, Ruled, V.Normalized, S.Unsaid, S.Value, Late, Asks, Stale, Refuses, Telling, Passable;
      Begins();
      var now := host.now;
      room, seen := host.room, Check(score.View(), scoreLog);
      var bar, text := Bar(e);
      if bar.Some? {
        return bar.value, room, seen;
      }
      reply, room, seen := Proceed(e.clientId, now, text, answers);
    }

    /** Steps 4 to 8: rate limit, signals, escalation, and acceptance. */
    method Proceed(clientId: string, now: int, text: Text, answers: Answers)
        returns (reply: ServerEvent, ghost room: Day.Room, ghost seen: Check)
      requires Valid() && rec.Some? && !Pending(rec) && now == since == host.now && S.Unsaid(scoreLog, since)
      modifies host, score, bucket, `rec, `closed, `open, `sent, `tier, `promised, `scoreLog, `lastIgnoredSignal,
        `invalidFrames, `blockedUntil, `verifying, `left, `saved, timing, `trace, `lastChallengeSent, `blocks, `sends,
        `strikes, `lastStrikeAt, `cooldownUntil, `recentOwn, `posted, `noted, `since
      ensures Valid() && host.Later() && Identity(rec) == old(Identity(rec))
      ensures !old(Passes()) ==>
              Refuses(old(Strained()), clientId, reply) && sends == old(sends) && posted == old(posted)
      ensures old(Passes()) ==>
                && sends == old(sends) + [Pass(now, epoch)]
                && Ruled(old(Now()), clientId, text, answers, old(Telling(now, text, answers.senders)), reply, room,
                         seen)
    {
      hide Valid, Taken, Refuses, Ruled, S.Unsaid, S.Value, Telling, Passable, Now;
      room, seen := host.room, Check(score.View(), scoreLog);
      var refusal := Limit(clientId, now);
      if refusal.Some? {
        return refusal.value, room, seen;
      }
      reply, room, seen := Judge(clientId, now, text, answers);
    }

    /** Steps 5 to 8. */
    method Judge(clientId: string, now: int, text: Text, answers: Answers)
        returns (reply: ServerEvent, ghost room: Day.Room, ghost seen: Check)
      requires Valid() && rec.Some? && !Pending(rec) && now == since == host.now && S.Unsaid(scoreLog, since)
      modifies host, score, bucket, `rec, `closed, `open, `sent, `tier, `promised, `scoreLog, `lastIgnoredSignal,
        `invalidFrames, `blockedUntil, `verifying, `left, `saved, timing, `trace, `lastChallengeSent, `blocks,
        `recentOwn, `posted, `noted, `since
      ensures Valid() && host.Later() && Identity(rec) == old(Identity(rec))
      ensures Ruled(old(Now()), clientId, text, answers, old(Telling(now, text, answers.senders)), reply, room, seen)
    {
      hide Valid, S.Value, S.Recorded, Recent, Kept, Posts, S.Unsaid, S.Follows, Tallied, Telling, Composed, Done,
        Stops;
      ghost var before, tells := Now(), Telling(now, text, answers.senders);
      room, seen := host.room, Check(score.View(), scoreLog);
      var flood := Observe(now, text, answers);
      if flood {
        return Rejection(clientId, RateLimited, 5_000), room, seen;
      }
      reply, room, seen := Rule(clientId, now, text, answers, before, tells);
    }

    /** Steps 7 and 8: escalation and acceptance, once the signals have been counted. */
    method Rule(clientId: string, now: int, text: Text, answers: Answers, ghost before: Moment,
                ghost tells: seq<S.Signal>)
        returns (reply: ServerEvent, ghost room: Day.Room, ghost seen: Check)
      requires Valid() && rec.Some? && !Pending(rec) && now == since == before.now && now <= host.now
      requires answers.network <= NETWORK_MSG_LIMIT && noted == before.noted + tells
      requires posted == before.posted && trace == before.trace && before.rec.Some? && Core(rec) == Core(before.rec)
      requires Tallied(before.score, before.log, score.View(), scoreLog, tells, score.decay)
      requires timing.View() == S.Recorded(before.timing, now, timing.sqrt).0
      requires recentOwn == Kept(Recent(before.own, now) + [(host.fingerprint.Of(text), now)])
      requires before.switches <= host.switches && (host.switches == before.switches ==> host.room == before.room)
      modifies host, score, bucket, `rec, `closed, `open, `sent, `tier, `promised, `scoreLog, `lastIgnoredSignal,
        `invalidFrames, `blockedUntil, `verifying, `left, `saved, `trace, `lastChallengeSent, `blocks, `posted
      ensures Valid() && host.Later() && Identity(rec) == old(Identity(rec))
      ensures Ruled(before, clientId, text, answers, tells, reply, room, seen)
    {
      hide Valid, S.Value, EnoughSignals, S.Recorded, Recent, Kept, Posts, S.Unsaid, S.Follows, Tallied, Done, SavesOf,
        Reached, Onward, S.Escalates;
      room, seen := host.room, Check(score.View(), scoreLog);
      ReachedNow(before.score, before.log, seen, tells, score.decay);
      var escalated, v := Escalate(now);
      if escalated.Some? {
        ReachedLonger(before.score, before.log, seen, seen.log, scoreLog, tells, score.decay);
        return Rejection(clientId, escalated.value, 0), room, seen;
      }
      ReachedGrows(before.score, before.log, seen, seen.score, seen.log, score.View(), scoreLog, tells, score.decay);
      room := host.room;
      ghost var s, log := score.View(), scoreLog;
      reply := Accept(clientId, now, text, answers, v);
      ReachedGrows(before.score, before.log, seen, s, log, score.View(), scoreLog, tells, score.decay);
    }

    /** A send of a session whose client id is not remembered. */
    predicate New(e: Send)
      reads `rec, `replies
    {
      rec.Some? && Lookup(replies, e.clientId).None?
    }

    /** A client id that is still remembered gets the reply it got; any other is decided and remembered. */
    method HandleSend(e: Send, answers: Answers)
      returns (ghost reply: ServerEvent, ghost room: Day.Room, ghost seen: Check)
      requires Valid() && 1 <= host.limits.maxLines
      modifies host, score, bucket, `rec, `closed, `open, `sent, `tier, `promised, `scoreLog, `lastIgnoredSignal,
        `invalidFrames, `blockedUntil, `verifying, `left, `saved, timing, `trace, `lastChallengeSent, `blocks, `sends,
        `strikes, `lastStrikeAt, `cooldownUntil, `recentOwn, `posted, `noted, `since, `replies, `decided
      ensures Valid() && host.Later() && Identity(rec) == old(Identity(rec))
      ensures old(rec.None?) ==>
                && noted == old(noted) + [S.SendBeforeJoin] && decided == old(decided) && posted == old(posted)
                && trace == old(trace) && sends == old(sends)
                && sent == old(sent) + (if open then [Reject(e.clientId, Invalid, None)] else [])
      ensures forall k: nat ::
              old(rec.Some?) && k < |old(decided)| <= k + REPLIES && old(decided)[k].0 == e.clientId ==>
                && sent == old(sent) + (if open then [old(decided)[k].1] else [])
                && decided == old(decided) && posted == old(posted) && trace == old(trace) && sends == old(sends)
      ensures old(New(e)) ==>
                && decided == old(decided) + [(e.clientId, reply)] && (open ==> sent != [] && sent[|sent| - 1] == reply)
      ensures old(New(e) && Barred(e).Some?) ==>
                reply == old(Barred(e)).value && posted == old(posted)
      ensures old(New(e) && Barred(e).None? && !Passes()) ==>
                Refuses(old(Strained()), e.clientId, reply) && posted == old(posted)
      ensures old(New(e) && Barred(e).None? && Passes()) ==>
                Ruled(old(Now()), e.clientId, Content(e), answers,
                       old(Telling(host.now, Content(e), answers.senders)), reply, room, seen)
    {
      hide Valid, Lookup, Ruled, Barred, V.Normalized, Passes, Refuses, Now, Telling, Checked;
      Whether();
      reply, room, seen := Reject(e.clientId, Invalid, None), host.room, Check(score.View(), scoreLog);
      if !joined || rec.None? {
        TooEarly(e.clientId);
        return;
      }
      reply, room, seen := HandleJoined(e, answers);
    }

    method HandleJoined(e: Send, answers: Answers)
      returns (ghost reply: ServerEvent, ghost room: Day.Room, ghost seen: Check)
      requires Valid() && rec.Some? && 1 <= host.limits.maxLines
      modifies host, score, bucket, `rec, `closed, `open, `sent, `tier, `promised, `scoreLog, `lastIgnoredSignal,
        `invalidFrames, `blockedUntil, `verifying, `left, `saved, timing, `trace, `lastChallengeSent, `blocks, `sends,
        `strikes, `lastStrikeAt, `cooldownUntil, `recentOwn, `posted, `noted, `since, `replies, `decided
      ensures Valid() && host.Later() && Identity(rec) == old(Identity(rec))
      ensures forall k: nat :: k < |old(decided)| <= k + REPLIES && old(decided)[k].0 == e.clientId ==>
                && sent == old(sent) + (if open then [old(decided)[k].1] else [])
                && decided == old(decided) && posted == old(posted) && trace == old(trace) && sends == old(sends)
      ensures old(New(e)) ==>
                && decided == old(decided) + [(e.clientId, reply)] && (open ==> sent != [] && sent[|sent| - 1] == reply)
      ensures old(New(e) && Barred(e).Some?) ==>
                reply == old(Barred(e)).value && posted == old(posted)
      ensures old(New(e) && Barred(e).None? && !Passes()) ==>
                Refuses(old(Strained()), e.clientId, reply) && posted == old(posted)
      ensures old(New(e) && Barred(e).None? && Passes()) ==>
                Ruled(old(Now()), e.clientId, Content(e), answers,
                       old(Telling(host.now, Content(e), answers.senders)), reply, room, seen)
    {
      hide Valid, Fixed, Barred, V.Normalized, Lookup, Stored, S.Unsaid, Ruled, Passes, Refuses, Now, Telling, Checked;
      reply, room, seen := Reject(e.clientId, Invalid, None), host.room, Check(score.View(), scoreLog);
      var prior := Lookup(replies, e.clientId);
      Replayed(e.clientId);
      if prior.Some? {
        Transmit(prior.value);
        return;
      }
      var decision;
      decision, room, seen := Decide(e, answers);
      reply := decision;
      Settle(e.clientId, decision);
    }

    lemma Limits()
      requires Valid()
      ensures 1 <= host.limits.maxLines
    {
    }

    method Settle(clientId: string, reply: ServerEvent)
      requires Valid() && Lookup(replies, clientId) == None
      modifies `replies, `decided, `sent
      ensures Valid() && decided == old(decided) + [(clientId, reply)]
              && sent == old(sent) + (if open then [reply] else [])
    {
      hide Valid, Lookup;
      Keep(clientId, reply);
      Transmit(reply);
    }

    method TooEarly(clientId: string)
      requires Valid() && rec.None?
      modifies score, bucket, `tier, `promised, `scoreLog, `left, `noted, `since, `sent
      ensures Valid() && noted == old(noted) + [S.SendBeforeJoin]
      ensures sent == old(sent) + (if open then [Reject(clientId, Invalid, None)] else [])
    {
      hide Valid, Sound, M.Carries, S.Unsaid;
      Loosened();
      Begins();
      Note(S.SendBeforeJoin);
      Transmit(Reject(clientId, Invalid, None));
    }

    lemma Replayed(clientId: string)
      requires Valid()
      ensures forall k: nat :: k < |decided| <= k + REPLIES && decided[k].0 == clientId ==>
              Lookup(replies, clientId) == Some(decided[k].1)
    {
      forall k: nat | k < |decided| <= k + REPLIES && decided[k].0 == clientId
        ensures Lookup(replies, clientId) == Some(decided[k].1)
      {
        hide Lookup, RepliesInv;
        ReplayFinds(replies, decided, k);
      }
    }

    method Keep(clientId: string, reply: ServerEvent)
      requires Valid() && Lookup(replies, clientId) == None
      modifies `replies, `decided
      ensures Valid() && decided == old(decided) + [(clientId, reply)]
    {
      hide GateInv, RepliesInv, M.Reflects, Filed, Stored, Lookup;
      Remember(replies, decided, clientId, reply);
      replies := Stored(replies, clientId, reply);
      if |replies| > REPLIES {
        replies := replies[1..];
      }
      decided := decided + [(clientId, reply)];
    }

    // ----- Challenge -----

    /** A score of zero, a full bucket, no strikes and no cooldown, all dated `now`. */
    method Restart(now: int)
      modifies score, bucket, `bucket, `tier, `strikes, `cooldownUntil, `promised, `epoch, `scoreLog, `fromZero, `passed
      ensures fresh(bucket) && score.View() == S.Score(0.0, now) && strikes == 0 && cooldownUntil == 0
      ensures tier == TierFor(S.Value(S.Score(0.0, now), now, score.decay))
      ensures bucket.View() == Full(tier.capacity, tier.refillPerSec, now)
      ensures !promised && epoch == old(epoch) + 1 && scoreLog == [S.Reset(now)] && fromZero && passed
    {
      hide Reconfigured, S.Value, TierFor;
      score.Reset(now);
      strikes := 0;
      cooldownUntil := 0;
      ApplyTier(now);
      bucket := new TokenBucket(tier.capacity, tier.refillPerSec, now);
      promised, epoch, scoreLog, fromZero, passed := false, epoch + 1, [S.Reset(now)], true, true;
    }

    /** A passed verification: a restart, and trust for half an hour. */
    method Clear(now: int)
      requires Valid() && joined && now <= host.now
      modifies `rec, score, bucket, `bucket, `tier, `strikes, `cooldownUntil, `promised, `epoch, `scoreLog, `fromZero,
        `passed
      ensures Valid() && fresh(bucket) && rec == Some(old(rec.value).(trustedUntil := now + TRUST_WINDOW_MS))
      ensures View()
              == Gate(NORMAL, Full(10.0, 1.0, now), 0, false, sends, old(epoch) + 1, S.Score(0.0, now),
                      [S.Reset(now)], true, true, since, left)
      ensures strikes == 0
    {
      hide GateInv, RepliesInv, M.Reflects, Filed, S.Value, TierFor;
      GateCleared(View(), TrustedUntil(rec), now + TRUST_WINDOW_MS, now, host.now, score.decay);
      ReflectsTrust(trace, rec.value, now + TRUST_WINDOW_MS);
      Restart(now);
      rec := Some(rec.value.(trustedUntil := now + TRUST_WINDOW_MS));
    }

    /** At most one verification a second while a challenge is pending; the third failure blocks. `ok` is what the
        verifier says, if it is asked. */
    method ChallengeResponse(ok: bool) returns (ghost outcome: Outcome)
      requires Valid()
      modifies host, score, bucket, `rec, `closed, `open, `sent, `tier, `promised, `scoreLog, `lastIgnoredSignal,
        `invalidFrames, `blockedUntil, `verifying, `left, `saved, `trace, `lastChallengeAttempt, `strikes,
        `cooldownUntil, `bucket, `epoch, `fromZero, `passed, `blocks
      ensures Valid() && host.Later() && (bucket == old(bucket) || fresh(bucket))
      ensures !outcome.Unheard? ==> old(Pending(rec)) && 1_000 <= old(host.now - lastChallengeAttempt)
      ensures old(Pending(rec)) && 1_000 <= old(host.now - lastChallengeAttempt) ==>
                && lastChallengeAttempt == old(host.now)
                && if outcome.Unheard? then closed else outcome == Verdict(ok, old(rec.value.challengeFails))
      ensures match outcome
              case Unheard => trace == old(trace) && Core(rec) == old(Core(rec)) && epoch == old(epoch)
              case Admitted =>
                && trace == old(trace) + [M.Passed] && epoch == old(epoch) + 1 && fresh(bucket) && strikes == 0
                && cooldownUntil == 0
                && S.Follows(S.Score(0.0, old(host.now)), [S.Reset(old(host.now))], score.View(), scoreLog, score.decay)
                && Core(rec) == Core(Some(old(rec.value).(challengePending := false, challengeFails := 0,
                                                           trustedUntil := old(host.now) + TRUST_WINDOW_MS)))
              case Failed =>
                && trace == old(trace) + [M.Failed] && epoch == old(epoch)
                && Core(rec) == Core(Some(old(rec.value).(challengeFails := old(rec.value.challengeFails) + 1)))
              case FailedOut =>
                && |trace| == |old(trace)| + 2 && trace[..|old(trace)| + 1] == old(trace) + [M.Failed]
                && trace[|old(trace)| + 1].Blocked?
                && epoch == old(epoch) && !open
      ensures !outcome.Unheard? && open ==> SentSince(sent, |old(sent)|, ChallengeResult(ok))
      ensures !outcome.Unheard? && old(Current()) && host.switches == old(host.switches) ==>
                SavedSince(|old(saved)|, saved, rec)
    {
      hide Sound, M.Lawful, S.HalfLife, SentSince, SavedSince, S.Follows, S.Unsaid, S.Value, M.Owes, GateInv,
        RepliesInv, Filed;
      outcome := Unheard;
      if rec.None? || !rec.value.challengePending {
        return;
      }
      var now := host.now;
      if now - lastChallengeAttempt < 1_000 {
        return;
      }
      lastChallengeAttempt := now;
      Await();
      if closed {
        return;
      }
      ghost var n, saves := |sent|, |saved|;
      if ok {
        outcome := Admitted;
        Succeed(now);
      } else {
        outcome := Fail();
      }
      Told(n, |old(sent)|, ChallengeResult(ok), ChallengeResult(ok));
      StillSaved(saves, |old(saved)|);
    }

    method Succeed(now: int)
      requires Valid() && Pending(rec) && now <= host.now
      modifies host, score, bucket, `rec, `closed, `open, `sent, `tier, `promised, `scoreLog, `lastIgnoredSignal,
        `invalidFrames, `blockedUntil, `verifying, `left, `saved, `trace, `strikes, `cooldownUntil, `bucket, `epoch,
        `fromZero, `passed
      ensures Valid() && host.Later() && fresh(bucket) && strikes == 0 && cooldownUntil == 0
      ensures trace == old(trace) + [M.Passed] && epoch == old(epoch) + 1
      ensures Core(rec) == Core(Some(old(rec.value).(challengePending := false, challengeFails := 0,
                                                      trustedUntil := now + TRUST_WINDOW_MS)))
      ensures S.Follows(S.Score(0.0, now), [S.Reset(now)], score.View(), scoreLog, score.decay)
      ensures Onward(old(sent), old(open), old(closed))
              && (open ==> SentSince(sent, |old(sent)|, ChallengeResult(true)))
      ensures old(Current()) ==> SavedSince(|old(saved)|, saved, rec)
    {
      hide Valid, S.Follows, SavesOf, S.Unsaid, S.Value, SentSince, SavedSince;
      Admit(now);
      Persist();
      ghost var told := sent;
      Transmit(ChallengeResult(true));
      SentNow(told, |old(sent)|, ChallengeResult(true));
    }

    method Admit(now: int)
      requires Valid() && Pending(rec) && now <= host.now
      modifies `rec, `trace, score, bucket, `bucket, `tier, `strikes, `cooldownUntil, `promised, `epoch, `scoreLog,
        `fromZero, `passed
      ensures Valid() && fresh(bucket) && strikes == 0 && cooldownUntil == 0
      ensures trace == old(trace) + [M.Passed] && epoch == old(epoch) + 1
      ensures View() == Gate(NORMAL, Full(10.0, 1.0, now), 0, false, sends, old(epoch) + 1, S.Score(0.0, now),
                             [S.Reset(now)], true, true, since, left)
      ensures rec
              == Some(old(rec.value).(challengePending := false, challengeFails := 0,
                                      trustedUntil := now + TRUST_WINDOW_MS))
    {
      hide Valid, Sound, M.Carries, M.Reflects, M.Allowed, S.Value;
      Loosened();
      AllowedNow(M.Passed);
      Mark(M.Passed);
      Clear(now);
    }

    lemma Loosened()
      requires Valid()
      ensures Sound() && M.Carries(trace, rec) && Fixed()
    {
    }

    lemma AllowedNow(e: M.Event)
      requires Valid() && rec.Some?
      requires (e.Issued? && !Pending(rec)) || ((e.Passed? || e.Failed?) && Pending(rec))
               || (e.Acked? && !Pending(rec) && e.score < S.SEVERE)
      ensures M.Allowed(trace, e)
    {
    }

    method Fail() returns (ghost outcome: Outcome)
      requires Valid() && Pending(rec)
      modifies host, score, bucket, `rec, `closed, `open, `sent, `tier, `promised, `scoreLog, `lastIgnoredSignal,
        `invalidFrames, `blockedUntil, `verifying, `left, `saved, `trace, `blocks
      ensures Valid() && host.Later()
      ensures outcome == Verdict(false, old(rec.value.challengeFails))
      ensures outcome.Failed? ==>
                && trace == old(trace) + [M.Failed]
                && Core(rec) == Core(Some(old(rec.value).(challengeFails := old(rec.value.challengeFails) + 1)))
      ensures outcome.FailedOut? ==>
                |trace| == |old(trace)| + 2 && trace[..|old(trace)| + 1] == old(trace) + [M.Failed]
                && trace[|old(trace)| + 1].Blocked? && !open
      ensures old(sent) <= sent && (old(open) ==> SentSince(sent, |old(sent)|, ChallengeResult(false)))
      ensures (open ==> old(open)) && (old(closed) ==> closed)
      ensures old(Current()) && host.switches == old(host.switches) ==> SavedSince(|old(saved)|, saved, rec)
    {
      hide Valid, Sound, M.Carries, M.Reflects, M.Allowed, M.BlockTtl, SentSince, SavedSince, S.Follows, SavesOf,
        S.Unsaid, S.Between, BlockCalls, Wide;
      Loosened();
      AllowedNow(M.Failed);
      Mark(M.Failed);
      Transmit(ChallengeResult(false));
      ghost var told := sent;
      SentNow(old(sent), |old(sent)|, ChallengeResult(false));
      if rec.value.challengeFails >= 3 {
        ghost var failed := trace;
        var _ := TempBlock();
        assert trace[..|failed|] == failed;
        StillTold(told, |old(sent)|, ChallengeResult(false));
        return FailedOut;
      }
      Persist();
      StillTold(told, |old(sent)|, ChallengeResult(false));
      return Failed;
    }

    // ----- Joining and midnight -----

    /** Reconnecting does not wash suspicion away. */
    method Carry(stored: S.Score, now: int)
      modifies score, bucket, `tier, `promised, `fromZero
      ensures score.View() == Carried(old(score.View()), stored, now, score.decay)
      ensures (tier, bucket.View()) == Retiered(old(tier), old(bucket.View()), score.View(), now, score.decay)
      ensures promised == (old(promised) && tier == old(tier))
              && fromZero == (old(fromZero) && score.View() == old(score.View()))
    {
      hide S.Value, S.Added, Reconfigured, TierFor;
      var before := S.Value(stored, now, score.decay);
      var v := score.CurrentValue(now);
      if before > v {
        score.Add(before - v, now, false);
      }
      fromZero := fromZero && score.View() == old(score.View());
      ApplyTier(now);
    }

    /** Puts a session in use; `now` was read when the join began. */
    method Commit(found: SessionRecord, now: int)
      requires Valid() && !joined && now <= host.now
      modifies score, bucket, `tier, `promised, `fromZero, `rec, `joined, `joinedAt, `trace
      ensures Valid() && joined && rec == Some(found) && joinedAt == now
      ensures trace == [M.Joined(found.challengePending, found.challengeFails, found.blocks)]
      ensures Brings(found, old(score.View()), score.View(), now)
      ensures tier == TierFor(S.Value(score.View(), now, score.decay))
    {
      hide GateInv, RepliesInv, M.Reflects, Filed, M.Lawful, S.Value, Carried, Retiered, TierFor;
      ghost var e := M.Joined(found.challengePending, found.challengeFails, found.blocks);
      Arrives(found, e);
      GateJoined(View(), S.Score(found.suspicion, found.suspicionAt), found.trustedUntil, now, host.now, score.decay);
      TakeUp(found, e, now);
    }

    /** The session, the score it brings and the tier that goes with it. */
    method TakeUp(found: SessionRecord, ghost e: M.Event, now: int)
      modifies score, bucket, `tier, `promised, `fromZero, `rec, `joined, `joinedAt, `trace
      ensures score.View() == Carried(old(score.View()), S.Score(found.suspicion, found.suspicionAt), now, score.decay)
      ensures (tier, bucket.View()) == Retiered(old(tier), old(bucket.View()), score.View(), now, score.decay)
      ensures promised == (old(promised) && tier == old(tier))
              && fromZero == (old(fromZero) && score.View() == old(score.View()))
      ensures rec == Some(found) && joined && joinedAt == now && trace == [e]
    {
      hide Carried, Retiered;
      Carry(S.Score(found.suspicion, found.suspicionAt), now);
      Use(found, e, now);
    }

    method Use(found: SessionRecord, ghost e: M.Event, now: int)
      modifies `rec, `joined, `joinedAt, `trace
      ensures rec == Some(found) && joined && joinedAt == now && trace == [e]
    {
      rec, joined, joinedAt, trace := Some(found), true, now, [e];
    }

    lemma Arrives(found: SessionRecord, e: M.Event)
      requires M.Reflects(trace, None) && e == M.Joined(found.challengePending, found.challengeFails, found.blocks)
      ensures M.Reflects([e], Some(found))
    {
      M.Arrives([], found, e);
    }

    /** What one attempt of a join comes to: the session of the token, just as it is stored, if it is one of the room;
        and only otherwise a new one, or none if the network brings too many or no name is free. */
    ghost predicate Finds(resume: string, visit: Visit, room: Day.Room, now: int, found: Option<SessionRecord>,
                          token: string)
    {
      if Resumes(resume, visit, room) then found == visit.stored && token == resume
      else if 3 * host.sessionsPerHour < visit.arrivals || visit.created.None? then found == None
      else found.Some? && token == visit.created.value.token && Made(found.value, visit.created.value, room, now, false)
    }

    /** A new session of this connection. */
    predicate Made(rec: SessionRecord, named: Named, room: Day.Room, now: int, pending: bool) {
      && rec.sid == named.sid && rec.name == named.name && Unused(rec, room, pending, now)
      && rec.country == country && rec.ipHash == ipHash
    }

    /** One attempt of a join. */
    method Attempt(resume: string, visit: Visit, room: Day.Room, now: int)
      returns (found: Option<SessionRecord>, token: string)
      requires Valid() && rec.None? && now <= host.now
      modifies host, score, bucket, `rec, `closed, `open, `sent, `tier, `promised, `scoreLog, `lastIgnoredSignal,
        `invalidFrames, `blockedUntil, `verifying, `left, `saved, `since, `noted
      ensures Valid() && host.Later() && rec.None?
      ensures noted == old(noted) + VisitTells(resume, visit, room, host.sessionsPerHour)
      ensures Finds(resume, visit, room, now, found, token)
      ensures found.Some? ==> found.value.roomId == room.roomId
      ensures !Resumes(resume, visit, room) && 3 * host.sessionsPerHour < visit.arrivals ==> !open
      ensures Onward(old(sent), old(open), old(closed))
    {
      hide Valid, Sound, S.Added, S.Value, TierFor, S.Unsaid, S.Follows, SavesOf, Ready;
      found, token := None, resume;
      if resume != "" {
        Await();
        found := OfRoom(visit.stored, room);
      }
      Await();
      if found.Some? {
        if visit.rejoins > CHURN_LIMIT { Tell(S.ReconnectChurn); }
        return;
      }
      if visit.arrivals > 3 * host.sessionsPerHour {
        TurnAway();
        return;
      }
      if visit.arrivals > host.sessionsPerHour { Tell(S.ManyNewSessionsFromNetwork); }
      found, token := NewSession(room, now, false, visit.created);
    }

    /** What the session service makes of a stored session (src/identity/sessions.ts, `resume`). */
    static function OfRoom(stored: Option<SessionRecord>, room: Day.Room): Option<SessionRecord> {
      if stored.Some? && stored.value.roomId == room.roomId then stored else None
    }

    method TurnAway()
      modifies `sent, `open
      ensures !open && sent == old(sent) + (if old(open) then [Error("try_later")] else [])
    {
      Transmit(Error("try_later"));
      open := false;
    }

    /** A signal of a join, before there is a session. */
    method Tell(name: S.Signal)
      requires Valid() && rec.None? && name in {S.ReconnectChurn, S.ManyNewSessionsFromNetwork}
      modifies score, bucket, `tier, `promised, `scoreLog, `left, `noted, `since
      ensures Valid() && noted == old(noted) + [name]
    {
      hide Valid, Sound, M.Carries, S.Unsaid;
      Loosened();
      Begins();
      Note(name);
    }

    /** What the attempts of a join come to. The first may resume; a second one follows if midnight has passed
        meanwhile, for the room of `again`, and it does not. */
    ghost predicate Tries(resume: string, visits: (Visit, Visit), first: Day.Room, now: int,
                          found: Option<SessionRecord>, token: string, again: Option<Day.Room>, switches: nat)
    {
      if again.None? then Finds(resume, visits.0, first, now, found, token)
      else 1 <= switches && (Finds("", visits.1, again.value, now, found, token) || (found.None? && 2 <= switches))
    }

    lemma TriesLater(resume: string, visits: (Visit, Visit), first: Day.Room, now: int, found: Option<SessionRecord>,
                     token: string, again: Option<Day.Room>, switches: nat, switches': nat)
      requires Tries(resume, visits, first, now, found, token, again, switches) && switches <= switches'
      ensures Tries(resume, visits, first, now, found, token, again, switches')
    {
      hide Finds;
    }

    /** The signals of a join's attempts, in their order. */
    function TriesTell(resume: string, visits: (Visit, Visit), first: Day.Room, again: Option<Day.Room>)
        : seq<S.Signal> {
      VisitTells(resume, visits.0, first, host.sessionsPerHour)
      + if again.None? then [] else VisitTells("", visits.1, again.value, host.sessionsPerHour)
    }

    /** The session to join with, of a room that was current when it was checked. */
    method Resolve(resume: Option<string>, visits: (Visit, Visit), now: int)
      returns (found: Option<SessionRecord>, token: string, ghost again: Option<Day.Room>)
      requires Valid() && rec.None? && now <= host.now
      modifies host, score, bucket, `rec, `closed, `open, `sent, `tier, `promised, `scoreLog, `lastIgnoredSignal,
        `invalidFrames, `blockedUntil, `verifying, `left, `saved, `since, `noted
      ensures Valid() && host.Later() && rec.None? && (found.Some? ==> found.value.roomId == host.room.roomId)
      ensures Tries(Token(resume), visits, old(host.room), now, found, token, again, host.switches - old(host.switches))
      ensures noted == old(noted) + TriesTell(Token(resume), visits, old(host.room), again)
      ensures Onward(old(sent), old(open), old(closed))
    {
      hide Valid, VisitTells, Finds;
      again := None;
      found, token := Attempt(Token(resume), visits.0, host.room, now);
      if found.None? || found.value.roomId == host.room.roomId {
        return;
      }
      again := Some(host.room);
      found, token := Attempt("", visits.1, host.room, now);
      if found.Some? && found.value.roomId != host.room.roomId {
        found := None;
      }
    }

    static function Token(resume: Option<string>): string {
      if resume.Some? then resume.value else ""
    }

    /** A new session for a room, with the suspicion the connection has; none if no name was free. */
    method NewSession(room: Day.Room, now: int, pending: bool, named: Option<Named>)
      returns (created: Option<SessionRecord>, token: string)
      requires Valid()
      modifies host, score, bucket, `rec, `closed, `open, `sent, `tier, `promised, `scoreLog, `lastIgnoredSignal,
        `invalidFrames, `blockedUntil, `verifying, `left, `saved
      ensures Valid() && host.Later() && Core(rec) == old(Core(rec)) && Onward(old(sent), old(open), old(closed))
      ensures created.Some? <==> named.Some?
      ensures created.Some? ==>
                && token == named.value.token && Made(created.value, named.value, room, now, pending)
                && created.value.suspicion == S.Value(old(score.View()), now, score.decay)
    {
      hide Valid, S.Value, S.Unsaid, S.Follows, SavesOf;
      var carried := score.CurrentValue(now);
      Await();
      if named.None? {
        return None, "";
      }
      created := Some(SessionRecord(named.value.sid, room.roomId, named.value.name, country, ipHash, now, carried, now,
                                    pending, 0, 0, 0));
      token := named.value.token;
    }

    /** Joins with the session that was found, unless it is blocked; a connection joins once. `blocked` is what is left
        of the session's block, `history` the day's messages when they are read. */
    method Join(resume: Option<string>, verification: Option<string>, visits: (Visit, Visit), blocked: nat,
                history: seq<StoredMessage>)
      returns (ghost outcome: Joining, ghost found: Option<SessionRecord>, ghost token: string,
               ghost again: Option<Day.Room>)
      requires Valid()
      modifies host, score, bucket, `rec, `closed, `open, `sent, `tier, `promised, `scoreLog, `lastIgnoredSignal,
        `invalidFrames, `blockedUntil, `verifying, `left, `saved, `joined, `joinedAt, `fromZero, `trace,
        `lastChallengeSent, `since, `noted, `asked
      ensures Valid() && host.Later() && (outcome.Already? <==> old(joined)) && (outcome.Entered? ==> joined)
      ensures outcome.Already? ==> rec == old(rec) && sent == old(sent) && trace == old(trace)
      ensures outcome.Stopped? || outcome.Held? ==> !joined && trace == []
      ensures !old(joined) ==>
                Tries(Token(resume), visits, old(host.room), old(host.now), found, token, again,
                      host.switches - old(host.switches))
      ensures !old(joined) ==>
                noted == old(noted) + TriesTell(Token(resume), visits, old(host.room), again)
                         + (if outcome.Entered? && host.turnstile && !asked then [S.VerificationMissing] else [])
      ensures outcome.Stopped? ==> found.None? || token == "" || closed
      ensures outcome.Held? || outcome.Entered? ==> found.Some? && (outcome.Held? <==> 0 < blocked)
      ensures outcome.Held? ==> outcome.ttl == blocked && blockedUntil == host.now + blocked && !open
      ensures outcome.Entered? ==>
                && Core(rec) == Core(found) && joinedAt == old(host.now)
                && trace == [M.Joined(found.value.challengePending, found.value.challengeFails, found.value.blocks)]
      ensures outcome.Entered? ==> (asked <==> host.turnstile && verification.Some? && verification.value != "")
      ensures outcome.Entered? ==>
                && Brings(found.value, outcome.before, outcome.began.score, old(host.now))
                && S.Follows(outcome.began.score, outcome.began.log, score.View(), scoreLog, score.decay)
      ensures outcome.Entered? && open ==>
                && Welcomed(|old(sent)|, found.value.name, Public(history), token, old(host.switches), old(host.room))
                && (host.challenges && found.value.challengePending ==> SentSince(sent, |old(sent)|, Challenge))
    {
      hide Valid, Fixed, S.Value, S.Unsaid, S.Follows, SavesOf, Unused, Tries, TriesTell, SentSince, Public, Brings,
        Welcomed;
      Whether();
      found, token, again := None, "", None;
      if joined {
        return Already, found, token, again;
      }
      var now := host.now;
      var session, resumeToken;
      session, resumeToken, again := Resolve(resume, visits, now);
      found, token := session, resumeToken;
      if session.None? || resumeToken == "" || closed {
        Whether();
        return Stopped, found, token, again;
      }
      ghost var n, switches, seated := |sent|, host.switches - old(host.switches), host.room;
      Whether();
      outcome := Seat(session.value, resumeToken, verification, blocked, history, now);
      TriesLater(Token(resume), visits, old(host.room), now, found, token, again, switches,
                 host.switches - old(host.switches));
      WelcomedSince(n, |old(sent)|, session.value.name, Public(history), resumeToken, old(host.switches) + switches,
                    seated, old(host.switches), old(host.room));
    }

    /** A blocked session is told, any other is in use. */
    method Seat(session: SessionRecord, token: string, verification: Option<string>, blocked: nat,
                history: seq<StoredMessage>, now: int)
      returns (ghost outcome: Joining)
      requires Valid() && !joined && trace == [] && now <= host.now
      modifies host, score, bucket, `rec, `closed, `open, `sent, `tier, `promised, `scoreLog, `lastIgnoredSignal,
        `invalidFrames, `blockedUntil, `verifying, `left, `saved, `joined, `joinedAt, `fromZero, `trace,
        `lastChallengeSent, `since, `noted, `asked
      ensures Valid() && host.Later() && (if 0 < blocked then outcome == Held(blocked) else outcome.Entered?)
      ensures outcome.Held? ==> !joined && trace == [] && noted == old(noted)
      ensures outcome.Held? ==> blockedUntil == host.now + blocked && !open
      ensures outcome.Entered? ==>
                && joined && Core(rec) == Core(Some(session)) && joinedAt == now
                && trace == [M.Joined(session.challengePending, session.challengeFails, session.blocks)]
                && (asked <==> host.turnstile && verification.Some? && verification.value != "")
                && noted == old(noted) + (if host.turnstile && !asked then [S.VerificationMissing] else [])
                && Brings(session, outcome.before, outcome.began.score, now)
                && S.Follows(outcome.began.score, outcome.began.log, score.View(), scoreLog, score.decay)
      ensures outcome.Entered? && open ==>
                && Welcomed(|old(sent)|, session.name, Public(history), token, old(host.switches), old(host.room))
                && (host.challenges && session.challengePending ==> SentSince(sent, |old(sent)|, Challenge))
      ensures old(sent) <= sent
    {
      hide Valid, S.Value, S.Unsaid, S.Follows, SavesOf, SentSince, Public, Brings;
      Await();
      Whether();
      if blocked > 0 {
        BlockedFor(blocked);
        return Held(blocked);
      }
      ghost var n, room, before := |sent|, host.room, score.View();
      ghost var began := Enter(session, token, verification, history, now);
      Told(n, |old(sent)|, Welcome(session.name, room.day, room.endsAt, Public(history), token), Challenge);
      return Entered(before, began);
    }

    /** The welcome is of the room when the session came into use, which is `room` unless it has been switched since. */
    ghost predicate Welcomed(n: nat, name: string, history: seq<ChatMessage>, token: string, switches: nat,
                             room: Day.Room)
      reads `sent, host
    {
      exists r: Day.Room ::
        && SentSince(sent, n, Welcome(name, r.day, r.endsAt, history, token))
        && (host.switches == switches ==> r == room)
    }

    lemma WelcomedSince(n: nat, n': nat, name: string, history: seq<ChatMessage>, token: string, switches: nat,
                        room: Day.Room, switches': nat, room': Day.Room)
      requires n' <= n && switches' <= switches <= host.switches && (switches == switches' ==> room == room')
      ensures Welcomed(n, name, history, token, switches, room) ==> Welcomed(n', name, history, token, switches', room')
      ensures SentSince(sent, n, Challenge) ==> SentSince(sent, n', Challenge)
    {
    }

    lemma StillTold(told: seq<ServerEvent>, n: nat, evt: ServerEvent)
      requires told <= sent
      ensures SentSince(told, n, evt) ==> SentSince(sent, n, evt)
    {
      if SentSince(told, n, evt) { SentOn(told, n, sent, n, evt); }
    }

    lemma StillSaved(n: nat, n': nat)
      requires n' <= n
      ensures SavedSince(n, saved, rec) ==> SavedSince(n', saved, rec)
    {
    }

    lemma Told(n: nat, n': nat, evt: ServerEvent, also: ServerEvent)
      requires n' <= n
      ensures SentSince(sent, n, evt) ==> SentSince(sent, n', evt)
      ensures SentSince(sent, n, also) ==> SentSince(sent, n', also)
    {
    }

    lemma Whether()
      requires Valid()
      ensures joined <==> rec.Some?
      ensures !joined ==> trace == []
    {
    }

    /** Reconnecting does not wash suspicion away: the score is raised to the stored one, if that is higher. */
    ghost predicate Brings(found: SessionRecord, before: S.Score, began: S.Score, now: int) {
      var stored := S.Value(S.Score(found.suspicion, found.suspicionAt), now, score.decay);
      var v := S.Value(before, now, score.decay);
      S.Value(began, now, score.decay) == if v < stored then Min(S.MAX, stored) else v
    }

    method Enter(found: SessionRecord, token: string, verification: Option<string>, history: seq<StoredMessage>,
                 now: int)
      returns (ghost began: Check)
      requires Valid() && !joined && now <= host.now
      modifies host, score, bucket, `rec, `closed, `open, `sent, `tier, `promised, `scoreLog, `lastIgnoredSignal,
        `invalidFrames, `blockedUntil, `verifying, `left, `saved, `joined, `joinedAt, `fromZero, `trace,
        `lastChallengeSent, `since, `noted, `asked
      ensures Valid() && host.Later() && joined && joinedAt == now && Core(rec) == Core(Some(found))
      ensures trace == [M.Joined(found.challengePending, found.challengeFails, found.blocks)]
      ensures open ==>
              SentSince(sent, |old(sent)|,
                        Welcome(found.name, old(host.room.day), old(host.room.endsAt), Public(history), token))
      ensures open && host.challenges && found.challengePending ==> SentSince(sent, |old(sent)|, Challenge)
      ensures asked <==> host.turnstile && verification.Some? && verification.value != ""
      ensures noted == old(noted) + if host.turnstile && !asked then [S.VerificationMissing] else []
      ensures old(sent) <= sent && Brings(found, old(score.View()), began.score, now)
              && S.Follows(began.score, began.log, score.View(), scoreLog, score.decay)
    {
      hide Valid, Sound, M.Carries, S.Value, TierFor, Min, S.Follows, SentSince;
      Loosened();
      Commit(found, now);
      began := Check(score.View(), scoreLog);
      Greet(found, token, verification, history);
    }

    /** The welcome with the day's history, which is read after the session is in use. */
    method Greet(found: SessionRecord, token: string, verification: Option<string>, history: seq<StoredMessage>)
      requires Valid() && joined && !asked
      modifies host, score, bucket, `rec, `closed, `open, `sent, `tier, `promised, `scoreLog, `lastIgnoredSignal,
        `invalidFrames, `blockedUntil, `verifying, `left, `saved, `lastChallengeSent, `since, `noted, `asked
      ensures Valid() && host.Later() && Core(rec) == old(Core(rec))
      ensures open ==>
              SentSince(sent, |old(sent)|,
                        Welcome(found.name, old(host.room.day), old(host.room.endsAt), Public(history), token))
      ensures open && host.challenges && found.challengePending ==> SentSince(sent, |old(sent)|, Challenge)
      ensures asked <==> host.turnstile && verification.Some? && verification.value != ""
      ensures noted == old(noted) + if host.turnstile && !asked then [S.VerificationMissing] else []
      ensures old(sent) <= sent
      ensures S.Follows(old(score.View()), old(scoreLog), score.View(), scoreLog, score.decay)
    {
      hide Valid, S.Follows, SavesOf, S.Unsaid, SentSince;
      var room := host.room;
      Await();
      ghost var n, s, log := |sent|, score.View(), scoreLog;
      Hail(found, room, Public(history), token);
      Told(n, |old(sent)|, Welcome(found.name, room.day, room.endsAt, Public(history), token), Challenge);
      Verify(verification);
      S.FollowsOn(old(score.View()), old(scoreLog), s, log, score.View(), scoreLog, score.decay);
    }

    method Hail(found: SessionRecord, room: Day.Room, history: seq<ChatMessage>, token: string)
      modifies `lastChallengeSent, `sent
      ensures old(sent) <= sent
      ensures open ==> SentSince(sent, |old(sent)|, Welcome(found.name, room.day, room.endsAt, history, token))
      ensures open && host.challenges && found.challengePending ==> SentSince(sent, |old(sent)|, Challenge)
    {
      ghost var n := |sent|;
      Announce(Welcome(found.name, room.day, room.endsAt, history, token), found.challengePending);
      assert open ==> sent[n] == Welcome(found.name, room.day, room.endsAt, history, token);
      assert open && host.challenges && found.challengePending ==> sent[n + 1] == Challenge;
    }

    /** The background verification of a join, which never blocks entry. */
    method Verify(verification: Option<string>)
      requires Valid() && joined && !asked
      modifies score, bucket, `tier, `promised, `scoreLog, `left, `verifying, `since, `noted, `asked
      ensures Valid() && (asked <==> host.turnstile && verification.Some? && verification.value != "")
      ensures verifying == (if asked then 1 else 0)
      ensures noted == old(noted) + if host.turnstile && !asked then [S.VerificationMissing] else []
      ensures S.Follows(old(score.View()), old(scoreLog), score.View(), scoreLog, score.decay)
    {
      hide GateInv, RepliesInv, M.Reflects, Filed, S.Follows;
      S.FollowsNothing(score.View(), scoreLog, score.decay);
      if host.turnstile {
        if verification.None? || verification.value == "" {
          Missing();
        } else {
          asked, verifying := true, 1;
        }
      }
    }

    method Missing()
      requires Valid() && joined && !asked
      modifies score, bucket, `tier, `promised, `scoreLog, `left, `since, `noted
      ensures Valid() && noted == old(noted) + [S.VerificationMissing]
      ensures S.Follows(old(score.View()), old(scoreLog), score.View(), scoreLog, score.decay)
    {
      hide Valid, S.Unsaid, S.Follows, Tallied;
      Begins();
      Note(S.VerificationMissing);
      TalliedFollows(old(score.View()), old(scoreLog), score.View(), scoreLog, [S.VerificationMissing], score.decay);
    }

    /** Midnight between two frames: a fresh record for the next room, unless the connection is or gets closed; it is
        dropped, so that it rejoins, if no session could be created. */
    method Rollover(next: Day.Room, named: Option<Named>)
      requires Valid()
      modifies host, score, bucket, `rec, `closed, `open, `sent, `tier, `promised, `scoreLog, `lastIgnoredSignal,
        `invalidFrames, `blockedUntil, `verifying, `left, `saved, `trace, `rolledAt, `replies, `decided, `recentOwn,
        `passed, `lastChallengeSent
      ensures Valid() && host.Later() && (old(rec.None?) ==> rec.None?)
      ensures old(rec.Some? && !closed) && named.None? ==> !open && Core(rec) == old(Core(rec)) && trace == old(trace)
      ensures old(rec.Some?) && closed ==> Core(rec) == old(Core(rec)) && trace == old(trace)
      ensures old(rec.Some? && !closed) && named.Some? && !closed ==>
                && rec.Some? && Made(rec.value, named.value, next, old(host.now), old(Pending(rec)))
                && rec.value.suspicion == S.Value(old(score.View()), old(host.now), score.decay)
                && trace == old(trace) + [M.RolledOver(old(Pending(rec)))] && rolledAt == old(host.now)
                && replies == [] && recentOwn == []
                && (open ==>
                    SentSince(sent, |old(sent)|, Reset(next.day, next.endsAt, named.value.name, named.value.token)))
                && (open && host.challenges && old(Pending(rec)) ==> SentSince(sent, |old(sent)|, Challenge))
    {
      hide Valid, Sound, M.Carries, S.Value, SentSince;
      Loosened();
      if !joined || rec.None? || closed {
        return;
      }
      var now := host.now;
      var created, token := NewSession(next, now, rec.value.challengePending, named);
      if created.None? {
        open := false;
        return;
      }
      if closed {
        return;
      }
      Renew(created.value, now);
      ghost var told := sent;
      Announce(Reset(next.day, next.endsAt, created.value.name, token), created.value.challengePending);
      AnnouncedTo(told, |old(sent)|, Reset(next.day, next.endsAt, created.value.name, token), Challenge);
    }

    static lemma AnnouncedTo(told: seq<ServerEvent>, n: nat, evt: ServerEvent, also: ServerEvent)
      requires n <= |told|
      ensures SentSince(told + ([evt] + []), n, evt) && SentSince(told + ([evt] + [also]), n, evt)
      ensures SentSince(told + ([evt] + [also]), n, also)
    {
      assert (told + ([evt] + []))[|told|] == evt;
      assert (told + ([evt] + [also]))[|told|] == evt && (told + ([evt] + [also]))[|told| + 1] == also;
    }

    method Renew(created: SessionRecord, now: int)
      requires Valid() && rec.Some? && created.challengePending == Pending(rec)
      requires created.challengeFails == 0 && created.blocks == 0
      modifies `rec, `trace, `rolledAt, `replies, `decided, `recentOwn, `passed
      ensures Valid() && rec == Some(created) && trace == old(trace) + [M.RolledOver(created.challengePending)]
      ensures rolledAt == now && replies == [] && recentOwn == [] && decided == []
    {
      hide GateInv, RepliesInv, M.Reflects, Filed;
      Rolls(created);
      NothingDecided();
      GateRenewed(View(), TrustedUntil(rec), created.trustedUntil, host.now, score.decay);
      Replace(created, now);
    }

    /** The new record; nothing is remembered of the old room. */
    method Replace(created: SessionRecord, now: int)
      modifies `rec, `trace, `rolledAt, `replies, `decided, `recentOwn, `passed
      ensures rec == Some(created) && trace == old(trace) + [M.RolledOver(created.challengePending)] && !passed
      ensures rolledAt == now && replies == [] && recentOwn == [] && decided == []
    {
      rec, trace, passed := Some(created), trace + [M.RolledOver(created.challengePending)], false;
      rolledAt, replies, recentOwn, decided := now, [], [], [];
    }

    lemma Rolls(created: SessionRecord)
      requires M.Reflects(trace, rec) && rec.Some? && created.challengePending == Pending(rec)
      requires created.challengeFails == 0 && created.blocks == 0
      ensures M.Reflects(trace + [M.RolledOver(created.challengePending)], Some(created))
    {
      hide M.Lawful;
      M.Arrives(trace, created, M.RolledOver(created.challengePending));
    }

    static lemma NothingDecided()
      ensures RepliesInv([], [])
    {
    }

    // ----- Whole lives -----

    /** Any frames and midnights, one after the other in any order, with anything else happening before, during and
        between them. */
    method Live(frames: seq<Incoming>)
      requires Valid()
      modifies host, score, bucket, `rec, `closed, `open, `sent, `tier, `promised, `scoreLog, `lastIgnoredSignal,
        `invalidFrames, `blockedUntil, `verifying, `left, `saved, timing, `trace, `lastChallengeSent, `blocks, `sends,
        `strikes, `lastStrikeAt, `cooldownUntil, `recentOwn, `posted, `noted, `since, `replies, `decided, `joined,
        `joinedAt, `fromZero, `passed, `rolledAt, `bucket, `epoch, `lastChallengeAttempt, `asked
      ensures Valid()
    {
      hide Valid;
      for i := 0 to |frames|
        invariant Valid() && (bucket == old(bucket) || fresh(bucket))
      {
        Await();
        Handle(frames[i]);
      }
    }

    /** One frame, to the handler of its kind; nothing that a closed connection has sent is looked at. */
    method Handle(frame: Incoming)
      requires Valid()
      modifies host, score, bucket, `rec, `closed, `open, `sent, `tier, `promised, `scoreLog, `lastIgnoredSignal,
        `invalidFrames, `blockedUntil, `verifying, `left, `saved, timing, `trace, `lastChallengeSent, `blocks, `sends,
        `strikes, `lastStrikeAt, `cooldownUntil, `recentOwn, `posted, `noted, `since, `replies, `decided, `joined,
        `joinedAt, `fromZero, `passed, `rolledAt, `bucket, `epoch, `lastChallengeAttempt, `asked
      ensures Valid() && (bucket == old(bucket) || fresh(bucket))
      ensures old(closed) ==> rec == old(rec) && sent == old(sent) && trace == old(trace) && posted == old(posted)
      ensures frame.Malformed? && !old(closed) ==> invalidFrames == old(invalidFrames) + 1
      ensures frame.SendFrame? && !old(closed) && old(New(frame.send)) ==>
                |decided| == |old(decided)| + 1 && decided[|old(decided)|].0 == frame.send.clientId
      ensures frame.ResponseFrame? && !old(closed) && old(Pending(rec))
              && 1_000 <= old(host.now - lastChallengeAttempt) ==>
                closed || (Pending(rec) ==> !frame.ok)
      ensures frame.JoinFrame? && !old(closed) && !old(joined) && host.switches == old(host.switches)
              && Resumes(Token(frame.resume), frame.visits.0, old(host.room)) ==>
                closed || (if 0 < frame.blocked then !open else Core(rec) == Core(frame.visits.0.stored))
      ensures frame.Midnight? && !old(closed) && old(rec.Some?) && frame.created.Some? ==>
                closed || (rec.Some? && rec.value.sid == frame.created.value.sid)
    {
      hide *;
      if closed {
        return;
      }
      match frame {
        case Malformed => Begins(); Invalidate(S.MalformedFrame);
        case JoinFrame(_, _, _, _, _) => HandleJoin(frame);
        case SendFrame(send, answers) => Limits(); var _, _, _ := HandleSend(send, answers);
        case ResponseFrame(ok) => HandleResponse(ok);
        case Midnight(next, created) => HandleMidnight(next, created);
      }
    }

    method HandleJoin(frame: Incoming)
      requires Valid() && frame.JoinFrame?
      modifies host, score, bucket, `rec, `closed, `open, `sent, `tier, `promised, `scoreLog, `lastIgnoredSignal,
        `invalidFrames, `blockedUntil, `verifying, `left, `saved, `joined, `joinedAt, `fromZero, `trace,
        `lastChallengeSent, `since, `noted, `asked
      ensures Valid()
      ensures !old(joined) && host.switches == old(host.switches)
              && Resumes(Token(frame.resume), frame.visits.0, old(host.room)) ==>
                closed || (if 0 < frame.blocked then !open else Core(rec) == Core(frame.visits.0.stored))
    {
      hide Valid, Core, TriesTell, Brings, S.Follows, Welcomed, SentSince, Public, M.Lawful;
      var _, _, _, _ := Join(frame.resume, frame.verification, frame.visits, frame.blocked, frame.history);
    }

    method HandleResponse(ok: bool)
      requires Valid()
      modifies host, score, bucket, `rec, `closed, `open, `sent, `tier, `promised, `scoreLog, `lastIgnoredSignal,
        `invalidFrames, `blockedUntil, `verifying, `left, `saved, `trace, `lastChallengeAttempt, `strikes,
        `cooldownUntil, `bucket, `epoch, `fromZero, `passed, `blocks
      ensures Valid() && (bucket == old(bucket) || fresh(bucket))
      ensures old(Pending(rec)) && 1_000 <= old(host.now - lastChallengeAttempt) ==> closed || (Pending(rec) ==> !ok)
    {
      hide Valid, S.Follows, SentSince, SavedSince, M.Lawful;
      var _ := ChallengeResponse(ok);
      assert Core(rec).Some? ==> Core(rec).value.challengePending == rec.value.challengePending;
    }

    method HandleMidnight(next: Day.Room, created: Option<Named>)
      requires Valid()
      modifies host, score, bucket, `rec, `closed, `open, `sent, `tier, `promised, `scoreLog, `lastIgnoredSignal,
        `invalidFrames, `blockedUntil, `verifying, `left, `saved, `trace, `rolledAt, `replies, `decided, `recentOwn,
        `passed, `lastChallengeSent
      ensures Valid()
      ensures old(rec.Some? && !closed) && created.Some? ==>
                closed || (rec.Some? && rec.value.sid == created.value.sid)
    {
      hide Valid, SentSince, S.Value, Unused;
      Rollover(next, created);
    }

    // ----- What it means to be valid -----

    /** Of the sends that ever got past the bucket, the i-th to the j-th number at most ten for each challenge
        passed in between, ten more, and one for every second between them. */
    lemma SendsArePaced(i: nat, j: nat)
      requires Valid() && i <= j < |sends|
      ensures (j - i + 1) as real
              <= 10.0 * (sends[j].epoch - sends[i].epoch + 1) as real + Seconds(sends[j].at - sends[i].at)
    {
    }

    /** Where the calendar shows no two rooms under one id, whatever this connection saved of a session is kept
        until the very end of the session's room. */
    lemma SavedToTheEnd(i: nat, t: int)
      requires Valid() && i < |saved| && 0 <= t && saved[i].rec.roomId == host.calendar.RoomAt(t).roomId
      requires forall u: int, v: int ::
               0 <= u && 0 <= v && host.calendar.RoomAt(u).roomId == host.calendar.RoomAt(v).roomId ==>
                 host.calendar.RoomAt(u) == host.calendar.RoomAt(v)
      ensures saved[i].room.endsAt == host.calendar.RoomAt(t).endsAt
    {
      hide GateInv, RepliesInv, M.Reflects;
      assert saved[i] in saved;
    }

    /** The bucket has its tier's limits, and the tier is no looser than the live score warrants. */
    lemma TierIsTight()
      requires Valid()
      ensures bucket.capacity == tier.capacity && bucket.refillPerSec == tier.refillPerSec
      ensures S.SEVERE <= S.Value(score.View(), host.now, score.decay) ==> tier == RESTRICTED
      ensures S.THROTTLE <= S.Value(score.View(), host.now, score.decay) ==> tier != NORMAL
    {
      hide S.Value, S.HalfLife;
    }

    /** The history of a connection whose renewals overlap none of its frames is lawful, so what is proved of every
        lawful trace holds of it: no acknowledgement while a challenge is pending, a block after the third failure,
        longer and longer blocks. */
    lemma HistoryIsLawful()
      requires Valid()
      ensures M.Lawful(trace) && Pending(rec) == M.Pending(trace)
      ensures rec.Some? ==> rec.value.challengeFails == M.Fails(trace) && rec.value.blocks == M.Blocks(trace)
    {
      hide GateInv, RepliesInv, M.Lawful;
    }

    /** The first send after a cooldown passes the bucket, if the tier has not changed since. */
    lemma CooldownIsEnough(t: int)
      requires Valid() && promised && cooldownUntil <= t && host.now <= t
      ensures Taken(bucket.View(), t, 1.0).1 == 0
    {
      hide S.HalfLife, S.Value, Taken;
      PromiseHolds(bucket.View(), cooldownUntil, t);
    }
  }
}
