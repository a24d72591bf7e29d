# A verified model of the daily chat room's backend

The backend keeps one chat room per calendar day. Several server instances share a store and a bus; every
connection has an anonymous session of the day, and at local midnight everybody gets a new one. This
project models that backend in Dafny and proves what it promises, for all inputs and all runs.
`dafny verify dfyconfig.toml` checks it.

- `RateLimit`, `Suspicion`, `TrustWindow` (with `Reals`): the token bucket with its cooldowns; the decaying suspicion
  score and the detector of machine-regular cadence. Classes over reals, proved against functions, with bounds over
  whole runs.
- `Day`: from an instant to its room, for an arbitrary time zone given as an offset function.
- `Utf16`, `Validate`, `NormalForm`, `Passes` (with `Positions`): text normalisation over UTF-16 code units, the normal
  form it reaches, and what each pass keeps, by positions.
- `Store`, `StoreRuns`, `StoreExact`, `Sessions`: the lazily expiring store as a class, the eagerly expiring maps it
  refines, what each answer is in terms of the calls before it, and the session service with other callers' calls during
  each of its awaits.
- `Pipeline`, `Machine`, `Connection` (module `Gateway`): one connection as a class. Its frames are handled one after
  the other; what the store, the bus and the verifier answer comes with a frame and may be anything; at every await
  the clock, the room, other frames' floods, kicks, closes, saves and pending verifications may move on. `Pipeline`
  holds the invariants of its values, `Machine` the laws of its challenge history.
- `Lives`: the pacing and the score of a connection as a step system with a step between any two awaits, renewals
  included, over the functions that `Pipeline` and the class share.
- `RoomServer` (module `Rooms`): the coalescing flush over the connections of one instance.
- `Cluster`, `ClusterFanOut`, `ClusterSafety`, `ClusterTheorems`, `ClusterDelivery`, `ClusterRenewals`, `ClusterRuns`: N
  instances as a step system with a step boundary at every await, its invariants, the theorems about every run, and
  runs that show the limits.
- `Together`: the cleanups of the cluster and the saves of connections as calls of the sessions' store.

Time is in whole milliseconds; tokens and scores are reals. The clock never goes back;
`RateLimit.ClockGoingBackOverspends` and `StoreRuns.ClockGoingBack` show why. The half-life is any function with
the laws of an exponential (`Suspicion.HalfLife`), as halving every four minutes is. Random ids, the verifier's
answers and the counts other instances produce are arbitrary values; names, tokens and session ids are fresh where
the store says so. Instances receive the bus in its order, each at its own pace.

What the proofs found:

- The repository's own documentation (README.md:195) says that no message is stamped into the wrong day. The code
  reads the room again after the awaits of `decide`, and `ClusterRuns.SendStraddlesMidnight` is a run that stamps one.
  `ClusterTheorems.StampedExactly` gives the exact condition.
- A join that is waiting for the store at midnight can miss the rollover's snapshot (`ClusterRuns.JoinMissesRollover`;
  `ClusterTheorems.SessionsAreCurrent` says exactly when), and one whose connection closes meanwhile leaves the joined
  count too high (`ClusterRuns.LateJoinOvercounts`; `ClusterTheorems.CountIsExact`).
- The repository's own documentation (README.md:199) says that a pending challenge survives the daily change of
  identity. A renewal that overlaps a frame can forget a challenge issued meanwhile (`ClusterRuns.ChallengeIsForgotten`;
  a send is accepted unverified once the score has decayed) or bring back one passed meanwhile
  (`ClusterRuns.PassIsForgotten`). `ClusterTheorems.PendingSurvivesExactly` gives the exact condition.
- Escalation is judged at the instant the frame began, so after a long wait two signals are enough: a regular cadence
  with a failed verification, once the wait is about 115 seconds and the verification took as long; or, with a verifier
  that gives up after five seconds as the source's own does (src/abuse/challenge.ts:27), a cadence with a binary frame
  after about 207. `Suspicion.ThreeSignalsExactly` gives the exact condition for any verifier.
- In the trust window, where points count half and only a severe score escalates, a send judged without a wait needs
  eleven signals (`Lives.EveryTrustedEscalation`). Trust is lost at midnight, so this is about one record.
- Some zones change their clocks in a way that the search for midnight does not survive. `Day.MidnightExactly` says which:
  a change that skips or repeats midnight, one at midnight forward behind UTC, and one back to midnight on or ahead of
  UTC. Other changes at midnight do no harm, and `Day.RoomsTileExactly` says the same of the rooms. In the years 1 to 99
  every room starts too late (`Day.TwoDigitYears`).
- A client id that was acknowledged is acknowledged again while a challenge is pending, since replays are answered
  before anything is decided; `Machine.NoAckWhilePending` is about decisions.
- When publishing fails after the append, the sender is told `invalid` although the message is in the history.

## Model

| member | source | states |
|---|---|---|
| `RateLimit.TokenBucket.Take` | src/abuse/rate-limit.ts:28-35 | The bucket and the announced wait are those of one refill followed by a grant or a refusal. |
| `RateLimit.TokenBucket.Reconfigure` | src/abuse/rate-limit.ts:14-19 | New limits take effect after a refill at the old rate, and never add tokens. |
| `RateLimit.RefillComposes` | src/abuse/rate-limit.ts:21-25 | Refilling in two steps is refilling once; waiting never loses tokens and gains at most the rate. |
| `RateLimit.HintExact` | src/abuse/rate-limit.ts:28-35 | After a refusal the cost is available at `t` if and only if `t` is at or after the announced millisecond. |
| `RateLimit.GrantsExactly` | src/abuse/rate-limit.ts:21-36 | A request is granted if and only if it fits the capacity and the tokens left with those arrived since, at the bucket's rate. |
| `RateLimit.GrantCosts` | src/abuse/rate-limit.ts:28-33 | A grant costs what was asked: whatever can be had right after it could have been had together with it, and nothing else. |
| `RateLimit.RefusalIsFree` | src/abuse/rate-limit.ts:28-35 | A refusal changes the answer to no later request. |
| `RateLimit.ReconfiguredGrants` | src/abuse/rate-limit.ts:14-19 | New limits take no tokens but those above the new capacity: what fits into it is granted as before. |
| `RateLimit.RetryHint` | src/abuse/rate-limit.ts:21-36 | The hint is sound and tight: however many refused requests intervene, a request succeeds exactly from now + hint on. |
| `RateLimit.Potential` | src/abuse/rate-limit.ts:14-36 | What a run of requests, reconfigurations and replacements grants is paid by the starting level, the elapsed time and the replacements. |
| `RateLimit.WindowBound` | src/abuse/rate-limit.ts:14-36 | At most C(k+1) + R T unit requests pass in any window of T seconds, for capacities up to C, rates up to R and k replaced buckets. |
| `RateLimit.ClockGoingBackOverspends` | src/abuse/rate-limit.ts:21-25 | The bound needs a clock that does not go back: an alternating clock is granted a token again and again. |
| `RateLimit.CooldownLadder` | src/abuse/rate-limit.ts:53-57 | The announced cooldowns: none twice, then 2, 4, 8, 16, 32 seconds, then a minute for ever. |
| `RateLimit.FirstSendAfterCooldown` | src/gateway/connection.ts:409-414 | With unchanged limits the first request after the cooldown passes the bucket. |
| `Suspicion.SuspicionScore.Add` | src/abuse/suspicion.ts:56-61 | The score becomes its live value plus the (possibly halved) points, clamped to 0..150 and dated now. |
| `Suspicion.AddsExactly` | src/abuse/suspicion.ts:56-61 | Points raise the live value by just themselves, or by half of them under trust, if the maximum allows. |
| `Suspicion.SuspicionScore.Snapshot` | src/abuse/suspicion.ts:68-70 | The saved value is the live one to the nearest tenth, dated now. |
| `Suspicion.ScoreBound` | src/abuse/suspicion.ts:50-66 | The live score never exceeds the half-life-decayed, trust-weighted sum of the signals since the last reset. |
| `Suspicion.ScoreIsSum` | src/abuse/suspicion.ts:50-61 | As long as no signal finds less than half a point or passes the maximum, the live score is exactly that sum, down to half a point. |
| `Suspicion.SumCounts` | src/abuse/suspicion.ts:7-29 | That sum is at most 25 points a signal, 12.5 when every signal was counted at half weight. |
| `Suspicion.EscalationAtStaleClock` | src/gateway/connection.ts:464-476 | What an escalation, judged at an instant older than the last signal, says about their number. |
| `Suspicion.EscalationNeedsSignals` | src/gateway/connection.ts:464-476 | From zero, no escalation with fewer than three signals; with fewer than eight when all fell in the trust window. |
| `Suspicion.TwoNeverEscalateEver` | src/gateway/connection.ts:417-445 | With a verifier that may take any time that holds as long as 60 points decay to more than 43. |
| `Suspicion.TwoNeverEscalate` | src/gateway/connection.ts:417-445 | Up to that lag no two signals of one connection escalate, whichever they are and whenever they came. |
| `Suspicion.ThreeSignalsExactly` | src/gateway/connection.ts:417-445 | Over the signals that one connection can have counted when a send that began at `t` is judged `lag` later (the background verification fails at most once and by `t + patience`; after `t` only what can arrive during the wait, the cadence at most once), two signals can escalate if and only if 60 points decay in that time to at most what a cadence and a failed verification, or a cadence and a binary frame, come to. |
| `Suspicion.ThreeSuffice` | src/abuse/suspicion.ts:7-29 | Three do: an automation user agent, a network with many new sessions and a failed verification score 67 at once. |
| `Suspicion.TrustedNeedsTen` | src/gateway/connection.ts:464-476 | In the trust window, judged without a wait, the signals a joined connection can give escalate only from the tenth on. |
| `TrustWindow.TrustedNeedsEleven` | src/gateway/connection.ts:464-476 | Only from the eleventh on, if no five cadences lie within half a minute, as the bucket's pace sees to (`Lives.EveryTrustedEscalation`). |
| `Suspicion.TimingAnalyzer.Record` | src/abuse/suspicion.ts:85-101 | Keeps the last ten gaps and fires exactly when they are full and regular. |
| `Suspicion.FiringIsRegular` | src/abuse/suspicion.ts:91-99 | When it fires, all ten gaps satisfy (gap - mean)^2 < 0.064 max(1, mean)^2 and the mean is at most 20 seconds. |
| `Suspicion.FiresExactly` | src/abuse/suspicion.ts:91-99 | The analyzer fires if and only if its ten gaps average at most twenty seconds and deviate, in the root mean square, by less than eight per cent of that. |
| `Suspicion.GapsExactly` | src/abuse/suspicion.ts:85-91 | Until it fires, its gaps are those between the last records, at most ten, in their order. |
| `Suspicion.EqualGapsFire` | src/abuse/suspicion.ts:85-101 | Ten equal gaps of at most 20 seconds always fire. |
| `Suspicion.FiringsApart` | src/abuse/suspicion.ts:97 | Two firings are at least ten records apart in every run. |
| `Day.DateRoundTrip` | src/room/day.ts:48 | Day number to date and back, as sections 21.4.1.3 to 21.4.1.12 of ECMA-262 define them, across leap years and month overflow. |
| `Day.RoomIdInjective` | src/room/day.ts:61-64 | Different dates have different room ids. |
| `Day.OffsetAtExact` | src/room/day.ts:46-50 | Reading the formatter's parts as UTC recovers the zone's offset. |
| `Day.MidnightExactly` | src/room/day.ts:53-59 | Where the clocks change at most once within a day of a midnight, the search finds the start of the local date if and only if the change is harmless: it neither skips nor repeats that midnight, and at midnight itself it is not forward behind UTC nor back to midnight on or ahead of UTC. |
| `Day.MidnightExact` | src/room/day.ts:53-59 | The two-step search finds a midnight around which the offset is constant. |
| `Day.MidnightSeparates` | src/room/day.ts:53-59 | Such a midnight is where the local date begins: every earlier instant has an earlier date, every later one that date or a later one. |
| `Day.RoomAtMeaning` | src/room/day.ts:75-83 | A room is its local date, its day number since the epoch, and the midnights on both sides. |
| `Day.RoomsTile` | src/room/day.ts:75-83 | From any day on, in every zone in which the search finds the start of each day and no day is skipped, rooms tile time: an instant lies in its room, exactly the instants of that interval get that very room, the next room starts at its end with the next day number, and rooms only move forward. |
| `Day.TilingIsExact` | src/room/day.ts:53-83 | Conversely, where rooms tile time from a day on, the search is right about every day from the fourth on. |
| `Day.RoomsTileExactly` | src/room/day.ts:53-83 | In zones whose clocks change at most once within a day of each midnight, rooms tile time if every change is harmless, and only if every change from the fourth day on is. |
| `Day.OneChangeExactly` | src/room/day.ts:53-59 | A zone that changes its offset once: right about all midnights if and only if the change is harmless at all of them. |
| `Day.StableMidnightsAreExact` | src/room/day.ts:56-57 | Zones whose offset is constant around every midnight are right about all of them, so their rooms tile time. |
| `Day.HarmlessChanges` | src/room/day.ts:56-57 | Harmless are changes within a local day, forward changes at midnight on or ahead of UTC, and changes back to midnight behind UTC. |
| `Day.HarmfulChanges` | src/room/day.ts:53-59 | One failing input of each other kind: a midnight that is skipped, one that is repeated, a forward change at midnight behind UTC and a change back to midnight ahead of UTC. |
| `Day.TwoDigitYears` | src/room/day.ts:48 | In the years 1 to 99 Date.UTC adds 1900 and, in every zone, the room starts after its instant. |
| `Utf16.RemoveLoneSurrogatesIsRight` | src/messaging/validate.ts:43 | Lone-surrogate removal makes any code units well-formed UTF-16 (section 3.9 of the Unicode Standard) and leaves exactly the well-formed ones as they are. |
| `Utf16.RemovalKeepsCharacters` | src/messaging/validate.ts:43 | Of any text, ill-formed ones included, exactly the characters that are no lone surrogates survive, in their order. |
| `Utf16.ReadingIsLossless` | src/messaging/validate.ts:66-68 | Reading a well-formed string by code points loses nothing, so the counting loop counts characters. |
| `Validate.NormalizeText` | src/messaging/validate.ts:39-70 | The stages in order compute the specified result, with its two rejections; what that is, stage by stage, is `Passes.NormalizedInStages`. |
| `Passes.NormalizedInStages` | src/messaging/validate.ts:39-70 | For every input, the chain of texts between the passes, each read off the one before by positions: which positions are left out and what the others read as; and the verdict on the last text. |
| `Passes.NewlinesByPosition` | src/messaging/validate.ts:45 | Exactly the line feeds that follow a carriage return are left out, in place; elsewhere a carriage return reads as a line feed and any other unit as itself. |
| `Passes.CollapseKeep` | src/messaging/validate.ts:56 | Of a run of newlines exactly the third and those after it are left out, and everything else stays. |
| `Passes.TrimmedLinesKeepNeeded` | src/messaging/validate.ts:52-55 | Exactly the white space with nothing else after it in its line is left out. |
| `Passes.FoldKeep` | src/messaging/validate.ts:60-63 | From the line on that is the last allowed, newlines read as spaces; everything else stays. |
| `Validate.Exceeds` | src/messaging/validate.ts:67-68 | The counting loop stops early exactly when there are more than maxLength code points. |
| `NormalForm.CapMarksGood` | src/messaging/validate.ts:49 | Capping leaves no run of four combining marks and keeps the text well-formed. |
| `NormalForm.CapMarksKeepsThree` | src/messaging/validate.ts:49 | Exactly the marks that stand right after three marks are dropped, and every other character stays, in order. |
| `NormalForm.CollapseIsRight` | src/messaging/validate.ts:56 | Collapsing blank lines leaves no three newlines in a row and every line trimmed. |
| `NormalForm.FoldIsRight` | src/messaging/validate.ts:60-63 | Folding leaves at most maxLines lines and otherwise turns newlines into spaces. |
| `NormalForm.AcceptedIsNormal` | src/messaging/validate.ts:39-70 | Every accepted text is in normal form: clean characters, no mark flood, no triple newline, trimmed lines, within both limits, something visible. |
| `NormalForm.NormalIsFixed` | src/messaging/validate.ts:39-70 | A text that form C fixes is accepted unchanged if and only if it is in normal form; so normalising twice is normalising once. |
| `Store.MemoryStore.Read` | src/store/memory.ts:22-30 | A read of an expired entry deletes it and finds nothing. |
| `Store.MemoryStore.ClaimName` | src/store/memory.ts:42-47 | The call does what the specification's step does and logs it; `StoreExact.NamesExactly` says what it answers. |
| `Store.MemoryStore.AppendMessage` | src/store/memory.ts:65-73 | Starts a new list over an expired one, keeps the last messages, and prolongs the list's life. |
| `Store.MemoryStore.RecentMessages` | src/store/memory.ts:74-78 | The last messages of a live list. |
| `Store.MemoryStore.DeleteNames` | src/store/memory.ts:81 | The loop deletes exactly the names of the room. |
| `Store.MemoryStore.Hit` | src/store/memory.ts:84-90 | Counts in the fixed window of the instant. |
| `Store.MemoryStore.AcquireOnce` | src/store/memory.ts:139-144 | A lock is taken exactly when it is free. |
| `Store.StepAgrees` | src/store/memory.ts:13-150 | One call on the lazily expiring maps answers as on maps that expire at once, and they stay in step. |
| `Store.LazyRefinesEager` | src/store/memory.ts:22-33 | In every run under a clock that does not go back, every call gets the same answer from the lazy and the eager store; history is the last messages since the list began. |
| `StoreExact.NamesExactly` | src/store/memory.ts:42-50 | A claim is granted if and only if no granted claim of the name is alive and its room undeleted since; a name has exactly the owner that holds it. |
| `StoreExact.LocksExactly` | src/store/memory.ts:139-144 | A lock is granted if and only if the life of every grant before is over. |
| `StoreExact.SessionsExactly` | src/store/memory.ts:51-57 | A session reads exactly as it was last saved, until that save expires. |
| `StoreExact.TokensExactly` | src/store/memory.ts:58-63 | A token resolves exactly to the session it was last given to, until that expires. |
| `StoreExact.BlocksExactly` | src/store/memory.ts:99-109 | A block tells exactly what is left of the time it was last set for, and nothing after it was deleted. |
| `StoreExact.SetsExactly` | src/store/memory.ts:91-98 | A set answers how many different members it has, where every addition prolongs the life of all. |
| `StoreExact.HistoriesExactly` | src/store/memory.ts:65-81 | A history shows the last messages appended since it last expired or was deleted, in order, as many as asked for and kept. |
| `StoreRuns.EntryKept` | src/store/memory.ts:22-33 | A live entry stays until it expires, unless a call overwrites it. |
| `StoreRuns.NameClaimedOnce` | src/store/memory.ts:42-47 | While a claimed name is live every other claim of it in that room is refused. |
| `StoreRuns.LockedOnce` | src/store/memory.ts:139-144 | Two callers that get the same lock are at least its life apart. |
| `StoreRuns.HitIsWindowSum` | src/store/memory.ts:84-90 | A hit answers exactly its window's running sum. |
| `StoreRuns.AtMostTwiceTheLimit` | src/store/memory.ts:84-90 | Any interval one window long lets at most twice the limit through. |
| `StoreRuns.ClockGoingBack` | src/store/memory.ts:22-30 | With a clock that goes back the two stores differ. |
| `Sessions.SessionService.Create` | src/identity/sessions.ts:25-51 | Creates a session under a name it claimed, or was refused all ten candidates, whatever others do meanwhile. |
| `Sessions.SessionService.Resume` | src/identity/sessions.ts:54-61 | Answers with the record the token leads to, if it is of the room, and with none otherwise; an empty or overlong token is not even looked up. |
| `Sessions.NamesAreUnique` | src/identity/sessions.ts:29-33 | Two sessions created for the same room before its end never share a name, if nobody deletes the room's keys before its end. |
| `Together.CleanupsKeepRooms` | src/gateway/room-server.ts:348-364 | Nobody does: the deletions that a run of the cluster makes come after the room's end. |
| `Together.NamesAreUniqueInTheCluster` | src/identity/sessions.ts:29-33 | So in every run of the cluster two sessions created for the same room before its end never share a name. |
| `Sessions.TokenResumes` | src/identity/sessions.ts:54-61 | Until the room's end a token resumes to its session's sid and name, and to nothing for any other room, if saves keep sid, name, room and life. |
| `Together.SavesRespect` | src/gateway/connection.ts:618-622 | They do: what connections save of the session keeps its identity and lasts until its room's end. |
| `Together.TokenResumesForConnections` | src/identity/sessions.ts:54-61 | So a token resumes to its session until the room's end, whatever connections save meanwhile. |
| `Pipeline.ReplayFinds` | src/gateway/connection.ts:356-358 | A client id replayed before 64 newer ones are decided finds the reply it got. |
| `Pipeline.Remember` | src/gateway/connection.ts:361-362 | The reply map holds exactly the last, at most 64, decisions in order. |
| `Pipeline.WindowGranted` | src/gateway/connection.ts:409 | A granted send keeps the bound on every pair of sends. |
| `Pipeline.GateSignalled` | src/gateway/connection.ts:228-244 | A signal keeps bucket, tier, window, cooldown promise and score log consistent. |
| `Pipeline.GateCleared` | src/gateway/connection.ts:515-520 | So does a passed challenge, even dated before the verification, at the price of ten more sends. |
| `Pipeline.GateJoined` | src/gateway/connection.ts:288-297 | So does joining, and the score is not below the stored one. |
| `Pipeline.EscalationCounts` | src/gateway/connection.ts:464-476 | An escalation of a connection whose score came from zero needs three signals unless the wait let 60 points decay to 43, and ten within the trust window if there was no wait. |
| `Pipeline.EvenSendsFire` | src/gateway/connection.ts:409-431 | A client that sends evenly, a tenth of a second to twenty seconds apart, does not meet the rate limit, and the cadence fires at its eleventh send and not before, so it can be the only signal of a send. |
| `Machine.NoAckWhilePending` | src/gateway/connection.ts:388-391 | In a lawful history, once a challenge is pending no send is acknowledged before a verification succeeds, also across renewals that take the pending state over; and every acknowledged send scored below 90. What renewals that overlap a frame do is `ClusterTheorems.NoneAcceptedUnverified`. |
| `Machine.ThirdFailureBlocks` | src/gateway/connection.ts:526-530 | The third failure since the last pass, and every later one, is followed at once by a block. |
| `Machine.BlocksEscalate` | src/gateway/connection.ts:538-540 | On one record the block count only grows, with 10 minutes, then an hour, then the rest of the day. |
| `Gateway.Connection.constructor` | src/gateway/connection.ts:73-96 | A new connection satisfies the invariant with all its counters, instants and lists empty, and its log is exactly the signals of its handshake. |
| `Gateway.Connection.Signal` | src/gateway/connection.ts:228-234 | Adds the points, halved within the trust window, and brings the tier to what the score warrants. |
| `Gateway.Connection.ApplyTier` | src/gateway/connection.ts:236-244 | The tier and the bucket's limits change together. |
| `Gateway.Connection.Invalidate` | src/gateway/connection.ts:214-220 | Counts the frame and its signal, tells the client, and disconnects from the fifth one on. |
| `Gateway.Connection.BlockedFor` | src/gateway/connection.ts:559-568 | Tells the client, disconnects, and remembers until when. |
| `Gateway.Connection.Snapshot` | src/gateway/connection.ts:618-622 | A record of the current room, and no other, is saved until that room's end, with the suspicion refreshed and nothing else changed. |
| `Gateway.Connection.OnClose` | src/gateway/connection.ts:148-155 | The first close saves the session as `Snapshot` does; later ones do nothing. |
| `Gateway.Connection.Overflow` | src/gateway/connection.ts:166-174 | A frame beyond the queue's limit is a signal, at most one every 250 milliseconds. |
| `Gateway.Connection.Verified` | src/gateway/connection.ts:318-322 | At most one verification is under way; success takes 15 points off and leaves tier and bucket alone, failure is a 25-point signal with its tier. |
| `Gateway.Connection.Await` | src/gateway/connection.ts:159-187 | Whatever may run while a frame waits, other than a renewal of this very connection, keeps the invariant and the record's identity and challenge state; the score moves by exactly what is logged; what is saved is the session in use. |
| `Gateway.Connection.SendChallenge` | src/gateway/connection.ts:495-501 | Sends a challenge only with a provider, and unforced at most every five seconds. |
| `Gateway.Connection.StartChallenge` | src/gateway/connection.ts:482-493 | A challenge is pending afterwards, issued once, saved with the session and sent to the client. |
| `Gateway.Connection.TempBlock` | src/gateway/connection.ts:535-556 | Counts the block, blocks the session for the time its number says, and the network as well from the second block on or if the score, when the store had taken the session's block, was severe; and disconnects. |
| `Gateway.Connection.Punish` | src/gateway/connection.ts:541-549 | The session is blocked for its time, and the network exactly from the second block on or at a severe score, a quarter of an hour a block up to a day. |
| `Gateway.Connection.Escalate` | src/gateway/connection.ts:464-478 | Stops a session exactly when its score warrants it; with enough signals behind it; and only by a pending challenge or a block. |
| `Gateway.StopsExactly` | src/gateway/connection.ts:464-478 | It takes sixty points where a challenge can be asked for and trust has not been earned, and ninety otherwise. |
| `Gateway.Connection.Take` | src/gateway/connection.ts:409 | Takes one token; never refused while a cooldown's promise stands. |
| `Gateway.Connection.Cool` | src/gateway/connection.ts:411-414 | Strikes are forgotten after a minute; the cooldown covers the hint and the ladder. |
| `Gateway.Connection.Strike` | src/gateway/connection.ts:410-414 | After a violation the first request after the cooldown is promised to pass. |
| `Gateway.Connection.Limit` | src/gateway/connection.ts:398-420 | Grants exactly one send if and only if no cooldown runs and the bucket has a token; otherwise strikes, cooldown, the signal and the answer are exactly the specified ones. |
| `Gateway.Connection.Refuse` | src/gateway/connection.ts:401-419 | The signal is counted, and the answer is an escalation if and only if the score it leads to calls for one, and otherwise the rest of the cooldown. |
| `Gateway.Connection.Observe` | src/gateway/connection.ts:422-442 | Whatever the store says of the network and the text: more than 80 sends make the flood the only signal; otherwise exactly the right behavioural signals are counted, in order, and cadence and text are recorded. |
| `Gateway.Connection.Weigh` | src/gateway/connection.ts:433-442 | The behavioural signals, exactly: the text of others counts if and only if it has at least 12 characters and at least four sessions sent it. |
| `Gateway.Connection.Own` | src/gateway/connection.ts:434-437 | Finds a duplicate exactly if the same fingerprint was sent within the minute among the last eight. |
| `Gateway.OwnExactly` | src/gateway/connection.ts:434-437 | Of the own messages those of the last minute stay, in order, without the first if there are more than eight, and the new one is last. |
| `Gateway.Connection.Accept` | src/gateway/connection.ts:448-461 | Whatever the store and the bus answer: one append and one publication under one room with the author's name, country and sid, as far as they succeed; an acknowledgement if both do, and `invalid` otherwise. |
| `Gateway.Connection.Bar` | src/gateway/connection.ts:377-396 | The checks before the rate limit give the specified answer, in their order; a send past midnight starts the switch of the room, unless one is in flight; a pending challenge is shown again, at most every five seconds. |
| `Gateway.Connection.BarredExactly` | src/gateway/connection.ts:377-396 | A send goes on if and only if clock, client and record agree on the room, no block runs, no challenge is pending and the text is accepted; otherwise the first that fails is the reason. |
| `Gateway.Connection.Decide` | src/gateway/connection.ts:372-461 | For every answer of the store and the bus, the reply of every send: the bar's, the rate limit's, `rate_limited` with five seconds from the 81st message of the network on, an escalation if and only if the score with this send's signals counted calls for one, an acknowledgement if the message is kept and handed out, and `invalid` otherwise; with the signals noted, cadence and text recorded, tokens spent and messages posted in each case. |
| `Gateway.Connection.HandleSend` | src/gateway/connection.ts:349-365 | A remembered client id gets the identical reply and nothing else happens; any other is decided, with its own text and day, remembered and answered; before joining it is rejected. |
| `Gateway.Connection.Clear` | src/gateway/connection.ts:512-520 | A passed verification resets score, strikes, cooldown, tier and bucket and grants trust. |
| `Gateway.Connection.ChallengeResponse` | src/gateway/connection.ts:503-531 | At most one verification a second while a challenge is pending: it passes if and only if the verifier says so, and as the third failure it blocks; the score starts over at a pass; the client is told and the session saved; it goes unheard only if the connection closed. |
| `Gateway.Connection.Commit` | src/gateway/connection.ts:288-298 | The session is in use, the score is raised exactly to the stored one if that is higher, and the tier is that of the score. |
| `Gateway.Connection.Resolve` | src/gateway/connection.ts:253-283 | What at most two attempts come to, the second only after a switch, for the new room and without the token; with the signals of both. |
| `Gateway.Connection.Attempt` | src/gateway/connection.ts:254-278 | For every answer of the store: exactly the stored session whenever the token names one of the room, with that token; a new one only otherwise; none if the network brings more than three times its share or no name is free. |
| `Gateway.Connection.NewSession` | src/identity/sessions.ts:35-48 | A new record, whenever a name was free, carries the suspicion and the pending challenge, the connection's country and address hash, and no trust, failures or blocks. |
| `Gateway.Connection.Join` | src/gateway/connection.ts:248-325 | For every answer of the store: a joined connection does nothing; a session that was found is held if and only if its block has time left, and told; otherwise it is in use, just as found, with its suspicion, dated by the start of the join, and the client has the welcome with the day's history and the token, and the challenge if one is pending; a join stops only if no session was found or the connection closed. |
| `Gateway.Connection.Verify` | src/gateway/connection.ts:315-323 | A join without a token for the verifier is a signal, and one with a token starts the only verification this connection will have. |
| `Gateway.Connection.Rollover` | src/gateway/connection.ts:328-345 | When no frame of the connection runs meanwhile: unless it closes, it holds the created session in the next room with suspicion and pending challenge carried over, and the client is told; if none could be created it is dropped. |
| `Gateway.Connection.Live` | src/gateway/connection.ts:189-212 | Any frames and midnights, one after the other in any order, with anything else happening in between, keep the invariant. |
| `Gateway.Connection.Handle` | src/gateway/connection.ts:189-212 | Each frame goes to the handler of its kind; a closed connection's frames do nothing. |
| `Gateway.Connection.SendsArePaced` | src/gateway/connection.ts:409 | Any two sends past the bucket are as far apart as 10(k+1) + T allows, with k challenges passed in between. (`Lives.EveryLife` has renewals overlap frames.) |
| `Gateway.Connection.TierIsTight` | src/gateway/connection.ts:236-244 | At every moment the bucket has its tier's limits and the tier is no looser than the live score warrants. (Likewise.) |
| `Gateway.Connection.HistoryIsLawful` | src/gateway/connection.ts:480-556 | As long as no renewal overlaps a frame, the record of a connection is what its lawful challenge history says, so the machine's laws hold of it. |
| `Gateway.Connection.SavedToTheEnd` | src/gateway/connection.ts:618-622 | Where the calendar shows no two rooms under one id, everything a connection ever saves of a session is kept until the end of that session's room. |
| `Gateway.Connection.CooldownIsEnough` | src/gateway/connection.ts:398-419 | The first send after a cooldown passes the bucket if the tier has not changed. (Likewise.) |
| `Lives.EveryLife` | src/gateway/connection.ts:398-419 | The three at every moment of every life of a connection, with renewals between any two steps of a frame. |
| `Lives.TierIsEarned` | src/gateway/connection.ts:236-244 | The tier is always one that the score called for at some instant of the life. |
| `Lives.JudgedCallsFor` | src/gateway/connection.ts:236-244 | Whenever it is chosen it is the one for that score: 2 messages and one in ten seconds from 90 on, 5 and 0.33 a second from 30 on, 10 and one a second below. |
| `Lives.EveryEscalation` | src/gateway/connection.ts:464-476 | In every such life, as long as the score comes from zero, an escalation has as many signals behind it as its lag and trust demand. |
| `Lives.EveryTrustedEscalation` | src/gateway/connection.ts:464-476 | In every such life a send that is judged without a wait in the trust window of the challenge that reset the score needs eleven signals to escalate. |
| `Rooms.NothingExcluded` | src/gateway/room-server.ts:279-287 | A client that sent nothing of the batch is due all of it. |
| `Rooms.FrameByPosition` | src/gateway/room-server.ts:270-289 | The frame of a client holds, in the order of the outbox, exactly the messages of the room that are not its own. |
| `Rooms.RoomServer.OnBus` | src/gateway/room-server.ts:249-266 | Events of another room are dropped, others wait with a flush scheduled; a kick tells exactly the sessions it names that they are blocked, disconnects them and keeps them out for a minute. |
| `Rooms.RoomServer.FlushOutbox` | src/gateway/room-server.ts:268-297 | Every open connection joined to the room gets, in one frame, the messages at exactly those positions of the outbox whose event has the room's id and is not its own, in order: `message` for one, `messages` for more, no frame for none; nobody else gets anything. |
| `ClusterFanOut.SettledExpected` | src/gateway/room-server.ts:268-297 | A flush adds to what a connection should have exactly its part of the outbox. |
| `ClusterFanOut.ActKeepsFanOut` | src/gateway/room-server.ts:249-297 | Every step of an instance keeps the fan-out invariant. |
| `ClusterSafety.ZoneTiles` | src/room/day.ts:75-83 | The calendar of any zone in which the search finds every midnight meets the hypothesis of the cluster's theorems. |
| `ClusterSafety.SwitchGoesForward` | src/gateway/room-server.ts:339-347 | A switch goes to a later day. |
| `ClusterSafety.ActKeepsRoll` | src/gateway/room-server.ts:367-380 | Every step keeps what a rollover has achieved so far. |
| `ClusterSafety.ActKeepsStamps` | src/gateway/connection.ts:372-384 | Every step keeps what a waiting `decide` knows. |
| `ClusterSafety.ActKeepsCount` | src/gateway/room-server.ts:231-238 | Every step keeps the count, late joins apart. |
| `ClusterSafety.ActKeepsCurrent` | src/gateway/room-server.ts:367-380 | Every step keeps the link between sessions and the current room. |
| `ClusterSafety.StepKeepsLocks` | src/gateway/room-server.ts:357-362 | Every step keeps old rooms' cleanups a lock's life apart. |
| `ClusterSafety.StepKeeps` | src/gateway/room-server.ts:249-381 | Every step of every instance keeps the whole invariant of every instance. |
| `ClusterSafety.RunKeeps` | src/gateway/room-server.ts:249-381 | The invariant holds in every state of every run. |
| `ClusterTheorems.FanOutExactlyOnce` | src/gateway/room-server.ts:249-297 | What an open connection has received is, in bus order and without repeats, exactly the delivered events whose room was, at their flush, that of the instance and of its record, and that were not its own. |
| `ClusterDelivery.DeliveredExactly` | src/gateway/room-server.ts:249-297 | A delivered event is dropped if and only if it is of another room than the instance; otherwise a flush is coming or has served it; and it reaches an open connection if and only if that flush found the instance and the connection in its room and the connection is not its sender. |
| `ClusterDelivery.ScheduledExactly` | src/gateway/room-server.ts:256-269 | A flush is scheduled if and only if something waits for it. |
| `ClusterDelivery.EventsArePublished` | src/gateway/connection.ts:450-453 | Every event on the bus was published by a connection, which it excludes, after that connection had appended the message to the room the event names. |
| `ClusterDelivery.PublishedOnce` | src/gateway/connection.ts:450-453 | No message is published twice. |
| `ClusterDelivery.EventsCanArrive` | src/gateway/room-server.ts:249-297 | From every reachable state an instance can go on so that every event it has not seen reaches exactly the open connections of its room other than the sender. |
| `ClusterTheorems.FateIsFinal` | src/gateway/room-server.ts:249-271 | A waiting event has a flush coming; dropped or flushed is final. |
| `ClusterTheorems.RoomsMoveForward` | src/gateway/room-server.ts:339-353 | An instance's room only moves forward. |
| `ClusterTheorems.OneRolloverAtATime` | src/gateway/room-server.ts:339-347 | Between two switches of an instance a rollover has ended. |
| `ClusterTheorems.LiveIsSnapshot` | src/gateway/room-server.ts:367-368 | The list a rollover works through is every connection joined at its snapshot. |
| `ClusterTheorems.RolloverMissesNone` | src/gateway/room-server.ts:367-380 | When a rollover ends every connection of its snapshot is closed, closing, or holds a record of the new room that did not exist before. |
| `ClusterTheorems.SessionsAreCurrent` | src/gateway/connection.ts:279-294 | Between rollovers an open connection holds a session of the current room, exactly unless its join committed another room's session after the snapshot. |
| `ClusterTheorems.CleanedOnce` | src/gateway/room-server.ts:357-362 | At most one instance cleans a given old room within the lock's life. |
| `ClusterTheorems.CleanedAfterEnd` | src/gateway/room-server.ts:348-364 | No instance cleans a room before its end. |
| `ClusterRenewals.CleaningIsGranted` | src/gateway/room-server.ts:357-362 | Whoever cleans a room has been given its lock. |
| `ClusterRenewals.BatchesAreSmall` | src/gateway/room-server.ts:367-380 | At most 250 connections of an instance are being renewed at a time. |
| `ClusterTheorems.JoiningIsGapFree` | src/gateway/connection.ts:293-312 | Of the messages a joined connection's instance has flushed, each was in the store before the history was read or counts the connection among those it is due to, by its room and its author alone. |
| `ClusterRenewals.JoinsAsChecked` | src/gateway/connection.ts:285-296 | A join takes into use exactly the session that it checked, its challenge included. |
| `ClusterTheorems.PendingSurvivesExactly` | src/gateway/connection.ts:328-345 | When the new record takes over, the pending challenge is as it was just before if and only if it was changed an even number of times since the renewal began. |
| `ClusterTheorems.FlipsCount` | src/gateway/connection.ts:329-338 | Those changes are exactly the issues and the passes on the old record while the new one is awaited. |
| `ClusterTheorems.ChallengeHolds` | src/gateway/connection.ts:480-531 | An issued challenge stays pending, and no send is being decided past it, as long as no verification passes and every renewal of the connection takes over an unchanged record. |
| `ClusterTheorems.NoneAcceptedUnverified` | src/gateway/connection.ts:388-453 | So a send accepted after an issue proves a passed verification or a renewal that overlapped a change. |
| `ClusterRenewals.PassesStayWithTheirRecord` | src/gateway/connection.ts:503-515 | A verification asked for before a renewal and answered after it leaves the new record's challenge alone. |
| `ClusterTheorems.StampedExactly` | src/gateway/connection.ts:378-453 | A message is well stamped if and only if no switch fell between the check of its room and its acceptance; it is published under the room it was appended to. |
| `ClusterTheorems.AlwaysWellStamped` | src/gateway/connection.ts:377-384 | In runs where no switch falls inside `decide`, every message has its timestamp in its room and an author claimed for it. |
| `ClusterTheorems.CountIsExact` | src/gateway/room-server.ts:231-238 | The joined count is the number of joined connections exactly when no join was committed after its close. |
| `ClusterRuns.SendStraddlesMidnight` | src/gateway/connection.ts:448-453 | A run that puts a message into tomorrow's room with yesterday's timestamp. |
| `ClusterRuns.JoinMissesRollover` | src/gateway/connection.ts:279-294 | A run that leaves an open connection with yesterday's session and no rollover to renew it. |
| `ClusterRuns.LateJoinOvercounts` | src/gateway/connection.ts:283-298 | A run after which the joined count is one too high for good. |
| `ClusterRuns.ChallengeIsForgotten` | src/gateway/connection.ts:328-345 | For any wait within the new day, a run in which a challenge issued during the renewal is forgotten, and a send begun after the wait is accepted without a verification. |
| `ClusterRuns.PassIsForgotten` | src/gateway/connection.ts:328-345 | A run in which a challenge passed during the renewal is pending again. |

## Left out

- WebSocket and HTTP handling, heartbeats, idle and join timeouts, slow consumers, the drain at shutdown, routes,
  logging, metrics and configuration: a socket is its output and an open flag.
- The Redis store: its behaviour is that of calls this project cannot see; the in-memory store stands for the interface.
- The challenge verifiers: their answer is arbitrary and may take any time; only `Suspicion.ThreeSignalsExactly` looks at
  how long.
- JSON and event schemas: frames are typed events, and a frame sent out is its list of messages.
- Hashing, random names and tokens: uninterpreted; two tokens have different hashes where a lemma says so.
- Unicode normalisation form C and the tables of marks and visible characters: parameters with the stated laws.
- Time-zone data and the years outside the range of JavaScript dates: an offset function, without a range limit.
- Floating-point rounding of tokens, scores and gaps: reals.
- Presence totals, the abuse log, reports, the ping window, per-network gauges, admission and origin checks.
- Gateway.Connection.Live: midnight does not overlap a frame of the same connection, so a record that is replaced while a
  frame still holds the old one is modelled in `Lives` and in the cluster but not in the class.
- Gateway.Connection.Await: for the same reason it leaves out a renewal of the connection that waits.
- Gateway.Connection.Rollover: for the same reason no frame of the connection runs during its own await.
- Gateway.Connection.HistoryIsLawful: for lives without such an overlap; the cluster's theorems about challenges hold
  with it.
- Day.RoomsTile: nothing is said about the first two days of the year 100 and about dates before the year 1.
- Day.RoomsTileExactly: zones that change their clocks twice within a day of a midnight are covered by `Day.RoomsTile`
  and `Day.TilingIsExact` alone.
- Suspicion.TrustedNeedsTen: looks at the points of signals alone; `Lives.EveryTrustedEscalation` adds the pace of sends
  and needs eleven.
- Lives.EveryTrustedEscalation: whether eleven signals of one connection can come close enough together is left open.
- Gateway.Connection.Join: what the store answers is given with the frame and may be anything; that a resumed or created
  session is the right one is proved for `Sessions`.
- ClusterTheorems.StampedExactly: expiry of claimed names at the end of their room is left to `Store`.
- Instances that start or stop during a run: the cluster has a fixed number of them, all subscribed from the start.
- ClusterTheorems.FanOutExactlyOnce: a connection that is disconnected receives no more; what it has is a prefix.
