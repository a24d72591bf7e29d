/** The challenge and block machine of one connection (src/gateway/connection.ts), seen as the trace of what
    happened to it. */
module Machine {
  import opened Types
  import Suspicion

  /** What happens to a connection's session, in order. */
  datatype Event =
    | Joined(pending: bool, fails: nat, blocks: nat)
    | RolledOver(pending: bool)
    | Issued
    | Passed
    | Failed
    | Blocked(number: nat, ttl: int, at: int, endsAt: int)
    | Acked(score: real)

  const FIRST_BLOCK_MS := 600_000
  const SECOND_BLOCK_MS := 3_600_000

  /** 10 minutes, then one hour, then the rest of the day but at least a minute. */
  function BlockTtl(number: nat, at: int, endsAt: int): int {
    if number == 1 then FIRST_BLOCK_MS
    else if number == 2 then SECOND_BLOCK_MS
    else if endsAt - at < 60_000 then 60_000
    else endsAt - at
  }

  function Pending(trace: seq<Event>): bool {
    if trace == [] then false
    else match trace[|trace| - 1]
      case Joined(pending, _, _) => pending
      case RolledOver(pending) => pending
      case Issued => true
      case Passed => false
      case _ => Pending(trace[..|trace| - 1])
  }

  /** Failed verifications since the last pass, on the current record. */
  function Fails(trace: seq<Event>): nat {
    if trace == [] then 0
    else match trace[|trace| - 1]
      case Joined(_, fails, _) => fails
      case RolledOver(_) => 0
      case Passed => 0
      case Failed => Fails(trace[..|trace| - 1]) + 1
      case _ => Fails(trace[..|trace| - 1])
  }

  /** Blocks applied to the current record. */
  function Blocks(trace: seq<Event>): nat {
    if trace == [] then 0
    else match trace[|trace| - 1]
      case Joined(_, _, blocks) => blocks
      case RolledOver(_) => 0
      case Blocked(number, _, _, _) => number
      case _ => Blocks(trace[..|trace| - 1])
  }

  /** May `e` happen after `trace`? */
  ghost predicate Allowed(trace: seq<Event>, e: Event) {
    && (Owes(trace) ==> e.Blocked?)
    && match e
       case Joined(_, _, _) => trace == []
       case RolledOver(pending) => pending == Pending(trace)
       case Issued => !Pending(trace)
       case Passed => Pending(trace)
       case Failed => Pending(trace)
       case Blocked(number, ttl, at, endsAt) => number == Blocks(trace) + 1 && ttl == BlockTtl(number, at, endsAt)
       case Acked(score) => !Pending(trace) && score < Suspicion.SEVERE
  }

  /** The third failure has just happened: a block is due before anything else. */
  ghost predicate Owes(trace: seq<Event>) {
    trace != [] && trace[|trace| - 1].Failed? && 3 <= Fails(trace)
  }

  ghost predicate Lawful(trace: seq<Event>) {
    forall i :: 0 <= i < |trace| ==> Allowed(trace[..i], trace[i])
  }

  /** The record of a connection carries what its trace says, and no block is due. */
  ghost predicate Reflects(trace: seq<Event>, rec: Option<SessionRecord>) {
    Carries(trace, rec) && !Owes(trace)
  }

  ghost predicate Carries(trace: seq<Event>, rec: Option<SessionRecord>) {
    && Lawful(trace)
    && (rec.None? ==> trace == [])
    && (rec.Some? ==>
          trace != [] && rec.value.challengePending == Pending(trace) && rec.value.challengeFails == Fails(trace)
          && rec.value.blocks == Blocks(trace))
  }

  lemma LawfulStep(trace: seq<Event>, e: Event)
    requires Lawful(trace) && Allowed(trace, e)
    ensures Lawful(trace + [e])
    ensures (trace + [e])[..|trace|] == trace
  {
    hide Allowed;
    var longer := trace + [e];
    forall i | 0 <= i < |longer|
      ensures Allowed(longer[..i], longer[i])
    {
      assert longer[..i] == if i < |trace| then trace[..i] else trace;
    }
  }

  /** What an event does to the record. */
  function Applied(rec: SessionRecord, e: Event): SessionRecord {
    match e
    case Issued => rec.(challengePending := true)
    case Passed => rec.(challengePending := false, challengeFails := 0)
    case Failed => rec.(challengeFails := rec.challengeFails + 1)
    case Blocked(number, _, _, _) => rec.(blocks := number)
    case _ => rec
  }

  /** The trace and the record move together. */
  lemma Moves(trace: seq<Event>, rec: SessionRecord, e: Event)
    requires Carries(trace, Some(rec)) && Allowed(trace, e) && !e.Joined? && !e.RolledOver?
    ensures Carries(trace + [e], Some(Applied(rec, e)))
    ensures !(e.Failed? && 3 <= Applied(rec, e).challengeFails) ==> Reflects(trace + [e], Some(Applied(rec, e)))
  {
    LawfulStep(trace, e);
    hide Allowed, Lawful;
  }

  /** A record comes into use, by joining or at midnight. */
  lemma Arrives(trace: seq<Event>, rec: SessionRecord, e: Event)
    requires Lawful(trace) && Allowed(trace, e)
    requires e == Joined(rec.challengePending, rec.challengeFails, rec.blocks)
             || (e == RolledOver(rec.challengePending) && rec.challengeFails == 0 && rec.blocks == 0)
    ensures Reflects(trace + [e], Some(rec))
  {
    LawfulStep(trace, e);
    hide Allowed, Lawful;
  }

  // ----- Every lawful trace -----

  lemma {:induction false} StaysPending(trace: seq<Event>, i: nat, j: nat)
    requires Lawful(trace) && i < j <= |trace| && (trace[i].Issued? || Pending(trace[..i + 1]))
    requires forall k :: i < k < j ==> !trace[k].Passed?
    ensures Pending(trace[..j])
  {
    assert trace[..j][..j - 1] == trace[..j - 1] && trace[..j][j - 1] == trace[j - 1];
    if i + 1 < j {
      StaysPending(trace, i, j - 1);
      assert Allowed(trace[..j - 1], trace[j - 1]);
    }
  }

  /** Once a challenge is pending, no send is acknowledged until a verification succeeds, and a renewal in between
      that takes the pending state over does not help. (A renewal that overlaps a frame may fail to take it over:
      `ClusterTheorems.PendingSurvivesExactly`.) Every acknowledged send had a score below the severe threshold. */
  lemma NoAckWhilePending(trace: seq<Event>, i: nat, j: nat)
    requires Lawful(trace) && i < j < |trace| && trace[j].Acked?
    requires trace[i].Issued? || (trace[i].Joined? && trace[i].pending)
    ensures exists k :: i < k < j && trace[k].Passed?
    ensures trace[j].score < Suspicion.SEVERE
  {
    assert Allowed(trace[..j], trace[j]);
    assert trace[..i + 1][i] == trace[i];
    if forall k :: i < k < j ==> !trace[k].Passed? {
      StaysPending(trace, i, j);
    }
  }

  ghost predicate Fresh(e: Event) {
    e.Passed? || e.RolledOver? || e.Joined?
  }

  ghost function CountFailed(trace: seq<Event>, i: nat, j: nat): nat
    requires i <= j <= |trace|
    decreases j
  {
    if i == j then 0 else CountFailed(trace, i, j - 1) + if trace[j - 1].Failed? then 1 else 0
  }

  lemma {:induction false} FailsCount(trace: seq<Event>, i: nat, j: nat)
    requires i <= j <= |trace| && forall k :: i <= k < j ==> !Fresh(trace[k])
    ensures CountFailed(trace, i, j) <= Fails(trace[..j])
    decreases j
  {
    if i < j {
      assert trace[..j][..j - 1] == trace[..j - 1] && trace[..j][j - 1] == trace[j - 1];
      FailsCount(trace, i, j - 1);
    }
  }

  /** The third failure on a record since the last pass, and every later one, is followed at once by a block. */
  lemma ThirdFailureBlocks(trace: seq<Event>, i: nat, j: nat)
    requires Lawful(trace) && i <= j < |trace| - 1 && trace[j].Failed? && 3 <= CountFailed(trace, i, j + 1)
    requires forall k :: i <= k < j ==> !Fresh(trace[k])
    ensures trace[j + 1].Blocked?
  {
    FailsCount(trace, i, j + 1);
    assert trace[..j + 1][j] == trace[j];
    assert Allowed(trace[..j + 1], trace[j + 1]);
  }

  lemma {:induction false} BlocksKept(trace: seq<Event>, i: nat, j: nat)
    requires Lawful(trace) && i < j <= |trace| && trace[i].Blocked? && forall k :: i < k < j ==> !trace[k].RolledOver?
    ensures trace[i].number <= Blocks(trace[..j])
    decreases j
  {
    hide Lawful, Allowed;
    assert trace[..j] == trace[..j - 1] + [trace[j - 1]];
    AllowedAt(trace, j - 1);
    BlocksStep(trace[..j - 1], trace[j - 1]);
    if i + 1 < j { BlocksKept(trace, i, j - 1); }
  }

  lemma AllowedAt(trace: seq<Event>, j: nat)
    requires Lawful(trace) && j < |trace|
    ensures Allowed(trace[..j], trace[j])
  {
    hide Allowed;
  }

  lemma BlocksStep(trace: seq<Event>, e: Event)
    requires Allowed(trace, e)
    ensures e.Blocked? ==> Blocks(trace + [e]) == e.number
    ensures !e.RolledOver? && trace != [] ==> Blocks(trace) <= Blocks(trace + [e])
  {
    assert (trace + [e])[..|trace|] == trace;
  }

  /** On one record the block count only grows, and each block lasts as its number says. */
  lemma BlocksEscalate(trace: seq<Event>, i: nat, j: nat)
    requires Lawful(trace) && i < j < |trace| && trace[i].Blocked? && trace[j].Blocked?
    requires forall k :: i < k < j ==> !trace[k].RolledOver?
    ensures trace[i].number < trace[j].number
    ensures trace[j].ttl == BlockTtl(trace[j].number, trace[j].at, trace[j].endsAt)
  {
    BlocksKept(trace, i, j);
    assert Allowed(trace[..j], trace[j]);
  }
}
