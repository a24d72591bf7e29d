/** Fan-out on one instance (src/gateway/room-server.ts): bus events gather in an outbox, and one flush sends
    every socket a single frame. */
module Rooms {
  import opened Types
  import opened Wire
  import opened Gateway
  import opened Positions

  datatype Broadcast = Broadcast(roomId: string, message: ChatMessage, exclude: Option<string>)

  datatype BusEvent = MessageEvent(broadcast: Broadcast) | Kick(sid: string)

  function ForRoom(outbox: seq<Broadcast>, roomId: string): seq<Broadcast> {
    if outbox == [] then []
    else (if outbox[0].roomId == roomId then [outbox[0]] else []) + ForRoom(outbox[1..], roomId)
  }

  function MessagesOf(batch: seq<Broadcast>): (messages: seq<ChatMessage>)
    ensures |messages| == |batch|
  {
    if batch == [] then [] else [batch[0].message] + MessagesOf(batch[1..])
  }

  /** The messages of a batch that are not a client's own. */
  function Others(batch: seq<Broadcast>, key: string): seq<ChatMessage> {
    if batch == [] then []
    else (if batch[0].exclude != Some(key) then [batch[0].message] else []) + Others(batch[1..], key)
  }

  function Encoded(messages: seq<ChatMessage>): ServerEvent
    requires messages != []
  {
    if |messages| == 1 then Message(messages[0]) else Messages(messages)
  }

  /** What filtering the outbox separately for one client would send it. */
  function FrameFor(outbox: seq<Broadcast>, roomId: string, key: string): seq<ServerEvent> {
    var messages := Others(ForRoom(outbox, roomId), key);
    if messages == [] then [] else [Encoded(messages)]
  }

  /** A client that sent nothing of the batch gets all of it. */
  lemma {:induction false} NothingExcluded(batch: seq<Broadcast>, key: string)
    requires forall i :: 0 <= i < |batch| ==> batch[i].exclude != Some(key)
    ensures Others(batch, key) == MessagesOf(batch)
  {
    if batch != [] { NothingExcluded(batch[1..], key); }
  }

  // ----- Frames by positions -----

  /** In the order of the outbox, exactly the events of the room that are not the client's own. */
  ghost predicate Wanted(pos: seq<nat>, outbox: seq<Broadcast>, roomId: string, key: string) {
    && (forall a, b :: 0 <= a < b < |pos| ==> pos[a] < pos[b])
    && forall i: nat :: i in pos <==> i < |outbox| && outbox[i].roomId == roomId && outbox[i].exclude != Some(key)
  }

  /** One frame with the messages at those positions, one by one: `message` for one, `messages` for more, and no frame
      for none. */
  ghost predicate Carries(frames: seq<ServerEvent>, pos: seq<nat>, outbox: seq<Broadcast>) {
    && (forall a :: 0 <= a < |pos| ==> pos[a] < |outbox|)
    && if |pos| == 0 then frames == []
       else if |pos| == 1 then frames == [Message(outbox[pos[0]].message)]
       else
         && |frames| == 1 && frames[0].Messages? && |frames[0].messages| == |pos|
         && forall a :: 0 <= a < |pos| ==> frames[0].messages[a] == outbox[pos[a]].message
  }

  ghost function Messaged(outbox: seq<Broadcast>): (messages: seq<ChatMessage>)
    ensures |messages| == |outbox| && forall i :: 0 <= i < |outbox| ==> messages[i] == outbox[i].message
  {
    seq(|outbox|, i requires 0 <= i < |outbox| => outbox[i].message)
  }

  ghost function WantedIn(outbox: seq<Broadcast>, roomId: string, key: string): (marked: seq<bool>)
    ensures |marked| == |outbox|
    ensures forall i :: 0 <= i < |outbox| ==>
              marked[i] == (outbox[i].roomId == roomId && outbox[i].exclude != Some(key))
  {
    seq(|outbox|, i requires 0 <= i < |outbox| => outbox[i].roomId == roomId && outbox[i].exclude != Some(key))
  }

  lemma {:induction false} OthersKeep(outbox: seq<Broadcast>, roomId: string, key: string) returns (pos: seq<nat>)
    ensures Keeps(Messaged(outbox), Others(ForRoom(outbox, roomId), key), pos, WantedIn(outbox, roomId, key))
  {
    if outbox == [] {
      pos := [];
    } else {
      var rest := outbox[1..];
      var more := OthersKeep(rest, roomId, key);
      var n := if outbox[0].roomId == roomId && outbox[0].exclude != Some(key) then 1 else 0;
      assert Messaged(outbox)[1..] == Messaged(rest);
      assert WantedIn(outbox, roomId, key) == First(n, 1) + WantedIn(rest, roomId, key);
      OthersStep(outbox, roomId, key);
      hide Others, ForRoom, Keeps;
      pos := KeepsOn(Messaged(outbox), n, 1, Others(ForRoom(rest, roomId), key), more, WantedIn(rest, roomId, key),
                     WantedIn(outbox, roomId, key));
    }
  }

  lemma OthersStep(outbox: seq<Broadcast>, roomId: string, key: string)
    requires outbox != []
    ensures var n := if outbox[0].roomId == roomId && outbox[0].exclude != Some(key) then 1 else 0;
            Others(ForRoom(outbox, roomId), key) == Messaged(outbox)[..n] + Others(ForRoom(outbox[1..], roomId), key)
  {
    hide Others;
    var rest := ForRoom(outbox[1..], roomId);
    if outbox[0].roomId == roomId {
      assert ForRoom(outbox, roomId) == [outbox[0]] + rest;
      OthersFirst(outbox[0], rest, key);
    } else {
      assert ForRoom(outbox, roomId) == rest;
    }
  }

  lemma OthersFirst(b: Broadcast, rest: seq<Broadcast>, key: string)
    ensures Others([b] + rest, key) == (if b.exclude != Some(key) then [b.message] else []) + Others(rest, key)
  {
    assert ([b] + rest)[1..] == rest;
  }

  /** The frame of a client holds, in the order in which they came, exactly the messages of the room that are not its
      own. */
  lemma FrameByPosition(outbox: seq<Broadcast>, roomId: string, key: string) returns (pos: seq<nat>)
    ensures Wanted(pos, outbox, roomId, key) && Carries(FrameFor(outbox, roomId, key), pos, outbox)
  {
    hide Others, ForRoom;
    pos := OthersKeep(outbox, roomId, key);
  }

  class RoomServer {
    const host: Host
    var outbox: seq<Broadcast>
    var flushScheduled: bool
    var conns: seq<Connection>

    constructor (host: Host)
      ensures Distinct() && Scheduled() && this.host == host && outbox == [] && conns == []
    {
      this.host, outbox, flushScheduled, conns := host, [], false, [];
    }

    ghost predicate Distinct()
      reads this
    {
      forall i, j :: 0 <= i < j < |conns| ==> conns[i] != conns[j]
    }

    /** An event that waits has a flush coming. */
    ghost predicate Scheduled()
      reads this
    {
      outbox != [] ==> flushScheduled
    }

    /** Told, disconnected, and kept out for a minute. */
    ghost predicate Kicked(now: int, c: Connection, wasOpen: bool, sent: seq<ServerEvent>)
      reads c`open, c`sent, c`blockedUntil
    {
      !c.open && c.blockedUntil == now + KICK_MS && c.sent == sent + if wasOpen then [Error("blocked")] else []
    }

    /** Events of another room are dropped; a kicked session is told and disconnected. */
    method OnBus(evt: BusEvent)
      requires Distinct() && Scheduled()
      modifies this`outbox, this`flushScheduled, conns`sent, conns`open, conns`blockedUntil
      ensures Distinct() && Scheduled() && conns == old(conns)
      ensures evt.MessageEvent? ==>
                && outbox == old(outbox) + (if evt.broadcast.roomId == host.room.roomId then [evt.broadcast] else [])
                && flushScheduled == (old(flushScheduled) || evt.broadcast.roomId == host.room.roomId)
                && forall c <- conns ::
                   c.sent == old(c.sent) && c.open == old(c.open) && c.blockedUntil == old(c.blockedUntil)
      ensures evt.Kick? ==>
                && outbox == old(outbox) && flushScheduled == old(flushScheduled)
                && forall c <- conns ::
                     if c.rec.Some? && c.rec.value.sid == evt.sid then Kicked(c.host.now, c, old(c.open), old(c.sent))
                     else c.sent == old(c.sent) && c.open == old(c.open) && c.blockedUntil == old(c.blockedUntil)
    {
      match evt
      case MessageEvent(b) =>
        if b.roomId != host.room.roomId {
          return;
        }
        outbox := outbox + [b];
        if !flushScheduled {
          flushScheduled := true;
        }
      case Kick(sid) =>
        for n := 0 to |conns|
          invariant conns == old(conns) && outbox == old(outbox) && flushScheduled == old(flushScheduled)
          invariant forall i :: 0 <= i < |conns| ==>
                      var c := conns[i];
                      if i < n && c.rec.Some? && c.rec.value.sid == sid
                        then Kicked(c.host.now, c, old(c.open), old(c.sent))
                      else c.sent == old(c.sent) && c.open == old(c.open) && c.blockedUntil == old(c.blockedUntil)
        {
          var c := conns[n];
          if c.rec.Some? && c.rec.value.sid == sid {
            c.BlockedFor(KICK_MS);
          }
        }
    }

    /** The frame that is due to a connection: none unless it is joined with a record of the room. */
    ghost function Due(c: Connection, waiting: seq<Broadcast>): seq<ServerEvent>
      reads host, c`joined, c`rec
    {
      if c.joined && c.rec.Some? && c.rec.value.roomId == host.room.roomId
      then FrameFor(waiting, host.room.roomId, c.key) else []
    }

    /** Every open connection of the room gets one frame with exactly the messages of the room that wait and are not its
        own, in their order, and no frame if there are none; nobody else gets anything. */
    method FlushOutbox()
      requires Distinct()
      modifies this`outbox, this`flushScheduled, conns`sent
      ensures outbox == [] && !flushScheduled && Scheduled() && conns == old(conns)
      ensures forall c <- conns ::
                if c.open && c.joined && c.rec.Some? && c.rec.value.roomId == host.room.roomId
                then
                  exists pos, frames ::
                    && Wanted(pos, old(outbox), host.room.roomId, c.key) && Carries(frames, pos, old(outbox))
                    && c.sent == old(c.sent) + frames
                else c.sent == old(c.sent)
    {
      hide Wanted, Carries, FrameFor;
      ghost var waiting := outbox;
      SendBatch();
      forall c <- conns | c.open && c.joined && c.rec.Some? && c.rec.value.roomId == host.room.roomId
        ensures exists pos, frames ::
                  && Wanted(pos, waiting, host.room.roomId, c.key) && Carries(frames, pos, waiting)
                  && c.sent == old(c.sent) + frames
      {
        var pos := FrameByPosition(waiting, host.room.roomId, c.key);
      }
    }

    /** Encodes the batch once, and once more for each of its senders. */
    method SendBatch()
      requires Distinct()
      modifies this`outbox, this`flushScheduled, conns`sent
      ensures outbox == [] && !flushScheduled && Scheduled() && conns == old(conns)
      ensures forall c <- conns :: c.sent == old(c.sent) + (if c.open then Due(c, old(outbox)) else [])
    {
      hide Encoded, ForRoom, Others, MessagesOf, FrameFor, AreVariants, Variant, Due, Senders;
      flushScheduled := false;
      ghost var waiting := outbox;
      var roomId := host.room.roomId;
      var batch := ForRoom(outbox, roomId);
      outbox := [];
      if batch == [] {
        NothingDue(waiting);
        return;
      }
      var common := Encoded(MessagesOf(batch));
      var senders := Senders(batch);
      var variants: map<string, Option<ServerEvent>> := map[];
      NoVariants(batch);
      for n := 0 to |conns|
        invariant conns == old(conns) && outbox == [] && !flushScheduled
        invariant AreVariants(variants, batch)
        invariant forall i :: 0 <= i < n ==>
                  conns[i].sent == old(conns[i].sent) + (if conns[i].open then Due(conns[i], waiting) else [])
        invariant forall i :: n <= i < |conns| ==> conns[i].sent == old(conns[i].sent)
      {
        variants := Serve(conns[n], waiting, batch, common, senders, variants);
      }
    }

    /** One connection's turn. */
    method Serve(c: Connection, ghost waiting: seq<Broadcast>, batch: seq<Broadcast>, common: ServerEvent,
                 senders: set<string>, variants: map<string, Option<ServerEvent>>)
      returns (more: map<string, Option<ServerEvent>>)
      requires batch == ForRoom(waiting, host.room.roomId) && batch != []
      requires common == Encoded(MessagesOf(batch)) && senders == Senders(batch) && AreVariants(variants, batch)
      modifies c`sent
      ensures c.sent == old(c.sent) + (if c.open then Due(c, waiting) else []) && AreVariants(more, batch)
    {
      hide Encoded, ForRoom, MessagesOf, FrameFor, AreVariants, Variant, Senders;
      more := variants;
      if c.joined && c.rec.Some? && c.rec.value.roomId == host.room.roomId {
        var frame;
        frame, more := Choose(batch, common, senders, variants, c.key);
        FrameIsDue(waiting, host.room.roomId, c.key, frame);
        if frame.Some? {
          c.Transmit(frame.value);
        }
      }
    }

    static function Senders(batch: seq<Broadcast>): set<string> {
      set b | b in batch && b.exclude.Some? :: b.exclude.value
    }

    static predicate AreVariants(variants: map<string, Option<ServerEvent>>, batch: seq<Broadcast>) {
      forall k <- variants :: variants[k] == Variant(batch, k)
    }

    static lemma NoVariants(batch: seq<Broadcast>)
      ensures AreVariants(map[], batch)
    {
    }

    /** The common frame, or for a sender its own variant, which is encoded when it is first needed. */
    static method Choose(batch: seq<Broadcast>, common: ServerEvent, senders: set<string>,
                         variants: map<string, Option<ServerEvent>>, key: string)
      returns (frame: Option<ServerEvent>, more: map<string, Option<ServerEvent>>)
      requires batch != [] && common == Encoded(MessagesOf(batch)) && AreVariants(variants, batch)
      requires senders == Senders(batch)
      ensures frame
              == if exists b <- batch :: b.exclude == Some(key) then Variant(batch, key)
                 else Some(Encoded(MessagesOf(batch)))
      ensures AreVariants(more, batch)
    {
      hide Encoded, MessagesOf, Others;
      frame, more := Some(common), variants;
      if key in senders {
        if key !in more {
          var rest := Others(batch, key);
          more := more[key := if rest != [] then Some(Encoded(rest)) else None];
        }
        frame := more[key];
      } else {
        assert forall b <- batch :: b.exclude.Some? ==> b.exclude.value != key;
      }
    }

    lemma NothingDue(waiting: seq<Broadcast>)
      requires ForRoom(waiting, host.room.roomId) == []
      ensures forall c <- conns :: Due(c, waiting) == []
    {
      hide ForRoom;
      assert forall key :: Others([], key) == [];
    }

    /** The common frame for whoever sent nothing of the batch, the variant for a sender. */
    static lemma FrameIsDue(waiting: seq<Broadcast>, roomId: string, key: string, frame: Option<ServerEvent>)
      requires ForRoom(waiting, roomId) != []
      requires var batch := ForRoom(waiting, roomId);
               frame
               == if exists b <- batch :: b.exclude == Some(key) then Variant(batch, key)
                  else Some(Encoded(MessagesOf(batch)))
      ensures FrameFor(waiting, roomId, key) == if frame.Some? then [frame.value] else []
    {
      hide Encoded;
      var batch := ForRoom(waiting, roomId);
      if !exists b <- batch :: b.exclude == Some(key) { NothingExcluded(batch, key); }
    }

    static function Variant(batch: seq<Broadcast>, key: string): Option<ServerEvent> {
      if Others(batch, key) != [] then Some(Encoded(Others(batch, key))) else None
    }
  }
}
