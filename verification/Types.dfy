/** The records that sessions, messages and the store share (src/protocol.ts, src/store/types.ts). */
module Types {

  datatype Option<+T> = None | Some(value: T)

  datatype ChatMessage = ChatMessage(id: string, author: string, text: seq<int>, ts: int, country: Option<string>)

  /** A message as stored for the day; `sid` is internal. */
  datatype StoredMessage = StoredMessage(message: ChatMessage, sid: string)

  /** An anonymous session of one day. */
  datatype SessionRecord = SessionRecord(
    sid: string,
    roomId: string,
    name: string,
    country: Option<string>,
    ipHash: string,
    createdAt: int,
    suspicion: real,
    suspicionAt: int,
    challengePending: bool,
    challengeFails: nat,
    trustedUntil: int,
    blocks: nat)
}
