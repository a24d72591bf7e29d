/** What a client is sent (src/protocol.ts). */
module Wire {
  import opened Types

  datatype RejectReason = RateLimited | ChallengeRequired | TooLong | Invalid | StaleRoom | Blocked

  /** What a client is sent. */
  datatype ServerEvent =
    | Welcome(name: string, day: int, endsAt: int, history: seq<ChatMessage>, resume: string)
    | Message(message: ChatMessage)
    | Messages(messages: seq<ChatMessage>)
    | Ack(clientId: string, message: ChatMessage)
    | Reject(clientId: string, reason: RejectReason, retryAfterMs: Option<int>)
    | Reset(day: int, endsAt: int, name: string, resume: string)
    | Challenge
    | ChallengeResult(ok: bool)
    | Error(code: string)
}
