/** Vocabulary shared by every component: identifiers, clock, peers and statuses. */
module Types {
  datatype Option<+T> = None | Some(value: T)

  /** Instants and durations, in microseconds: the resolution of the timestamps the rows carry. */
  type Time = int

  const SECOND: int := 1_000_000
  const MILLISECOND: int := 1_000

  type WorkerId = nat
  type ConnId = nat
  type RowId = nat

  datatype PeerKind = UserPeer | ChatPeer | ChannelPeer

  /** A Telegram peer. The id sequences of the three kinds overlap, so an id is never used alone. */
  datatype Peer = Peer(kind: PeerKind, id: int)

  datatype ConnStatus =
    | ConnPending | AwaitingCode | Awaiting2fa | ConnActive | ConnError | PausedSafety | Disconnected

  /** Shared by forwarding jobs and broadcast targets. */
  datatype JobStatus = Pending | Leased | Succeeded | Failed | Skipped | NeedsAttention | DeadLetter

  datatype ErrorClass = Transient | RateLimit | Auth | Permission | PermanentContent | Unknown

  /** What the worker is told about one send: a receipt, a timeout it cannot interpret, or a
      classified error, possibly carrying a wait in microseconds. */
  datatype Report = Receipt | Ambiguous | Refused(cls: ErrorClass, wait: Option<nat>)

  /** The two reports after which the message is, or may be, in the destination. */
  predicate Landed(r: Report) {
    r.Receipt? || r.Ambiguous?
  }
}
