/**
 * What a Group Host and a Member Home exchange: events, messages and the Host's receipts for them.
 * DIDs, operation ids, digests and message bodies are opaque tokens; signatures over them are taken
 * as verified, and a digest is taken to identify the value it was computed from.
 */
module GroupTypes {
  import opened Common
  import opened MergePatch
  import opened GroupPolicy

  datatype Did = Did(name: string)
  datatype Token = Token(text: string)

  datatype Wire = BaseV1 | BaseV2

  datatype Method = GroupJoin | GroupAdd | GroupLeave | GroupRemove | GroupUpdateProfile | GroupUpdatePolicy | GroupSend

  datatype Status = Active | Left | Removed | Inactive

  datatype EventType = MemberActivated | MemberLeft | MemberRemoved | ProfileUpdated | PolicyUpdated | OtherEvent

  datatype Receipt = Receipt(
    gid: Did, version: int, eventSeq: int, op: Method, opId: Token, actor: Did,
    digest: Token, acceptedAt: int, message: Option<Token>)

  /** The body of a `group.state_changed` notification; `rest` is whatever else the body carries. */
  datatype Event = Event(
    gid: Did, etype: EventType, op: Method, subject: Option<Did>, status: Option<Status>,
    role: Option<Role>, profile: Option<Json>, policy: Option<Json>,
    version: int, eventSeq: int, receipt: Receipt, rest: Token)

  /** The body of a `group.incoming` notification. */
  datatype Message = Message(
    gid: Did, version: int, eventSeq: int, acceptedAt: int, receipt: Receipt, content: Token)

  datatype Notice = StateNotice(event: Event) | MessageNotice(message: Message) {
    function EventSeq(): int {
      match this
      case StateNotice(e) => e.eventSeq
      case MessageNotice(m) => m.eventSeq
    }

    function Version(): int {
      match this
      case StateNotice(e) => e.version
      case MessageNotice(m) => m.version
    }

    function Kind(): NoticeKind {
      match this
      case StateNotice(_) => StateKind
      case MessageNotice(_) => MessageKind
    }
  }

  /** `group.state_changed` or `group.incoming`. */
  datatype NoticeKind = StateKind | MessageKind

  datatype MemberView = MemberView(role: Role, status: Status)

  /** A row of `group_operations` without its group scope. */
  datatype OpKey = OpKey(sender: Did, op: Method, opId: Token)

  /** The stored answer of an operation: the subject of a leave and of a remove are named differently. */
  datatype OpResult = OpResult(leaver: Option<Did>, member: Option<Did>, version: int, eventSeq: int, receipt: Receipt)

  datatype OpRecord = OpRecord(digest: Token, wire: Wire, result: OpResult)

  /** The members counted as present, with their roles. */
  function ActiveRoles(roster: map<Did, MemberView>): map<Did, Role> {
    map d | d in roster && roster[d].status == Active :: roster[d].role
  }

  /** The binding checks of `_verified_receipt`; the signature itself is a library call. */
  predicate EventBound(e: Event) {
    && e.receipt.gid == e.gid
    && e.receipt.version == e.version
    && e.receipt.eventSeq == e.eventSeq
    && e.receipt.op == e.op
  }

  predicate MessageBound(m: Message) {
    && m.receipt.gid == m.gid
    && m.receipt.version == m.version
    && m.receipt.eventSeq == m.eventSeq
    && m.receipt.op == GroupSend
    && m.receipt.message.Some?
    && m.receipt.acceptedAt == m.acceptedAt
  }
}
