/**
 * A Group Host's transactions on one hosted group. Each request either commits, returning the new
 * group and the outbox rows it enqueued, or raises and changes nothing.
 */
module GroupHost {
  import opened Common
  import opened MergePatch
  import opened GroupPolicy
  import opened GroupTypes
  import opened Outbox

  datatype Member = Member(role: Role, status: Status, home: Did)

  /** A row of `hosted_group_events`. */
  datatype HostEvent = Created | Changed(event: Event) | Sent(messageId: Token)

  datatype Group = Group(
    gid: Did, host: Did, wire: Wire, quiescing: bool,
    version: nat, eventSeq: nat, profile: Json, policy: Json,
    roster: map<Did, Member>,
    events: seq<HostEvent>,
    messages: map<nat, Message>,
    operations: map<OpKey, OpRecord>)

  datatype Action =
    | Join(home: Did)
    | Add(member: Did, role: Role, home: Did)
    | Leave
    | Remove(member: Did)
    | UpdateProfile(patch: Json)
    | UpdatePolicy(patch: Json)
    | Send(messageId: Token, content: Token)
  {
    function Op(): Method {
      match this
      case Join(_) => GroupJoin
      case Add(_, _, _) => GroupAdd
      case Leave => GroupLeave
      case Remove(_) => GroupRemove
      case UpdateProfile(_) => GroupUpdateProfile
      case UpdatePolicy(_) => GroupUpdatePolicy
      case Send(_, _) => GroupSend
    }
  }

  /** An authenticated request; `home` fields inside the action are what DID discovery answered. */
  datatype Request = Request(sender: Did, opId: Token, wire: Wire, digest: Token, time: int, action: Action) {
    function Key(): OpKey {
      OpKey(sender, action.Op(), opId)
    }
  }

  /** What a transaction reads outside its own group: the backlog and the message ids already used. */
  datatype Env = Env(pending: nat, maxPending: nat, takenMessages: set<Token>)

  datatype HostError =
    | ProtocolMismatch | UpgradeInProgress | OperationConflict
    | PolicyViolation | NotMember | PolicyUnreadable | PermissionDenied
    | MemberAlreadyActive | MembersExceeded | BacklogFull
    | PatchRequired | Invalid(reason: PolicyError) | MessageIdConflict
    | InitialMemberDuplicate

  datatype Commit = Commit(group: Group, rows: Rows, result: OpResult, replay: bool)

  // ------------------------------------------------------------------------------------------
  // Reads
  // ------------------------------------------------------------------------------------------

  predicate IsActive(g: Group, d: Did) {
    d in g.roster && g.roster[d].status == Active
  }

  function ActiveMembers(g: Group): set<Did> {
    set d | d in g.roster && g.roster[d].status == Active
  }

  /** `_remote_members`. */
  function RemoteMembers(g: Group): set<Did> {
    set d | d in g.roster && g.roster[d].status == Active && g.roster[d].home != g.host
  }

  function Reserve(maxPending: nat): nat {
    Max(10, Min(100, maxPending / 100))
  }

  /** `ensure_outbox_capacity`, for `additional` rows about to be enqueued. */
  predicate HasCapacity(env: Env, additional: nat, management: bool) {
    additional == 0
    || env.pending + additional <= env.maxPending + if management then Reserve(env.maxPending) else 0
  }

  /** `_active_member` followed by `_require_permission`. */
  function Refusal(g: Group, sender: Did, permission: Name): Option<HostError> {
    if !IsActive(g, sender) then Some(NotMember)
    else
      match Demanded(g.policy, permission)
      case None => Some(PolicyUnreadable)
      case Some(minimum) => if g.roster[sender].role.Level() < minimum.Level() then Some(PermissionDenied) else None
  }

  // ------------------------------------------------------------------------------------------
  // Writes
  // ------------------------------------------------------------------------------------------

  function NewReceipt(g: Group, req: Request, version: nat, eventSeq: nat, message: Option<Token>): Receipt {
    Receipt(g.gid, version, eventSeq, req.action.Op(), req.opId, req.sender, req.digest, req.time, message)
  }

  predicate Departure(e: Event) {
    e.etype == MemberLeft || e.etype == MemberRemoved
  }

  /** Who is notified of a change: every remote active member and, in v2, the one who just departed. */
  function ChangeTargets(g: Group, e: Event): set<Did> {
    RemoteMembers(g) +
    if g.wire == BaseV2 && Departure(e) && e.subject.Some? && e.subject.value in g.roster
       && g.roster[e.subject.value].home != g.host
    then {e.subject.value} else {}
  }

  function RowsFor(g: Group, notice: Notice, targets: set<Did>, eventSeq: nat, time: int): Rows
    requires targets <= g.roster.Keys
  {
    map d | d in targets ::
      RowKey(g.gid, eventSeq, d, notice.Kind()) := Row(notice, g.wire, g.roster[d].home, Pending, 0, time, time)
  }

  /** The common tail of every management handler: bump both counters, write the event and the operation, enqueue. */
  function RecordChange(g: Group, req: Request, etype: EventType, subject: Option<Did>, status: Option<Status>,
                        role: Option<Role>, profile: Option<Json>, policy: Option<Json>,
                        leaver: Option<Did>, member: Option<Did>): Commit
  {
    var version, eventSeq := g.version + 1, g.eventSeq + 1;
    var receipt := NewReceipt(g, req, version, eventSeq, None);
    var event := Event(g.gid, etype, req.action.Op(), subject, status, role, profile, policy, version, eventSeq, receipt, Token(""));
    var result := OpResult(leaver, member, version, eventSeq, receipt);
    var after := g.(version := version, eventSeq := eventSeq, events := g.events + [Changed(event)],
                    operations := g.operations[req.Key() := OpRecord(req.digest, req.wire, result)]);
    Commit(after, RowsFor(after, StateNotice(event), ChangeTargets(after, event), eventSeq, req.time), result, false)
  }

  /** `_membership_mutation`. */
  function Activate(g: Group, env: Env, req: Request, target: Did, role: Role, home: Did): Result<Commit, HostError> {
    if IsActive(g, target) then Err(MemberAlreadyActive)
    else
      var limit := MemberLimit(g.policy);
      if limit.None? then Err(PolicyUnreadable)
      else if |ActiveMembers(g)| >= limit.value then Err(MembersExceeded)
      else
        var seated := g.(roster := g.roster[target := Member(role, Active, home)]);
        if !HasCapacity(env, |RemoteMembers(seated)|, true) then Err(BacklogFull)
        else Ok(RecordChange(seated, req, MemberActivated, Some(target), Some(Active), Some(role),
                             Some(g.profile), Some(g.policy), None, Some(target)))
  }

  /** `_end_membership`: v2 counts the departing member against the backlog, v1 does not. */
  function Depart(g: Group, env: Env, req: Request, target: Did, status: Status, etype: EventType): Result<Commit, HostError>
    requires IsActive(g, target)
  {
    var without := g.(roster := g.roster[target := g.roster[target].(status := status)]);
    var counted := if req.wire == BaseV2 then g else without;
    if !HasCapacity(env, |RemoteMembers(counted)|, true) then Err(BacklogFull)
    else
      Ok(RecordChange(without, req, etype, Some(target), Some(status), None, None, None,
                      if etype == MemberLeft then Some(target) else None,
                      if etype == MemberLeft then None else Some(target)))
  }

  /** `_update_group`. */
  function Update(g: Group, env: Env, req: Request, permission: Name): Result<Commit, HostError>
    requires req.action.UpdateProfile? || req.action.UpdatePolicy?
  {
    var refusal := Refusal(g, req.sender, permission);
    if refusal.Some? then Err(refusal.value)
    else if !HasCapacity(env, |RemoteMembers(g)|, true) then Err(BacklogFull)
    else if req.action.UpdateProfile? then
      match ValidateProfile(Merge(g.profile, req.action.patch))
      case Err(reason) => Err(Invalid(reason))
      case Ok(value) =>
        Ok(RecordChange(g.(profile := value), req, ProfileUpdated, None, None, None, Some(value), None, None, None))
    else
      match ValidatePolicy(Merge(g.policy, req.action.patch))
      case Err(reason) => Err(Invalid(reason))
      case Ok(value) =>
        Ok(RecordChange(g.(policy := value), req, PolicyUpdated, None, None, None, None, Some(value), None, None))
  }

  function OwnMessageIds(g: Group): set<Token> {
    set s | s in g.messages && g.messages[s].receipt.message.Some? :: g.messages[s].receipt.message.value
  }

  /** `hosted_group_send`: the event counter moves, the state version does not. */
  function SendMessage(g: Group, env: Env, req: Request): Result<Commit, HostError>
    requires req.action.Send?
  {
    var refusal := Refusal(g, req.sender, Known(SendPermission));
    var id := req.action.messageId;
    if refusal.Some? then Err(refusal.value)
    else if !HasCapacity(env, |RemoteMembers(g)|, false) then Err(BacklogFull)
    else if id in env.takenMessages || id in OwnMessageIds(g) then Err(MessageIdConflict)
    else
      var eventSeq := g.eventSeq + 1;
      var receipt := NewReceipt(g, req, g.version, eventSeq, Some(id));
      var message := Message(g.gid, g.version, eventSeq, req.time, receipt, req.action.content);
      var result := OpResult(None, None, g.version, eventSeq, receipt);
      var after := g.(eventSeq := eventSeq, events := g.events + [Sent(id)],
                      messages := g.messages[eventSeq := message],
                      operations := g.operations[req.Key() := OpRecord(req.digest, req.wire, result)]);
      Ok(Commit(after, RowsFor(after, MessageNotice(message), RemoteMembers(after), eventSeq, req.time), result, false))
  }

  function Handle(g: Group, env: Env, req: Request): Result<Commit, HostError> {
    match req.action
    case Join(home) =>
      if !OpenJoin(g.policy) then Err(PolicyViolation)
      else Activate(g, env, req, req.sender, MemberRole, home)
    case Add(member, role, home) =>
      var refusal := Refusal(g, req.sender, Known(AddPermission));
      if refusal.Some? then Err(refusal.value) else Activate(g, env, req, member, role, home)
    case Leave =>
      if !IsActive(g, req.sender) then Err(NotMember) else Depart(g, env, req, req.sender, Left, MemberLeft)
    case Remove(member) =>
      var refusal := Refusal(g, req.sender, Known(RemovePermission));
      if refusal.Some? then Err(refusal.value)
      else if !IsActive(g, member) then Err(NotMember)
      else Depart(g, env, req, member, Removed, MemberRemoved)
    case UpdateProfile(_) => Update(g, env, req, Known(UpdateProfilePermission))
    case UpdatePolicy(_) => Update(g, env, req, Known(UpdatePolicyPermission))
    case Send(_, _) => SendMessage(g, env, req)
  }

  predicate MissingPatch(action: Action) {
    (action.UpdateProfile? || action.UpdatePolicy?) && !action.patch.Obj?
  }

  /** One request: the protocol fence, then replay of a recorded operation, then the handler. */
  function Execute(g: Group, env: Env, req: Request): Result<Commit, HostError> {
    if MissingPatch(req.action) then Err(PatchRequired)
    else if req.wire != g.wire then Err(ProtocolMismatch)
    else if g.quiescing then Err(UpgradeInProgress)
    else if req.Key() in g.operations then
      var recorded := g.operations[req.Key()];
      if recorded.wire != req.wire || recorded.digest != req.digest then Err(OperationConflict)
      else Ok(Commit(g, map[], recorded.result, true))
    else Handle(g, env, req)
  }

  // ------------------------------------------------------------------------------------------
  // Creation
  // ------------------------------------------------------------------------------------------

  datatype Initial = Initial(member: Did, role: Role, home: Did)

  /** The loop over `initial_members`: a DID may be seated once. */
  function Seat(roster: map<Did, Member>, initial: seq<Initial>): Option<map<Did, Member>>
    decreases |initial|
  {
    if initial == [] then Some(roster)
    else if initial[0].member in roster then None
    else Seat(roster[initial[0].member := Member(initial[0].role, Active, initial[0].home)], initial[1..])
  }

  /** `hosted_group_create`; nothing is enqueued for the initial members. */
  function Create(gid: Did, host: Did, wire: Wire, creator: Did, profile: Json, policy: Json, initial: seq<Initial>): Result<Group, HostError> {
    match ValidateProfile(profile)
    case Err(reason) => Err(Invalid(reason))
    case Ok(storedProfile) =>
      match ValidatePolicy(policy)
      case Err(reason) => Err(Invalid(reason))
      case Ok(storedPolicy) =>
        match Seat(map[creator := Member(OwnerRole, Active, host)], initial)
        case None => Err(InitialMemberDuplicate)
        case Some(roster) =>
          var limit := MemberLimit(storedPolicy);
          if limit.None? || |initial| + 1 > limit.value then Err(MembersExceeded)
          else Ok(Group(gid, host, wire, false, 1, 1, storedProfile, storedPolicy, roster, [Created], map[], map[]))
  }
}
