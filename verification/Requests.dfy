/** Who may ask a Host for what, and what an accepted request leaves behind. */
module Requests {
  import opened Common
  import opened MergePatch
  import opened GroupPolicy
  import opened GroupTypes
  import opened Outbox
  import opened GroupHost
  import opened GroupHistory
  import Decimal

  // ------------------------------------------------------------------------------------------
  // Who may
  // ------------------------------------------------------------------------------------------

  /** A role stands at or above the one a policy names: member below admin below owner. */
  predicate AtLeast(role: Role, named: Json) {
    || named == Str(Known(MemberName))
    || (named == Str(Known(AdminName)) && (role == AdminRole || role == OwnerRole))
    || (named == Str(Known(OwnerName)) && role == OwnerRole)
  }

  predicate NamesRole(named: Json) {
    named == Str(Known(MemberName)) || named == Str(Known(AdminName)) || named == Str(Known(OwnerName))
  }

  /** What a policy's permissions say under a word; null when they say nothing. */
  function Under(policy: Json, word: Word): Json {
    if policy.Obj? && Known(Permissions) in policy.fields && policy.fields[Known(Permissions)].Obj?
       && Known(word) in policy.fields[Known(Permissions)].fields
    then policy.fields[Known(Permissions)].fields[Known(word)]
    else Null
  }

  /** The word under which the policy guards an action; joining and leaving have none. */
  function WordFor(action: Action): Option<Word> {
    match action
    case Add(_, _, _) => Some(AddPermission)
    case Remove(_) => Some(RemovePermission)
    case UpdateProfile(_) => Some(UpdateProfilePermission)
    case UpdatePolicy(_) => Some(UpdatePolicyPermission)
    case Send(_, _) => Some(SendPermission)
    case Join(_) => None
    case Leave => None
  }

  predicate Entitled(g: Group, sender: Did, word: Word) {
    sender in g.roster && g.roster[sender].status == Active && AtLeast(g.roster[sender].role, Under(g.policy, word))
  }

  /** An open group admits whoever asks; a member may always leave; everything else takes a role. */
  predicate Permitted(g: Group, req: Request) {
    match req.action
    case Join(_) => g.policy.Obj? && Known(AdmissionMode) in g.policy.fields && g.policy.fields[Known(AdmissionMode)] == Str(Known(OpenJoinMode))
    case Leave => req.sender in g.roster && g.roster[req.sender].status == Active
    case _ => Entitled(g, req.sender, WordFor(req.action).value)
  }

  /** Not stopped before the handler, nor answered from the recorded operations. */
  predicate Reaches(g: Group, req: Request) {
    && (req.action.UpdateProfile? ==> req.action.patch.Obj?) && (req.action.UpdatePolicy? ==> req.action.patch.Obj?)
    && req.wire == g.wire && !g.quiescing && req.Key() !in g.operations
  }

  lemma UnrefusedIsEntitled(g: Group, sender: Did, word: Word)
    requires Refusal(g, sender, Known(word)).None?
    ensures Entitled(g, sender, word)
  {
  }

  lemma HandledIsUnrefused(g: Group, env: Env, req: Request)
    requires Handle(g, env, req).Ok? && WordFor(req.action).Some?
    ensures Refusal(g, req.sender, Known(WordFor(req.action).value)).None?
  {
    hide Activate, Depart, HasCapacity, RecordChange, ValidatePolicy, ValidateProfile, Merge, Refusal, RowsFor, OwnMessageIds;
  }

  /** What an accepted new request was permitted by: an active sender of sufficient role, or open admission. */
  lemma AcceptedIsPermitted(g: Group, env: Env, req: Request)
    requires Execute(g, env, req).Ok? && !Execute(g, env, req).value.replay
    ensures Reaches(g, req) && Permitted(g, req)
  {
    if WordFor(req.action).Some? {
      hide Handle, Entitled;
      HandledIsUnrefused(g, env, req);
      UnrefusedIsEntitled(g, req.sender, WordFor(req.action).value);
    } else {
      hide Activate, Depart, Update, SendMessage, Refusal;
    }
  }

  /** Permission is denied to active senders below the named role, and to nobody else. */
  lemma DeniedIff(g: Group, env: Env, req: Request)
    ensures Execute(g, env, req) == Err(PermissionDenied) <==>
              && Reaches(g, req) && WordFor(req.action).Some?
              && req.sender in g.roster && g.roster[req.sender].status == Active
              && NamesRole(Under(g.policy, WordFor(req.action).value))
              && !AtLeast(g.roster[req.sender].role, Under(g.policy, WordFor(req.action).value))
  {
    hide HasCapacity, RecordChange, ValidatePolicy, ValidateProfile, Merge, RowsFor;
  }

  // ------------------------------------------------------------------------------------------
  // When it is accepted
  // ------------------------------------------------------------------------------------------

  /** Whose membership an action is about. */
  function SubjectOf(req: Request): Option<Did> {
    match req.action
    case Join(_) => Some(req.sender)
    case Add(member, _, _) => Some(member)
    case Leave => Some(req.sender)
    case Remove(member) => Some(member)
    case _ => None
  }

  /** Who will hear of an accepted request on another server: v1 does not tell the one who departs. */
  function Audience(g: Group, req: Request): set<Did> {
    var remote := set d | d in g.roster && g.roster[d].status == Active && g.roster[d].home != g.host;
    match req.action
    case Join(home) => remote + if home != g.host then {req.sender} else {}
    case Add(member, _, home) => remote + if home != g.host then {member} else {}
    case Leave => if req.wire == BaseV2 then remote else remote - {req.sender}
    case Remove(member) => if req.wire == BaseV2 then remote else remote - {member}
    case _ => remote
  }

  /** One percent of the limit, at least ten and at most a hundred rows, is kept for management. */
  predicate Room(env: Env, rows: nat, management: bool) {
    var onePercent := env.maxPending / 100;
    var reserve := if onePercent < 10 then 10 else if onePercent > 100 then 100 else onePercent;
    rows == 0 || env.pending + rows <= if management then env.maxPending + reserve else env.maxPending
  }

  /** The subject is where the action can take it from. */
  predicate SubjectFits(g: Group, req: Request) {
    match req.action
    case Join(_) => !IsActive(g, req.sender)
    case Add(member, _, _) => !IsActive(g, member)
    case Leave => IsActive(g, req.sender)
    case Remove(member) => IsActive(g, member)
    case _ => true
  }

  /** A seat is free under the group's own limit, whose text the policy holds. */
  ghost predicate SeatFree(g: Group, req: Request) {
    req.action.Join? || req.action.Add? ==>
      exists limit: nat :: MembersNamed(g.policy, limit) && |set d | d in g.roster && g.roster[d].status == Active| < limit
  }

  ghost predicate MembersNamed(policy: Json, limit: nat) {
    policy.Obj? && Known(MaxMembers) in policy.fields && policy.fields[Known(MaxMembers)] == Str(Text(Decimal.Print(limit)))
  }

  /** The new document is valid, the message's id unused anywhere. */
  predicate ContentFits(g: Group, env: Env, req: Request) {
    match req.action
    case UpdateProfile(patch) => ValidateProfile(Merge(g.profile, patch)).Ok?
    case UpdatePolicy(patch) => ValidatePolicy(Merge(g.policy, patch)).Ok?
    case Send(id, _) => id !in env.takenMessages && forall s :: s in g.messages ==> g.messages[s].receipt.message != Some(id)
    case _ => true
  }

  lemma LimitIsNamed(policy: Json) returns (limit: nat)
    requires ValidPolicy(policy)
    ensures MembersNamed(policy, limit) && MemberLimit(policy) == Some(limit)
    ensures forall n: nat :: MembersNamed(policy, n) ==> n == limit
  {
    limit :| 1 <= limit <= MAX_MEMBERS && policy.fields[Known(MaxMembers)] == Str(Text(Decimal.Print(limit)));
    PrintedLimitReadsBack(limit);
    forall n: nat | MembersNamed(policy, n)
      ensures n == limit
    {
      PrintedLimitReadsBack(n);
    }
  }

  lemma BacklogDecided(env: Env, rows: nat, management: bool)
    ensures HasCapacity(env, rows, management) <==> Room(env, rows, management)
  {
  }

  lemma ActivationAudience(g: Group, req: Request, target: Did, role: Role, home: Did)
    requires (req.action == Join(home) && target == req.sender) || (req.action == Add(target, role, home))
    requires !IsActive(g, target)
    ensures RemoteMembers(g.(roster := g.roster[target := Member(role, Active, home)])) == Audience(g, req)
  {
  }

  lemma DepartureAudience(g: Group, req: Request, target: Did, status: Status)
    requires (req.action == Leave && target == req.sender) || req.action == Remove(target)
    requires IsActive(g, target) && status != Active
    ensures req.wire == BaseV2 ==> RemoteMembers(g) == Audience(g, req)
    ensures req.wire != BaseV2 ==>
              RemoteMembers(g.(roster := g.roster[target := g.roster[target].(status := status)])) == Audience(g, req)
  {
  }

  lemma ActivationAcceptedIff(g: Group, env: Env, req: Request, target: Did, role: Role, home: Did)
    requires (req.action == Join(home) && target == req.sender) || (req.action == Add(target, role, home))
    requires ValidPolicy(g.policy)
    ensures Activate(g, env, req, target, role, home).Ok? <==>
              !IsActive(g, target) && SeatFree(g, req) && Room(env, |Audience(g, req)|, true)
    ensures Activate(g, env, req, target, role, home).Err? ==>
              match Activate(g, env, req, target, role, home).error
              case MemberAlreadyActive => IsActive(g, target)
              case MembersExceeded => !SeatFree(g, req)
              case BacklogFull => !Room(env, |Audience(g, req)|, true)
              case _ => false
  {
    hide RecordChange, ValidPolicy, MemberLimit, HasCapacity, Audience, RemoteMembers, Room, MembersNamed;
    var limit := LimitIsNamed(g.policy);
    assert ActiveMembers(g) == set d | d in g.roster && g.roster[d].status == Active;
    if !IsActive(g, target) {
      ActivationAudience(g, req, target, role, home);
      BacklogDecided(env, |Audience(g, req)|, true);
    }
  }

  lemma DepartureAcceptedIff(g: Group, env: Env, req: Request, target: Did, status: Status, etype: EventType)
    requires (req.action == Leave && target == req.sender) || req.action == Remove(target)
    requires IsActive(g, target) && status != Active
    ensures Depart(g, env, req, target, status, etype).Ok? <==> Room(env, |Audience(g, req)|, true)
    ensures Depart(g, env, req, target, status, etype).Err? ==> Depart(g, env, req, target, status, etype) == Err(BacklogFull)
  {
    hide RecordChange, HasCapacity, Audience, RemoteMembers, Room;
    DepartureAudience(g, req, target, status);
    BacklogDecided(env, |Audience(g, req)|, true);
  }

  lemma RefusalDecided(g: Group, sender: Did, word: Word)
    requires ValidPolicy(g.policy) && Known(word) in PERMISSION_KEYS
    ensures Refusal(g, sender, Known(word)).None? <==> Entitled(g, sender, word)
    ensures Refusal(g, sender, Known(word)).Some? ==>
              Refusal(g, sender, Known(word)).value == if IsActive(g, sender) then PermissionDenied else NotMember
  {
    assert RoleNamed(Under(g.policy, word)).Some?;
  }

  lemma UpdateAcceptedIff(g: Group, env: Env, req: Request, word: Word)
    requires (req.action.UpdateProfile? && word == UpdateProfilePermission) || (req.action.UpdatePolicy? && word == UpdatePolicyPermission)
    requires ValidPolicy(g.policy)
    ensures Update(g, env, req, Known(word)).Ok? <==>
              Entitled(g, req.sender, word) && Room(env, |Audience(g, req)|, true) && ContentFits(g, env, req)
    ensures Update(g, env, req, Known(word)).Err? ==>
              match Update(g, env, req, Known(word)).error
              case NotMember => !IsActive(g, req.sender)
              case PermissionDenied => IsActive(g, req.sender) && !Entitled(g, req.sender, word)
              case BacklogFull => !Room(env, |Audience(g, req)|, true)
              case Invalid(reason) => !ContentFits(g, env, req)
              case _ => false
  {
    hide RecordChange, HasCapacity, Room, Refusal, Entitled, ValidPolicy, ValidatePolicy, ValidateProfile, Merge;
    RefusalDecided(g, req.sender, word);
    BacklogDecided(env, |Audience(g, req)|, true);
    assert RemoteMembers(g) == Audience(g, req);
  }

  lemma SendAcceptedIff(g: Group, env: Env, req: Request)
    requires req.action.Send? && ValidPolicy(g.policy)
    ensures SendMessage(g, env, req).Ok? <==>
              Entitled(g, req.sender, SendPermission) && Room(env, |Audience(g, req)|, false) && ContentFits(g, env, req)
    ensures SendMessage(g, env, req).Err? ==>
              match SendMessage(g, env, req).error
              case NotMember => !IsActive(g, req.sender)
              case PermissionDenied => IsActive(g, req.sender) && !Entitled(g, req.sender, SendPermission)
              case BacklogFull => !Room(env, |Audience(g, req)|, false)
              case MessageIdConflict => !ContentFits(g, env, req)
              case _ => false
  {
    hide HasCapacity, Room, Refusal, Entitled, ValidPolicy, RowsFor;
    RefusalDecided(g, req.sender, SendPermission);
    BacklogDecided(env, |Audience(g, req)|, false);
    assert RemoteMembers(g) == Audience(g, req);
  }

  /** Everything a new request has to meet once it reaches its handler. */
  ghost predicate Acceptable(g: Group, env: Env, req: Request) {
    && Permitted(g, req) && SubjectFits(g, req) && SeatFree(g, req)
    && Room(env, |Audience(g, req)|, !req.action.Send?) && ContentFits(g, env, req)
  }

  /** The true reason behind each refusal of a handler. */
  ghost predicate Reason(g: Group, env: Env, req: Request, e: HostError) {
    match e
    case PolicyViolation => req.action.Join? && !Permitted(g, req)
    case NotMember => !IsActive(g, req.sender) || (req.action.Remove? && !SubjectFits(g, req))
    case PermissionDenied => IsActive(g, req.sender) && !Permitted(g, req)
    case MemberAlreadyActive => (req.action.Join? || req.action.Add?) && !SubjectFits(g, req)
    case MembersExceeded => !SeatFree(g, req)
    case BacklogFull => !Room(env, |Audience(g, req)|, !req.action.Send?)
    case Invalid(_) => (req.action.UpdateProfile? || req.action.UpdatePolicy?) && !ContentFits(g, env, req)
    case MessageIdConflict => req.action.Send? && !ContentFits(g, env, req)
    case _ => false
  }

  lemma HandledIff(g: Group, env: Env, req: Request)
    requires ValidPolicy(g.policy) && !MissingPatch(req.action)
    ensures Handle(g, env, req).Ok? <==> Acceptable(g, env, req)
    ensures Handle(g, env, req).Err? ==> Reason(g, env, req, Handle(g, env, req).error)
  {
    hide Activate, Depart, Update, SendMessage, Refusal, Entitled, Audience, Room, ValidPolicy, ContentFits, SeatFree;
    match req.action {
      case Join(home) =>
        ActivationAcceptedIff(g, env, req, req.sender, MemberRole, home);
        UnguardedContentFits(g, env, req);
      case Add(member, role, home) =>
        RefusalDecided(g, req.sender, AddPermission);
        ActivationAcceptedIff(g, env, req, member, role, home);
        UnguardedContentFits(g, env, req);
      case Leave =>
        UnguardedContentFits(g, env, req);
        if IsActive(g, req.sender) {
          DepartureAcceptedIff(g, env, req, req.sender, Left, MemberLeft);
        }
      case Remove(member) =>
        RefusalDecided(g, req.sender, RemovePermission);
        UnguardedContentFits(g, env, req);
        if IsActive(g, member) {
          DepartureAcceptedIff(g, env, req, member, Removed, MemberRemoved);
        }
      case UpdateProfile(_) =>
        UnguardedContentFits(g, env, req);
        UpdateAcceptedIff(g, env, req, UpdateProfilePermission);
      case UpdatePolicy(_) =>
        UnguardedContentFits(g, env, req);
        UpdateAcceptedIff(g, env, req, UpdatePolicyPermission);
      case Send(_, _) =>
        UnguardedContentFits(g, env, req);
        SendAcceptedIff(g, env, req);
    }
  }

  lemma UnguardedContentFits(g: Group, env: Env, req: Request)
    ensures req.action.Join? || req.action.Add? || req.action.Leave? || req.action.Remove? ==> ContentFits(g, env, req)
    ensures !req.action.Join? && !req.action.Add? ==> SeatFree(g, req)
  {
  }

  /**
   * A group with a stored policy accepts a new request if and only if it reaches its handler, is
   * permitted, finds its subject where it can be taken from and a seat free under the group's own
   * limit, carries valid content, and everyone who will be told fits into the backlog. It answers a
   * repeated one if and only if profile and payload are those recorded. Every refusal names a reason
   * that holds.
   */
  lemma AcceptedIff(g: Group, env: Env, req: Request)
    requires ValidPolicy(g.policy)
    ensures Execute(g, env, req).Ok? && !Execute(g, env, req).value.replay <==> Reaches(g, req) && Acceptable(g, env, req)
    ensures Execute(g, env, req).Ok? && Execute(g, env, req).value.replay <==>
              && !MissingPatch(req.action) && req.wire == g.wire && !g.quiescing && req.Key() in g.operations
              && g.operations[req.Key()].wire == req.wire && g.operations[req.Key()].digest == req.digest
    ensures Execute(g, env, req).Err? ==>
              match Execute(g, env, req).error
              case PatchRequired => (req.action.UpdateProfile? || req.action.UpdatePolicy?) && !req.action.patch.Obj?
              case ProtocolMismatch => req.wire != g.wire
              case UpgradeInProgress => g.quiescing
              case OperationConflict =>
                && req.Key() in g.operations
                && (g.operations[req.Key()].wire != req.wire || g.operations[req.Key()].digest != req.digest)
              case other => Reaches(g, req) && Reason(g, env, req, other)
  {
    hide Handle, Acceptable, ValidPolicy, Reason;
    if Reaches(g, req) {
      HandledIff(g, env, req);
      HandledAnew(g, env, req);
      if Handle(g, env, req).Err? {
        ReasonIsHandlers(g, env, req, Handle(g, env, req).error);
      }
    }
  }

  lemma HandledAnew(g: Group, env: Env, req: Request)
    ensures Handle(g, env, req).Ok? ==> !Handle(g, env, req).value.replay
  {
    hide Refusal, HasCapacity, RowsFor, ValidatePolicy, ValidateProfile, Merge, OpenJoin, MemberLimit, OwnMessageIds;
  }

  lemma ReasonIsHandlers(g: Group, env: Env, req: Request, e: HostError)
    requires Reason(g, env, req, e)
    ensures !e.PatchRequired? && !e.ProtocolMismatch? && !e.UpgradeInProgress? && !e.OperationConflict?
  {
  }

  // ------------------------------------------------------------------------------------------
  // What it leaves behind
  // ------------------------------------------------------------------------------------------

  function MethodOf(action: Action): Method {
    match action
    case Join(_) => GroupJoin
    case Add(_, _, _) => GroupAdd
    case Leave => GroupLeave
    case Remove(_) => GroupRemove
    case UpdateProfile(_) => GroupUpdateProfile
    case UpdatePolicy(_) => GroupUpdatePolicy
    case Send(_, _) => GroupSend
  }

  /** The roster asked for: one member seated as requested, or its status ended; nobody else touched. */
  ghost predicate RosterAsked(g: Group, req: Request, roster: map<Did, Member>) {
    match req.action
    case Join(home) => roster == g.roster[req.sender := Member(MemberRole, Active, home)]
    case Add(member, role, home) => roster == g.roster[member := Member(role, Active, home)]
    case Leave => req.sender in g.roster && roster == g.roster[req.sender := g.roster[req.sender].(status := Left)]
    case Remove(member) => member in g.roster && roster == g.roster[member := g.roster[member].(status := Removed)]
    case _ => roster == g.roster
  }

  /** The documents asked for: the one named by the action is patched, the other as it was. */
  predicate DocumentsAsked(g: Group, req: Request, profile: Json, policy: Json) {
    match req.action
    case UpdateProfile(patch) => ValidateProfile(Merge(g.profile, patch)) == Ok(profile) && policy == g.policy
    case UpdatePolicy(patch) => ValidatePolicy(Merge(g.policy, patch)) == Ok(policy) && profile == g.profile
    case _ => profile == g.profile && policy == g.policy
  }

  /** The receipt names the request and the event it became. */
  predicate ReceiptAsked(g: Group, req: Request, version: int, receipt: Receipt) {
    && receipt.gid == g.gid && receipt.version == version && receipt.eventSeq == g.eventSeq + 1
    && receipt.op == MethodOf(req.action) && receipt.opId == req.opId && receipt.actor == req.sender
    && receipt.digest == req.digest && receipt.acceptedAt == req.time
    && receipt.message == if req.action.Send? then Some(req.action.messageId) else None
  }

  /** A management request's notification says who changed to what, and carries the documents it should. */
  predicate EventAsked(g: Group, req: Request, g': Group, e: Event) {
    && e.gid == g.gid && e.version == g.version + 1 && e.eventSeq == g.eventSeq + 1
    && e.op == MethodOf(req.action) && e.subject == SubjectOf(req) && ReceiptAsked(g, req, g.version + 1, e.receipt)
    && match req.action
       case Join(_) =>
         && e.etype == MemberActivated && e.status == Some(Active) && e.role == Some(MemberRole)
         && e.profile == Some(g'.profile) && e.policy == Some(g'.policy)
       case Add(_, role, _) =>
         && e.etype == MemberActivated && e.status == Some(Active) && e.role == Some(role)
         && e.profile == Some(g'.profile) && e.policy == Some(g'.policy)
       case Leave => e.etype == MemberLeft && e.status == Some(Left) && e.role == None && e.profile == None && e.policy == None
       case Remove(_) => e.etype == MemberRemoved && e.status == Some(Removed) && e.role == None && e.profile == None && e.policy == None
       case UpdateProfile(_) => e.etype == ProfileUpdated && e.status == None && e.role == None && e.profile == Some(g'.profile) && e.policy == None
       case UpdatePolicy(_) => e.etype == PolicyUpdated && e.status == None && e.role == None && e.profile == None && e.policy == Some(g'.policy)
       case Send(_, _) => false
  }

  /** A send's row: the client's content under the client's id, as of now. */
  predicate MessageAsked(g: Group, req: Request, m: Message) {
    && req.action.Send? && m.gid == g.gid && m.version == g.version && m.eventSeq == g.eventSeq + 1
    && m.acceptedAt == req.time && m.content == req.action.content && ReceiptAsked(g, req, g.version, m.receipt)
  }

  /** The stored answer repeats the numbers and the receipt, and names whose membership it was. */
  predicate ResultAsked(g: Group, req: Request, g': Group, result: OpResult) {
    && result.version == g'.version && result.eventSeq == g.eventSeq + 1 && ReceiptAsked(g, req, g'.version, result.receipt)
    && result.leaver == (if req.action.Leave? then Some(req.sender) else None)
    && result.member == (if req.action.Leave? then None else SubjectOf(req))
  }

  /** One pending row for each of the audience, all with the same notification. */
  ghost predicate Told(g: Group, req: Request, g': Group, notice: Notice, rows: Rows) {
    && (forall k :: k in rows <==>
          && k.gid == g.gid && k.eventSeq == g.eventSeq + 1 && k.target in Audience(g, req)
          && k.kind == if req.action.Send? then MessageKind else StateKind)
    && (forall k :: k in rows ==>
          && k.target in g'.roster
          && rows[k] == Row(notice, g.wire, g'.roster[k.target].home, Pending, 0, req.time, req.time))
  }

  /** Everything an accepted new request does. */
  ghost predicate Does(g: Group, req: Request, c: Commit) {
    var g' := c.group;
    && g'.gid == g.gid && g'.host == g.host && g'.wire == g.wire && g'.quiescing == g.quiescing
    && g'.eventSeq == g.eventSeq + 1 && g'.version == (if req.action.Send? then g.version else g.version + 1)
    && RosterAsked(g, req, g'.roster) && DocumentsAsked(g, req, g'.profile, g'.policy)
    && ResultAsked(g, req, g', c.result)
    && g'.operations == g.operations[OpKey(req.sender, MethodOf(req.action), req.opId) := OpRecord(req.digest, req.wire, c.result)]
    && if req.action.Send? then
         && g'.eventSeq in g'.messages && MessageAsked(g, req, g'.messages[g'.eventSeq])
         && g'.messages == g.messages[g'.eventSeq := g'.messages[g'.eventSeq]]
         && g'.events == g.events + [Sent(req.action.messageId)]
         && Told(g, req, g', MessageNotice(g'.messages[g'.eventSeq]), c.rows)
       else
         && g'.messages == g.messages && |g'.events| == |g.events| + 1 && g.events == g'.events[..|g.events|]
         && g'.events[|g.events|].Changed? && EventAsked(g, req, g', g'.events[|g.events|].event)
         && Told(g, req, g', StateNotice(g'.events[|g.events|].event), c.rows)
  }

  lemma RecordingTells(g: Group, req: Request, base: Group, c: Commit, etype: EventType,
                       subject: Option<Did>, status: Option<Status>, role: Option<Role>,
                       profile: Option<Json>, policy: Option<Json>, leaver: Option<Did>, member: Option<Did>)
    requires base == g.(roster := base.roster, profile := base.profile, policy := base.policy) && !req.action.Send?
    requires c == RecordChange(base, req, etype, subject, status, role, profile, policy, leaver, member)
    requires ChangeTargets(c.group, c.group.events[|g.events|].event) == Audience(g, req)
    ensures c.group.roster == base.roster && c.group.profile == base.profile && c.group.policy == base.policy
    ensures Told(g, req, c.group, StateNotice(c.group.events[|g.events|].event), c.rows)
  {
    hide Audience, ChangeTargets, RemoteMembers;
    TargetsSeated(c.group, c.group.events[|g.events|].event);
  }

  lemma TargetsSeated(g: Group, e: Event)
    ensures ChangeTargets(g, e) <= g.roster.Keys
  {
  }

  lemma ActivationDoes(g: Group, env: Env, req: Request, target: Did, role: Role, home: Did, c: Commit)
    requires (req.action == Join(home) && target == req.sender && role == MemberRole) || req.action == Add(target, role, home)
    requires Activate(g, env, req, target, role, home) == Ok(c)
    ensures Does(g, req, c)
  {
    hide Activate, Told, Audience, RowsFor, ChangeTargets;
    ActivateRecords(g, env, req, target, role, home, c);
    var base := g.(roster := g.roster[target := Member(role, Active, home)]);
    ActivationTargets(g, req, target, role, home, c.group, c.group.events[|g.events|].event);
    RecordingTells(g, req, base, c, MemberActivated, Some(target), Some(Active), Some(role), Some(g.profile), Some(g.policy), None, Some(target));
  }

  lemma ActivationTargets(g: Group, req: Request, target: Did, role: Role, home: Did, g': Group, e: Event)
    requires (req.action == Join(home) && target == req.sender) || req.action == Add(target, role, home)
    requires !IsActive(g, target) && g'.roster == g.roster[target := Member(role, Active, home)] && g'.host == g.host
    requires e.etype == MemberActivated
    ensures ChangeTargets(g', e) == Audience(g, req)
  {
    hide Audience;
    ActivationAudience(g, req, target, role, home);
  }

  lemma DepartureDoes(g: Group, env: Env, req: Request, target: Did, status: Status, etype: EventType, c: Commit)
    requires (req.action == Leave && target == req.sender && status == Left && etype == MemberLeft)
          || (req.action == Remove(target) && status == Removed && etype == MemberRemoved)
    requires IsActive(g, target) && g.wire == req.wire && Depart(g, env, req, target, status, etype) == Ok(c)
    ensures Does(g, req, c)
  {
    hide Told, Audience, RowsFor, ChangeTargets, HasCapacity, RemoteMembers;
    var base := g.(roster := g.roster[target := g.roster[target].(status := status)]);
    DepartureTargets(g, req, target, status, c.group, c.group.events[|g.events|].event);
    RecordingTells(g, req, base, c, etype, Some(target), Some(status), None, None, None,
                   if etype == MemberLeft then Some(target) else None, if etype == MemberLeft then None else Some(target));
  }

  lemma DepartureTargets(g: Group, req: Request, target: Did, status: Status, g': Group, e: Event)
    requires (req.action == Leave && target == req.sender) || req.action == Remove(target)
    requires IsActive(g, target) && status != Active && g.wire == req.wire == g'.wire && g'.host == g.host
    requires g'.roster == g.roster[target := g.roster[target].(status := status)]
    requires Departure(e) && e.subject == Some(target)
    ensures ChangeTargets(g', e) == Audience(g, req)
  {
  }

  lemma UpdateDoes(g: Group, env: Env, req: Request, permission: Name, c: Commit)
    requires req.action.UpdateProfile? || req.action.UpdatePolicy?
    requires Update(g, env, req, permission) == Ok(c)
    ensures Does(g, req, c)
  {
    hide Update, Told, Audience, RowsFor, ChangeTargets, ValidatePolicy, ValidateProfile, Merge;
    UpdateRecords(g, env, req, permission, c);
    UpdateTargets(g, req, c.group, c.group.events[|g.events|].event);
    if req.action.UpdateProfile? {
      var value := c.group.profile;
      RecordingTells(g, req, g.(profile := value), c, ProfileUpdated, None, None, None, Some(value), None, None, None);
    } else {
      var value := c.group.policy;
      RecordingTells(g, req, g.(policy := value), c, PolicyUpdated, None, None, None, None, Some(value), None, None);
    }
  }

  lemma UpdateTargets(g: Group, req: Request, g': Group, e: Event)
    requires (req.action.UpdateProfile? || req.action.UpdatePolicy?) && g'.roster == g.roster && g'.host == g.host && e.subject == None
    ensures ChangeTargets(g', e) == Audience(g, req)
  {
  }

  lemma SendDoes(g: Group, env: Env, req: Request, c: Commit)
    requires req.action.Send? && SendMessage(g, env, req) == Ok(c)
    ensures Does(g, req, c)
  {
    hide Refusal, HasCapacity, OwnMessageIds, Told, RowsFor, RemoteMembers, Audience;
    SentAudience(g, req, c.group);
    SeatedAudience(g, req);
    RowsTell(g, req, c.group, MessageNotice(c.group.messages[c.group.eventSeq]));
  }

  lemma SentAudience(g: Group, req: Request, g': Group)
    requires req.action.Send? && g'.roster == g.roster && g'.host == g.host
    ensures RemoteMembers(g') == Audience(g, req)
  {
  }

  lemma SeatedAudience(g: Group, req: Request)
    requires req.action.Send?
    ensures Audience(g, req) <= g.roster.Keys
  {
  }

  lemma RowsTell(g: Group, req: Request, g': Group, notice: Notice)
    requires g'.gid == g.gid && g'.wire == g.wire && g'.eventSeq == g.eventSeq + 1 && Audience(g, req) <= g'.roster.Keys
    requires notice.Kind() == if req.action.Send? then MessageKind else StateKind
    ensures Told(g, req, g', notice, RowsFor(g', notice, Audience(g, req), g'.eventSeq, req.time))
  {
    hide Audience;
  }

  /** An accepted new request does what it asked for, and nothing else. */
  lemma CommitDoes(g: Group, env: Env, req: Request, c: Commit)
    requires Execute(g, env, req) == Ok(c) && !c.replay
    ensures Does(g, req, c)
  {
    hide Activate, Depart, Update, SendMessage, Does, OpenJoin, Refusal;
    match req.action {
      case Join(home) => ActivationDoes(g, env, req, req.sender, MemberRole, home, c);
      case Add(member, role, home) => ActivationDoes(g, env, req, member, role, home, c);
      case Leave => DepartureDoes(g, env, req, req.sender, Left, MemberLeft, c);
      case Remove(member) => DepartureDoes(g, env, req, member, Removed, MemberRemoved, c);
      case UpdateProfile(_) => UpdateDoes(g, env, req, Known(UpdateProfilePermission), c);
      case UpdatePolicy(_) => UpdateDoes(g, env, req, Known(UpdatePolicyPermission), c);
      case Send(_, _) => SendDoes(g, env, req, c);
    }
  }

  // ------------------------------------------------------------------------------------------
  // Creation
  // ------------------------------------------------------------------------------------------

  /** Every DID is named once, and none twice over. */
  predicate NamedOnce(taken: set<Did>, initial: seq<Initial>) {
    && (forall i :: 0 <= i < |initial| ==> initial[i].member !in taken)
    && (forall i, j :: 0 <= i < j < |initial| ==> initial[i].member != initial[j].member)
  }

  predicate SeatedAs(roster: map<Did, Member>, seat: Initial) {
    seat.member in roster && roster[seat.member] == Member(seat.role, Active, seat.home)
  }

  lemma {:induction false} SeatingIsExact(roster: map<Did, Member>, initial: seq<Initial>)
    ensures Seat(roster, initial).Some? <==> NamedOnce(roster.Keys, initial)
    ensures Seat(roster, initial).Some? ==>
              && (forall d :: d in roster ==> d in Seat(roster, initial).value && Seat(roster, initial).value[d] == roster[d])
              && (forall i :: 0 <= i < |initial| ==> SeatedAs(Seat(roster, initial).value, initial[i]))
              && (forall d :: d in Seat(roster, initial).value ==> d in roster || exists i :: 0 <= i < |initial| && initial[i].member == d)
    decreases |initial|
  {
    if initial != [] {
      var first := initial[0];
      var more := roster[first.member := Member(first.role, Active, first.home)];
      SeatingIsExact(more, initial[1..]);
      assert forall i :: 0 < i < |initial| ==> initial[i] == initial[1..][i - 1];
      if NamedOnce(roster.Keys, initial) {
        assert NamedOnce(more.Keys, initial[1..]);
      }
      if first.member !in roster && NamedOnce(more.Keys, initial[1..]) {
        forall i, j | 0 <= i < j < |initial|
          ensures initial[i].member != initial[j].member && initial[j].member !in roster
        {
          assert initial[1..][j - 1].member !in more.Keys;
        }
      }
      if Seat(roster, initial).Some? {
        var seated := Seat(roster, initial).value;
        forall d | d in seated && d !in roster
          ensures exists i :: 0 <= i < |initial| && initial[i].member == d
        {
          if d != first.member {
            var i :| 0 <= i < |initial[1..]| && initial[1..][i].member == d;
            assert initial[i + 1].member == d;
          }
        }
      }
    }
  }

  /**
   * A creation succeeds if and only if both documents validate, every initial member is named once and
   * is not the creator, and all of them fit under the group's own limit. The creator then is its owner,
   * everyone named is seated as named, and nobody else is.
   */
  lemma CreatedAsAsked(gid: Did, host: Did, wire: Wire, creator: Did, profile: Json, policy: Json, initial: seq<Initial>)
    ensures var r := Create(gid, host, wire, creator, profile, policy, initial);
            && (r.Ok? <==>
                  && ValidateProfile(profile).Ok? && ValidatePolicy(policy).Ok? && NamedOnce({creator}, initial)
                  && exists limit: nat :: MembersNamed(ValidatePolicy(policy).value, limit) && |initial| + 1 <= limit)
            && (r.Ok? ==>
                  && r.value.profile == ValidateProfile(profile).value && r.value.policy == ValidatePolicy(policy).value
                  && SeatedAs(r.value.roster, Initial(creator, OwnerRole, host))
                  && (forall i :: 0 <= i < |initial| ==> SeatedAs(r.value.roster, initial[i]))
                  && (forall d :: d in r.value.roster ==> d == creator || exists i :: 0 <= i < |initial| && initial[i].member == d))
            && (r == Err(InitialMemberDuplicate) ==> !NamedOnce({creator}, initial))
            && (r == Err(MembersExceeded) ==> forall limit: nat :: MembersNamed(ValidatePolicy(policy).value, limit) ==> |initial| + 1 > limit)
  {
    hide ValidateProfile, ValidatePolicy, ValidPolicy, MemberLimit, Seat, MembersNamed;
    var first := map[creator := Member(OwnerRole, Active, host)];
    assert first.Keys == {creator};
    SeatingIsExact(first, initial);
    ValidationIsAProjection(policy);
    if ValidatePolicy(policy).Ok? {
      var limit := LimitIsNamed(ValidatePolicy(policy).value);
    }
  }

  // ------------------------------------------------------------------------------------------
  // Over runs
  // ------------------------------------------------------------------------------------------

  /** Step i of a run committed the new request that became event s. */
  ghost predicate Becomes(g: Group, run: seq<HostMove>, i: nat, s: nat) {
    && i < |run| && run[i].Requests?
    && var before := MoveAll(g, run[..i]);
       && before.eventSeq + 1 == s
       && Execute(before, run[i].env, run[i].request).Ok? && !Execute(before, run[i].env, run[i].request).value.replay
       && Permitted(before, run[i].request)
       && Does(before, run[i].request, Execute(before, run[i].env, run[i].request).value)
  }

  lemma BecomesInPrefix(g: Group, run: seq<HostMove>, n: nat, i: nat, s: nat)
    requires i < n <= |run|
    ensures Becomes(g, run[..n], i, s) <==> Becomes(g, run, i, s)
  {
    hide MoveAll, Execute, Does, Permitted;
    assert run[..n][..i] == run[..i];
  }

  lemma MoveKeepsEvents(g: Group, genesis: GroupState, move: HostMove)
    requires Consistent(g, genesis)
    ensures g.events <= Move(g, move).events && Consistent(Move(g, move), genesis)
    ensures Move(g, move).events != g.events ==>
              && move.Requests? && Execute(g, move.env, move.request).Ok? && !Execute(g, move.env, move.request).value.replay
              && |Move(g, move).events| == |g.events| + 1
  {
    hide Consistent, Execute, Extends, LogExtends;
    match move {
      case Requests(env, request) =>
        ExecuteKeepsHistory(g, genesis, env, request);
        if Execute(g, env, request).Ok? && !Execute(g, env, request).value.replay {
          ExtensionIsLonger(g, request, Execute(g, env, request).value);
        }
      case CutsOver(wire, quiescing) => CutoverKeepsHistory(g, genesis, wire, quiescing);
    }
  }

  lemma ExtensionIsLonger(g: Group, req: Request, c: Commit)
    requires Extends(g, req, c)
    ensures g.events <= c.group.events && |c.group.events| == |g.events| + 1
  {
    hide Enqueued, OperationRecorded, WellRecorded;
  }

  /**
   * Every event in the log of every reachable group is the committed request of a sender whom the policy
   * of that moment permitted it, and says, records and sends what that request asked for.
   */
  lemma {:induction false} EveryEventWasAsked(g: Group, run: seq<HostMove>, s: nat)
    requires Consistent(g, Current(g)) && g.events == [Created]
    requires 2 <= s <= |MoveAll(g, run).events|
    ensures exists i: nat :: Becomes(g, run, i, s)
  {
    hide Consistent, Execute, Move, Does, Permitted, Current;
    var n := |run| - 1;
    assert run != [];
    RunKeepsHistory(g, Current(g), run[..n]);
    var before := MoveAll(g, run[..n]);
    MoveKeepsEvents(before, Current(g), run[n]);
    if s <= |before.events| {
      EveryEventWasAsked(g, run[..n], s);
      var i: nat :| Becomes(g, run[..n], i, s);
      BecomesInPrefix(g, run, n, i, s);
    } else {
      AcceptedIsPermitted(before, run[n].env, run[n].request);
      CommitDoes(before, run[n].env, run[n].request, Execute(before, run[n].env, run[n].request).value);
      CountedEvents(before, Current(g));
      assert Becomes(g, run, n, s);
    }
  }

  lemma CountedEvents(g: Group, genesis: GroupState)
    requires Consistent(g, genesis)
    ensures g.eventSeq == |g.events|
  {
    hide ValidPolicy, WellRecorded;
  }

  /** Step i of a run seated d in this role: d joined an open group, or someone entitled to add members added it. */
  ghost predicate SeatsIn(g: Group, run: seq<HostMove>, i: nat, d: Did, role: Role) {
    && i < |run| && run[i].Requests?
    && var before, req := MoveAll(g, run[..i]), run[i].request;
       && Execute(before, run[i].env, req).Ok? && !Execute(before, run[i].env, req).value.replay && Permitted(before, req)
       && ((req.action.Join? && req.sender == d && role == MemberRole) || (req.action.Add? && req.action.member == d && req.action.role == role))
  }

  lemma SeatsInPrefix(g: Group, run: seq<HostMove>, n: nat, i: nat, d: Did, role: Role)
    requires i < n <= |run|
    ensures SeatsIn(g, run[..n], i, d, role) <==> SeatsIn(g, run, i, d, role)
  {
    hide MoveAll, Execute, Permitted;
    assert run[..n][..i] == run[..i];
  }

  lemma MoveSeats(g: Group, move: HostMove, d: Did)
    requires IsActive(Move(g, move), d)
    ensures (IsActive(g, d) && g.roster[d].role == Move(g, move).roster[d].role)
            || (&& move.Requests? && Execute(g, move.env, move.request).Ok? && !Execute(g, move.env, move.request).value.replay
                && Permitted(g, move.request)
                && var req := move.request;
                   ((req.action.Join? && req.sender == d && Move(g, move).roster[d].role == MemberRole)
                    || (req.action.Add? && req.action.member == d && Move(g, move).roster[d].role == req.action.role)))
  {
    hide Permitted;
    if move.Requests? && Execute(g, move.env, move.request).Ok? && !Execute(g, move.env, move.request).value.replay {
      AcceptedIsPermitted(g, move.env, move.request);
      CommitDoes(g, move.env, move.request, Execute(g, move.env, move.request).value);
      hide Handle, Told, EventAsked, ResultAsked, DocumentsAsked, MessageAsked;
    } else {
      hide Handle;
    }
  }

  /** Nobody is an active member uninvited, or in a role nobody gave it: creation seated it so, or a permitted request did. */
  lemma {:induction false} EveryMemberWasAdmitted(g: Group, run: seq<HostMove>, d: Did)
    requires IsActive(MoveAll(g, run), d)
    ensures (IsActive(g, d) && g.roster[d].role == MoveAll(g, run).roster[d].role)
            || exists i: nat :: SeatsIn(g, run, i, d, MoveAll(g, run).roster[d].role)
  {
    hide Execute, Move, Permitted;
    if run != [] {
      var n := |run| - 1;
      var before := MoveAll(g, run[..n]);
      var role := MoveAll(g, run).roster[d].role;
      MoveSeats(before, run[n], d);
      if IsActive(before, d) && before.roster[d].role == role {
        EveryMemberWasAdmitted(g, run[..n], d);
        if exists i: nat :: SeatsIn(g, run[..n], i, d, role) {
          var i: nat :| SeatsIn(g, run[..n], i, d, role);
          SeatsInPrefix(g, run, n, i, d, role);
        }
      } else {
        assert SeatsIn(g, run, n, d, role);
      }
    }
  }
}
