/**
 * The Host's handlers as they run: rows updated in place inside a transaction, the outbox filled
 * member by member, everything put back when a check raises. Each is proved against GroupHost.
 */
module HostTables {
  import opened Common
  import opened MergePatch
  import opened GroupPolicy
  import opened GroupTypes
  import opened Outbox
  import opened GroupHost

  /** What a handler reads besides its group: the pending and retrying rows of the whole outbox. */
  function EnvOf(rows: Rows, maxPending: nat, takenMessages: set<Token>): Env {
    Env(|OpenRows(rows)|, maxPending, takenMessages)
  }

  /** How a committed or refused request shows in the tables. */
  ghost predicate Realises(spec: Result<Commit, HostError>, r: Result<OpResult, HostError>, before: (Group, Rows), after: (Group, Rows)) {
    match spec
    case Ok(c) => r == Ok(c.result) && after == (c.group, Insert(before.1, c.rows))
    case Err(e) => r == Err(e) && after == before
  }

  lemma MembersAreSeated(g: Group)
    ensures RemoteMembers(g) <= g.roster.Keys
  {
  }

  lemma TargetsAreSeated(g: Group, e: Event)
    ensures ChangeTargets(g, e) <= g.roster.Keys
  {
  }

  /** One hosted group's rows and the outbox it shares with the others. */
  class HostedGroup {
    const gid: Did
    const host: Did
    const maxPending: nat
    var wire: Wire
    var quiescing: bool
    var version: nat
    var eventSeq: nat
    var profile: Json
    var policy: Json
    var roster: map<Did, Member>
    var events: seq<HostEvent>
    var messages: map<nat, Message>
    var operations: map<OpKey, OpRecord>
    var rows: Rows

    constructor (g: Group, rows: Rows, maxPending: nat)
      ensures State() == g && this.rows == rows && this.maxPending == maxPending
    {
      gid, host, wire, quiescing := g.gid, g.host, g.wire, g.quiescing;
      version, eventSeq, profile, policy := g.version, g.eventSeq, g.profile, g.policy;
      roster, events, messages, operations := g.roster, g.events, g.messages, g.operations;
      this.rows, this.maxPending := rows, maxPending;
    }

    function State(): Group
      reads this
    {
      Group(gid, host, wire, quiescing, version, eventSeq, profile, policy, roster, events, messages, operations)
    }

    function Environment(takenMessages: set<Token>): Env
      reads this
    {
      EnvOf(rows, maxPending, takenMessages)
    }

    /** `ensure_outbox_capacity`: counts the current remote members against the backlog. */
    method OutboxHasCapacity(management: bool, ghost takenMessages: set<Token>) returns (fits: bool)
      ensures fits == HasCapacity(Environment(takenMessages), |RemoteMembers(State())|, management)
    {
      var additional := |RemoteMembers(State())|;
      if additional == 0 {
        return true;
      }
      var limit := maxPending;
      if management {
        limit := limit + Reserve(maxPending);
      }
      fits := |OpenRows(rows)| + additional <= limit;
    }

    /** The loop of `enqueue_state_changed` and `enqueue_incoming_message`: INSERT OR IGNORE per member. */
    method Enqueue(notice: Notice, targets: set<Did>, time: int)
      requires targets <= roster.Keys
      modifies `rows
      ensures rows == Insert(old(rows), RowsFor(State(), notice, targets, eventSeq, time))
    {
      var todo := targets;
      while todo != {}
        invariant todo <= targets
        invariant forall k :: k in rows <==> k in old(rows) || k in RowsFor(State(), notice, targets - todo, eventSeq, time)
        invariant forall k :: k in old(rows) ==> rows[k] == old(rows)[k]
        invariant forall k :: k in rows && k !in old(rows) ==>
                    rows[k] == Row(notice, wire, roster[k.target].home, Pending, 0, time, time)
        decreases todo
      {
        var member: Did :| member in todo;
        var key := RowKey(gid, eventSeq, member, notice.Kind());
        if key !in rows {
          rows := rows[key := Row(notice, wire, roster[member].home, Pending, 0, time, time)];
        }
        todo := todo - {member};
      }
      assert targets - todo == targets;
    }

    /** Receipt, event, operation and notifications of a management request, in that order. */
    method WriteChange(req: Request, etype: EventType, subject: Option<Did>, status: Option<Status>, role: Option<Role>,
                       newProfile: Option<Json>, newPolicy: Option<Json>, leaver: Option<Did>, member: Option<Did>)
      returns (result: OpResult)
      modifies this
      ensures var c := RecordChange(old(State()), req, etype, subject, status, role, newProfile, newPolicy, leaver, member);
              result == c.result && State() == c.group && rows == Insert(old(rows), c.rows)
    {
      hide RowsFor, ChangeTargets, RemoteMembers, Insert;
      version, eventSeq := version + 1, eventSeq + 1;
      var receipt := NewReceipt(State(), req, version, eventSeq, None);
      result := OpResult(leaver, member, version, eventSeq, receipt);
      var event := Event(gid, etype, req.action.Op(), subject, status, role, newProfile, newPolicy, version, eventSeq, receipt, Token(""));
      events := events + [Changed(event)];
      operations := operations[req.Key() := OpRecord(req.digest, req.wire, result)];
      TargetsAreSeated(State(), event);
      Enqueue(StateNotice(event), ChangeTargets(State(), event), req.time);
    }

    method MembershipMutation(req: Request, takenMessages: set<Token>, target: Did, role: Role, home: Did)
      returns (r: Result<OpResult, HostError>)
      modifies this
      ensures Realises(Activate(old(State()), old(Environment(takenMessages)), req, target, role, home), r, old((State(), rows)), (State(), rows))
    {
      if target in roster && roster[target].status == Active {
        return Err(MemberAlreadyActive);
      }
      var limit := MemberLimit(policy);
      if limit.None? {
        return Err(PolicyUnreadable);
      }
      if |ActiveMembers(State())| >= limit.value {
        return Err(MembersExceeded);
      }
      var before := roster;
      roster := roster[target := Member(role, Active, home)];
      var fits := OutboxHasCapacity(true, takenMessages);
      if !fits {
        roster := before;
        return Err(BacklogFull);
      }
      var result := WriteChange(req, MemberActivated, Some(target), Some(Active), Some(role), Some(profile), Some(policy), None, Some(target));
      r := Ok(result);
    }

    method EndMembership(req: Request, takenMessages: set<Token>, target: Did, status: Status, etype: EventType)
      returns (r: Result<OpResult, HostError>)
      requires IsActive(State(), target)
      modifies this
      ensures Realises(Depart(old(State()), old(Environment(takenMessages)), req, target, status, etype), r, old((State(), rows)), (State(), rows))
    {
      var fits := true;
      if req.wire == BaseV2 {
        fits := OutboxHasCapacity(true, takenMessages);
        if !fits {
          return Err(BacklogFull);
        }
      }
      var before := roster;
      roster := roster[target := roster[target].(status := status)];
      if req.wire != BaseV2 {
        fits := OutboxHasCapacity(true, takenMessages);
        if !fits {
          roster := before;
          return Err(BacklogFull);
        }
      }
      var result := WriteChange(req, etype, Some(target), Some(status), None, None, None,
                                if etype == MemberLeft then Some(target) else None,
                                if etype == MemberLeft then None else Some(target));
      r := Ok(result);
    }

    method UpdateGroup(req: Request, takenMessages: set<Token>, permission: Name) returns (r: Result<OpResult, HostError>)
      requires req.action.UpdateProfile? || req.action.UpdatePolicy?
      modifies this
      ensures Realises(Update(old(State()), old(Environment(takenMessages)), req, permission), r, old((State(), rows)), (State(), rows))
    {
      var refusal := Refusal(State(), req.sender, permission);
      if refusal.Some? {
        return Err(refusal.value);
      }
      var fits := OutboxHasCapacity(true, takenMessages);
      if !fits {
        return Err(BacklogFull);
      }
      var result;
      if req.action.UpdateProfile? {
        var value := ValidateProfile(Merge(profile, req.action.patch));
        if value.Err? {
          return Err(Invalid(value.error));
        }
        profile := value.value;
        result := WriteChange(req, ProfileUpdated, None, None, None, Some(profile), None, None, None);
      } else {
        var value := ValidatePolicy(Merge(policy, req.action.patch));
        if value.Err? {
          return Err(Invalid(value.error));
        }
        policy := value.value;
        result := WriteChange(req, PolicyUpdated, None, None, None, None, Some(policy), None, None);
      }
      r := Ok(result);
    }

    method Send(req: Request, takenMessages: set<Token>) returns (r: Result<OpResult, HostError>)
      requires req.action.Send?
      modifies this
      ensures Realises(SendMessage(old(State()), old(Environment(takenMessages)), req), r, old((State(), rows)), (State(), rows))
    {
      hide RowsFor, RemoteMembers, Insert, Refusal, HasCapacity, OwnMessageIds, OpenRows;
      var refusal := Refusal(State(), req.sender, Known(SendPermission));
      if refusal.Some? {
        return Err(refusal.value);
      }
      var fits := OutboxHasCapacity(false, takenMessages);
      if !fits {
        return Err(BacklogFull);
      }
      var id := req.action.messageId;
      if id in takenMessages || id in OwnMessageIds(State()) {
        return Err(MessageIdConflict);
      }
      eventSeq := eventSeq + 1;
      var receipt := NewReceipt(State(), req, version, eventSeq, Some(id));
      var message := Message(gid, version, eventSeq, req.time, receipt, req.action.content);
      messages := messages[eventSeq := message];
      events := events + [Sent(id)];
      var result := OpResult(None, None, version, eventSeq, receipt);
      operations := operations[req.Key() := OpRecord(req.digest, req.wire, result)];
      assert RemoteMembers(State()) <= roster.Keys by {
        MembersAreSeated(State());
      }
      Enqueue(MessageNotice(message), RemoteMembers(State()), req.time);
      r := Ok(result);
    }

    /** One request from the fence to its handler. */
    method Serve(req: Request, takenMessages: set<Token>) returns (r: Result<OpResult, HostError>)
      modifies this
      ensures Realises(Execute(old(State()), old(Environment(takenMessages)), req), r, old((State(), rows)), (State(), rows))
    {
      hide Activate, Depart, Update, SendMessage, Refusal, OpenRows, OpenJoin;
      if MissingPatch(req.action) {
        return Err(PatchRequired);
      }
      if req.wire != wire {
        return Err(ProtocolMismatch);
      }
      if quiescing {
        return Err(UpgradeInProgress);
      }
      if req.Key() in operations {
        var recorded := operations[req.Key()];
        if recorded.wire != req.wire || recorded.digest != req.digest {
          return Err(OperationConflict);
        }
        assert Insert(rows, map[]) == rows;
        return Ok(recorded.result);
      }
      match req.action {
        case Join(home) =>
          if !OpenJoin(policy) {
            return Err(PolicyViolation);
          }
          r := MembershipMutation(req, takenMessages, req.sender, MemberRole, home);
        case Add(member, role, home) =>
          var refusal := Refusal(State(), req.sender, Known(AddPermission));
          if refusal.Some? {
            return Err(refusal.value);
          }
          r := MembershipMutation(req, takenMessages, member, role, home);
        case Leave =>
          if !IsActive(State(), req.sender) {
            return Err(NotMember);
          }
          r := EndMembership(req, takenMessages, req.sender, Left, MemberLeft);
        case Remove(member) =>
          var refusal := Refusal(State(), req.sender, Known(RemovePermission));
          if refusal.Some? {
            return Err(refusal.value);
          }
          if !IsActive(State(), member) {
            return Err(NotMember);
          }
          r := EndMembership(req, takenMessages, member, Removed, MemberRemoved);
        case UpdateProfile(_) => r := UpdateGroup(req, takenMessages, Known(UpdateProfilePermission));
        case UpdatePolicy(_) => r := UpdateGroup(req, takenMessages, Known(UpdatePolicyPermission));
        case Send(_, _) => r := Send(req, takenMessages);
      }
    }
  }
}
