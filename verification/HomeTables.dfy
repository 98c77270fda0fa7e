/**
 * The Member Home's handlers as they run: one owner's rows for one group, updated in place and put
 * back when a later check raises. Each is proved against MemberHome.
 */
module HomeTables {
  import opened Common
  import opened MergePatch
  import opened GroupPolicy
  import opened GroupTypes
  import opened MemberHome

  /** How a committed or refused notification shows in the tables. */
  ghost predicate Realises(spec: Result<Accepted, HomeError>, r: Result<Answer, HomeError>, before: Home, after: Home) {
    match spec
    case Ok(accepted) => r == Ok(accepted.answer) && after == accepted.home
    case Err(e) => r == Err(e) && after == before
  }

  class Projection {
    const owner: Did
    var view: Option<View>
    var roster: map<Did, MemberView>
    var messages: map<int, Message>
    var inbound: map<InboundKey, Notice>
    var operations: map<OpKey, OpRecord>
    var log: seq<SyncEntry>

    constructor (owner: Did)
      ensures this.owner == owner && State() == EMPTY
    {
      this.owner := owner;
      view, roster, messages, inbound, operations, log := None, map[], map[], map[], map[], [];
    }

    function State(): Home
      reads this
    {
      Home(view, roster, messages, inbound, operations, log)
    }

    /** `_record_inbound`: insert the delivery key, or compare the payload stored under it. */
    method RecordInbound(key: InboundKey, notice: Notice) returns (r: Result<bool, HomeError>)
      modifies `inbound
      ensures match Recording(old(State()), key, notice)
              case Contradicted => r == Err(InboundEventConflict) && inbound == old(inbound)
              case Repeated => r == Ok(false) && inbound == old(inbound)
              case NewEvent => r == Ok(true) && inbound == old(inbound)[key := notice]
    {
      if key in inbound {
        if inbound[key] != notice {
          return Err(InboundEventConflict);
        }
        return Ok(false);
      }
      inbound := inbound[key := notice];
      r := Ok(true);
    }

    /** The upserts of `group_state_changed`: the view, its wire profile, the subject's roster row, the sync event. */
    method ApplyStateChange(source: Did, wire: Wire, e: Event)
      modifies this
      ensures State() == ApplyChange(old(State()), source, wire, e, owner)
    {
      var reactivated := view.Some? && Reactivates(view.value, wire, e, owner);
      var profile := if view.Some? then view.value.profile else Obj(map[]);
      var policy := if view.Some? then view.value.policy else Obj(map[]);
      if e.profile.Some? && e.profile.value.Obj? {
        profile := e.profile.value;
      }
      if e.policy.Some? && e.policy.value.Obj? {
        policy := e.policy.value;
      }
      var role := if view.Some? then view.value.role else e.role.GetOr(MemberRole);
      var status := if view.Some? then view.value.status else Active;
      if reactivated {
        status, role := Active, e.role.GetOr(MemberRole);
      }
      if e.subject == Some(owner) && (e.etype == MemberRemoved || e.etype == MemberLeft) {
        status := if e.etype == MemberRemoved then Removed else Left;
      }
      if view.Some? {
        view := Some(view.value.(profile := profile, policy := policy, version := e.version, eventSeq := e.eventSeq,
                                 role := role, status := status));
      } else {
        view := Some(View(source, profile, policy, e.version, e.eventSeq, role, status, wire, 0, 0));
      }
      view := Some(view.value.(wire := wire));
      if e.subject.Some? {
        roster := roster[e.subject.value := MemberView(e.role.GetOr(MemberRole), e.status.GetOr(DefaultStatus(e)))];
      }
      log := log + [StateChangedEntry(e)];
    }

    method GroupStateChanged(source: Did, wire: Wire, e: Event) returns (r: Result<Answer, HomeError>)
      modifies this
      ensures Realises(StateChanged(old(State()), source, wire, e, owner), r, old(State()), State())
    {
      hide ApplyChange, MatchesForwardedTerminal, CoveredByObservation, Reactivates, EventBound, Activation;
      if !EventBound(e) {
        return Err(InvalidReceipt);
      }
      var key := InboundKey(source, e.eventSeq, StateKind);
      if view.Some? && e.eventSeq > view.value.eventSeq + 1 && !Reactivates(view.value, wire, e, owner) {
        return Err(ProjectionGap);
      }
      if view.None? && !Activation(e, owner) {
        return Err(MembershipRequired);
      }
      var start := inbound;
      var isNew := RecordInbound(key, StateNotice(e));
      if isNew.Err? {
        return Err(isNew.error);
      }
      if !isNew.value {
        return Ok(Duplicate);
      }
      if view.Some? && e.eventSeq <= view.value.eventSeq {
        if CoveredByObservation(view.value, source, e.eventSeq, e.version) {
          return Ok(Superseded);
        }
        MatchIgnoresRecords(State(), start, wire, e, owner);
        if !MatchesForwardedTerminal(State(), wire, e, owner) {
          inbound := start;
          return Err(StaleEvent);
        }
        if e.eventSeq < view.value.eventSeq {
          return Ok(Duplicate);
        }
      }
      ApplyStateChange(source, wire, e);
      r := Ok(Applied);
    }

    /** The loop of `_accepted_before_terminal` over the remembered departures. */
    method EndedByKnownDeparture(v: View) returns (found: bool)
      ensures found <==> exists k :: k in operations && EndedBy(v, k.op, operations[k], owner)
    {
      var todo := operations.Keys;
      while todo != {}
        invariant todo <= operations.Keys
        invariant forall k :: k in operations && k !in todo ==> !EndedBy(v, k.op, operations[k], owner)
        decreases todo
      {
        var key: OpKey :| key in todo;
        if EndedBy(v, key.op, operations[key], owner) {
          return true;
        }
        todo := todo - {key};
      }
      found := false;
    }

    method BeforeTerminal(v: View, wire: Wire, eventSeq: int, version: int) returns (admitted: bool)
      ensures admitted == AcceptedBeforeTerminal(State(), v, wire, owner, eventSeq, version)
    {
      if wire != BaseV2 || (v.status != Left && v.status != Removed) {
        return false;
      }
      if eventSeq >= v.eventSeq || version >= v.version {
        return false;
      }
      var activation := LatestActivation(log, owner);
      if activation.None? || eventSeq <= activation.value {
        return false;
      }
      admitted := EndedByKnownDeparture(v);
    }

    /** The insert into the message table, with its PRIMARY KEY and UNIQUE constraints. */
    method InsertMessage(m: Message) returns (inserted: bool)
      modifies `messages
      ensures inserted <==> !(m.eventSeq in old(messages)
                              || exists s :: s in old(messages) && old(messages)[s].receipt.message == m.receipt.message)
      ensures messages == if inserted then old(messages)[m.eventSeq := m] else old(messages)
    {
      if m.eventSeq in messages || exists s :: s in messages && messages[s].receipt.message == m.receipt.message {
        return false;
      }
      messages := messages[m.eventSeq := m];
      inserted := true;
    }

    method GroupIncoming(source: Did, wire: Wire, m: Message) returns (r: Result<Answer, HomeError>)
      modifies this
      ensures Realises(Incoming(old(State()), source, wire, m, owner), r, old(State()), State())
    {
      hide AcceptedBeforeTerminal, CoveredByObservation;
      if !MessageBound(m) {
        return Err(InvalidReceipt);
      }
      if view.None? {
        return Err(MembershipRequired);
      }
      var v := view.value;
      var beforeTerminal := BeforeTerminal(v, wire, m.eventSeq, m.version);
      if v.status != Active && !beforeTerminal {
        return Err(MembershipRequired);
      }
      if m.eventSeq > v.eventSeq + 1 {
        return Err(ProjectionGap);
      }
      var start := inbound;
      var isNew := RecordInbound(InboundKey(source, m.eventSeq, MessageKind), MessageNotice(m));
      if isNew.Err? {
        return Err(isNew.error);
      }
      if !isNew.value {
        return Ok(Duplicate);
      }
      if m.eventSeq <= v.eventSeq && !beforeTerminal && !CoveredByObservation(v, source, m.eventSeq, m.version) {
        inbound := start;
        return Err(StaleEvent);
      }
      var inserted := InsertMessage(m);
      if !inserted {
        inbound := start;
        return Err(MessageRowConflict);
      }
      view := Some(v.(version := Max(v.version, m.version), eventSeq := Max(v.eventSeq, m.eventSeq), wire := wire));
      log := log + [MessageEntry(m.eventSeq, m.receipt.message.value)];
      r := Ok(Applied);
    }

    /** The loop of `_validated_member_snapshot`: every entry active and none seen twice. */
    method ValidateMembers(members: seq<Listed>) returns (valid: bool, seen: set<Did>)
      ensures valid <==> ListsEachOnce(members) && forall i :: 0 <= i < |members| ==> members[i].status == Active
      ensures valid ==> forall d :: d in seen <==> Lists(members, d)
    {
      seen := {};
      var n := 0;
      while n < |members|
        invariant 0 <= n <= |members|
        invariant ListsEachOnce(members[..n]) && forall i :: 0 <= i < n ==> members[i].status == Active
        invariant forall d :: d in seen <==> exists i :: 0 <= i < n && members[i].member == d
      {
        if members[n].member in seen || members[n].status != Active {
          return false, seen;
        }
        seen := seen + {members[n].member};
        n := n + 1;
      }
      assert members[..n] == members;
      valid := true;
    }

    /** Delete the roster rows and insert the listed ones. */
    method ReplaceRoster(members: seq<Listed>)
      modifies `roster
      ensures roster == MemberRows(members, |members|)
    {
      roster := map[];
      var n := 0;
      while n < |members|
        invariant 0 <= n <= |members|
        invariant roster == MemberRows(members, n)
      {
        roster := roster[members[n].member := MemberView(members[n].role, members[n].status)];
        n := n + 1;
      }
    }

    /** `refresh_remote_member_projection`, after `_validated_member_snapshot`. */
    method RefreshMembers(s: Roster) returns (r: Result<bool, HomeError>)
      modifies this
      ensures match Refresh(old(State()), s, owner)
              case Ok((home, refreshed)) => r == Ok(refreshed) && State() == home
              case Err(e) => r == Err(e) && State() == old(State())
    {
      var valid, seen := ValidateMembers(s.members);
      if s.version < 0 || (s.eventSeq.SeqNumber? && s.eventSeq.n < 0) || !valid {
        return Err(SnapshotInvalid);
      }
      if owner !in seen {
        return Err(SnapshotMembershipRequired);
      }
      if view.None? || view.value.status != Active {
        return Ok(false);
      }
      var v := view.value;
      if s.eventSeq.NullSeq? {
        return Err(SnapshotSeqUnreadable);
      }
      var eventSeq := match s.eventSeq case SeqNumber(n) => n case _ => v.eventSeq;
      if s.version < v.version || eventSeq < v.eventSeq {
        return Ok(false);
      }
      var newer := eventSeq > v.observedSeq || s.version > v.observedVersion;
      var listed := FindListed(s.members, owner);
      var profile := if s.profile.Some? && s.profile.value.Obj? then s.profile.value else v.profile;
      var policy := if s.policy.Some? && s.policy.value.Obj? then s.policy.value else v.policy;
      view := Some(View(s.host, profile, policy, s.version, eventSeq, listed.role, Active, s.wire, eventSeq, s.version));
      ReplaceRoster(s.members);
      if newer {
        log := log + [RefreshedEntry];
      }
      MemberRowsList(s.members, |s.members|, owner);
      assert s.members[..|s.members|] == s.members;
      assert roster[owner].role == listed.role by {
        var i :| 0 <= i < |s.members| && s.members[i] == listed;
      }
      assert old(log) + [] == old(log);
      r := Ok(true);
    }

    /** `next(member for member in members if ...)`: the first entry of the owner. */
    method FindListed(members: seq<Listed>, d: Did) returns (listed: Listed)
      requires Lists(members, d)
      ensures exists i :: 0 <= i < |members| && members[i] == listed && listed.member == d
    {
      var n := 0;
      while members[n].member != d
        invariant 0 <= n < |members| && forall i :: 0 <= i < n ==> members[i].member != d
        decreases |members| - n
      {
        n := n + 1;
      }
      listed := members[n];
    }

    /** `_apply_terminal_projection` for a verified v2 leave or remove of this owner. */
    method ApplyTerminal(op: Method, result: OpResult) returns (r: Result<(), HomeError>)
      modifies this
      ensures match Forwarded(old(State()), op, result, owner)
              case Ok(home) => r == Ok(()) && State() == home
              case Err(e) => r == Err(e) && State() == old(State())
    {
      var receipt := result.receipt;
      if !TerminalMethod(op) || TerminalSubject(op, result) != Some(owner) || receipt.op != op
         || receipt.eventSeq != result.eventSeq || receipt.version != result.version {
        return Err(InvalidReceipt);
      }
      var key := OpKey(receipt.actor, op, receipt.opId);
      if key in operations {
        var prior := operations[key];
        if prior.digest != receipt.digest || prior.wire != BaseV2 || prior.result.receipt != receipt {
          return Err(OperationReceiptConflict);
        }
      } else {
        operations := operations[key := OpRecord(receipt.digest, BaseV2, result)];
      }
      if view.Some? && view.value.eventSeq <= result.eventSeq {
        view := Some(view.value.(status := if op == GroupLeave then Left else Removed,
                                 version := result.version, eventSeq := result.eventSeq));
      }
      r := Ok(());
    }
  }

  /** The match against a forwarded departure reads the operations only. */
  lemma MatchIgnoresRecords(h: Home, inbound: map<InboundKey, Notice>, wire: Wire, e: Event, owner: Did)
    ensures MatchesForwardedTerminal(h, wire, e, owner) == MatchesForwardedTerminal(h.(inbound := inbound), wire, e, owner)
  {
  }
}
