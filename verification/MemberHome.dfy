/**
 * A Member Home's projection of one group for one of its users: the rows of `group_views`,
 * `group_member_views`, `group_message_views`, `inbound_peer_events`, `group_operations` and
 * `sync_events` that belong to that (owner, group) pair, and the transactions that change them.
 */
module MemberHome {
  import opened Common
  import opened MergePatch
  import opened GroupPolicy
  import opened GroupTypes

  datatype View = View(
    host: Did, profile: Json, policy: Json, version: int, eventSeq: int, role: Role, status: Status, wire: Wire,
    observedSeq: int, observedVersion: int)

  datatype InboundKey = InboundKey(source: Did, eventSeq: int, kind: NoticeKind)

  datatype SyncEntry = StateChangedEntry(event: Event) | MessageEntry(eventSeq: int, id: Token) | RefreshedEntry

  datatype Home = Home(
    view: Option<View>,
    roster: map<Did, MemberView>,
    messages: map<int, Message>,
    inbound: map<InboundKey, Notice>,
    operations: map<OpKey, OpRecord>,
    log: seq<SyncEntry>)

  datatype HomeError =
    | InvalidReceipt | ProjectionGap | MembershipRequired | InboundEventConflict | StaleEvent
    | MessageRowConflict | OperationReceiptConflict
    | SnapshotInvalid | SnapshotMembershipRequired | SnapshotSeqUnreadable

  datatype Answer = Applied | Duplicate | Superseded

  /** `handle` of an accepted notification: the answer and the rows it leaves. */
  datatype Accepted = Accepted(home: Home, answer: Answer)

  const EMPTY := Home(None, map[], map[], map[], map[], [])

  predicate Activation(e: Event, owner: Did) {
    e.etype == MemberActivated && e.subject == Some(owner) && e.status == Some(Active)
  }

  /** `_covered_by_observation`: a roster read from the same host already showed this event's effect. */
  predicate CoveredByObservation(v: View, source: Did, eventSeq: int, version: int) {
    v.host == source && 0 < eventSeq <= v.observedSeq && 0 < version <= v.observedVersion
  }

  predicate TerminalMethod(op: Method) {
    op == GroupLeave || op == GroupRemove
  }

  /** Whose membership a recorded leave or remove ended. */
  function TerminalSubject(op: Method, result: OpResult): Option<Did> {
    if op == GroupLeave then result.leaver else if op == GroupRemove then result.member else None
  }

  /** `_matches_forwarded_terminal`: the very receipt this Home got back when it forwarded the request. */
  predicate MatchesForwardedTerminal(h: Home, wire: Wire, e: Event, owner: Did) {
    var key := OpKey(e.receipt.actor, e.receipt.op, e.receipt.opId);
    && wire == BaseV2 && e.subject == Some(owner)
    && ((e.receipt.op == GroupLeave && e.etype == MemberLeft && e.status == Some(Left))
        || (e.receipt.op == GroupRemove && e.etype == MemberRemoved && e.status == Some(Removed)))
    && key in h.operations
    && h.operations[key].wire == BaseV2
    && h.operations[key].digest == e.receipt.digest
    && TerminalSubject(e.receipt.op, h.operations[key].result) == Some(owner)
    && h.operations[key].result.receipt == e.receipt
  }

  /** The group event number of the activation logged last for this owner. */
  function LatestActivation(log: seq<SyncEntry>, owner: Did): Option<int> {
    if log == [] then None
    else
      var last := log[|log| - 1];
      if last.StateChangedEntry? && Activation(last.event, owner) then Some(last.event.eventSeq)
      else LatestActivation(log[..|log| - 1], owner)
  }

  lemma LatestActivationOfAppend(log: seq<SyncEntry>, entry: SyncEntry, owner: Did)
    ensures LatestActivation(log + [entry], owner) ==
            if entry.StateChangedEntry? && Activation(entry.event, owner) then Some(entry.event.eventSeq)
            else LatestActivation(log, owner)
  {
    assert (log + [entry])[..|log|] == log;
  }

  predicate EndedBy(v: View, op: Method, r: OpRecord, owner: Did) {
    && op == (if v.status == Left then GroupLeave else GroupRemove)
    && r.wire == BaseV2
    && TerminalSubject(op, r.result) == Some(owner)
    && r.result.receipt.eventSeq == v.eventSeq
    && r.result.receipt.version == v.version
  }

  /** `_accepted_before_terminal`: an in-flight message from inside the interval that a known response ended. */
  predicate AcceptedBeforeTerminal(h: Home, v: View, wire: Wire, owner: Did, eventSeq: int, version: int) {
    && wire == BaseV2 && (v.status == Left || v.status == Removed)
    && eventSeq < v.eventSeq && version < v.version
    && LatestActivation(h.log, owner).Some? && LatestActivation(h.log, owner).value < eventSeq
    && exists k :: k in h.operations && EndedBy(v, k.op, h.operations[k], owner)
  }

  datatype Recorded = NewEvent | Repeated | Contradicted

  /** `_record_inbound`: has this event been seen, and with this payload? */
  function Recording(h: Home, key: InboundKey, notice: Notice): Recorded {
    if key !in h.inbound then NewEvent
    else if h.inbound[key] != notice then Contradicted
    else Repeated
  }

  predicate Reactivates(v: View, wire: Wire, e: Event, owner: Did) {
    wire == BaseV2 && v.status != Active && Activation(e, owner) && e.version > v.version
  }

  function DefaultStatus(e: Event): Status {
    if e.etype == MemberRemoved then Removed else if e.etype == MemberLeft then Left else Active
  }

  /** The upsert of a state notification into the view and the roster, and its entry in the owner's sync log. */
  function ApplyChange(h: Home, source: Did, wire: Wire, e: Event, owner: Did): Home {
    var prior := h.view;
    var reactivated := prior.Some? && Reactivates(prior.value, wire, e, owner);
    var profile := if e.profile.Some? && e.profile.value.Obj? then e.profile.value
                   else if prior.Some? then prior.value.profile else Obj(map[]);
    var policy := if e.policy.Some? && e.policy.value.Obj? then e.policy.value
                  else if prior.Some? then prior.value.policy else Obj(map[]);
    var role := if prior.Some? && !reactivated then prior.value.role else e.role.GetOr(MemberRole);
    var status := if e.subject == Some(owner) && e.etype == MemberRemoved then Removed
                  else if e.subject == Some(owner) && e.etype == MemberLeft then Left
                  else if prior.Some? && !reactivated then prior.value.status else Active;
    var view :=
      if prior.Some? then
        prior.value.(profile := profile, policy := policy, version := e.version, eventSeq := e.eventSeq,
                   role := role, status := status, wire := wire)
      else View(source, profile, policy, e.version, e.eventSeq, role, status, wire, 0, 0);
    var roster :=
      if e.subject.Some? then
        h.roster[e.subject.value := MemberView(e.role.GetOr(MemberRole), e.status.GetOr(DefaultStatus(e)))]
      else h.roster;
    h.(view := Some(view), roster := roster, log := h.log + [StateChangedEntry(e)])
  }

  /** `group_state_changed`. */
  function StateChanged(h: Home, source: Did, wire: Wire, e: Event, owner: Did): Result<Accepted, HomeError> {
    if !EventBound(e) then Err(InvalidReceipt)
    else
      var key := InboundKey(source, e.eventSeq, StateKind);
      match h.view
      case Some(v) =>
        if e.eventSeq > v.eventSeq + 1 && !Reactivates(v, wire, e, owner) then Err(ProjectionGap)
        else
          (match Recording(h, key, StateNotice(e))
           case Contradicted => Err(InboundEventConflict)
           case Repeated => Ok(Accepted(h, Duplicate))
           case NewEvent =>
             var recorded := h.(inbound := h.inbound[key := StateNotice(e)]);
             if e.eventSeq > v.eventSeq then Ok(Accepted(ApplyChange(recorded, source, wire, e, owner), Applied))
             else if CoveredByObservation(v, source, e.eventSeq, e.version) then Ok(Accepted(recorded, Superseded))
             else if !MatchesForwardedTerminal(h, wire, e, owner) then Err(StaleEvent)
             else if e.eventSeq < v.eventSeq then Ok(Accepted(recorded, Duplicate))
             else Ok(Accepted(ApplyChange(recorded, source, wire, e, owner), Applied)))
      case None =>
        if !Activation(e, owner) then Err(MembershipRequired)
        else
          match Recording(h, key, StateNotice(e))
          case Contradicted => Err(InboundEventConflict)
          case Repeated => Ok(Accepted(h, Duplicate))
          case NewEvent =>
            Ok(Accepted(ApplyChange(h.(inbound := h.inbound[key := StateNotice(e)]), source, wire, e, owner), Applied))
  }

  /** `group_incoming`; the two uniqueness constraints of the message table can still abort the insert. */
  function Incoming(h: Home, source: Did, wire: Wire, m: Message, owner: Did): Result<Accepted, HomeError> {
    if !MessageBound(m) then Err(InvalidReceipt)
    else
      var key := InboundKey(source, m.eventSeq, MessageKind);
      match h.view
      case None => Err(MembershipRequired)
      case Some(v) =>
        var beforeTerminal := AcceptedBeforeTerminal(h, v, wire, owner, m.eventSeq, m.version);
        if v.status != Active && !beforeTerminal then Err(MembershipRequired)
        else if m.eventSeq > v.eventSeq + 1 then Err(ProjectionGap)
        else
          match Recording(h, key, MessageNotice(m))
          case Contradicted => Err(InboundEventConflict)
          case Repeated => Ok(Accepted(h, Duplicate))
          case NewEvent =>
            if m.eventSeq <= v.eventSeq && !beforeTerminal && !CoveredByObservation(v, source, m.eventSeq, m.version) then
              Err(StaleEvent)
            else if m.eventSeq in h.messages
                 || (exists s :: s in h.messages && h.messages[s].receipt.message == m.receipt.message) then
              Err(MessageRowConflict)
            else
              Ok(Accepted(
                h.(inbound := h.inbound[key := MessageNotice(m)],
                   messages := h.messages[m.eventSeq := m],
                   view := Some(v.(version := Max(v.version, m.version), eventSeq := Max(v.eventSeq, m.eventSeq), wire := wire)),
                   log := h.log + [MessageEntry(m.eventSeq, m.receipt.message.value)]),
                Applied))
  }

  function Deliver(h: Home, source: Did, wire: Wire, notice: Notice, owner: Did): Result<Accepted, HomeError> {
    match notice
    case StateNotice(e) => StateChanged(h, source, wire, e, owner)
    case MessageNotice(m) => Incoming(h, source, wire, m, owner)
  }

  // ------------------------------------------------------------------------------------------
  // The two ways a view overtakes the stream
  // ------------------------------------------------------------------------------------------

  datatype Listed = Listed(member: Did, role: Role, status: Status)

  /** `group_event_seq` of an answer: left out, an explicit JSON null, or a number. */
  datatype ReportedSeq = Omitted | NullSeq | SeqNumber(n: int)

  /** A `group.get_info` answer. */
  datatype Roster = Roster(
    host: Did, version: int, eventSeq: ReportedSeq, profile: Option<Json>, policy: Option<Json>, wire: Wire, members: seq<Listed>)

  predicate ListsEachOnce(members: seq<Listed>) {
    forall i, j :: 0 <= i < j < |members| ==> members[i].member != members[j].member
  }

  predicate Lists(members: seq<Listed>, d: Did) {
    exists i :: 0 <= i < |members| && members[i].member == d
  }

  /** The shape checks of `_validated_member_snapshot`: every entry active and listed once. */
  predicate WellFormedSnapshot(s: Roster) {
    && s.version >= 0 && (s.eventSeq.SeqNumber? ==> s.eventSeq.n >= 0)
    && ListsEachOnce(s.members)
    && (forall i :: 0 <= i < |s.members| ==> s.members[i].status == Active)
  }

  /** The rows reinserted for the first n listed members. */
  function MemberRows(members: seq<Listed>, n: nat): map<Did, MemberView>
    requires n <= |members|
  {
    if n == 0 then map[]
    else MemberRows(members, n - 1)[members[n - 1].member := MemberView(members[n - 1].role, members[n - 1].status)]
  }

  lemma {:induction false} MemberRowsList(members: seq<Listed>, n: nat, d: Did)
    requires n <= |members|
    ensures d in MemberRows(members, n) <==> Lists(members[..n], d)
    ensures ListsEachOnce(members) ==>
              forall i :: 0 <= i < n ==>
                && members[i].member in MemberRows(members, n)
                && MemberRows(members, n)[members[i].member] == MemberView(members[i].role, members[i].status)
  {
    if n > 0 {
      MemberRowsList(members, n - 1, d);
      assert members[..n] == members[..n - 1] + [members[n - 1]];
      if Lists(members[..n - 1], d) {
        var i :| 0 <= i < n - 1 && members[..n - 1][i].member == d;
        assert members[..n][i].member == d;
      }
      assert members[..n][n - 1] == members[n - 1];
      forall i | 0 <= i < n - 1 ensures members[i].member in MemberRows(members, n) {
        MemberRowsList(members, n - 1, members[i].member);
        assert members[..n - 1][i] == members[i];
      }
    }
  }

  /**
   * `refresh_remote_member_projection` after validation; false means the view was left alone. An explicit
   * null passes validation, and converting it to a number then raises.
   */
  function Refresh(h: Home, s: Roster, owner: Did): Result<(Home, bool), HomeError> {
    if !WellFormedSnapshot(s) then Err(SnapshotInvalid)
    else if !Lists(s.members, owner) then Err(SnapshotMembershipRequired)
    else
      match h.view
      case None => Ok((h, false))
      case Some(v) =>
        var eventSeq := match s.eventSeq case SeqNumber(n) => n case _ => v.eventSeq;
        if v.status != Active then Ok((h, false))
        else if s.eventSeq == NullSeq then Err(SnapshotSeqUnreadable)
        else if s.version < v.version || eventSeq < v.eventSeq then Ok((h, false))
        else
          var newer := eventSeq > v.observedSeq || s.version > v.observedVersion;
          var rows := MemberRows(s.members, |s.members|);
          MemberRowsList(s.members, |s.members|, owner);
          assert s.members[..|s.members|] == s.members;
          var view := View(
            s.host,
            if s.profile.Some? && s.profile.value.Obj? then s.profile.value else v.profile,
            if s.policy.Some? && s.policy.value.Obj? then s.policy.value else v.policy,
            s.version, eventSeq, rows[owner].role, Active, s.wire, eventSeq, s.version);
          Ok((h.(view := Some(view), roster := rows, log := h.log + if newer then [RefreshedEntry] else []), true))
  }

  /**
   * `_apply_terminal_projection` for a v2 leave or remove whose subject is this owner: remember the
   * verified response, then end the membership unless the view is already past it.
   */
  function Forwarded(h: Home, op: Method, result: OpResult, owner: Did): Result<Home, HomeError> {
    var receipt := result.receipt;
    var key := OpKey(receipt.actor, op, receipt.opId);
    if !TerminalMethod(op) || TerminalSubject(op, result) != Some(owner) || receipt.op != op
       || receipt.eventSeq != result.eventSeq || receipt.version != result.version then Err(InvalidReceipt)
    else if key in h.operations
         && (h.operations[key].digest != receipt.digest || h.operations[key].wire != BaseV2
             || h.operations[key].result.receipt != receipt) then Err(OperationReceiptConflict)
    else
      var operations := if key in h.operations then h.operations else h.operations[key := OpRecord(receipt.digest, BaseV2, result)];
      var view :=
        if h.view.Some? && h.view.value.eventSeq <= result.eventSeq then
          Some(h.view.value.(status := if op == GroupLeave then Left else Removed,
                             version := result.version, eventSeq := result.eventSeq))
        else h.view;
      Ok(h.(operations := operations, view := view))
  }
}
