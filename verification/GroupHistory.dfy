/** The Host's event log as the source of truth: its numbering, and the state it replays to. */
module GroupHistory {
  import opened Common
  import opened MergePatch
  import opened GroupPolicy
  import opened GroupTypes
  import opened Outbox
  import opened GroupHost

  datatype GroupState = GroupState(version: nat, profile: Json, policy: Json, roster: map<Did, MemberView>)

  function Views(roster: map<Did, Member>): map<Did, MemberView> {
    map d | d in roster :: MemberView(roster[d].role, roster[d].status)
  }

  function Current(g: Group): GroupState {
    GroupState(g.version, g.profile, g.policy, Views(g.roster))
  }

  /** What one event's payload says about the roster. */
  function Seated(roster: map<Did, MemberView>, e: Event): map<Did, MemberView> {
    if e.subject.None? then roster
    else if e.etype == MemberActivated then
      roster[e.subject.value := MemberView(e.role.GetOr(MemberRole), Active)]
    else if Departure(e) && e.subject.value in roster then
      roster[e.subject.value := roster[e.subject.value].(status := e.status.GetOr(Active))]
    else roster
  }

  function Replay(st: GroupState, ev: HostEvent): GroupState {
    match ev
    case Changed(e) =>
      GroupState(if e.version >= 0 then e.version else 0, e.profile.GetOr(st.profile), e.policy.GetOr(st.policy), Seated(st.roster, e))
    case _ => st
  }

  /** The state after the first s events, folding their payloads over the state at creation. */
  function StateAt(genesis: GroupState, events: seq<HostEvent>, s: nat): GroupState
    requires s <= |events|
  {
    if s <= 1 then genesis else Replay(StateAt(genesis, events, s - 1), events[s - 1])
  }

  lemma {:induction false} StateOfPrefix(genesis: GroupState, events: seq<HostEvent>, more: seq<HostEvent>, s: nat)
    requires s <= |events|
    ensures StateAt(genesis, events + more, s) == StateAt(genesis, events, s)
  {
    if s > 1 {
      StateOfPrefix(genesis, events, more, s - 1);
    }
  }

  predicate ActiveIn(st: GroupState, d: Did) {
    d in st.roster && st.roster[d].status == Active
  }

  predicate Documented(st: GroupState) {
    st.profile.Obj? && st.policy.Obj?
  }

  /** What the Host writes as event s of a group whose state before it is `st`. */
  ghost predicate WellRecorded(gid: Did, st: GroupState, ev: HostEvent, messages: map<nat, Message>, s: nat) {
    && Documented(Replay(st, ev))
    && match ev
       case Created => false
       case Changed(e) =>
         && e.gid == gid && e.eventSeq == s && e.version == st.version + 1 && EventBound(e) && e.receipt.message == None
         && e.etype != OtherEvent
         && (e.etype == MemberActivated ==>
               && e.subject.Some? && !ActiveIn(st, e.subject.value)
               && e.role.Some? && e.status == Some(Active) && e.profile == Some(st.profile) && e.policy == Some(st.policy))
         && (Departure(e) ==>
               && e.subject.Some? && ActiveIn(st, e.subject.value)
               && e.role == None && e.profile == None && e.policy == None
               && e.status == Some(if e.etype == MemberLeft then Left else Removed)
               && e.op == (if e.etype == MemberLeft then GroupLeave else GroupRemove)
               && (e.etype == MemberLeft ==> e.receipt.actor == e.subject.value))
         && (e.etype == ProfileUpdated ==> e.subject == None && e.profile.Some? && e.policy == None)
         && (e.etype == PolicyUpdated ==> e.subject == None && e.profile == None && e.policy.Some?)
         && s !in messages
       case Sent(id) =>
         && s in messages
         && messages[s].gid == gid && messages[s].eventSeq == s && messages[s].version == st.version
         && MessageBound(messages[s]) && messages[s].receipt.message == Some(id)
  }

  ghost predicate LoggedAt(g: Group, genesis: GroupState, s: nat)
    requires 2 <= s <= |g.events|
  {
    WellRecorded(g.gid, StateAt(genesis, g.events, s - 1), g.events[s - 1], g.messages, s)
  }

  ghost predicate MessagesDistinct(g: Group) {
    forall s, t :: s in g.messages && t in g.messages && s != t ==>
      g.messages[s].receipt.message != g.messages[t].receipt.message
  }

  ghost predicate EventsRecorded(g: Group, genesis: GroupState) {
    && g.eventSeq == |g.events| >= 1
    && g.events[0] == Created
    && (forall s :: 2 <= s <= |g.events| ==> LoggedAt(g, genesis, s))
    && (forall s :: s in g.messages ==> 2 <= s <= g.eventSeq)
    && MessagesDistinct(g)
  }

  /** A recorded operation points at the event it produced. */
  ghost predicate OperationRecorded(g: Group, k: OpKey, r: OpRecord) {
    && r.digest == r.result.receipt.digest
    && r.result.receipt.op == k.op && r.result.receipt.actor == k.sender && r.result.receipt.opId == k.opId
    && 2 <= r.result.eventSeq <= |g.events|
    && match g.events[r.result.eventSeq - 1]
       case Created => false
       case Changed(e) =>
         && e.receipt == r.result.receipt && e.version == r.result.version
         && (k.op == GroupLeave ==> e.etype == MemberLeft && r.result.leaver == e.subject)
         && (k.op == GroupRemove ==> e.etype == MemberRemoved && r.result.member == e.subject)
       case Sent(_) => k.op == GroupSend
  }

  ghost predicate OperationsRecorded(g: Group) {
    forall k :: k in g.operations ==> OperationRecorded(g, k, g.operations[k])
  }

  /** The counters, the log and the current rows agree. */
  ghost predicate Booked(g: Group, genesis: GroupState) {
    && EventsRecorded(g, genesis)
    && StateAt(genesis, g.events, |g.events|) == Current(g)
    && g.eventSeq == g.version + |g.messages|
  }

  /** Everything a hosted group keeps true between requests. */
  ghost predicate Consistent(g: Group, genesis: GroupState) {
    && Booked(g, genesis)
    && OperationsRecorded(g)
    && g.profile.Obj?
    && ValidPolicy(g.policy)
    && |ActiveMembers(g)| <= MAX_MEMBERS
  }

  /** `g'` is `g` with one more event and, when that event is a message, its message row. */
  ghost predicate Appended(g: Group, g': Group, ev: HostEvent) {
    && g'.gid == g.gid && g'.events == g.events + [ev] && g'.eventSeq == g.eventSeq + 1
    && (ev.Changed? ==> g'.messages == g.messages)
    && (ev.Sent? ==>
          && g'.eventSeq in g'.messages
          && g'.messages == g.messages[g'.eventSeq := g'.messages[g'.eventSeq]]
          && forall s :: s in g.messages ==> g.messages[s].receipt.message != g'.messages[g'.eventSeq].receipt.message)
  }

  lemma LoggedAtSurvives(g: Group, g': Group, genesis: GroupState, ev: HostEvent, s: nat)
    requires 2 <= s <= |g.events| == g.eventSeq && Appended(g, g', ev) && LoggedAt(g, genesis, s)
    requires !ev.Created?
    ensures LoggedAt(g', genesis, s)
  {
    StateOfPrefix(genesis, g.events, [ev], s - 1);
  }

  lemma AppendKeepsLog(g: Group, g': Group, genesis: GroupState, ev: HostEvent)
    requires EventsRecorded(g, genesis) && Appended(g, g', ev)
    requires WellRecorded(g.gid, StateAt(genesis, g.events, |g.events|), ev, g'.messages, g'.eventSeq)
    ensures EventsRecorded(g', genesis)
    ensures StateAt(genesis, g'.events, |g'.events|) == Replay(StateAt(genesis, g.events, |g.events|), ev)
  {
    StateOfPrefix(genesis, g.events, [ev], |g.events|);
    forall s | 2 <= s <= |g'.events|
      ensures LoggedAt(g', genesis, s)
    {
      if s <= |g.events| {
        LoggedAtSurvives(g, g', genesis, ev, s);
      }
    }
  }

  /** The notification that event s of the group gives rise to. */
  function NoticeAt(g: Group, s: nat): Notice
    requires 1 <= s <= |g.events| && !g.events[s - 1].Created?
    requires g.events[s - 1].Sent? ==> s in g.messages
  {
    match g.events[s - 1]
    case Changed(e) => StateNotice(e)
    case Sent(_) => MessageNotice(g.messages[s])
  }

  function TargetsOf(g: Group, notice: Notice): set<Did> {
    match notice
    case StateNotice(e) => ChangeTargets(g, e)
    case MessageNotice(_) => RemoteMembers(g)
  }

  /** `rows` is one fresh row per target of the group's latest notification. */
  ghost predicate Enqueued(g: Group, notice: Notice, rows: Rows, time: int) {
    && (forall k :: k in rows <==>
          k.gid == g.gid && k.eventSeq == g.eventSeq && k.kind == notice.Kind() && k.target in TargetsOf(g, notice))
    && (forall k :: k in rows ==>
          k.target in g.roster && rows[k] == Row(notice, g.wire, g.roster[k.target].home, Pending, 0, time, time))
  }

  lemma RowsAreEnqueued(g: Group, notice: Notice, time: int)
    ensures TargetsOf(g, notice) <= g.roster.Keys
    ensures TargetsOf(g, notice) == match notice case StateNotice(e) => ChangeTargets(g, e) case MessageNotice(_) => RemoteMembers(g)
    ensures Enqueued(g, notice, RowsFor(g, notice, TargetsOf(g, notice), g.eventSeq, time), time)
  {
  }

  ghost predicate SameGroup(g: Group, g': Group) {
    g'.gid == g.gid && g'.host == g.host && g'.wire == g.wire && g'.quiescing == g.quiescing
  }

  /** `g'` has one more event than `g`, and that event explains every difference in its state. */
  ghost predicate LogExtends(g: Group, g': Group) {
    && g'.eventSeq == |g'.events| == |g.events| + 1
    && Appended(g, g', g'.events[|g.events|])
    && WellRecorded(g.gid, Current(g), g'.events[|g.events|], g'.messages, g'.eventSeq)
    && Replay(Current(g), g'.events[|g.events|]) == Current(g')
    && g'.version == g.version + if g'.events[|g.events|].Changed? then 1 else 0
  }

  /** How a commit relates to the group it started from, whatever came before. */
  ghost predicate Extends(g: Group, req: Request, c: Commit) {
    && !c.replay
    && SameGroup(g, c.group)
    && LogExtends(g, c.group)
    && c.group.operations == g.operations[req.Key() := OpRecord(req.digest, req.wire, c.result)]
    && c.result.eventSeq == c.group.eventSeq
    && OperationRecorded(c.group, req.Key(), OpRecord(req.digest, req.wire, c.result))
    && Enqueued(c.group, NoticeAt(c.group, c.group.eventSeq), c.rows, req.time)
  }

  /** What the handlers rely on: the counters point past everything recorded. */
  ghost predicate Fresh(g: Group) {
    g.eventSeq == |g.events| >= 1 && g.eventSeq + 1 !in g.messages && Documented(Current(g))
  }

  lemma ActivateRecords(g: Group, env: Env, req: Request, target: Did, role: Role, home: Did, c: Commit)
    requires Activate(g, env, req, target, role, home) == Ok(c)
    ensures !IsActive(g, target)
    ensures c == RecordChange(g.(roster := g.roster[target := Member(role, Active, home)]), req, MemberActivated,
                              Some(target), Some(Active), Some(role), Some(g.profile), Some(g.policy), None, Some(target))
  {
  }

  lemma UpdateRecords(g: Group, env: Env, req: Request, permission: Name, c: Commit)
    requires req.action.UpdateProfile? || req.action.UpdatePolicy?
    requires Update(g, env, req, permission) == Ok(c)
    ensures req.action.UpdateProfile? ==>
              var value := ValidateProfile(Merge(g.profile, req.action.patch));
              value.Ok? && value.value.Obj? && c == RecordChange(g.(profile := value.value), req, ProfileUpdated, None, None, None,
                                             Some(value.value), None, None, None)
    ensures req.action.UpdatePolicy? ==>
              var value := ValidatePolicy(Merge(g.policy, req.action.patch));
              value.Ok? && value.value.Obj? && c == RecordChange(g.(policy := value.value), req, PolicyUpdated, None, None, None,
                                             None, Some(value.value), None, None)
  {
    hide RecordChange, Refusal, HasCapacity, Merge;
  }

  lemma ChangeExtends(g: Group, base: Group, req: Request, etype: EventType,
                      subject: Option<Did>, status: Option<Status>, role: Option<Role>,
                      profile: Option<Json>, policy: Option<Json>, leaver: Option<Did>, member: Option<Did>)
    requires Fresh(g) && req.wire == g.wire
    requires base == g.(roster := base.roster, profile := base.profile, policy := base.policy)
    requires var c := RecordChange(base, req, etype, subject, status, role, profile, policy, leaver, member);
             var ev := c.group.events[|g.events|];
             && WellRecorded(g.gid, Current(g), ev, g.messages, g.eventSeq + 1)
             && Replay(Current(g), ev) == Current(c.group)
    requires req.action.Op() == GroupLeave ==> etype == MemberLeft && leaver == subject
    requires req.action.Op() == GroupRemove ==> etype == MemberRemoved && member == subject
    ensures Extends(g, req, RecordChange(base, req, etype, subject, status, role, profile, policy, leaver, member))
  {
    hide RowsFor, ChangeTargets, RemoteMembers, TargetsOf, Enqueued;
    var c := RecordChange(base, req, etype, subject, status, role, profile, policy, leaver, member);
    assert LogExtends(g, c.group);
    RowsAreEnqueued(c.group, StateNotice(c.group.events[|g.events|].event), req.time);
  }

  lemma ActivationExtends(g: Group, req: Request, target: Did, role: Role, home: Did, c: Commit)
    requires Fresh(g) && req.wire == g.wire && (req.action.Join? || req.action.Add?)
    requires !IsActive(g, target)
    requires c == RecordChange(g.(roster := g.roster[target := Member(role, Active, home)]), req, MemberActivated,
                               Some(target), Some(Active), Some(role), Some(g.profile), Some(g.policy), None, Some(target))
    ensures Extends(g, req, c)
  {
    hide RowsFor, ChangeTargets, Enqueued, Extends, OperationRecorded;
    var base := g.(roster := g.roster[target := Member(role, Active, home)]);
    assert Views(base.roster) == Views(g.roster)[target := MemberView(role, Active)];
    ChangeExtends(g, base, req, MemberActivated, Some(target), Some(Active), Some(role),
                  Some(g.profile), Some(g.policy), None, Some(target));
  }

  lemma DepartureExtends(g: Group, req: Request, target: Did, status: Status, etype: EventType, c: Commit)
    requires Fresh(g) && req.wire == g.wire && IsActive(g, target)
    requires (req.action == Leave && target == req.sender && status == Left && etype == MemberLeft)
          || (req.action == Remove(target) && status == Removed && etype == MemberRemoved)
    requires c == RecordChange(g.(roster := g.roster[target := g.roster[target].(status := status)]), req, etype,
                               Some(target), Some(status), None, None, None,
                               if etype == MemberLeft then Some(target) else None,
                               if etype == MemberLeft then None else Some(target))
    ensures Extends(g, req, c)
  {
    hide RowsFor, ChangeTargets, Enqueued, Extends, OperationRecorded;
    var base := g.(roster := g.roster[target := g.roster[target].(status := status)]);
    assert Views(base.roster) == Views(g.roster)[target := MemberView(g.roster[target].role, status)];
    ChangeExtends(g, base, req, etype, Some(target), Some(status), None, None, None,
                  if etype == MemberLeft then Some(target) else None, if etype == MemberLeft then None else Some(target));
  }

  lemma ProfileUpdateExtends(g: Group, req: Request, value: Json, c: Commit)
    requires Fresh(g) && req.wire == g.wire && req.action.UpdateProfile? && value.Obj?
    requires c == RecordChange(g.(profile := value), req, ProfileUpdated, None, None, None, Some(value), None, None, None)
    ensures Extends(g, req, c)
  {
    hide RowsFor, ChangeTargets, Enqueued, Extends, OperationRecorded;
    ChangeExtends(g, g.(profile := value), req, ProfileUpdated, None, None, None, Some(value), None, None, None);
  }

  lemma PolicyUpdateExtends(g: Group, req: Request, value: Json, c: Commit)
    requires Fresh(g) && req.wire == g.wire && req.action.UpdatePolicy? && value.Obj?
    requires c == RecordChange(g.(policy := value), req, PolicyUpdated, None, None, None, None, Some(value), None, None)
    ensures Extends(g, req, c)
  {
    hide RowsFor, ChangeTargets, Enqueued, Extends, OperationRecorded;
    ChangeExtends(g, g.(policy := value), req, PolicyUpdated, None, None, None, None, Some(value), None, None);
  }

  lemma SendExtends(g: Group, env: Env, req: Request, c: Commit)
    requires Fresh(g) && req.wire == g.wire && req.action.Send? && SendMessage(g, env, req) == Ok(c)
    ensures Extends(g, req, c)
  {
    hide Refusal, HasCapacity, RowsFor, RemoteMembers, Enqueued;
    var s := c.group.eventSeq;
    forall t | t in g.messages
      ensures g.messages[t].receipt.message != c.group.messages[s].receipt.message
    {
      if g.messages[t].receipt.message.Some? {
        assert g.messages[t].receipt.message.value in OwnMessageIds(g);
      }
    }
    RowsAreEnqueued(c.group, MessageNotice(c.group.messages[s]), req.time);
  }

  lemma ActivateExtends(g: Group, env: Env, req: Request, target: Did, role: Role, home: Did, c: Commit)
    requires Fresh(g) && req.wire == g.wire && (req.action.Join? || req.action.Add?)
    requires Activate(g, env, req, target, role, home) == Ok(c)
    ensures Extends(g, req, c)
  {
    ActivateRecords(g, env, req, target, role, home, c);
    ActivationExtends(g, req, target, role, home, c);
  }

  lemma UpdateExtends(g: Group, env: Env, req: Request, permission: Name, c: Commit)
    requires Fresh(g) && req.wire == g.wire && (req.action.UpdateProfile? || req.action.UpdatePolicy?)
    requires Update(g, env, req, permission) == Ok(c)
    ensures Extends(g, req, c)
  {
    UpdateRecords(g, env, req, permission, c);
    if req.action.UpdateProfile? {
      ProfileUpdateExtends(g, req, ValidateProfile(Merge(g.profile, req.action.patch)).value, c);
    } else {
      PolicyUpdateExtends(g, req, ValidatePolicy(Merge(g.policy, req.action.patch)).value, c);
    }
  }

  lemma HandleExtends(g: Group, env: Env, req: Request, c: Commit)
    requires Fresh(g) && req.wire == g.wire && Handle(g, env, req) == Ok(c)
    ensures Extends(g, req, c)
  {
    match req.action {
      case Join(home) => ActivateExtends(g, env, req, req.sender, MemberRole, home, c);
      case Add(member, role, home) => ActivateExtends(g, env, req, member, role, home, c);
      case Leave => DepartureExtends(g, req, req.sender, Left, MemberLeft, c);
      case Remove(member) => DepartureExtends(g, req, member, Removed, MemberRemoved, c);
      case UpdateProfile(_) => UpdateExtends(g, env, req, Known(UpdateProfilePermission), c);
      case UpdatePolicy(_) => UpdateExtends(g, env, req, Known(UpdatePolicyPermission), c);
      case Send(_, _) => SendExtends(g, env, req, c);
    }
  }

  lemma ActivationKeepsLimits(g: Group, env: Env, req: Request, target: Did, role: Role, home: Did, c: Commit)
    requires ValidPolicy(g.policy) && Activate(g, env, req, target, role, home) == Ok(c)
    ensures c.group.policy == g.policy && c.group.profile == g.profile && |ActiveMembers(c.group)| <= MAX_MEMBERS
  {
    hide RowsFor, ValidPolicy, Demanded, HasCapacity;
    StoredPolicyIsReadable(g.policy, Known(AddPermission));
    assert |ActiveMembers(g)| < MAX_MEMBERS;
    ActivateRecords(g, env, req, target, role, home, c);
    assert ActiveMembers(c.group) == ActiveMembers(g) + {target};
  }

  lemma DepartureKeepsLimits(g: Group, env: Env, req: Request, target: Did, status: Status, etype: EventType)
    requires |ActiveMembers(g)| <= MAX_MEMBERS && IsActive(g, target) && status != Active
    requires Depart(g, env, req, target, status, etype).Ok?
    ensures var after := Depart(g, env, req, target, status, etype).value.group;
            after.policy == g.policy && after.profile == g.profile && |ActiveMembers(after)| <= MAX_MEMBERS
  {
    var after := Depart(g, env, req, target, status, etype).value.group;
    assert ActiveMembers(after) == ActiveMembers(g) - {target};
  }

  lemma UpdateKeepsLimits(g: Group, env: Env, req: Request, permission: Name)
    requires ValidPolicy(g.policy) && g.profile.Obj? && (req.action.UpdateProfile? || req.action.UpdatePolicy?)
    requires Update(g, env, req, permission).Ok?
    ensures var after := Update(g, env, req, permission).value.group;
            ValidPolicy(after.policy) && after.profile.Obj? && ActiveMembers(after) == ActiveMembers(g)
  {
    if req.action.UpdatePolicy? {
      ValidationIsAProjection(Merge(g.policy, req.action.patch));
    }
  }

  /** The stored policy stays valid and the roster within its hard limit, whatever the current policy says. */
  lemma HandleKeepsLimits(g: Group, env: Env, req: Request)
    requires ValidPolicy(g.policy) && g.profile.Obj? && |ActiveMembers(g)| <= MAX_MEMBERS && Handle(g, env, req).Ok?
    ensures Handle(g, env, req).value.group.profile.Obj?
    ensures ValidPolicy(Handle(g, env, req).value.group.policy)
    ensures |ActiveMembers(Handle(g, env, req).value.group)| <= MAX_MEMBERS
  {
    match req.action {
      case Join(home) => ActivationKeepsLimits(g, env, req, req.sender, MemberRole, home, Handle(g, env, req).value);
      case Add(member, role, home) => ActivationKeepsLimits(g, env, req, member, role, home, Handle(g, env, req).value);
      case Leave => DepartureKeepsLimits(g, env, req, req.sender, Left, MemberLeft);
      case Remove(member) => DepartureKeepsLimits(g, env, req, member, Removed, MemberRemoved);
      case UpdateProfile(_) => UpdateKeepsLimits(g, env, req, Known(UpdateProfilePermission));
      case UpdatePolicy(_) => UpdateKeepsLimits(g, env, req, Known(UpdatePolicyPermission));
      case Send(_, _) => assert ActiveMembers(Handle(g, env, req).value.group) == ActiveMembers(g);
    }
  }

  lemma OperationsSurvive(g: Group, c: Commit, req: Request)
    requires OperationsRecorded(g) && Extends(g, req, c)
    ensures OperationsRecorded(c.group)
  {
    forall k | k in c.group.operations
      ensures OperationRecorded(c.group, k, c.group.operations[k])
    {
      if k != req.Key() {
        var r := g.operations[k];
        assert OperationRecorded(g, k, r);
        assert c.group.events[r.result.eventSeq - 1] == g.events[r.result.eventSeq - 1];
      }
    }
  }

  lemma ExtensionKeepsBooks(g: Group, genesis: GroupState, c: Commit, req: Request)
    requires Booked(g, genesis) && Extends(g, req, c)
    ensures Booked(c.group, genesis)
  {
    AppendKeepsLog(g, c.group, genesis, c.group.events[|g.events|]);
    if c.group.events[|g.events|].Sent? {
      assert c.group.eventSeq !in g.messages;
      assert |c.group.messages| == |g.messages| + 1;
    }
  }

  /**
   * Every request either raises, or replays a recorded operation without touching anything, or
   * appends exactly one event from which the whole new state can be replayed.
   */
  lemma ExecuteKeepsHistory(g: Group, genesis: GroupState, env: Env, req: Request)
    requires Consistent(g, genesis)
    ensures Execute(g, env, req).Ok? ==>
              var c := Execute(g, env, req).value;
              && Consistent(c.group, genesis)
              && if c.replay then c.group == g && c.rows == map[] && req.Key() in g.operations
                 else req.Key() !in g.operations && Extends(g, req, c)
  {
    if Execute(g, env, req).Ok? && req.Key() !in g.operations {
      var c := Execute(g, env, req).value;
      HandleExtends(g, env, req, c);
      HandleKeepsLimits(g, env, req);
      ExtensionKeepsBooks(g, genesis, c, req);
      OperationsSurvive(g, c, req);
    }
  }

  /** The books do not depend on the wire profile or the write fence, so a cutover keeps them. */
  lemma CutoverKeepsHistory(g: Group, genesis: GroupState, wire: Wire, quiescing: bool)
    requires Consistent(g, genesis)
    ensures Consistent(g.(wire := wire, quiescing := quiescing), genesis)
  {
    var g' := g.(wire := wire, quiescing := quiescing);
    hide ValidPolicy, WellRecorded, StateAt;
    assert forall s :: 2 <= s <= |g.events| ==> LoggedAt(g, genesis, s) ==> LoggedAt(g', genesis, s);
    assert ActiveMembers(g') == ActiveMembers(g);
    forall k | k in g'.operations
      ensures OperationRecorded(g', k, g'.operations[k])
    {
      assert OperationRecorded(g, k, g.operations[k]);
    }
  }

  function Seats(initial: seq<Initial>): set<Did> {
    set i | 0 <= i < |initial| :: initial[i].member
  }

  lemma SeatsOfFirst(initial: seq<Initial>)
    requires initial != []
    ensures Seats(initial) == {initial[0].member} + Seats(initial[1..])
  {
    var rest := initial[1..];
    forall i | 0 < i < |initial| ensures initial[i].member in Seats(rest) {
      assert initial[i] == rest[i - 1];
    }
    forall i | 0 <= i < |rest| ensures rest[i].member in Seats(initial) {
      assert rest[i] == initial[i + 1];
    }
  }

  lemma {:induction false} SeatingIsActive(roster: map<Did, Member>, initial: seq<Initial>)
    requires forall d :: d in roster ==> roster[d].status == Active
    requires Seat(roster, initial).Some?
    ensures forall d :: d in Seat(roster, initial).value ==> Seat(roster, initial).value[d].status == Active
    ensures |Seat(roster, initial).value| == |roster| + |initial|
    ensures Seat(roster, initial).value.Keys == roster.Keys + Seats(initial)
    decreases |initial|
  {
    if initial != [] {
      SeatingIsActive(roster[initial[0].member := Member(initial[0].role, Active, initial[0].home)], initial[1..]);
      SeatsOfFirst(initial);
    }
  }

  lemma FirstStateIsBooked(g: Group)
    requires g.version == 1 && g.eventSeq == 1 && g.events == [Created] && g.messages == map[] && g.operations == map[]
    ensures Booked(g, Current(g)) && OperationsRecorded(g)
  {
  }

  lemma CreatedDocuments(gid: Did, host: Did, wire: Wire, creator: Did, profile: Json, policy: Json, initial: seq<Initial>, g: Group)
    requires Create(gid, host, wire, creator, profile, policy, initial) == Ok(g)
    ensures g.profile.Obj? && ValidPolicy(g.policy)
    ensures g.version == 1 && g.eventSeq == 1 && g.events == [Created] && g.messages == map[] && g.operations == map[]
    ensures g.gid == gid && g.host == host && g.wire == wire && !g.quiescing
  {
    hide Seat, MemberLimit, Merge;
    ValidationIsAProjection(policy);
  }

  lemma CreatedRoster(gid: Did, host: Did, wire: Wire, creator: Did, profile: Json, policy: Json, initial: seq<Initial>, g: Group)
    requires Create(gid, host, wire, creator, profile, policy, initial) == Ok(g) && ValidPolicy(g.policy)
    ensures Seat(map[creator := Member(OwnerRole, Active, host)], initial) == Some(g.roster)
    ensures |initial| + 1 <= MAX_MEMBERS
  {
    hide Seat, ValidatePolicy, ValidateProfile, ValidPolicy;
    StoredPolicyIsReadable(g.policy, Known(AddPermission));
  }

  /** Creation starts the log at one event, with its own state as the base of the replay. */
  lemma CreationIsConsistent(gid: Did, host: Did, wire: Wire, creator: Did, profile: Json, policy: Json, initial: seq<Initial>)
    requires Create(gid, host, wire, creator, profile, policy, initial).Ok?
    ensures var g := Create(gid, host, wire, creator, profile, policy, initial).value;
            Consistent(g, Current(g)) && g.roster.Keys == {creator} + Seats(initial)
            && g.events == [Created] && g.messages == map[] && g.operations == map[] && g.version == 1
            && g.gid == gid && g.host == host && g.wire == wire && !g.quiescing
            && forall d :: d in g.roster ==> g.roster[d].status == Active
  {
    hide Create, Seat, Booked, OperationsRecorded, ValidPolicy, Current;
    var g := Create(gid, host, wire, creator, profile, policy, initial).value;
    CreatedDocuments(gid, host, wire, creator, profile, policy, initial, g);
    CreatedRoster(gid, host, wire, creator, profile, policy, initial, g);
    FirstStateIsBooked(g);
    SeatingIsActive(map[creator := Member(OwnerRole, Active, host)], initial);
    assert ActiveMembers(g) == g.roster.Keys;
    assert |g.roster.Keys| == |g.roster|;
  }

  /** Between requests the protocol fields may change in a cutover. */
  datatype HostMove = Requests(env: Env, request: Request) | CutsOver(wire: Wire, quiescing: bool)

  function Move(g: Group, move: HostMove): Group {
    match move
    case Requests(env, request) =>
      (match Execute(g, env, request)
       case Ok(c) => c.group
       case Err(_) => g)
    case CutsOver(wire, quiescing) => g.(wire := wire, quiescing := quiescing)
  }

  function MoveAll(g: Group, run: seq<HostMove>): Group {
    if run == [] then g else Move(MoveAll(g, run[..|run| - 1]), run[|run| - 1])
  }

  lemma {:induction false} RunKeepsHistory(g: Group, genesis: GroupState, run: seq<HostMove>)
    requires Consistent(g, genesis)
    ensures Consistent(MoveAll(g, run), genesis)
  {
    hide Consistent, Execute;
    if run != [] {
      var n := |run| - 1;
      RunKeepsHistory(g, genesis, run[..n]);
      match run[n] {
        case Requests(env, request) => ExecuteKeepsHistory(MoveAll(g, run[..n]), genesis, env, request);
        case CutsOver(wire, quiescing) => CutoverKeepsHistory(MoveAll(g, run[..n]), genesis, wire, quiescing);
      }
    }
  }

  /**
   * In every state a hosted group can reach: events are numbered without a hole, the event number is
   * the version plus the messages stored, roster, profile and policy are what the event payloads fold
   * to, the stored policy is valid and at most a hundred members are active.
   */
  lemma LogExplainsState(gid: Did, host: Did, wire: Wire, creator: Did, profile: Json, policy: Json, initial: seq<Initial>, g: Group, run: seq<HostMove>)
    requires Create(gid, host, wire, creator, profile, policy, initial) == Ok(g)
    ensures var now := MoveAll(g, run);
            && now.eventSeq == |now.events| == now.version + |now.messages|
            && StateAt(Current(g), now.events, |now.events|) == Current(now)
            && ValidPolicy(now.policy) && |ActiveMembers(now)| <= MAX_MEMBERS
            && forall s :: 2 <= s <= |now.events| ==> LoggedAt(now, Current(g), s)
  {
    CreationIsConsistent(gid, host, wire, creator, profile, policy, initial);
    hide Create, Move;
    RunKeepsHistory(g, Current(g), run);
    hide MoveAll, WellRecorded, ValidPolicy;
  }
}
