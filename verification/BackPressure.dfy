/** The outbox of a Host with many groups stays bounded, because each commit enqueues what was counted. */
module BackPressure {
  import opened Aggregates
  import opened Common
  import opened MergePatch
  import opened GroupPolicy
  import opened GroupTypes
  import opened Outbox
  import opened GroupHost
  import opened GroupHistory
  import opened HostTables

  /** The backlog a handler counts is every row still pending or up for a retry, of whatever group. */
  lemma BacklogIsWhatIsOpen(rows: Rows, maxPending: nat, takenMessages: set<Token>)
    ensures EnvOf(rows, maxPending, takenMessages)
            == Env(|set k | k in rows && (rows[k].status == Pending || rows[k].status == Retry)|, maxPending, takenMessages)
  {
    assert OpenRows(rows) == set k | k in rows && (rows[k].status == Pending || rows[k].status == Retry);
  }

  lemma {:induction false} OneRowPerTarget(g: Group, notice: Notice, targets: set<Did>, eventSeq: nat, time: int)
    requires targets <= g.roster.Keys
    ensures |RowsFor(g, notice, targets, eventSeq, time)| == |targets|
    decreases targets
  {
    var rows := RowsFor(g, notice, targets, eventSeq, time);
    if targets != {} {
      var d :| d in targets;
      var key := RowKey(g.gid, eventSeq, d, notice.Kind());
      OneRowPerTarget(g, notice, targets - {d}, eventSeq, time);
      var rest := RowsFor(g, notice, targets - {d}, eventSeq, time);
      assert rows.Keys == rest.Keys + {key};
      assert |rows.Keys| == |rows| && |rest.Keys| == |rest|;
    } else {
      assert rows == map[];
    }
  }

  /** The rows of one commit: new, pending, and exactly as many as the capacity check allowed for. */
  ghost predicate Admitted(g: Group, env: Env, req: Request, rows: Rows) {
    && (forall k :: k in rows ==> k.gid == g.gid && k.eventSeq == g.eventSeq + 1 && rows[k].status == Pending)
    && HasCapacity(env, |rows|, !req.action.Send?)
  }

  ghost predicate Counted(g: Group, g': Group, rows: Rows) {
    && g'.gid == g.gid && g'.eventSeq >= g.eventSeq
    && (rows != map[] ==> g'.eventSeq == g.eventSeq + 1)
  }

  /** What a recorded change enqueues. */
  ghost predicate Announces(g: Group, c: Commit, e: Event, time: int) {
    && c.group.gid == g.gid && c.group.host == g.host && c.group.wire == g.wire && c.group.roster == g.roster
    && c.group.eventSeq == g.eventSeq + 1 && ChangeTargets(c.group, e) <= c.group.roster.Keys
    && c.rows == RowsFor(c.group, StateNotice(e), ChangeTargets(c.group, e), g.eventSeq + 1, time)
  }

  lemma ChangeAnnounces(g: Group, req: Request, etype: EventType,
                        subject: Option<Did>, status: Option<Status>, role: Option<Role>,
                        profile: Option<Json>, policy: Option<Json>, leaver: Option<Did>, member: Option<Did>, c: Commit)
    returns (e: Event)
    requires c == RecordChange(g, req, etype, subject, status, role, profile, policy, leaver, member)
    ensures Announces(g, c, e, req.time) && e.etype == etype && e.subject == subject
  {
    hide RowsFor, ChangeTargets;
    e := c.group.events[|g.events|].event;
    TargetsAreSeated(c.group, e);
  }

  lemma AnnouncementAdmits(base: Group, g: Group, env: Env, req: Request, c: Commit, e: Event)
    requires Announces(base, c, e, req.time) && base.gid == g.gid && base.eventSeq == g.eventSeq && !req.action.Send?
    requires HasCapacity(env, |ChangeTargets(c.group, e)|, true)
    ensures Admitted(g, env, req, c.rows) && Counted(g, c.group, c.rows)
  {
    hide ChangeTargets, HasCapacity;
    OneRowPerTarget(c.group, StateNotice(e), ChangeTargets(c.group, e), g.eventSeq + 1, req.time);
  }

  lemma ActivationAdmits(g: Group, env: Env, req: Request, target: Did, role: Role, home: Did, c: Commit)
    requires Activate(g, env, req, target, role, home) == Ok(c) && !req.action.Send?
    ensures Admitted(g, env, req, c.rows) && Counted(g, c.group, c.rows)
  {
    hide RowsFor;
    var seated := g.(roster := g.roster[target := Member(role, Active, home)]);
    var e := ChangeAnnounces(seated, req, MemberActivated, Some(target), Some(Active), Some(role), Some(g.profile), Some(g.policy),
                             None, Some(target), c);
    assert ChangeTargets(c.group, e) == RemoteMembers(seated);
    AnnouncementAdmits(seated, g, env, req, c, e);
  }

  /** Whom a departure is announced to, counted the way the profile's handler counts. */
  lemma DepartureTargets(g: Group, without: Group, after: Group, target: Did, status: Status, e: Event)
    requires IsActive(g, target) && status != Active && Departure(e) && e.subject == Some(target)
    requires without == g.(roster := g.roster[target := g.roster[target].(status := status)])
    requires after.roster == without.roster && after.host == g.host && after.wire == g.wire
    ensures ChangeTargets(after, e) == RemoteMembers(if g.wire == BaseV2 then g else without)
  {
  }

  /** In v2 the departing member is notified too, and it is v2 that counts before it departs. */
  lemma DepartureAdmits(g: Group, env: Env, req: Request, target: Did, status: Status, etype: EventType, c: Commit)
    requires IsActive(g, target) && req.wire == g.wire && !req.action.Send? && status != Active
    requires etype == MemberLeft || etype == MemberRemoved
    requires Depart(g, env, req, target, status, etype) == Ok(c)
    ensures Admitted(g, env, req, c.rows) && Counted(g, c.group, c.rows)
  {
    hide RowsFor, ChangeTargets, RemoteMembers, Admitted;
    var without := g.(roster := g.roster[target := g.roster[target].(status := status)]);
    var e := ChangeAnnounces(without, req, etype, Some(target), Some(status), None, None, None,
                             if etype == MemberLeft then Some(target) else None, if etype == MemberLeft then None else Some(target), c);
    DepartureTargets(g, without, c.group, target, status, e);
    AnnouncementAdmits(without, g, env, req, c, e);
  }

  lemma UpdateTargets(g: Group, base: Group, after: Group, e: Event)
    requires base.roster == g.roster && base.host == g.host && base.gid == g.gid
    requires after.roster == base.roster && after.host == base.host && !Departure(e)
    ensures ChangeTargets(after, e) == RemoteMembers(g)
  {
  }

  lemma UpdateAdmits(g: Group, env: Env, req: Request, permission: Name, c: Commit)
    requires req.action.UpdateProfile? || req.action.UpdatePolicy?
    requires Update(g, env, req, permission) == Ok(c)
    ensures Admitted(g, env, req, c.rows) && Counted(g, c.group, c.rows)
  {
    hide ValidatePolicy, ValidateProfile, Merge, Refusal, RowsFor, ChangeTargets, RemoteMembers, Admitted, HasCapacity;
    var base, e;
    if req.action.UpdateProfile? {
      var value := ValidateProfile(Merge(g.profile, req.action.patch)).value;
      base := g.(profile := value);
      e := ChangeAnnounces(base, req, ProfileUpdated, None, None, None, Some(value), None, None, None, c);
    } else {
      var value := ValidatePolicy(Merge(g.policy, req.action.patch)).value;
      base := g.(policy := value);
      e := ChangeAnnounces(base, req, PolicyUpdated, None, None, None, None, Some(value), None, None, c);
    }
    UpdateTargets(g, base, c.group, e);
    AnnouncementAdmits(base, g, env, req, c, e);
  }

  lemma SendAdmits(g: Group, env: Env, req: Request, c: Commit)
    requires req.action.Send? && SendMessage(g, env, req) == Ok(c)
    ensures Admitted(g, env, req, c.rows) && Counted(g, c.group, c.rows)
  {
    hide Refusal, Reserve, OwnMessageIds;
    assert RemoteMembers(c.group) == RemoteMembers(g);
    OneRowPerTarget(c.group, MessageNotice(c.group.messages[g.eventSeq + 1]), RemoteMembers(c.group), g.eventSeq + 1, req.time);
  }

  /** The count that was checked is the count that is enqueued, for every handler and both profiles. */
  lemma CommitAdmits(g: Group, env: Env, req: Request, c: Commit)
    requires Execute(g, env, req) == Ok(c)
    ensures Admitted(g, env, req, c.rows) && Counted(g, c.group, c.rows)
  {
    hide Activate, Depart, Update, SendMessage, OpenJoin, Refusal;
    if req.Key() !in g.operations {
      match req.action {
        case Join(home) => ActivationAdmits(g, env, req, req.sender, MemberRole, home, c);
        case Add(member, role, home) => ActivationAdmits(g, env, req, member, role, home, c);
        case Leave => DepartureAdmits(g, env, req, req.sender, Left, MemberLeft, c);
        case Remove(member) => DepartureAdmits(g, env, req, member, Removed, MemberRemoved, c);
        case UpdateProfile(_) => UpdateAdmits(g, env, req, Known(UpdateProfilePermission), c);
        case UpdatePolicy(_) => UpdateAdmits(g, env, req, Known(UpdatePolicyPermission), c);
        case Send(_, _) => SendAdmits(g, env, req, c);
      }
    }
  }

  // ------------------------------------------------------------------------------------------
  // Many groups, one outbox
  // ------------------------------------------------------------------------------------------

  datatype Hosting = Hosting(groups: map<Did, Group>, rows: Rows, maxPending: nat)

  datatype HostStep =
    | Serves(gid: Did, request: Request, takenMessages: set<Token>)
    | Creates(group: Group)
    | Settles(key: RowKey, selected: Row, outcome: Outcome, now: int, clock: int)

  predicate CanStep(s: Hosting, step: HostStep) {
    match step
    case Serves(gid, _, _) => gid in s.groups
    case Creates(group) => group.gid !in s.groups
    case Settles(_, _, _, _, _) => true
  }

  function StepHost(s: Hosting, step: HostStep): Hosting
    requires CanStep(s, step)
  {
    match step
    case Serves(gid, request, takenMessages) =>
      (match Execute(s.groups[gid], EnvOf(s.rows, s.maxPending, takenMessages), request)
       case Ok(c) => s.(groups := s.groups[gid := c.group], rows := Insert(s.rows, c.rows))
       case Err(_) => s)
    case Creates(group) => s.(groups := s.groups[group.gid := group])
    case Settles(key, selected, outcome, now, clock) => s.(rows := Settle(s.rows, key, selected, outcome, now, clock))
  }

  function Limit(maxPending: nat): nat {
    maxPending + Reserve(maxPending)
  }

  /** Every row was enqueued by an event its group has already counted. */
  ghost predicate Owned(groups: map<Did, Group>, rows: Rows) {
    && (forall gid :: gid in groups ==> groups[gid].gid == gid)
    && (forall k :: k in rows ==> k.gid in groups && k.eventSeq <= groups[k.gid].eventSeq)
  }

  ghost predicate Bounded(s: Hosting) {
    && Owned(s.groups, s.rows)
    && |OpenRows(s.rows)| <= Limit(s.maxPending)
  }

  lemma InsertedAreOpen(rows: Rows, added: Rows)
    requires forall k :: k in added ==> k !in rows && added[k].status == Pending
    ensures |OpenRows(Insert(rows, added))| == |OpenRows(rows)| + |added|
  {
    assert OpenRows(Insert(rows, added)) == OpenRows(rows) + added.Keys;
    assert OpenRows(rows) !! added.Keys && |added.Keys| == |added|;
  }

  /**
   * After every committed step pending and retrying rows number at most the configured limit plus the
   * management reserve, and a message never takes them past the limit itself.
   */
  lemma StepKeepsBound(s: Hosting, step: HostStep)
    requires Bounded(s) && CanStep(s, step)
    ensures Bounded(StepHost(s, step))
    ensures StepHost(s, step).maxPending == s.maxPending
    ensures step.Serves? && step.request.action.Send? && StepHost(s, step).rows != s.rows ==>
              |OpenRows(StepHost(s, step).rows)| <= s.maxPending
  {
    match step {
      case Serves(gid, request, takenMessages) =>
        hide Execute, Reserve, OpenRows;
        var env := EnvOf(s.rows, s.maxPending, takenMessages);
        var r := Execute(s.groups[gid], env, request);
        if r.Ok? {
          CommitAdmits(s.groups[gid], env, request, r.value);
          CommitKeepsBound(s, gid, env, request, r.value);
        }
      case Creates(group) =>
      case Settles(key, selected, outcome, now, clock) =>
        SmallerSubset(OpenRows(StepHost(s, step).rows), OpenRows(s.rows));
    }
  }

  lemma CommitKeepsBacklog(rows: Rows, added: Rows, env: Env, req: Request)
    requires env.pending == |OpenRows(rows)| <= Limit(env.maxPending) && HasCapacity(env, |added|, !req.action.Send?)
    requires forall k :: k in added ==> k !in rows && added[k].status == Pending
    ensures |OpenRows(Insert(rows, added))| <= Limit(env.maxPending)
    ensures req.action.Send? && added != map[] ==> |OpenRows(Insert(rows, added))| <= env.maxPending
  {
    hide Reserve, OpenRows, Insert;
    InsertedAreOpen(rows, added);
  }

  lemma CommitKeepsOwned(groups: map<Did, Group>, rows: Rows, gid: Did, env: Env, req: Request, c: Commit)
    requires Owned(groups, rows) && gid in groups
    requires Admitted(groups[gid], env, req, c.rows) && Counted(groups[gid], c.group, c.rows)
    ensures Owned(groups[gid := c.group], Insert(rows, c.rows))
    ensures forall k :: k in c.rows ==> k !in rows
  {
    hide HasCapacity;
    var after := groups[gid := c.group];
    forall k | k in Insert(rows, c.rows)
      ensures k.gid in after && k.eventSeq <= after[k.gid].eventSeq
    {
      if k in rows {
        assert k.gid in groups;
      }
    }
  }

  lemma CommitKeepsBound(s: Hosting, gid: Did, env: Env, req: Request, c: Commit)
    requires Bounded(s) && gid in s.groups && env.pending == |OpenRows(s.rows)| && env.maxPending == s.maxPending
    requires Admitted(s.groups[gid], env, req, c.rows) && Counted(s.groups[gid], c.group, c.rows)
    ensures Bounded(s.(groups := s.groups[gid := c.group], rows := Insert(s.rows, c.rows)))
    ensures req.action.Send? && Insert(s.rows, c.rows) != s.rows ==> |OpenRows(Insert(s.rows, c.rows))| <= s.maxPending
  {
    hide Limit, OpenRows, HasCapacity, Owned, Counted;
    CommitKeepsOwned(s.groups, s.rows, gid, env, req, c);
    CommitKeepsBacklog(s.rows, c.rows, env, req);
    assert Insert(s.rows, map[]) == s.rows;
  }

  ghost predicate Steps(s: Hosting, run: seq<HostStep>)
    decreases |run|
  {
    run != [] ==> CanStep(s, run[0]) && Steps(StepHost(s, run[0]), run[1..])
  }

  function EndOf(s: Hosting, run: seq<HostStep>): Hosting
    requires Steps(s, run)
    decreases |run|
  {
    if run == [] then s else EndOf(StepHost(s, run[0]), run[1..])
  }

  /** Over any run of a Host, its groups and its drains. */
  lemma {:induction false} BacklogIsBounded(s: Hosting, run: seq<HostStep>)
    requires Bounded(s) && Steps(s, run)
    ensures Bounded(EndOf(s, run)) && EndOf(s, run).maxPending == s.maxPending
    decreases |run|
  {
    if run != [] {
      StepKeepsBound(s, run[0]);
      BacklogIsBounded(StepHost(s, run[0]), run[1..]);
    }
  }
}
