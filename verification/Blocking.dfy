/** What a forwarded departure can cost: state changes it overtakes keep the owner's queue from ever draining. */
module Blocking {
  import opened Common
  import opened MergePatch
  import opened GroupPolicy
  import opened GroupTypes
  import opened Outbox
  import opened GroupHost
  import opened GroupHistory
  import opened MemberHome
  import opened Replica
  import opened Convergence
  import opened Progress

  /** A state change owed to the owner, not its own departure, and not taken in yet: queued or travelling. */
  predicate Waiting(s: System, link: Link, q: nat) {
    && Notified(FeedIn(s), link.owner, q) && !MessageAt(FeedIn(s), q) && !DepartsAt(FeedIn(s), link.owner, q)
    && !HasRecorded(s.home, FeedIn(s), link, q)
  }

  /** Stuck, and no departure that could still be recognised when it is forwarded itself. */
  predicate Blocked(s: System, link: Link, q: nat) {
    Stuck(s, link, q) && !DepartsAt(FeedIn(s), link.owner, q)
  }

  /** No departure receipt matches a notification that is not a departure: it is overtaken once the view ended behind it. */
  lemma BlockedIffPassed(s: System, link: Link, q: nat)
    requires HostOk(s.group, s.genesis, link)
    ensures Blocked(s, link, q) <==>
            && Waiting(s, link, q) && s.home.view.Some? && s.home.view.value.status != Active
            && s.home.view.value.observedSeq < q < s.home.view.value.eventSeq
  {
    hide FeedOf;
    HostIsBooked(s, link);
    FeedOfIsOk(s.group, s.genesis);
    if Notified(FeedIn(s), link.owner, q) {
      Membership(FeedIn(s), link.gid, link.owner, q);
    }
  }

  /** The answer to a departure of the owner moves a view that is not past it onto that event. */
  lemma ForwardedEnds(s: System, link: Link, key: OpKey, r: Result<Home, HomeError>)
    requires Inv(s, link) && key in s.group.operations && TerminalMethod(key.op)
    requires TerminalSubject(key.op, s.group.operations[key].result) == Some(link.owner)
    requires s.home.view.Some? && s.home.view.value.eventSeq <= s.group.operations[key].result.eventSeq
    requires r == Forwarded(s.home, key.op, s.group.operations[key].result, link.owner)
    ensures r.Ok? && r.value.inbound == s.home.inbound && r.value.view.Some?
    ensures r.value.view.value.status != Active && r.value.view.value.observedSeq == s.home.view.value.observedSeq
    ensures r.value.view.value.eventSeq == s.group.operations[key].result.eventSeq
  {
    hide Inv, Forwarded;
    ForwardStepKeeps(s, link, key, r);
    ForwardedMoves(s.home, key.op, s.group.operations[key].result, link.owner, r.value);
  }

  lemma ForwardedMoves(h: Home, op: Method, result: OpResult, owner: Did, h': Home)
    requires h.view.Some? && h.view.value.eventSeq <= result.eventSeq && Forwarded(h, op, result, owner) == Ok(h')
    ensures h'.inbound == h.inbound && h'.view.Some? && h'.view.value.status != Active
    ensures h'.view.value.eventSeq == result.eventSeq && h'.view.value.observedSeq == h.view.value.observedSeq
  {
  }

  /** A departure's answer that the view is not past yet blocks what was still waiting and no roster read had shown. */
  lemma ForwardingBlocks(s: System, link: Link, key: OpKey, q: nat, r: Result<Home, HomeError>)
    requires Inv(s, link) && key in s.group.operations && TerminalMethod(key.op)
    requires TerminalSubject(key.op, s.group.operations[key].result) == Some(link.owner)
    requires s.home.view.Some? && s.home.view.value.eventSeq <= s.group.operations[key].result.eventSeq
    requires r == Forwarded(s.home, key.op, s.group.operations[key].result, link.owner)
    ensures Blocked(Rehomed(s, r), link, q) <==>
            Waiting(s, link, q) && s.home.view.value.observedSeq < q < s.group.operations[key].result.eventSeq
  {
    hide HostSide, HomeSide, FeedOf, Notified, MessageAt, DepartsAt, Forwarded, TerminalSubject, Blocked;
    ForwardedEnds(s, link, key, r);
    HostIsKnown(s, link);
    BlockedIffPassed(Rehomed(s, r), link, q);
  }

  // ------------------------------------------------------------------------------------------
  // Blocked is for ever
  // ------------------------------------------------------------------------------------------

  lemma CommitKeepsWaiting(s: System, link: Link, env: Env, req: Request, c: Commit, q: nat)
    requires Inv(s, link) && Waiting(s, link, q) && Execute(s.group, env, req) == Ok(c)
    ensures Waiting(s.(group := c.group, rows := Insert(s.rows, c.rows)), link, q)
  {
    hide HomeOk, FeedOf, Sound, WorkerOk, QueueOk, SentOk, ReceiptsOk, Execute, LogExtends, OperationRecorded, Enqueued, Booked;
    ExecuteKeepsHistory(s.group, s.genesis, env, req);
    if !c.replay {
      FeedOfExtends(s.group, c.group, s.genesis);
      FeedGrows(s.home, FeedIn(s), FeedOf(c.group, s.genesis), link);
    }
  }

  lemma CommitKeepsBlocked(s: System, link: Link, env: Env, req: Request, c: Commit, q: nat)
    requires Inv(s, link) && Blocked(s, link, q) && Enabled(s, link, HostCommits(env, req)) && Execute(s.group, env, req) == Ok(c)
    ensures Blocked(s.(group := c.group, rows := Insert(s.rows, c.rows)), link, q)
  {
    hide HostSide, HomeSide, FeedOf, Execute, Waiting, Blocked, Insert, DiscoversHome;
    var s' := s.(group := c.group, rows := Insert(s.rows, c.rows));
    CommitStepKeepsHost(s, link, env, req, c);
    HostIsKnown(s, link);
    HostIsKnown(s', link);
    BlockedIffPassed(s, link, q);
    BlockedIffPassed(s', link, q);
    CommitKeepsWaiting(s, link, env, req, c, q);
  }

  lemma EndedKeepsBlocked(s: System, link: Link, home: Home, q: nat)
    requires HostOk(s.group, s.genesis, link) && Blocked(s, link, q) && s.home.view.Some?
    requires home.inbound == s.home.inbound && home.view.Some? && home.view.value.status != Active
    requires home.view.value.eventSeq >= s.home.view.value.eventSeq && home.view.value.observedSeq == s.home.view.value.observedSeq
    ensures Blocked(s.(home := home), link, q)
  {
    hide HostOk, FeedOf, Notified, MessageAt, DepartsAt, Blocked;
    BlockedIffPassed(s, link, q);
    BlockedIffPassed(s.(home := home), link, q);
  }

  lemma ForwardKeepsBlocked(s: System, link: Link, op: Method, result: OpResult, q: nat)
    requires HostSide(s, link) && Blocked(s, link, q)
    ensures Blocked(Rehomed(s, Forwarded(s.home, op, result, link.owner)), link, q)
  {
    hide HostSide, FeedOf, Forwarded;
    HostIsKnown(s, link);
    if Forwarded(s.home, op, result, link.owner).Ok? {
      ForwardedStaysEnded(s.home, op, result, link.owner, Forwarded(s.home, op, result, link.owner).value);
      EndedKeepsBlocked(s, link, Forwarded(s.home, op, result, link.owner).value, q);
    }
  }

  lemma RefreshKeepsBlocked(s: System, link: Link, answer: Roster, at: int, q: nat)
    requires Blocked(s, link, q)
    ensures Blocked(Apply(s, link, HomeRefreshes(answer, at)), link, q)
  {
    hide FeedOf, Refresh, Notified, DepartsAt;
    RefreshKeepsEnded(s.home, answer, link.owner);
  }

  lemma ForwardedStaysEnded(h: Home, op: Method, result: OpResult, owner: Did, h': Home)
    requires h.view.Some? && h.view.value.status != Active && Forwarded(h, op, result, owner) == Ok(h')
    ensures h'.inbound == h.inbound && h'.view.Some? && h'.view.value.status != Active
    ensures h'.view.value.eventSeq >= h.view.value.eventSeq && h'.view.value.observedSeq == h.view.value.observedSeq
  {
  }

  lemma RefreshKeepsEnded(h: Home, answer: Roster, owner: Did)
    requires h.view.Some? && h.view.value.status != Active
    ensures Refresh(h, answer, owner).Ok? ==> Refresh(h, answer, owner).value.0 == h
  {
  }

  /** No later step, retry, roster read or new event brings the owner's queue forward again. */
  lemma BlockedStays(s: System, link: Link, step: Step, q: nat)
    requires Inv(s, link) && Blocked(s, link, q) && Enabled(s, link, step)
    ensures Blocked(Apply(s, link, step), link, q)
  {
    hide HomeSide, HostSide, Blocked, Refresh, Forwarded, Execute, HomeAnswer, Settle, Insert, IsBatch, FeedOf;
    match step {
      case HostCommits(env, request) =>
        CommitKeepsBlocked(s, link, env, request, Execute(s.group, env, request).value, q);
      case OtherGroupEnqueues(added) => RowsKeepBlocked(s, link, Insert(s.rows, added), q);
      case HomeRefreshes(answer, at) => RefreshKeepsBlocked(s, link, answer, at, q);
      case HomeForwards(key) => ForwardKeepsBlocked(s, link, key.op, s.group.operations[key].result, q);
      case _ => QuietStepKeepsBlocked(s, link, step, q);
    }
  }

  lemma RowsKeepBlocked(s: System, link: Link, rows: Rows, q: nat)
    ensures Blocked(s.(rows := rows), link, q) <==> Blocked(s, link, q)
  {
    hide FeedOf;
  }

  lemma QuietStepKeepsBlocked(s: System, link: Link, step: Step, q: nat)
    requires Inv(s, link) && Blocked(s, link, q) && Enabled(s, link, step) && QuietStep(step)
    ensures Blocked(Apply(s, link, step), link, q)
  {
    hide Inv, Enabled, Apply, Stuck, FeedOf;
    QuietStepKeepsStuck(s, link, step, q);
    QuietStepKeepsGroup(s, link, step);
  }

  lemma QuietStepKeepsGroup(s: System, link: Link, step: Step)
    requires QuietStep(step)
    ensures Apply(s, link, step).group == s.group && Apply(s, link, step).genesis == s.genesis
  {
    hide HomeAnswer, Settle, FeedOf;
  }

  lemma UndeliveredBehindBlocked(s: System, link: Link, q: nat, k: RowKey)
    requires Inv(s, link) && Blocked(s, link, q)
    ensures k in s.rows && InQueue(k, link) && k.eventSeq >= q ==> s.rows[k].status != Delivered
  {
    hide HostSide, FeedOf, ForwardsOk, InboundOk, ViewOk, OperationsOk, MessagesOk, LogOk, RosterOk;
  }

  /** The price: the blocked row and every later row of the queue stay undelivered in every continuation. */
  lemma {:induction false} BlockedQueueNeverDrains(s: System, link: Link, run: seq<Step>, q: nat, k: RowKey)
    requires Inv(s, link) && Blocked(s, link, q) && Possible(s, link, run)
    ensures Inv(After(s, link, run), link) && Blocked(After(s, link, run), link, q)
    ensures k in After(s, link, run).rows && InQueue(k, link) && k.eventSeq >= q ==> After(s, link, run).rows[k].status != Delivered
  {
    hide Inv, Blocked, Enabled, Apply, Possible;
    if run != [] {
      var n := |run| - 1;
      LastStep(s, link, run);
      BlockedQueueNeverDrains(s, link, run[..n], q, k);
      StepKeepsInv(After(s, link, run[..n]), link, run[n]);
      BlockedStays(After(s, link, run[..n]), link, run[n], q);
    }
    UndeliveredBehindBlocked(After(s, link, run), link, q, k);
  }

  // ------------------------------------------------------------------------------------------
  // It happens
  // ------------------------------------------------------------------------------------------

  lemma ProfileUpdateIsLogged(g: Group, env: Env, req: Request, c: Commit)
    requires Execute(g, env, req) == Ok(c) && req.Key() !in g.operations && req.action.UpdateProfile?
    ensures |c.group.events| == |g.events| + 1 && c.group.roster == g.roster
    ensures c.group.events[|g.events|].Changed? && c.group.events[|g.events|].event.etype == ProfileUpdated
  {
    hide Update, RowsFor;
    UpdateRecords(g, env, req, Known(UpdateProfilePermission), c);
  }

  lemma LeaveIsLogged(g: Group, env: Env, req: Request, c: Commit)
    requires Execute(g, env, req) == Ok(c) && req.Key() !in g.operations && req.action == Leave
    ensures req.Key() in c.group.operations
    ensures c.group.operations[req.Key()].result.leaver == Some(req.sender)
    ensures c.group.operations[req.Key()].result.eventSeq == g.eventSeq + 1
  {
    hide RowsFor, HasCapacity;
  }

  /** A profile update that the Host just committed waits for every remote member. */
  lemma UpdateWaits(s: System, link: Link, env: Env, req: Request, c: Commit)
    requires HostOk(s.group, s.genesis, link) && HostOk(c.group, s.genesis, link) && InboundOk(s.home, FeedIn(s), link)
    requires IsActive(s.group, link.owner) && Execute(s.group, env, req) == Ok(c)
    requires req.Key() !in s.group.operations && req.action.UpdateProfile?
    ensures Waiting(s.(group := c.group, rows := Insert(s.rows, c.rows)), link, s.group.eventSeq + 1)
  {
    hide Execute, OperationsRecorded, ValidPolicy, Insert, Replay, LoggedAt, MessagesDistinct, HomeKnown;
    var q := s.group.eventSeq + 1;
    ProfileUpdateIsLogged(s.group, env, req, c);
    assert StateAt(s.genesis, c.group.events, q) == Current(c.group);
    assert ActiveIn(Current(c.group), link.owner);
    assert FeedOf(c.group, s.genesis)[q].notice == Some(StateNotice(c.group.events[q - 1].event));
    assert forall k :: k in s.home.inbound ==> Notified(FeedIn(s), link.owner, k.eventSeq) && k.eventSeq < q;
  }

  /**
   * From every state in which the owner is an active member with a view: a profile update and the
   * owner's leave, forwarded before the update was delivered, block its queue.
   */
  lemma UpdateThenLeaveBlocks(s: System, link: Link, env: Env, update: Request, leave: Request) returns (run: seq<Step>)
    requires Inv(s, link) && IsActive(s.group, link.owner) && s.home.view.Some?
    requires update.action.UpdateProfile? && update.Key() !in s.group.operations && Execute(s.group, env, update).Ok?
    requires leave.action == Leave && leave.sender == link.owner
    requires var updated := Execute(s.group, env, update).value.group;
             leave.Key() !in updated.operations && Execute(updated, env, leave).Ok?
    ensures run == [HostCommits(env, update), HostCommits(env, leave), HomeForwards(leave.Key())]
    ensures Possible(s, link, run) && Inv(After(s, link, run), link) && Blocked(After(s, link, run), link, s.group.eventSeq + 1)
  {
    hide HostSide, HomeSide, Execute, FeedOf, Waiting, Blocked, Possible, After, Insert, Forwarded;
    var c := Execute(s.group, env, update).value;
    var s1 := s.(group := c.group, rows := Insert(s.rows, c.rows));
    var d := Execute(c.group, env, leave).value;
    var s2 := s1.(group := d.group, rows := Insert(s1.rows, d.rows));
    SingleStep(s, link, HostCommits(env, update));
    StepKeepsInv(s, link, HostCommits(env, update));
    OneMoreStep(s, link, [HostCommits(env, update)], HostCommits(env, leave));
    StepKeepsInv(s1, link, HostCommits(env, leave));
    CommittedUpdateWaits(s, link, env, update, c);
    CommitKeepsWaiting(s1, link, env, leave, d, s.group.eventSeq + 1);
    LeaveBlocks(s1, link, env, leave, d, s.group.eventSeq + 1);
    OneMoreStep(s, link, [HostCommits(env, update)] + [HostCommits(env, leave)], HomeForwards(leave.Key()));
    run := [HostCommits(env, update)] + [HostCommits(env, leave)] + [HomeForwards(leave.Key())];
    StepKeepsInv(s2, link, HomeForwards(leave.Key()));
  }

  lemma CommittedUpdateWaits(s: System, link: Link, env: Env, req: Request, c: Commit)
    requires Inv(s, link) && IsActive(s.group, link.owner) && Execute(s.group, env, req) == Ok(c)
    requires req.Key() !in s.group.operations && req.action.UpdateProfile?
    ensures Waiting(s.(group := c.group, rows := Insert(s.rows, c.rows)), link, s.group.eventSeq + 1)
    ensures s.home.view.Some? ==> s.home.view.value.observedSeq <= s.home.view.value.eventSeq <= s.group.eventSeq
    ensures c.group.eventSeq == s.group.eventSeq + 1
  {
    hide HostSide, Execute, FeedOf, Waiting, Insert;
    var s' := s.(group := c.group, rows := Insert(s.rows, c.rows));
    CommitStepKeepsHost(s, link, env, req, c);
    HostIsKnown(s, link);
    HostIsKnown(s', link);
    UpdateWaits(s, link, env, req, c);
    ProfileUpdateIsLogged(s.group, env, req, c);
    HostIsBooked(s, link);
    HostIsBooked(s', link);
    FeedOfIsOk(s.group, s.genesis);
  }

  lemma LeaveBlocks(s: System, link: Link, env: Env, leave: Request, c: Commit, q: nat)
    requires Inv(s, link) && Waiting(s, link, q) && q <= s.group.eventSeq && leave.action == Leave && leave.sender == link.owner
    requires leave.Key() !in s.group.operations && Execute(s.group, env, leave) == Ok(c)
    requires s.home.view.Some? && s.home.view.value.observedSeq < q && s.home.view.value.eventSeq <= s.group.eventSeq
    ensures var s' := s.(group := c.group, rows := Insert(s.rows, c.rows));
            Enabled(s', link, HomeForwards(leave.Key())) && Blocked(Apply(s', link, HomeForwards(leave.Key())), link, q)
  {
    hide HostSide, HomeSide, Execute, FeedOf, Waiting, Blocked, Insert, Forwarded;
    var s' := s.(group := c.group, rows := Insert(s.rows, c.rows));
    StepKeepsInv(s, link, HostCommits(env, leave));
    LeaveIsLogged(s.group, env, leave, c);
    CommitKeepsWaiting(s, link, env, leave, c, q);
    ForwardingBlocks(s', link, leave.Key(), q, Forwarded(s'.home, GroupLeave, c.group.operations[leave.Key()].result, link.owner));
  }

  const ALICE := Did("alice")
  const BOB := Did("bob")
  const LINK := Link(Did("group"), Did("host"), BOB, Did("home"))
  const ROOM := Env(0, 1000, {})
  const JOIN := Request(BOB, Token("1"), BaseV2, Token("1"), 0, Join(LINK.home))
  const LIST := Request(ALICE, Token("2"), BaseV2, Token("2"), 0, UpdateProfile(Obj(map[Known(Discoverability) := Str(Known(ListedName))])))
  const LEAVE := Request(BOB, Token("3"), BaseV2, Token("3"), 0, Leave)

  /** A hosted v2 group that anyone may join, with Alice as its owner and perhaps Bob as a member. */
  predicate Hospitable(g: Group, joined: bool) {
    && g.host == LINK.host && g.wire == BaseV2 && !g.quiescing && g.profile.Obj?
    && OpenJoin(g.policy) && MemberLimit(g.policy) == Some(100)
    && Demanded(g.policy, Known(UpdateProfilePermission)) == Some(AdminRole)
    && g.roster == map[ALICE := Member(OwnerRole, Active, LINK.host)] + if joined then map[BOB := Member(MemberRole, Active, LINK.home)] else map[]
  }

  /** The default policy with its limit given as a number. */
  lemma ShortlistedPolicy()
    ensures var r := ValidatePolicy(Obj(map[Known(MaxMembers) := Num(100)]));
            && r.Ok? && OpenJoin(r.value) && MemberLimit(r.value) == Some(100)
            && Demanded(r.value, Known(UpdateProfilePermission)) == Some(AdminRole)
  {
    hide AsInt, RoleNamed;
    PrintedLimitReadsBack(100);
    DefaultRolesAreKnown();
    NumbersReadAsThemselves(100);
  }

  lemma NumbersReadAsThemselves(n: int)
    ensures AsInt(Num(n)) == Some(n)
  {
  }

  lemma DefaultRolesAreKnown()
    ensures DEFAULT_POLICY[Known(Permissions)].Obj? && DEFAULT_POLICY[Known(Permissions)].fields.Keys == PERMISSION_KEYS
    ensures PermissionRolesKnown(DEFAULT_POLICY[Known(Permissions)])
    ensures RoleNamed(DEFAULT_POLICY[Known(Permissions)].fields[Known(UpdateProfilePermission)]) == Some(AdminRole)
  {
  }

  lemma AliceCreates()
    ensures var r := Create(LINK.gid, LINK.host, BaseV2, ALICE, Obj(map[]), Obj(map[Known(MaxMembers) := Num(100)]), []);
            r.Ok? && Hospitable(r.value, false)
  {
    ShortlistedPolicy();
    hide ValidatePolicy, MemberLimit, OpenJoin, Demanded;
  }

  lemma AliceStarts(g: Group)
    requires Create(LINK.gid, LINK.host, BaseV2, ALICE, Obj(map[]), Obj(map[Known(MaxMembers) := Num(100)]), []) == Ok(g)
    requires Hospitable(g, false)
    ensures Init(System(g, Current(g), map[], map[], [], 0, false, false, {}, EMPTY), LINK)
    ensures g.operations == map[] && g.eventSeq == 1
  {
    hide Create, Init, Current, MemberLimit, OpenJoin, Demanded;
    CreationStarts(LINK, ALICE, Obj(map[]), Obj(map[Known(MaxMembers) := Num(100)]), [], map[], g);
    CreationIsConsistent(LINK.gid, LINK.host, BaseV2, ALICE, Obj(map[]), Obj(map[Known(MaxMembers) := Num(100)]), []);
  }

  lemma BobJoins(g: Group)
    requires Hospitable(g, false) && g.operations == map[]
    ensures var r := Execute(g, ROOM, JOIN);
            && r.Ok? && Hospitable(r.value.group, true)
            && r.value.group.operations.Keys == {JOIN.Key()} && r.value.group.eventSeq == g.eventSeq + 1
  {
    hide MemberLimit, OpenJoin, Demanded, RowsFor;
    assert ActiveMembers(g) == {ALICE};
    var seated := g.(roster := g.roster[BOB := Member(MemberRole, Active, LINK.home)]);
    assert RemoteMembers(seated) == {BOB};
    assert JOIN.Key() !in g.operations;
  }

  lemma ListingIsValid(profile: Json)
    ensures ValidateProfile(Merge(profile, LIST.action.patch)).Ok? && ValidateProfile(Merge(profile, LIST.action.patch)).value.Obj?
  {
    MergeMember(profile, LIST.action.patch, Known(Discoverability));
  }

  lemma AliceMayList(g: Group)
    requires Hospitable(g, true) && LIST.Key() !in g.operations
    ensures Execute(g, ROOM, LIST) == Update(g, ROOM, LIST, Known(UpdateProfilePermission)) && Execute(g, ROOM, LIST).Ok?
  {
    hide MemberLimit, OpenJoin, Demanded, RowsFor, ValidateProfile, Merge, RecordChange;
    assert RemoteMembers(g) == {BOB};
    ListingIsValid(g.profile);
  }

  lemma AliceLists(g: Group)
    requires Hospitable(g, true) && LIST.Key() !in g.operations
    ensures var r := Execute(g, ROOM, LIST);
            r.Ok? && Hospitable(r.value.group, true) && r.value.group.operations.Keys == g.operations.Keys + {LIST.Key()}
  {
    hide MemberLimit, OpenJoin, Demanded, RowsFor, ValidateProfile, Merge, Update, Execute;
    AliceMayList(g);
    UpdateRecords(g, ROOM, LIST, Known(UpdateProfilePermission), Execute(g, ROOM, LIST).value);
  }

  lemma BobLeaves(g: Group)
    requires Hospitable(g, true) && LEAVE.Key() !in g.operations
    ensures Execute(g, ROOM, LEAVE).Ok?
  {
    hide MemberLimit, OpenJoin, Demanded, RowsFor;
    assert RemoteMembers(g) == {BOB};
  }

  /**
   * A run from a group just created to a queue that never drains: Bob joins and his Home shows it,
   * Alice changes the profile, Bob leaves through his Home before the change reaches it.
   */
  lemma BlockingHappens() returns (s: System, run: seq<Step>)
    ensures Init(s, LINK) && Possible(s, LINK, run) && Inv(After(s, LINK, run), LINK) && Blocked(After(s, LINK, run), LINK, 3)
  {
    hide Init, Inv, Possible, After, Execute, Blocked, FeedOf, Hospitable, ViewShows, Create, Current, Enabled, Apply, IsActive;
    AliceCreates();
    var g := Create(LINK.gid, LINK.host, BaseV2, ALICE, Obj(map[]), Obj(map[Known(MaxMembers) := Num(100)]), []).value;
    s := System(g, Current(g), map[], map[], [], 0, false, false, {}, EMPTY);
    AliceStarts(g);
    BobJoins(g);
    run := JoiningConverges(s, LINK, ROOM, JOIN);
    var joined := Execute(g, ROOM, JOIN).value.group;
    AliceLists(joined);
    BobLeaves(Execute(joined, ROOM, LIST).value.group);
    var rest := UpdateThenLeaveBlocks(After(s, LINK, run), LINK, ROOM, LIST, LEAVE);
    RunsCompose(s, LINK, run, rest);
    run := run + rest;
  }
}
