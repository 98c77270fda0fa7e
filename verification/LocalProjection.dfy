/** The projections a Host keeps for its own members: rewritten from the hosted rows in every commit, a cutover's too. */
module LocalProjection {
  import opened Common
  import opened MergePatch
  import opened GroupPolicy
  import opened GroupTypes
  import opened Outbox
  import opened GroupHost
  import opened GroupHistory
  import Migration

  datatype LocalView = LocalView(profile: Json, policy: Json, version: nat, eventSeq: nat, role: Role, status: Status, wire: Wire)

  datatype RosterKey = RosterKey(owner: Did, member: Did)

  datatype MessageKey = MessageKey(owner: Did, eventSeq: nat)

  /** The rows of `group_views`, `group_member_views` and `group_message_views` for one hosted group. */
  datatype Desk = Desk(views: map<Did, LocalView>, rosters: map<RosterKey, MemberView>, messages: map<MessageKey, Message>)

  function LocalActive(g: Group): set<Did> {
    set d | d in g.roster && g.roster[d].status == Active && g.roster[d].home == g.host
  }

  function RowView(g: Group, owner: Did): LocalView
    requires owner in g.roster
  {
    LocalView(g.profile, g.policy, g.version, g.eventSeq, g.roster[owner].role, g.roster[owner].status, g.wire)
  }

  function RefreshedViews(views: map<Did, LocalView>, g: Group): map<Did, LocalView> {
    map d | d in views.Keys + LocalActive(g) ::
      if d in LocalActive(g) then RowView(g, d) else views[d].(status := Inactive)
  }

  /** What the loop over the owners' members upserts. */
  function RosterRows(g: Group, owners: set<Did>): map<RosterKey, MemberView> {
    map o, m | o in owners && m in g.roster :: RosterKey(o, m) := MemberView(g.roster[m].role, g.roster[m].status)
  }

  /** `refresh_hosted_local_projections`. */
  function Refreshed(desk: Desk, g: Group): Desk {
    desk.(views := RefreshedViews(desk.views, g), rosters := desk.rosters + RosterRows(g, LocalActive(g)))
  }

  /** `project_hosted_message_for_local_members`: INSERT OR IGNORE per local active member. */
  function WithMessage(desk: Desk, g: Group, m: Message): Desk {
    var rows := map d | d in LocalActive(g) :: MessageKey(d, if m.eventSeq >= 0 then m.eventSeq else 0) := m;
    desk.(messages := rows + desk.messages)
  }

  /** What a committed request does to the desk in the same transaction. */
  function Projected(desk: Desk, c: Commit): Desk {
    if c.replay then desk
    else
      var refreshed := Refreshed(desk, c.group);
      if c.group.eventSeq in c.group.messages then WithMessage(refreshed, c.group, c.group.messages[c.group.eventSeq]) else refreshed
  }

  /** Every local active member sees the hosted rows as they are; everyone else's view is inactive. */
  ghost predicate Agrees(desk: Desk, g: Group) {
    && (forall d :: d in LocalActive(g) ==> d in desk.views && desk.views[d] == RowView(g, d))
    && (forall d :: d in desk.views && d !in LocalActive(g) ==> desk.views[d].status == Inactive)
    && (forall d, m :: d in LocalActive(g) ==>
          (RosterKey(d, m) in desk.rosters <==> m in g.roster)
          && (m in g.roster ==> desk.rosters[RosterKey(d, m)] == MemberView(g.roster[m].role, g.roster[m].status)))
    && (forall k :: k in desk.rosters ==> k.member in g.roster)
    && (forall k :: k in desk.messages ==> k.eventSeq in g.messages && desk.messages[k] == g.messages[k.eventSeq])
  }

  lemma RefreshAgrees(desk: Desk, g: Group, g': Group)
    requires Agrees(desk, g) && g.roster.Keys <= g'.roster.Keys
    requires forall s :: s in g.messages ==> s in g'.messages && g'.messages[s] == g.messages[s]
    ensures Agrees(Refreshed(desk, g'), g')
  {
  }

  lemma MessageAgrees(desk: Desk, g: Group, m: Message)
    requires Agrees(desk, g) && m.eventSeq >= 0 && m.eventSeq in g.messages && g.messages[m.eventSeq] == m
    ensures Agrees(WithMessage(desk, g, m), g)
    ensures forall d :: d in LocalActive(g) ==>
              MessageKey(d, m.eventSeq) in WithMessage(desk, g, m).messages && WithMessage(desk, g, m).messages[MessageKey(d, m.eventSeq)] == m
  {
  }

  lemma RosterGrows(g: Group, c: Commit, req: Request)
    requires Extends(g, req, c)
    ensures g.roster.Keys <= c.group.roster.Keys
  {
    hide Enqueued, OperationRecorded;
    var ev := c.group.events[|g.events|];
    forall d | d in g.roster
      ensures d in c.group.roster
    {
      assert d in Current(g).roster;
      assert d in Replay(Current(g), ev).roster;
      assert d in Current(c.group).roster;
    }
  }

  /** After every accepted request local views agree with the hosted rows, and a message reaches every local member. */
  lemma CommitKeepsAgreement(g: Group, genesis: GroupState, env: Env, req: Request, c: Commit, desk: Desk)
    requires Consistent(g, genesis) && Agrees(desk, g) && Execute(g, env, req) == Ok(c)
    ensures Agrees(Projected(desk, c), c.group)
    ensures !c.replay && req.action.Send? ==>
              c.group.eventSeq in c.group.messages
              && forall d :: d in LocalActive(c.group) ==>
                   MessageKey(d, c.group.eventSeq) in Projected(desk, c).messages
                   && Projected(desk, c).messages[MessageKey(d, c.group.eventSeq)] == c.group.messages[c.group.eventSeq]
  {
    hide Booked, OperationsRecorded, ValidPolicy, Extends, Execute, Agrees, Refreshed, WithMessage, LocalActive;
    ExecuteKeepsHistory(g, genesis, env, req);
    if !c.replay {
      RosterGrows(g, c, req);
      CommittedMessage(g, genesis, req, c);
      SentIsEvent(g, env, req, c);
      RefreshAgrees(desk, g, c.group);
      if c.group.eventSeq in c.group.messages {
        MessageAgrees(Refreshed(desk, c.group), c.group, c.group.messages[c.group.eventSeq]);
      }
    }
  }

  /** A send's event is a message; no other request's is. */
  lemma SentIsEvent(g: Group, env: Env, req: Request, c: Commit)
    requires Execute(g, env, req) == Ok(c) && !c.replay
    ensures req.action.Send? ==> c.group.eventSeq in c.group.messages
  {
    hide Refusal, HasCapacity, RowsFor, OwnMessageIds, Activate, Depart, Update;
  }

  lemma CommittedMessage(g: Group, genesis: GroupState, req: Request, c: Commit)
    requires Booked(g, genesis) && Booked(c.group, genesis) && Extends(g, req, c)
    ensures forall s :: s in g.messages ==> s in c.group.messages && c.group.messages[s] == g.messages[s]
    ensures c.group.eventSeq in c.group.messages ==> c.group.messages[c.group.eventSeq].eventSeq == c.group.eventSeq
  {
    hide Enqueued, OperationRecorded;
    assert LoggedAt(c.group, genesis, c.group.eventSeq);
    assert forall s :: s in g.messages ==> s <= g.eventSeq;
  }

  datatype Site = Site(cutover: Migration.Cutover, desk: Desk)

  /** What the same transaction does to the desk: a request projects its commit, an apply refreshes. */
  function DeskAfter(s: Site, step: Migration.Step): Desk {
    match step
    case Writes(env, request) =>
      (match Execute(s.cutover.group, env, request)
       case Ok(c) => Projected(s.desk, c)
       case Err(_) => s.desk)
    case ApplyCommits(_, _) =>
      (match Migration.Attempt(s.cutover, step)
       case Ok(after) => Refreshed(s.desk, after.group)
       case Err(_) => s.desk)
    case _ => s.desk
  }

  function Serve(s: Site, step: Migration.Step): Site {
    Site(Migration.Next(s.cutover, step), DeskAfter(s, step))
  }

  function ServeAll(s: Site, run: seq<Migration.Step>): Site {
    if run == [] then s else Serve(ServeAll(s, run[..|run| - 1]), run[|run| - 1])
  }

  lemma FirstViewsAgree(g: Group)
    requires g.messages == map[]
    ensures Agrees(Refreshed(Desk(map[], map[], map[]), g), g)
  {
  }

  /** The write fence shows in no view. */
  lemma FenceIsNotShown(desk: Desk, g: Group, quiescing: bool)
    ensures Agrees(desk, g.(quiescing := quiescing)) <==> Agrees(desk, g)
  {
    var g' := g.(quiescing := quiescing);
    assert LocalActive(g') == LocalActive(g);
    assert forall d :: d in g.roster ==> RowView(g', d) == RowView(g, d);
  }

  /** What a step of the cutover does to the group, requests aside. */
  lemma CutoverTouchesProtocol(s: Migration.Cutover, step: Migration.Step)
    requires !step.Writes?
    ensures Migration.Next(s, step).group == s.group.(wire := Migration.Next(s, step).group.wire, quiescing := Migration.Next(s, step).group.quiescing)
    ensures !step.ApplyCommits? || Migration.Attempt(s, step).Err? ==> Migration.Next(s, step).group.wire == s.group.wire
  {
    hide Migration.Anchor, Settle, Execute;
  }

  lemma ServeKeepsAgreement(s: Site, genesis: GroupState, step: Migration.Step)
    requires Consistent(s.cutover.group, genesis) && Agrees(s.desk, s.cutover.group)
    ensures Consistent(Serve(s, step).cutover.group, genesis) && Agrees(Serve(s, step).desk, Serve(s, step).cutover.group)
  {
    hide Consistent, Agrees, Execute, Projected, Refreshed;
    var g := s.cutover.group;
    if step.Writes? {
      if Execute(g, step.env, step.request).Ok? {
        ExecuteKeepsHistory(g, genesis, step.env, step.request);
        CommitKeepsAgreement(g, genesis, step.env, step.request, Execute(g, step.env, step.request).value, s.desk);
      }
    } else {
      CutoverTouchesProtocol(s.cutover, step);
      var g' := Migration.Next(s.cutover, step).group;
      CutoverKeepsHistory(g, genesis, g'.wire, g'.quiescing);
      FenceIsNotShown(s.desk, g, g'.quiescing);
      RefreshAgrees(s.desk, g, g');
    }
  }

  /** From creation on, over any run of requests, drains and cutover steps. */
  lemma {:induction false} LocalViewsAlwaysAgree(first: Migration.Cutover, run: seq<Migration.Step>)
    requires Consistent(first.group, Current(first.group)) && first.group.messages == map[]
    ensures var s := ServeAll(Site(first, Refreshed(Desk(map[], map[], map[]), first.group)), run);
            Consistent(s.cutover.group, Current(first.group)) && Agrees(s.desk, s.cutover.group)
  {
    hide Consistent, Agrees, Refreshed, Current, Serve;
    if run == [] {
      FirstViewsAgree(first.group);
    } else {
      LocalViewsAlwaysAgree(first, run[..|run| - 1]);
      var start := Site(first, Refreshed(Desk(map[], map[], map[]), first.group));
      ServeKeepsAgreement(ServeAll(start, run[..|run| - 1]), Current(first.group), run[|run| - 1]);
    }
  }

  /**
   * What that agreement shows: an active member at home on this server sees the group's row, its own role
   * and every member as the Host has them; nobody else's view counts as active.
   */
  lemma AgreementShows(desk: Desk, g: Group, owner: Did)
    requires Agrees(desk, g)
    ensures owner in g.roster && g.roster[owner].status == Active && g.roster[owner].home == g.host ==>
              && owner in desk.views
              && desk.views[owner].profile == g.profile && desk.views[owner].policy == g.policy
              && desk.views[owner].version == g.version && desk.views[owner].eventSeq == g.eventSeq && desk.views[owner].wire == g.wire
              && desk.views[owner].role == g.roster[owner].role && desk.views[owner].status == Active
              && (forall m :: RosterKey(owner, m) in desk.rosters <==> m in g.roster)
              && (forall m :: m in g.roster ==> desk.rosters[RosterKey(owner, m)] == MemberView(g.roster[m].role, g.roster[m].status))
    ensures owner in desk.views && (owner !in g.roster || g.roster[owner].status != Active || g.roster[owner].home != g.host) ==>
              desk.views[owner].status == Inactive
  {
    assert owner in LocalActive(g) <==> owner in g.roster && g.roster[owner].status == Active && g.roster[owner].home == g.host;
  }

  // ------------------------------------------------------------------------------------------
  // The loops themselves
  // ------------------------------------------------------------------------------------------

  class LocalTables {
    var views: map<Did, LocalView>
    var rosters: map<RosterKey, MemberView>
    var messages: map<MessageKey, Message>

    constructor ()
      ensures State() == Desk(map[], map[], map[])
    {
      views, rosters, messages := map[], map[], map[];
    }

    function State(): Desk
      reads this
    {
      Desk(views, rosters, messages)
    }

    /** The inner loop: upsert every member into one owner's roster. */
    method UpsertRoster(g: Group, owner: Did)
      modifies `rosters
      ensures rosters == old(rosters) + RosterRows(g, {owner})
    {
      var todo := g.roster.Keys;
      while todo != {}
        invariant todo <= g.roster.Keys
        invariant forall k :: k in rosters <==> k in old(rosters) || (k.owner == owner && k.member in g.roster && k.member !in todo)
        invariant forall k :: k in rosters ==>
                    rosters[k] == if k.owner == owner && k.member in g.roster && k.member !in todo
                                  then MemberView(g.roster[k.member].role, g.roster[k.member].status) else old(rosters)[k]
        decreases todo
      {
        var member: Did :| member in todo;
        rosters := rosters[RosterKey(owner, member) := MemberView(g.roster[member].role, g.roster[member].status)];
        todo := todo - {member};
      }
    }

    /** The loop over the local active members: upsert the view, then the roster. */
    method UpsertViews(g: Group)
      modifies `views, `rosters
      ensures rosters == old(rosters) + RosterRows(g, LocalActive(g)) && views.Keys == old(views).Keys + LocalActive(g)
      ensures forall d :: d in views ==> views[d] == if d in LocalActive(g) then RowView(g, d) else old(views)[d]
    {
      var owners := LocalActive(g);
      var todo := owners;
      var done: set<Did> := {};
      while todo != {}
        invariant done == owners - todo && todo <= owners
        invariant views.Keys == old(views).Keys + done
        invariant forall d :: d in views ==> views[d] == if d in done then RowView(g, d) else old(views)[d]
        invariant rosters == old(rosters) + RosterRows(g, done)
        decreases todo
      {
        var owner: Did :| owner in todo;
        views := views[owner := RowView(g, owner)];
        UpsertRoster(g, owner);
        RosterRowsOfMore(old(rosters), g, done, owner);
        todo, done := todo - {owner}, done + {owner};
      }
      assert done == owners;
    }

    /** The loop over the stored views: whoever is not a local active member goes inactive. */
    method DeactivateOthers(owners: set<Did>)
      modifies `views
      ensures views == map d | d in old(views) :: if d in owners then old(views)[d] else old(views)[d].(status := Inactive)
    {
      var rest := views.Keys;
      while rest != {}
        invariant rest <= views.Keys == old(views).Keys
        invariant forall d :: d in views ==>
                    views[d] == if d in owners || d in rest then old(views)[d] else old(views)[d].(status := Inactive)
        decreases rest
      {
        var d: Did :| d in rest;
        if d !in owners {
          views := views[d := views[d].(status := Inactive)];
        }
        rest := rest - {d};
      }
    }

    method RefreshLocalProjections(g: Group)
      modifies this
      ensures State() == Refreshed(old(State()), g)
    {
      hide LocalActive, RosterRows;
      UpsertViews(g);
      DeactivateOthers(LocalActive(g));
    }
  }

  lemma RosterRowsOfMore(rows: map<RosterKey, MemberView>, g: Group, owners: set<Did>, owner: Did)
    ensures rows + RosterRows(g, owners) + RosterRows(g, {owner}) == rows + RosterRows(g, owners + {owner})
  {
  }
}
