/** Remote members seated at creation: no activation is ever sent to them, and their Home takes in nothing. */
module InitialMembers {
  import opened Common
  import opened MergePatch
  import opened GroupPolicy
  import opened GroupTypes
  import opened Outbox
  import opened GroupHost
  import opened GroupHistory
  import opened MemberHome
  import opened Replica
  import opened Convergence

  /** No row of the owner's queue is delivered, and none will be when the current attempt is settled. */
  predicate Undelivered(s: System, link: Link) {
    && (forall k :: k in s.rows && InQueue(k, link) ==> s.rows[k].status != Delivered)
    && !(s.granted && AtOwner(s, link))
  }

  /** The whole of what such a member's Home ever knows: nothing. */
  ghost predicate Snubbed(s: System, link: Link) {
    HostSide(s, link) && ActiveIn(s.genesis, link.owner) && s.home.view == None && Undelivered(s, link)
  }

  /** What stands first in the owner's queue is the group's second event. */
  lemma HeadIsSecondEvent(s: System, link: Link, k: RowKey)
    requires Snubbed(s, link) && k in s.rows && InQueue(k, link) && HeadOfLine(s.rows, k)
    ensures k == OwnerKey(FeedIn(s), link, 2) && HomeAnswer(s, link, k) == Err(MembershipRequired)
  {
    hide FeedOf, Consistent, Sound, WorkerOk, SentOk, Deliver;
    HostIsKnown(s, link);
    HostIsBooked(s, link);
    FeedOfIsOk(s.group, s.genesis);
    var feed := FeedIn(s);
    assert Notified(feed, link.owner, k.eventSeq);
    assert ActiveAt(feed, link.owner, 1);
    InitialMemberIsRefused(s.home, feed, link, feed[2].notice.value) by {
      Membership(feed, link.gid, link.owner, 2);
    }
    assert OwnerKey(feed, link, 2) in s.rows;
  }

  lemma SentIsRefused(s: System, link: Link, q: nat)
    requires Snubbed(s, link) && q in s.sent
    ensures OwnerKey(FeedIn(s), link, q) in s.rows
    ensures HomeAnswer(s, link, OwnerKey(FeedIn(s), link, q)) == Err(MembershipRequired)
  {
    hide FeedOf, HostOk, Sound, WorkerOk, HomeAnswer, HeadOfLine;
    HeadIsSecondEvent(s, link, OwnerKey(FeedIn(s), link, q));
  }

  lemma AttemptIsRefused(s: System, link: Link)
    requires Snubbed(s, link) && s.attempting && AtOwner(s, link)
    ensures s.batch[s.next] in s.rows && HomeAnswer(s, link, s.batch[s.next]) == Err(MembershipRequired)
  {
    hide FeedOf, HostOk, Sound, OnePerQueue, HomeAnswer, SentOk, QueueOk, HeadOfLine;
    assert InFlight(s.rows, s.batch, s.next, s.selected);
    HeadIsSecondEvent(s, link, s.batch[s.next]);
  }

  lemma CommitKeepsUndelivered(s: System, link: Link, env: Env, req: Request, c: Commit)
    requires HostSide(s, link) && Undelivered(s, link) && Execute(s.group, env, req) == Ok(c)
    ensures Undelivered(s.(group := c.group, rows := Insert(s.rows, c.rows)), link)
  {
    hide Booked, OperationsRecorded, ValidPolicy, Execute, QueueOk, SentOk, WorkerOk, Sound, LogExtends, OperationRecorded, HomeKnown;
    ExecuteKeepsHistory(s.group, s.genesis, env, req);
  }

  lemma RowsFromElsewhereKeepUndelivered(s: System, link: Link, added: Rows)
    requires Undelivered(s, link) && forall k :: k in added ==> k.gid != link.gid
    ensures Undelivered(s.(rows := Insert(s.rows, added)), link)
  {
  }

  /** A row of the owner's queue is settled as delivered only on the Home's answer, which never came. */
  lemma SettlingKeepsUndelivered(s: System, link: Link, outcome: Outcome, now: int, clock: int)
    requires Undelivered(s, link) && Enabled(s, link, WorkerSettles(outcome, now, clock))
    ensures Undelivered(Settled(s, outcome, now, clock), link)
  {
  }

  lemma WorkerKeepsUndelivered(s: System, link: Link, step: Step)
    requires Undelivered(s, link) && (step.WorkerSelects? || step.WorkerSends?)
    ensures Undelivered(Apply(s, link, step), link) && Apply(s, link, step).home == s.home
  {
  }

  /** Neither a roster read nor a forwarded departure makes a view. */
  lemma HomeStaysUnaware(s: System, link: Link, step: Step)
    requires s.home.view == None && Undelivered(s, link) && (step.HomeRefreshes? || step.HomeForwards?)
    ensures Apply(s, link, step).home.view == None && Undelivered(Apply(s, link, step), link)
  {
  }

  lemma ArrivalKeepsSnubbed(s: System, link: Link, step: Step)
    requires Snubbed(s, link) && Enabled(s, link, step) && (step.NoticeArrives? || step.AttemptIsAnswered?)
    ensures Undelivered(Apply(s, link, step), link) && Apply(s, link, step).home == s.home
  {
    hide HostSide, HomeAnswer, FeedOf;
    if step.NoticeArrives? {
      SentIsRefused(s, link, step.eventSeq);
    } else {
      AttemptIsRefused(s, link);
    }
  }

  lemma StepKeepsUndelivered(s: System, link: Link, step: Step)
    requires Snubbed(s, link) && Enabled(s, link, step)
    ensures Undelivered(Apply(s, link, step), link) && Apply(s, link, step).home.view == None
  {
    if step.HomeRefreshes? || step.HomeForwards? {
      HomeStaysUnaware(s, link, step);
    } else if step.NoticeArrives? || step.AttemptIsAnswered? {
      ArrivalKeepsSnubbed(s, link, step);
    } else if step.WorkerSelects? || step.WorkerSends? {
      WorkerKeepsUndelivered(s, link, step);
    } else {
      hide HostSide, Undelivered, Execute, FeedOf;
      match step {
        case HostCommits(env, request) => CommitKeepsUndelivered(s, link, env, request, Execute(s.group, env, request).value);
        case OtherGroupEnqueues(added) => RowsFromElsewhereKeepUndelivered(s, link, added);
        case WorkerSettles(outcome, now, clock) => SettlingKeepsUndelivered(s, link, outcome, now, clock);
      }
    }
  }

  lemma StepKeepsSnubbed(s: System, link: Link, step: Step)
    requires Snubbed(s, link) && Enabled(s, link, step)
    ensures Snubbed(Apply(s, link, step), link)
  {
    hide HostSide, Undelivered, Enabled, Apply;
    StepKeepsHostSide(s, link, step);
    StepKeepsUndelivered(s, link, step);
    StepKeepsGenesis(s, link, step);
  }

  lemma StepKeepsGenesis(s: System, link: Link, step: Step)
    ensures Apply(s, link, step).genesis == s.genesis
  {
    hide Execute, Refresh, Forwarded, HomeAnswer, FeedOf;
  }

  lemma {:induction false} RunKeepsSnubbed(s: System, link: Link, run: seq<Step>)
    requires Snubbed(s, link) && Possible(s, link, run)
    ensures Snubbed(After(s, link, run), link)
  {
    hide Snubbed, Enabled, Apply, Possible;
    if run != [] {
      LastStep(s, link, run);
      RunKeepsSnubbed(s, link, run[..|run| - 1]);
      StepKeepsSnubbed(After(s, link, run[..|run| - 1]), link, run[|run| - 1]);
    }
  }

  lemma StartIsSnubbed(s: System, link: Link)
    requires Start(s, link) && ActiveIn(s.genesis, link.owner)
    ensures Snubbed(s, link)
  {
    hide HostSide, HostOk, Sound;
    StartIsHostSide(s, link);
  }

  /**
   * An owner seated at creation: in every run its view stays absent, no row of its queue is ever
   * delivered, and whatever stands first in that queue is refused for want of a membership.
   */
  lemma SeatedAtCreationIsNeverReached(s: System, link: Link, run: seq<Step>)
    requires Start(s, link) && ActiveIn(s.genesis, link.owner) && Possible(s, link, run)
    ensures var now := After(s, link, run);
            && now.home.view == None
            && (forall k :: k in now.rows && InQueue(k, link) ==> now.rows[k].status != Delivered)
            && (forall k :: IsHead(now.rows, k, link) ==> k.eventSeq == 2 && HomeAnswer(now, link, k) == Err(MembershipRequired))
  {
    hide Start, Possible, After, HomeAnswer;
    StartIsSnubbed(s, link);
    RunKeepsSnubbed(s, link, run);
    var now := After(s, link, run);
    hide HostSide;
    forall k | IsHead(now.rows, k, link)
      ensures k.eventSeq == 2 && HomeAnswer(now, link, k) == Err(MembershipRequired)
    {
      HeadIsSecondEvent(now, link, k);
    }
  }

  /** A seated owner's leave is always served by a group that is not fenced. */
  lemma LeaveIsServed(g: Group, owner: Did) returns (env: Env, req: Request)
    requires IsActive(g, owner) && g.wire == BaseV2 && !g.quiescing && g.operations == map[]
    ensures req.action == Leave && Execute(g, env, req).Ok? && !Execute(g, env, req).value.replay
  {
    hide RowsFor;
    env := Env(0, |RemoteMembers(g)|, {});
    req := Request(owner, Token(""), BaseV2, Token(""), 0, Leave);
  }

  /** Its departure is the first thing in the seated owner's queue. */
  lemma SecondEventIsHead(s: System, link: Link)
    requires Snubbed(s, link) && s.group.eventSeq >= 2
    ensures IsHead(s.rows, OwnerKey(FeedIn(s), link, 2), link)
  {
    hide FeedOf, Consistent, Sound, WorkerOk, SentOk;
    HostIsKnown(s, link);
    HostIsBooked(s, link);
    FeedOfIsOk(s.group, s.genesis);
    Membership(FeedIn(s), link.gid, link.owner, 2);
    assert Notified(FeedIn(s), link.owner, 2);
  }

  lemma RefusalIsReachable(s: System, link: Link) returns (run: seq<Step>, k: RowKey)
    requires Start(s, link) && ActiveIn(s.genesis, link.owner) && !s.group.quiescing
    ensures Possible(s, link, run) && After(s, link, run).home.operations == map[]
    ensures IsHead(After(s, link, run).rows, k, link) && HomeAnswer(After(s, link, run), link, k) == Err(MembershipRequired)
  {
    hide HostOk, Sound, Snubbed, Execute, HomeAnswer, IsHead, FeedOf;
    var env, req := SeatedMayLeave(s, link);
    run := [HostCommits(env, req)];
    assert [HostCommits(env, req)][..0] == [];
    hide Start;
    SeatedAtCreationIsNeverReached(s, link, run);
    StartIsSnubbed(s, link);
    RunKeepsSnubbed(s, link, run);
    k := OwnerKey(FeedIn(After(s, link, run)), link, 2);
    SecondEventIsHead(After(s, link, run), link);
  }

  lemma SeatedMayLeave(s: System, link: Link) returns (env: Env, req: Request)
    requires Start(s, link) && ActiveIn(s.genesis, link.owner) && !s.group.quiescing
    ensures Enabled(s, link, HostCommits(env, req)) && Execute(s.group, env, req).value.group.eventSeq == 2
  {
    hide ValidPolicy, Execute, Sound, HomeKnown;
    assert Current(s.group) == s.genesis;
    env, req := LeaveIsServed(s.group, link.owner);
    ExecuteKeepsHistory(s.group, s.genesis, env, req);
  }

  /**
   * From every creation not fenced: the Home accepts whatever stands first in the owner's queue, in
   * every run without a forwarded departure, if and only if the owner was not seated at creation.
   */
  lemma HeadsAreAcceptedIffNotSeated(s: System, link: Link)
    requires Start(s, link) && !s.group.quiescing
    ensures !ActiveIn(s.genesis, link.owner) <==>
            forall run, k ::
              Possible(s, link, run) && After(s, link, run).home.operations == map[] && IsHead(After(s, link, run).rows, k, link) ==>
                HomeAnswer(After(s, link, run), link, k).Ok?
  {
    hide Start, Possible, After, HomeAnswer, HeadOfLine;
    if ActiveIn(s.genesis, link.owner) {
      var run, k := RefusalIsReachable(s, link);
    } else {
      forall run, k | Possible(s, link, run) && After(s, link, run).home.operations == map[] && IsHead(After(s, link, run).rows, k, link)
        ensures HomeAnswer(After(s, link, run), link, k).Ok?
      {
        HeadIsAccepted(s, link, run, k);
      }
    }
  }
}
