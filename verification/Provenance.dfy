/**
 * Where things come from, over runs of the whole system: every notification a Home has taken in is what
 * a permitted request asked for, and every delivery row is what its attempts made of it.
 */
module Provenance {
  import opened Common
  import opened MergePatch
  import opened GroupPolicy
  import opened GroupTypes
  import opened Outbox
  import opened GroupHost
  import opened GroupHistory
  import opened Requests
  import opened MemberHome
  import opened Replica
  import opened Convergence

  // ------------------------------------------------------------------------------------------
  // Notifications
  // ------------------------------------------------------------------------------------------

  /** The notification that event q of a group gives rise to, if any. */
  function NoticeOf(g: Group, q: nat): Option<Notice> {
    if !(1 <= q <= |g.events|) then None
    else
      match g.events[q - 1]
      case Created => None
      case Changed(e) => Some(StateNotice(e))
      case Sent(_) => if q in g.messages then Some(MessageNotice(g.messages[q])) else None
  }

  /** The notification is the one a permitted new request asked for when the group stood at event q - 1. */
  ghost predicate AskedBy(g: Group, env: Env, req: Request, q: nat, notice: Notice) {
    && g.eventSeq + 1 == q && Permitted(g, req) && Execute(g, env, req).Ok? && !Execute(g, env, req).value.replay
    && match notice
       case StateNotice(e) => EventAsked(g, req, Execute(g, env, req).value.group, e)
       case MessageNotice(m) => MessageAsked(g, req, m)
  }

  /** Step i of the run committed the request behind this notification. */
  ghost predicate AskedAt(s: System, link: Link, run: seq<Step>, i: nat, q: nat, notice: Notice) {
    i < |run| && run[i].HostCommits? && AskedBy(After(s, link, run[..i]).group, run[i].env, run[i].request, q, notice)
  }

  lemma AskedInPrefix(s: System, link: Link, run: seq<Step>, n: nat, i: nat, q: nat, notice: Notice)
    requires i < n <= |run|
    ensures AskedAt(s, link, run[..n], i, q, notice) <==> AskedAt(s, link, run, i, q, notice)
  {
    hide After, AskedBy;
    assert run[..n][..i] == run[..i];
  }

  lemma CommitNotifies(g: Group, env: Env, req: Request, c: Commit, q: nat)
    requires Execute(g, env, req) == Ok(c) && !c.replay && g.eventSeq == |g.events|
    requires forall s :: s in g.messages ==> s <= g.eventSeq
    ensures q <= |g.events| ==> NoticeOf(c.group, q) == NoticeOf(g, q)
    ensures q == |g.events| + 1 && NoticeOf(c.group, q).Some? ==> AskedBy(g, env, req, q, NoticeOf(c.group, q).value)
    ensures q > |g.events| + 1 ==> NoticeOf(c.group, q) == None
  {
    AcceptedIsPermitted(g, env, req);
    CommitDoes(g, env, req, c);
    hide Execute, Permitted, Told, RosterAsked, DocumentsAsked, ResultAsked, EventAsked, MessageAsked;
    assert 1 <= q <= |g.events| ==> c.group.events[q - 1] == g.events[q - 1];
  }

  lemma BooksAreCounted(g: Group, genesis: GroupState)
    requires Booked(g, genesis)
    ensures g.eventSeq == |g.events| && forall s :: s in g.messages ==> s <= g.eventSeq
  {
    hide LoggedAt, MessagesDistinct, StateAt;
  }

  lemma HostCounts(s: System, link: Link)
    requires HostSide(s, link)
    ensures s.group.eventSeq == |s.group.events| && forall q :: q in s.group.messages ==> q <= s.group.eventSeq
  {
    hide HostSide, Booked;
    HostIsKnown(s, link);
    HostIsBooked(s, link);
    BooksAreCounted(s.group, s.genesis);
  }

  /** A step leaves the notifications of the log alone, or commits the request behind a new one. */
  lemma StepNotifies(s: System, link: Link, step: Step, q: nat)
    requires HostSide(s, link) && Enabled(s, link, step) && NoticeOf(Apply(s, link, step).group, q).Some?
    ensures NoticeOf(s.group, q) == NoticeOf(Apply(s, link, step).group, q)
            || (step.HostCommits? && AskedBy(s.group, step.env, step.request, q, NoticeOf(Apply(s, link, step).group, q).value))
  {
    hide HostSide, Execute, NoticeOf, AskedBy, HomeAnswer, Refresh, Forwarded, FeedOf, Settle, Insert, IsBatch;
    if step.HostCommits? {
      var c := Execute(s.group, step.env, step.request).value;
      if c.replay {
        ReplayKeepsGroup(s.group, step.env, step.request, c);
      } else {
        HostCounts(s, link);
        CommitNotifies(s.group, step.env, step.request, c, q);
      }
    }
  }

  lemma ReplayKeepsGroup(g: Group, env: Env, req: Request, c: Commit)
    requires Execute(g, env, req) == Ok(c) && c.replay
    ensures c.group == g && c.rows == map[]
  {
    hide Activate, Depart, Update, SendMessage, OpenJoin, Refusal;
    if req.Key() !in g.operations {
      HandledAnew(g, env, req);
    }
  }

  /** Every notification of the log, in any run from a creation, was asked for by a step of that run. */
  lemma {:induction false} EveryNoticeWasAsked(s: System, link: Link, run: seq<Step>, q: nat)
    requires Start(s, link) && Possible(s, link, run) && NoticeOf(After(s, link, run).group, q).Some?
    ensures exists i: nat :: AskedAt(s, link, run, i, q, NoticeOf(After(s, link, run).group, q).value)
  {
    StartIsHostSide(s, link);
    NothingToTell(s, link, q);
    hide Start, HostSide, Possible, Enabled, Apply, NoticeOf, AskedBy;
    if run != [] {
      var n := |run| - 1;
      var notice := NoticeOf(After(s, link, run).group, q).value;
      LastStep(s, link, run);
      RunKeepsHostSide(s, link, run[..n]);
      StepNotifies(After(s, link, run[..n]), link, run[n], q);
      if NoticeOf(After(s, link, run[..n]).group, q) == Some(notice) {
        EveryNoticeWasAsked(s, link, run[..n], q);
        var i: nat :| AskedAt(s, link, run[..n], i, q, notice);
        AskedInPrefix(s, link, run, n, i, q, notice);
      } else {
        assert AskedAt(s, link, run, n, q, notice);
      }
    }
  }

  lemma NothingToTell(s: System, link: Link, q: nat)
    requires Start(s, link)
    ensures NoticeOf(s.group, q) == None
  {
    hide HostOk, Sound;
  }

  lemma FeedTells(g: Group, genesis: GroupState, q: nat)
    requires q < |FeedOf(g, genesis)| && FeedOf(g, genesis)[q].notice.Some?
    ensures NoticeOf(g, q) == FeedOf(g, genesis)[q].notice
  {
  }

  /**
   * Whatever a member's Home has recorded, whatever happened on the way, is what a sender permitted at
   * that moment asked of the Host: a message has that request's content, id and time, a state change
   * that request's subject, status, role and documents, and both its receipt.
   */
  lemma TakenInWasAsked(s: System, link: Link, run: seq<Step>, key: InboundKey)
    requires Init(s, link) && Possible(s, link, run) && key in After(s, link, run).home.inbound
    ensures key.eventSeq >= 0 && exists i: nat :: AskedAt(s, link, run, i, key.eventSeq, After(s, link, run).home.inbound[key])
  {
    InitIsInv(s, link);
    RunKeepsInv(s, link, run);
    var now := After(s, link, run);
    hide After, FeedOf, AskedAt, Start, Possible, NoticeOf;
    assert HomeOk(now.home, FeedIn(now), link);
    FeedTells(now.group, now.genesis, key.eventSeq);
    EveryNoticeWasAsked(s, link, run, key.eventSeq);
  }

  /** Step i of the run committed a send whose content, id, time, sender and digest message q carries. */
  ghost predicate SentAt(s: System, link: Link, run: seq<Step>, i: nat, q: int, m: Message) {
    && i < |run| && run[i].HostCommits? && run[i].request.action.Send?
    && After(s, link, run[..i]).group.eventSeq + 1 == q
    && Entitled(After(s, link, run[..i]).group, run[i].request.sender, SendPermission)
    && m.content == run[i].request.action.content && m.acceptedAt == run[i].request.time
    && m.receipt.message == Some(run[i].request.action.messageId)
    && m.receipt.actor == run[i].request.sender && m.receipt.opId == run[i].request.opId && m.receipt.digest == run[i].request.digest
  }

  lemma StoredIsTold(s: System, link: Link, q: int)
    requires HomeOk(s.home, FeedIn(s), link) && q in s.home.messages
    ensures q >= 0 && NoticeOf(s.group, q) == Some(MessageNotice(s.home.messages[q]))
  {
    hide FeedOf, InboundOk, RecordedInOrder, ViewOk, OperationsOk, LogOk, RosterOk, NoticeOf;
    FeedTells(s.group, s.genesis, q);
  }

  lemma AskedIsSent(s: System, link: Link, run: seq<Step>, i: nat, q: nat, m: Message)
    requires AskedAt(s, link, run, i, q, MessageNotice(m))
    ensures SentAt(s, link, run, i, q, m)
  {
    hide After, Execute, Entitled;
  }

  /** So a message stored at the Home is one that an entitled sender sent, at that event number. */
  lemma StoredMessageWasSent(s: System, link: Link, run: seq<Step>, q: int)
    requires Init(s, link) && Possible(s, link, run) && q in After(s, link, run).home.messages
    ensures exists i: nat :: SentAt(s, link, run, i, q, After(s, link, run).home.messages[q])
  {
    hide After, Init, Inv, HomeOk, FeedOf, AskedAt, SentAt, Start, Possible, NoticeOf;
    InitIsInv(s, link);
    RunKeepsInv(s, link, run);
    HomeIsOk(After(s, link, run), link);
    StoredIsTold(After(s, link, run), link, q);
    InitStarts(s, link);
    EveryNoticeWasAsked(s, link, run, q);
    var m := After(s, link, run).home.messages[q];
    var i: nat :| AskedAt(s, link, run, i, q, MessageNotice(m));
    AskedIsSent(s, link, run, i, q, m);
  }

  lemma HomeIsOk(s: System, link: Link)
    requires Inv(s, link)
    ensures HomeOk(s.home, FeedIn(s), link)
  {
    hide HostSide, HomeOk;
  }

  lemma InitStarts(s: System, link: Link)
    requires Init(s, link)
    ensures Start(s, link)
  {
    hide Start;
  }

  // ------------------------------------------------------------------------------------------
  // Delivery rows
  // ------------------------------------------------------------------------------------------

  /** One settled attempt: what became of it and the clock when it failed. */
  datatype Attempt = Attempt(outcome: Outcome, clock: int)

  predicate AttemptsAt(s: System, step: Step, k: RowKey) {
    step.WorkerSettles? && s.next < |s.batch| && s.batch[s.next] == k
  }

  /** The attempts that a run settled on row k, in order. */
  function Attempts(s: System, link: Link, run: seq<Step>, k: RowKey): seq<Attempt> {
    if run == [] then []
    else
      Attempts(s, link, run[..|run| - 1], k)
      + if AttemptsAt(After(s, link, run[..|run| - 1]), run[|run| - 1], k)
        then [Attempt(run[|run| - 1].outcome, run[|run| - 1].clock)] else []
  }

  /**
   * What attempts make of a row: nothing yet; delivered by the first acknowledgement; dead by the first
   * answer of no support or by the eighth failure; otherwise due again after the wait for that many.
   */
  predicate MadeBy(row: Row, tries: seq<Attempt>) {
    && row.attempts == |tries| <= 8
    && (forall i :: 0 <= i < |tries| - 1 ==> tries[i].outcome == Failed)
    && match row.status
       case Pending => tries == [] && row.due == row.createdAt
       case Retry => 1 <= |tries| < 8 && tries[|tries| - 1].outcome == Failed && row.due == tries[|tries| - 1].clock + Backoff(|tries|)
       case Delivered => tries != [] && tries[|tries| - 1].outcome == Acknowledged
       case Dead => tries != [] && (tries[|tries| - 1].outcome == Unsupported || (|tries| == 8 && tries[7].outcome == Failed))
  }

  lemma SettlingMakes(rows: Rows, k: RowKey, tries: seq<Attempt>, outcome: Outcome, now: int, clock: int)
    requires k in rows && rows[k].Open() && MadeBy(rows[k], tries)
    ensures MadeBy(Settle(rows, k, rows[k], outcome, now, clock)[k], tries + [Attempt(outcome, clock)])
  {
    hide Settle, Backoff;
    SettledAsAnswered(rows, k, rows[k], outcome, now, clock);
  }

  /** A row that is not there yet has no attempts; one that is there is what they made of it. */
  predicate RowTells(rows: Rows, k: RowKey, tries: seq<Attempt>) {
    if k in rows then MadeBy(rows[k], tries) else tries == []
  }

  lemma SettleStepTells(s: System, link: Link, step: Step, k: RowKey, tries: seq<Attempt>)
    requires HostSide(s, link) && Enabled(s, link, step) && step.WorkerSettles? && RowTells(s.rows, k, tries)
    ensures RowTells(Apply(s, link, step).rows, k,
                     tries + if AttemptsAt(s, step, k) then [Attempt(step.outcome, step.clock)] else [])
  {
    hide HostOk, Sound, QueueOk, SentOk, OnePerQueue, MadeBy, Settle;
    var j := s.batch[s.next];
    assert j in s.rows && s.rows[j].Open() && j in s.selected && s.selected[j] == s.rows[j];
    SettledAsAnswered(s.rows, j, s.rows[j], step.outcome, step.now, step.clock);
    if j == k {
      SettlingMakes(s.rows, k, tries, step.outcome, step.now, step.clock);
    } else {
      assert tries + [] == tries;
    }
  }

  lemma CommitStepTells(s: System, link: Link, env: Env, req: Request, c: Commit, k: RowKey, tries: seq<Attempt>)
    requires HostSide(s, link) && Execute(s.group, env, req) == Ok(c) && RowTells(s.rows, k, tries)
    ensures RowTells(Insert(s.rows, c.rows), k, tries)
  {
    hide HostSide, Execute, RosterAsked, DocumentsAsked, ResultAsked, EventAsked, MessageAsked, Audience;
    if c.replay {
      ReplayKeepsGroup(s.group, env, req, c);
    } else {
      CommitDoes(s.group, env, req, c);
    }
  }

  lemma StepTells(s: System, link: Link, step: Step, k: RowKey, tries: seq<Attempt>)
    requires HostSide(s, link) && Enabled(s, link, step) && RowTells(s.rows, k, tries) && k.gid == link.gid
    ensures RowTells(Apply(s, link, step).rows, k,
                     tries + if AttemptsAt(s, step, k) then [Attempt(step.outcome, step.clock)] else [])
  {
    assert tries + [] == tries;
    if step.WorkerSettles? {
      SettleStepTells(s, link, step, k, tries);
    } else if step.HostCommits? {
      CommitStepTells(s, link, step.env, step.request, Execute(s.group, step.env, step.request).value, k, tries);
      hide HostSide, Execute, MadeBy, Insert;
    } else {
      hide HostSide, Refresh, Forwarded, HomeAnswer, FeedOf, IsBatch, MadeBy;
    }
  }

  lemma {:induction false} RowsTell(s: System, link: Link, run: seq<Step>, k: RowKey)
    requires Start(s, link) && Possible(s, link, run) && k.gid == link.gid
    ensures RowTells(After(s, link, run).rows, k, Attempts(s, link, run, k))
  {
    hide HostOk, Sound, Possible, Enabled, Apply, RowTells, AttemptsAt;
    if run == [] {
      assert RowTells(s.rows, k, []) by {
        NothingQueued(s, link, k);
      }
    } else {
      StartIsHostSide(s, link);
      hide HostSide;
      var n := |run| - 1;
      LastStep(s, link, run);
      RowsTell(s, link, run[..n], k);
      RunKeepsHostSide(s, link, run[..n]);
      StepTells(After(s, link, run[..n]), link, run[n], k, Attempts(s, link, run[..n], k));
    }
  }

  lemma NothingQueued(s: System, link: Link, k: RowKey)
    requires Start(s, link) && k.gid == link.gid
    ensures RowTells(s.rows, k, [])
  {
    hide HostOk, Sound;
  }

  /**
   * In every run from a creation, every delivery row of the group counts its attempts, at most eight, and
   * all but the last of them failed. It is dead if and only if the last one was answered with no support
   * or was the eighth failure, delivered if and only if it was acknowledged, and otherwise still open.
   */
  lemma RowIsItsHistory(s: System, link: Link, run: seq<Step>, k: RowKey)
    requires Start(s, link) && Possible(s, link, run) && k in After(s, link, run).rows && k.gid == link.gid
    ensures var row, tries := After(s, link, run).rows[k], Attempts(s, link, run, k);
            && row.attempts == |tries| <= 8
            && (forall i :: 0 <= i < |tries| - 1 ==> tries[i].outcome == Failed)
            && (row.status == Dead <==>
                  tries != [] && (tries[|tries| - 1].outcome == Unsupported || (|tries| == 8 && tries[7].outcome == Failed)))
            && (row.status == Delivered <==> tries != [] && tries[|tries| - 1].outcome == Acknowledged)
            && (row.status == Retry <==> 1 <= |tries| < 8 && tries[|tries| - 1].outcome == Failed)
            && (row.status == Pending <==> tries == [])
  {
    hide Start, Possible, After, Attempts, Backoff;
    RowsTell(s, link, run, k);
  }

  /** A row that failed is not selected again before its wait is over: one second, doubled per failure, five minutes at most. */
  lemma RetriesWait(s: System, link: Link, run: seq<Step>, batch: seq<RowKey>, now: int, limit: int, k: RowKey)
    requires Start(s, link) && Possible(s, link, run) && k.gid == link.gid
    requires Enabled(After(s, link, run), link, WorkerSelects(batch, now, limit)) && k in batch
    ensures var tries := Attempts(s, link, run, k);
            && |tries| < 8
            && (tries != [] ==> tries[|tries| - 1].outcome == Failed && now >= tries[|tries| - 1].clock + Backoff(|tries|))
  {
    hide Start, Possible, After, Attempts, Backoff, HeadOfLine;
    RowsTell(s, link, run, k);
    var i :| 0 <= i < |batch| && batch[i] == k;
    assert Eligible(After(s, link, run).rows, batch[i], now);
  }
}
