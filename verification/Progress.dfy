/** What the two machines can always still do: deliver the head, drain the queue, bring a new member up to date. */
module Progress {
  import opened Aggregates
  import opened Common
  import opened MergePatch
  import opened GroupPolicy
  import opened GroupTypes
  import opened Outbox
  import opened GroupHost
  import opened GroupHistory
  import opened MemberHome
  import opened Replica
  import opened Convergence

  lemma {:induction false} RunsCompose(s: System, link: Link, first: seq<Step>, second: seq<Step>)
    requires Possible(s, link, first) && Possible(After(s, link, first), link, second)
    ensures Possible(s, link, first + second) && After(s, link, first + second) == After(After(s, link, first), link, second)
    decreases |second|
  {
    hide Possible, Enabled, Apply;
    if second == [] {
      assert first + [] == first;
    } else {
      var n := |second| - 1;
      LastStep(After(s, link, first), link, second);
      RunsCompose(s, link, first, second[..n]);
      OneMoreStep(s, link, first + second[..n], second[n]);
      assert first + second[..n] + [second[n]] == first + second;
    }
  }

  lemma SingleStep(s: System, link: Link, step: Step)
    requires Enabled(s, link, step)
    ensures Possible(s, link, [step]) && After(s, link, [step]) == Apply(s, link, step)
  {
    hide Enabled, Apply;
    assert [step][..0] == [];
  }

  // ------------------------------------------------------------------------------------------
  // One attempt
  // ------------------------------------------------------------------------------------------

  /** The worker's current row is owed to the owner and the Home will not refuse it. */
  ghost predicate Deliverable(s: System, link: Link) {
    && AtOwner(s, link) && s.batch[s.next] in s.rows
    && (HasRecorded(s.home, FeedIn(s), link, s.batch[s.next].eventSeq) || !Overtaken(s.home, s.rows[s.batch[s.next]].notice, link.owner))
  }

  /** A state after the worker settled its current row as delivered. */
  ghost predicate DeliversCurrent(s: System, s': System) {
    && s.next < |s.batch| && s.batch[s.next] in s.rows && s.batch[s.next] in s'.rows
    && s'.rows[s.batch[s.next]].status == Delivered && s'.rows.Keys == s.rows.Keys
    && (forall k :: k in s.rows && k != s.batch[s.next] ==> s'.rows[k] == s.rows[k])
    && s'.group == s.group && s'.genesis == s.genesis && s'.batch == s.batch && s'.next == s.next + 1
    && s'.home.operations == s.home.operations
  }

  lemma CurrentIsHead(s: System, link: Link)
    requires Inv(s, link) && AtOwner(s, link)
    ensures s.batch[s.next] in s.rows && s.rows[s.batch[s.next]].Open() && IsHead(s.rows, s.batch[s.next], link)
    ensures s.batch[s.next] in s.selected
  {
    hide HomeSide, HostOk, Sound, QueueOk, SentOk, OnePerQueue;
  }

  /** The current attempt's request is answered and its answer settled. */
  lemma AnsweredAttemptDelivers(s: System, link: Link, now: int, clock: int) returns (run: seq<Step>)
    requires Inv(s, link) && s.attempting && Deliverable(s, link)
    ensures run == [AttemptIsAnswered, WorkerSettles(Acknowledged, now, clock)]
    ensures Possible(s, link, run) && DeliversCurrent(s, After(s, link, run))
    ensures HomeAnswer(s, link, s.batch[s.next]).Ok?
  {
    hide HomeOk, FeedOf, HostOk, Sound, QueueOk, SentOk, ReceiptsOk, ForwardsOk, Deliver, OnePerQueue, Overtaken;
    var k := s.batch[s.next];
    CurrentIsHead(s, link);
    HeadIsAnswered(s, link, k, HomeAnswer(s, link, k));
    SingleStep(s, link, AttemptIsAnswered);
    hide Possible, After;
    OneMoreStep(s, link, [AttemptIsAnswered], WorkerSettles(Acknowledged, now, clock));
    run := [AttemptIsAnswered] + [WorkerSettles(Acknowledged, now, clock)];
  }

  lemma SendingKeepsCurrent(s: System, link: Link)
    requires Inv(s, link) && Deliverable(s, link)
    ensures Inv(Sending(s, link), link) && Deliverable(Sending(s, link), link) && Sending(s, link).attempting
    ensures forall s' :: DeliversCurrent(Sending(s, link), s') ==> DeliversCurrent(s, s')
    ensures HomeAnswer(Sending(s, link), link, s.batch[s.next]) == HomeAnswer(s, link, s.batch[s.next])
  {
    hide HostSide, HomeSide, Deliver, Overtaken, FeedOf;
    assert HostSide(s, link) && HomeSide(s, link);
    CurrentInRange(s, link);
    SendStepKeeps(s, link);
  }

  lemma CurrentInRange(s: System, link: Link)
    requires AtOwner(s, link)
    ensures s.next < |s.batch|
  {
  }

  /** An attempt that meets no failure delivers: the row is sent, accepted or recognised, and settled. */
  lemma AttemptDelivers(s: System, link: Link, now: int, clock: int) returns (run: seq<Step>)
    requires Inv(s, link) && Deliverable(s, link)
    ensures Possible(s, link, run) && Inv(After(s, link, run), link) && DeliversCurrent(s, After(s, link, run))
    ensures HomeAnswer(s, link, s.batch[s.next]).Ok?
    ensures |run| <= 3 && forall i :: 0 <= i < |run| ==> run[i].WorkerSends? || run[i].AttemptIsAnswered? || run[i].WorkerSettles?
  {
    hide Inv, Deliverable, DeliversCurrent, Possible, After, HomeAnswer, Enabled, Apply;
    if s.attempting {
      run := AnsweredAttemptDelivers(s, link, now, clock);
    } else {
      SendingKeepsCurrent(s, link);
      SendIsEnabled(s, link);
      SingleStep(s, link, WorkerSends);
      var rest := AnsweredAttemptDelivers(Sending(s, link), link, now, clock);
      RunsCompose(s, link, [WorkerSends], rest);
      run := [WorkerSends] + rest;
    }
    RunKeepsInv(s, link, run);
  }

  lemma SendIsEnabled(s: System, link: Link)
    requires Deliverable(s, link) && !s.attempting
    ensures Enabled(s, link, WorkerSends) && Apply(s, link, WorkerSends) == Sending(s, link)
  {
  }

  // ------------------------------------------------------------------------------------------
  // What the worker and the network cannot change
  // ------------------------------------------------------------------------------------------

  /** A notification still owed that a forwarded departure overtook: the Home refuses it. */
  predicate Stuck(s: System, link: Link, q: nat) {
    && Notified(FeedIn(s), link.owner, q) && !HasRecorded(s.home, FeedIn(s), link, q)
    && FeedIn(s)[q].notice.Some? && Overtaken(s.home, FeedIn(s)[q].notice.value, link.owner)
  }

  /** Only the worker and the network move. */
  predicate QuietStep(step: Step) {
    step.WorkerSelects? || step.WorkerSends? || step.NoticeArrives? || step.AttemptIsAnswered? || step.WorkerSettles?
  }

  predicate Quiet(run: seq<Step>) {
    forall i :: 0 <= i < |run| ==> QuietStep(run[i])
  }

  /** Taking in a notification neither overtakes nor frees a later one. */
  lemma EarlierLeavesLater(h: Home, source: Did, wire: Wire, notice: Notice, owner: Did, later: Notice)
    requires notice.EventSeq() < later.EventSeq() && Deliver(h, source, wire, notice, owner).Ok?
    ensures Overtaken(Deliver(h, source, wire, notice, owner).value.home, later, owner) <==> Overtaken(h, later, owner)
  {
    hide AcceptedBeforeTerminal, LatestActivation;
  }

  lemma HeadTakenInKeepsStuck(s: System, link: Link, k: RowKey, r: Result<Accepted, HomeError>, q: nat)
    requires Inv(s, link) && IsHead(s.rows, k, link) && !HasRecorded(s.home, FeedIn(s), link, k.eventSeq)
    requires r == HomeAnswer(s, link, k) && r.Ok? && s.rows[k].notice.EventSeq() == k.eventSeq
    requires Notified(FeedIn(s), link.owner, q) ==> FeedIn(s)[q].notice.Some? && FeedIn(s)[q].notice.value.EventSeq() == q
    ensures Stuck(Received(s, r), link, q) <==> Stuck(s, link, q)
  {
    hide HomeOk, FeedOf, HostSide, HomeSide, Deliver, Overtaken, HasRecorded;
    HeadIsNext(s, link, k);
    HeadIsAnswered(s, link, k, r);
    if Notified(FeedIn(s), link.owner, q) && k.eventSeq < q {
      EarlierLeavesLater(s.home, link.host, s.rows[k].wire, s.rows[k].notice, link.owner, FeedIn(s)[q].notice.value);
    }
  }

  lemma NoticesAreNumbered(s: System, link: Link, q: nat)
    requires HostOk(s.group, s.genesis, link) && Notified(FeedIn(s), link.owner, q)
    ensures FeedIn(s)[q].notice.Some? && FeedIn(s)[q].notice.value.EventSeq() == q
  {
    hide FeedOf;
    HostIsBooked(s, link);
    FeedOfIsOk(s.group, s.genesis);
    Membership(FeedIn(s), link.gid, link.owner, q);
  }

  lemma AnswerKeepsStuck(s: System, link: Link, p: nat, r: Result<Accepted, HomeError>, q: nat)
    requires Inv(s, link) && p in s.sent && OwnerKey(FeedIn(s), link, p) in s.rows
    requires r == HomeAnswer(s, link, OwnerKey(FeedIn(s), link, p))
    ensures Stuck(Received(s, r), link, q) <==> Stuck(s, link, q)
  {
    hide HomeSide, FeedOf, Sound, WorkerOk, HomeAnswer, SentOk, QueueOk, HostOk, Stuck, Notified, HasRecorded;
    var k := OwnerKey(FeedIn(s), link, p);
    SentIsAnswered(s, link, p, r);
    if r.Ok? && !HasRecorded(s.home, FeedIn(s), link, p) {
      HeadIsNext(s, link, k);
      NoticesAreNumbered(s, link, p);
      if Notified(FeedIn(s), link.owner, q) {
        NoticesAreNumbered(s, link, q);
      }
      HeadTakenInKeepsStuck(s, link, k, r, q);
    }
  }

  lemma SentIsQueued(s: System, link: Link, p: nat)
    requires HostSide(s, link) && p in s.sent
    ensures OwnerKey(FeedIn(s), link, p) in s.rows
  {
    hide FeedOf, HostOk, Sound, WorkerOk;
  }

  lemma AttemptedIsSent(s: System, link: Link)
    requires HostSide(s, link) && s.attempting && AtOwner(s, link)
    ensures s.batch[s.next].eventSeq in s.sent && s.batch[s.next] in s.rows
    ensures s.batch[s.next] == OwnerKey(FeedIn(s), link, s.batch[s.next].eventSeq)
  {
    hide FeedOf, HostOk, Sound, OnePerQueue, SentOk;
  }

  /** Sending, repeating and settling leave exactly the same notifications stuck. */
  lemma QuietStepKeepsStuck(s: System, link: Link, step: Step, q: nat)
    requires Inv(s, link) && Enabled(s, link, step) && QuietStep(step)
    ensures Stuck(Apply(s, link, step), link, q) <==> Stuck(s, link, q)
  {
    hide HostSide, HomeSide, FeedOf, HomeAnswer, Settle, IsBatch, OwnerKey;
    match step {
      case NoticeArrives(p) =>
        SentIsQueued(s, link, p);
        AnswerKeepsStuck(s, link, p, HomeAnswer(s, link, OwnerKey(FeedIn(s), link, p)), q);
      case AttemptIsAnswered =>
        AttemptedIsSent(s, link);
        AnswerKeepsStuck(s, link, s.batch[s.next].eventSeq, HomeAnswer(s, link, s.batch[s.next]), q);
      case _ =>
    }
  }

  lemma QuietStepKeepsDead(s: System, link: Link, step: Step, k: RowKey)
    requires QuietStep(step) && k in s.rows && s.rows[k].status == Dead
    ensures k in Apply(s, link, step).rows && Apply(s, link, step).rows[k].status == Dead
  {
    hide HomeAnswer;
  }

  lemma {:induction false} QuietRunKeepsStuck(s: System, link: Link, run: seq<Step>, q: nat, k: RowKey)
    requires Inv(s, link) && Possible(s, link, run) && Quiet(run)
    ensures Inv(After(s, link, run), link) && (Stuck(After(s, link, run), link, q) <==> Stuck(s, link, q))
    ensures k in s.rows && s.rows[k].status == Dead ==>
              k in After(s, link, run).rows && After(s, link, run).rows[k].status == Dead
  {
    hide Inv, Enabled, Apply, Possible, Stuck;
    if run != [] {
      var n := |run| - 1;
      LastStep(s, link, run);
      QuietRunKeepsStuck(s, link, run[..n], q, k);
      StepKeepsInv(After(s, link, run[..n]), link, run[n]);
      QuietStepKeepsStuck(After(s, link, run[..n]), link, run[n], q);
      if k in s.rows && s.rows[k].status == Dead {
        QuietStepKeepsDead(After(s, link, run[..n]), link, run[n], k);
      }
    }
  }

  // ------------------------------------------------------------------------------------------
  // The queue drains
  // ------------------------------------------------------------------------------------------

  ghost predicate NoneDead(rows: Rows, link: Link) {
    forall k :: k in rows && InQueue(k, link) ==> rows[k].status != Dead
  }

  ghost predicate NoneStuck(s: System, link: Link) {
    forall q :: !Stuck(s, link, q)
  }

  /** Nothing stuck and nothing dead in the owner's queue. */
  ghost predicate Healthy(s: System, link: Link) {
    Inv(s, link) && NoneStuck(s, link) && NoneDead(s.rows, link)
  }

  lemma FewerOpen(rows: Rows, rows': Rows, k: RowKey)
    requires k in rows && rows[k].Open() && rows'.Keys == rows.Keys && !rows'[k].Open()
    requires forall j :: j in rows && j != k ==> rows'[j] == rows[j]
    ensures |OpenRows(rows')| < |OpenRows(rows)|
  {
    assert OpenRows(rows') == OpenRows(rows) - {k};
  }

  lemma QuietRunKeepsFree(s: System, link: Link, run: seq<Step>)
    requires Inv(s, link) && Possible(s, link, run) && Quiet(run) && NoneStuck(s, link)
    ensures Inv(After(s, link, run), link) && NoneStuck(After(s, link, run), link)
  {
    hide Inv, Possible, After, Stuck;
    forall q: nat
      ensures !Stuck(After(s, link, run), link, q)
    {
      QuietRunKeepsStuck(s, link, run, q, RowKey(link.gid, 0, link.owner, StateKind));
    }
    RunKeepsInv(s, link, run);
  }

  lemma FreeIsDeliverable(s: System, link: Link)
    requires Inv(s, link) && NoneStuck(s, link) && AtOwner(s, link)
    ensures Deliverable(s, link)
  {
    hide HomeOk, FeedOf, HostOk, Sound, SentOk, ReceiptsOk, OnePerQueue, Overtaken;
    CurrentIsHead(s, link);
    assert !Stuck(s, link, s.batch[s.next].eventSeq);
  }

  lemma OwnersRowSettles(s: System, link: Link) returns (run: seq<Step>)
    requires Healthy(s, link) && AtOwner(s, link)
    ensures Possible(s, link, run) && Quiet(run) && Healthy(After(s, link, run), link)
    ensures |OpenRows(After(s, link, run).rows)| < |OpenRows(s.rows)|
  {
    hide Inv, NoneStuck, Possible, After, HomeAnswer, Enabled, Apply, Deliverable;
    CurrentIsHead(s, link);
    FreeIsDeliverable(s, link);
    run := AttemptDelivers(s, link, 0, 0);
    QuietRunKeepsFree(s, link, run);
    FewerOpen(s.rows, After(s, link, run).rows, s.batch[s.next]);
  }

  /** The rows of another queue are some other Home's to acknowledge. */
  lemma OthersSettlement(s: System, link: Link, s': System)
    requires s.next < |s.batch| && !AtOwner(s, link) && s.batch[s.next] in s.selected
    requires s.batch[s.next] in s.rows && s.rows[s.batch[s.next]].Open() && s' == Settled(s, Acknowledged, 0, 0)
    ensures s'.home == s.home && (NoneDead(s.rows, link) ==> NoneDead(s'.rows, link))
    ensures |OpenRows(s'.rows)| < |OpenRows(s.rows)|
  {
    FewerOpen(s.rows, s'.rows, s.batch[s.next]);
  }

  lemma CurrentIsOpen(s: System, link: Link)
    requires HostSide(s, link) && s.next < |s.batch|
    ensures s.batch[s.next] in s.rows && s.rows[s.batch[s.next]].Open() && s.batch[s.next] in s.selected
  {
    hide HostOk, Sound, QueueOk, SentOk, OnePerQueue;
  }

  lemma OthersRowSettles(s: System, link: Link) returns (run: seq<Step>)
    requires Healthy(s, link) && s.next < |s.batch| && !AtOwner(s, link)
    ensures Possible(s, link, run) && Quiet(run) && Healthy(After(s, link, run), link)
    ensures |OpenRows(After(s, link, run).rows)| < |OpenRows(s.rows)|
  {
    hide HostSide, HomeSide, Possible, After, AtOwner, Settled, NoneDead, NoneStuck, OpenRows;
    var step := WorkerSettles(Acknowledged, 0, 0);
    CurrentIsOpen(s, link);
    SingleStep(s, link, step);
    QuietRunKeepsFree(s, link, [step]);
    OthersSettlement(s, link, Apply(s, link, step));
    run := [step];
  }

  lemma CurrentRowSettles(s: System, link: Link) returns (run: seq<Step>)
    requires Healthy(s, link) && s.next < |s.batch|
    ensures Possible(s, link, run) && Quiet(run) && Healthy(After(s, link, run), link)
    ensures |OpenRows(After(s, link, run).rows)| < |OpenRows(s.rows)|
  {
    hide Healthy, Possible, After;
    if AtOwner(s, link) {
      run := OwnersRowSettles(s, link);
    } else {
      run := OthersRowSettles(s, link);
    }
  }

  /** Some row of a non-empty set is due before all the others. */
  lemma {:induction false} EarliestDue(rows: Rows, keys: set<RowKey>) returns (k: RowKey)
    requires keys <= rows.Keys && keys != {}
    ensures k in keys && forall j :: j in keys ==> DueBefore(rows[k], rows[j])
    decreases keys
  {
    k :| k in keys;
    if keys != {k} {
      var other := EarliestDue(rows, keys - {k});
      if DueBefore(rows[other], rows[k]) {
        k := other;
      }
    }
  }

  /** A moment by which every open row is due. */
  lemma {:induction false} AllDue(rows: Rows, keys: set<RowKey>) returns (now: int)
    requires keys <= rows.Keys
    ensures forall k :: k in keys ==> rows[k].due <= now
    decreases keys
  {
    if keys == {} {
      now := 0;
    } else {
      var k :| k in keys;
      var earlier := AllDue(rows, keys - {k});
      now := Max(earlier, rows[k].due);
    }
  }

  /** The undelivered row of the owner's queue with the lowest number is its head. */
  lemma {:induction false} HeadExists(rows: Rows, keys: set<RowKey>, link: Link) returns (k: RowKey)
    requires keys <= rows.Keys && keys != {} && forall j :: j in keys ==> InQueue(j, link) && rows[j].status != Delivered
    ensures k in keys && forall j :: j in keys ==> k.eventSeq <= j.eventSeq
    decreases keys
  {
    k :| k in keys;
    if keys != {k} {
      var other := HeadExists(rows, keys - {k}, link);
      if other.eventSeq < k.eventSeq {
        k := other;
      }
    }
  }

  /** With the batch done and the owner's queue not empty, the worker can select something. */
  lemma SelectionExists(rows: Rows, link: Link) returns (k: RowKey, now: int)
    requires NoneDead(rows, link) && exists j :: j in rows && InQueue(j, link) && rows[j].status != Delivered
    ensures IsBatch(rows, [k], now, 1)
  {
    var waiting := set j | j in rows && InQueue(j, link) && rows[j].status != Delivered;
    var some :| some in rows && InQueue(some, link) && rows[some].status != Delivered;
    assert some in waiting;
    var head := HeadExists(rows, waiting, link);
    assert HeadOfLine(rows, head) by {
      forall j | j in rows && SameQueue(j, head) && j.eventSeq < head.eventSeq
        ensures rows[j].status == Delivered
      {
        assert j !in waiting;
      }
    }
    now := AllDue(rows, rows.Keys);
    var eligible := set j | j in rows && Eligible(rows, j, now);
    assert head in eligible;
    k := EarliestDue(rows, eligible);
    hide HeadOfLine;
  }

  /** With nothing stuck and nothing dead, the worker and the network alone can empty the owner's queue. */
  lemma {:induction false} QueueCanDrain(s: System, link: Link) returns (run: seq<Step>)
    requires Healthy(s, link)
    ensures Possible(s, link, run) && Quiet(run) && Healthy(After(s, link, run), link) && QueueEmpty(After(s, link, run), link)
    decreases |OpenRows(s.rows)|
  {
    hide Healthy, Possible, Enabled, Apply, IsBatch, OpenRows;
    if QueueEmpty(s, link) {
      NothingPossible(s, link);
      run := [];
    } else {
      var first := NextSettlement(s, link);
      var rest := QueueCanDrain(After(s, link, first), link);
      RunsCompose(s, link, first, rest);
      run := first + rest;
    }
  }

  lemma NothingPossible(s: System, link: Link)
    ensures Possible(s, link, []) && After(s, link, []) == s
  {
  }

  /** With its batch done, the worker can select a row while the owner's queue is not empty. */
  lemma SelectNext(s: System, link: Link) returns (step: Step)
    requires Healthy(s, link) && !QueueEmpty(s, link) && s.next == |s.batch|
    ensures step.WorkerSelects? && Enabled(s, link, step) && Healthy(Apply(s, link, step), link)
    ensures Apply(s, link, step).rows == s.rows && Apply(s, link, step).next < |Apply(s, link, step).batch|
  {
    hide Inv, IsBatch, NoneStuck, Stuck, Possible, After;
    var k, now := SelectionExists(s.rows, link);
    step := WorkerSelects([k], now, 1);
    SingleStep(s, link, step);
    QuietRunKeepsFree(s, link, [step]);
  }

  lemma BatchInRange(s: System, link: Link)
    requires Healthy(s, link)
    ensures s.next <= |s.batch|
  {
    hide HomeSide, HostOk, Sound, QueueOk, SentOk, OnePerQueue;
  }

  /** Finish the current row, or select one and settle it. */
  lemma NextSettlement(s: System, link: Link) returns (run: seq<Step>)
    requires Healthy(s, link) && !QueueEmpty(s, link)
    ensures Possible(s, link, run) && Quiet(run) && Healthy(After(s, link, run), link)
    ensures |OpenRows(After(s, link, run).rows)| < |OpenRows(s.rows)|
  {
    hide Healthy, Possible, After, OpenRows, Enabled, Apply, QueueEmpty;
    BatchInRange(s, link);
    if s.next < |s.batch| {
      run := CurrentRowSettles(s, link);
    } else {
      var step := SelectNext(s, link);
      SingleStep(s, link, step);
      var rest := CurrentRowSettles(Apply(s, link, step), link);
      RunsCompose(s, link, [step], rest);
      run := [step] + rest;
    }
  }

  ghost predicate CanDrain(s: System, link: Link) {
    exists run :: Possible(s, link, run) && Quiet(run) && QueueEmpty(After(s, link, run), link)
  }

  /** An empty queue has neither a stuck notification nor a dead row behind it. */
  lemma DrainedHasNoneStuck(s: System, link: Link, run: seq<Step>)
    requires Inv(s, link) && Possible(s, link, run) && Quiet(run) && QueueEmpty(After(s, link, run), link)
    ensures NoneStuck(s, link) && NoneDead(s.rows, link)
  {
    hide Inv, Possible, After, Stuck;
    forall q: nat
      ensures !Stuck(s, link, q)
    {
      QuietRunKeepsStuck(s, link, run, q, RowKey(link.gid, 0, link.owner, StateKind));
      TakenInIsNotStuck(After(s, link, run), link, q);
    }
    forall k | k in s.rows && InQueue(k, link)
      ensures s.rows[k].status != Dead
    {
      QuietRunKeepsStuck(s, link, run, 0, k);
    }
  }

  lemma TakenInIsNotStuck(s: System, link: Link, q: nat)
    requires Inv(s, link) && QueueEmpty(s, link)
    ensures !Stuck(s, link, q)
  {
    hide HomeOk, FeedOf, HostOk, Sound, WorkerOk, SentOk, ForwardsOk, Overtaken;
    if Notified(FeedIn(s), link.owner, q) {
      assert OwnerKey(FeedIn(s), link, q) in s.rows;
    }
  }

  /**
   * At any moment of any run, whether the owner's queue can still drain without anyone's further
   * request is decided: exactly when no row of it is dead and no notification in it was overtaken.
   */
  lemma DrainsUnlessStuck(s: System, link: Link, run: seq<Step>)
    requires Init(s, link) && Possible(s, link, run)
    ensures CanDrain(After(s, link, run), link) <==>
            NoneStuck(After(s, link, run), link) && NoneDead(After(s, link, run).rows, link)
  {
    hide Inv, Init, Possible, After, NoneStuck, NoneDead;
    InitIsInv(s, link);
    RunKeepsInv(s, link, run);
    var now := After(s, link, run);
    if CanDrain(now, link) {
      var more :| Possible(now, link, more) && Quiet(more) && QueueEmpty(After(now, link, more), link);
      DrainedHasNoneStuck(now, link, more);
    }
    if NoneStuck(now, link) && NoneDead(now.rows, link) {
      var more := QueueCanDrain(now, link);
    }
  }

  /** Without a forwarded departure nothing is stuck. */
  lemma UnforwardedIsFree(s: System, link: Link)
    requires Inv(s, link) && s.home.operations == map[]
    ensures NoneStuck(s, link)
  {
    hide HomeOk, FeedOf, Sound, WorkerOk, SentOk, ReceiptsOk, Overtaken;
    FeedOfIsOk(s.group, s.genesis);
    forall q: nat
      ensures !Stuck(s, link, q)
    {
      var feed := FeedIn(s);
      if Notified(feed, link.owner, q) && !HasRecorded(s.home, feed, link, q) && feed[q].notice.Some? {
        NothingOvertaken(s.home, feed, link, q, feed[q].notice.value);
      }
    }
  }

  /**
   * From every reachable state with nothing stuck and nothing dead, and so from every one without a
   * dead row before the first forwarded departure, the worker and the network alone can bring an
   * active member's view up to the Host's row.
   */
  lemma MemberCanCatchUp(s: System, link: Link, run: seq<Step>) returns (more: seq<Step>)
    requires Init(s, link) && Possible(s, link, run) && NoneDead(After(s, link, run).rows, link)
    requires After(s, link, run).home.operations == map[] || NoneStuck(After(s, link, run), link)
    ensures Possible(s, link, run + more) && Quiet(more) && QueueEmpty(After(s, link, run + more), link)
    ensures IsActive(After(s, link, run + more).group, link.owner) ==>
              var now := After(s, link, run + more);
              now.home.view.Some? && ViewShows(now.home.view.value, FeedIn(now), link, now.group.eventSeq)
  {
    hide Inv, Init, Possible, After, Enabled, FeedOf, NoneStuck, NoneDead;
    InitIsInv(s, link);
    RunKeepsInv(s, link, run);
    if After(s, link, run).home.operations == map[] {
      UnforwardedIsFree(After(s, link, run), link);
    }
    more := QueueCanDrain(After(s, link, run), link);
    RunsCompose(s, link, run, more);
    if IsActive(After(s, link, run + more).group, link.owner) {
      DrainedNow(After(s, link, run + more), link);
    }
  }

  // ------------------------------------------------------------------------------------------
  // A run that converges
  // ------------------------------------------------------------------------------------------

  lemma JoinActivates(g: Group, env: Env, req: Request, c: Commit)
    requires Execute(g, env, req) == Ok(c) && req.action.Join? && g.operations == map[]
    ensures Activate(g, env, req, req.sender, MemberRole, req.action.home) == Ok(c)
  {
    hide Activate, OpenJoin;
  }

  /** The rows of a join that is the second event of its group, the joining member's own among them. */
  ghost predicate FirstRows(rows: Rows, link: Link, time: int) {
    && RowKey(link.gid, 2, link.owner, StateKind) in rows
    && (forall j :: j in rows ==> j.gid == link.gid && j.eventSeq == 2 && j.kind == StateKind)
    && (forall j :: j in rows ==> rows[j].status == Pending && rows[j].due == time && rows[j].createdAt == time)
  }

  /** The first event of a group with an empty outbox: the owner joins. */
  lemma JoinEnqueues(g: Group, link: Link, env: Env, req: Request, c: Commit)
    requires g.gid == link.gid && g.host == link.host != link.home && g.eventSeq == 1 && g.operations == map[]
    requires req.action == Join(link.home) && req.sender == link.owner && Execute(g, env, req) == Ok(c)
    ensures FirstRows(c.rows, link, req.time) && !c.replay && IsActive(c.group, link.owner)
  {
    hide Execute, Activate;
    JoinActivates(g, env, req, c);
    ActivateRecords(g, env, req, link.owner, MemberRole, link.home, c);
  }

  lemma SingleBatch(rows: Rows, link: Link, time: int)
    requires FirstRows(rows, link, time)
    ensures IsBatch(rows, [RowKey(link.gid, 2, link.owner, StateKind)], time, 1)
  {
    assert HeadOfLine(rows, RowKey(link.gid, 2, link.owner, StateKind));
  }

  lemma JoinStepEnqueues(s: System, link: Link, env: Env, req: Request, c: Commit)
    requires Init(s, link) && s.rows == map[] && req.action == Join(link.home) && req.sender == link.owner
    requires Execute(s.group, env, req) == Ok(c)
    ensures Enabled(s, link, HostCommits(env, req)) && FirstRows(c.rows, link, req.time) && IsActive(c.group, link.owner)
    ensures var s1 := Apply(s, link, HostCommits(env, req));
            s1.group == c.group && s1.rows == c.rows && s1.home == EMPTY && s1.next == 0 && s1.batch == []
  {
    hide Execute;
    StartsIdle(s, link);
    hide Init, FirstRows, IsActive;
    JoinEnqueues(s.group, link, env, req, c);
    assert Insert(map[], c.rows) == c.rows;
  }

  /** The owner joins and the worker selects the notification of it. */
  lemma JoinThenSelect(s: System, link: Link, env: Env, req: Request, c: Commit) returns (run: seq<Step>)
    requires Init(s, link) && s.rows == map[] && req.action == Join(link.home) && req.sender == link.owner
    requires Execute(s.group, env, req) == Ok(c)
    ensures Possible(s, link, run) && |run| == 2 && run[0] == HostCommits(env, req)
    ensures var now := After(s, link, run);
            && Inv(now, link) && now.group == c.group && now.rows == c.rows && now.home == EMPTY
            && now.batch == [RowKey(link.gid, 2, link.owner, StateKind)] && now.next == 0
    ensures FirstRows(c.rows, link, req.time) && IsActive(c.group, link.owner)
  {
    var first, second := HostCommits(env, req), WorkerSelects([RowKey(link.gid, 2, link.owner, StateKind)], req.time, 1);
    JoinStepEnqueues(s, link, env, req, c);
    InitIsInv(s, link);
    SingleBatch(c.rows, link, req.time);
    hide Inv, Init, Execute, IsBatch, FirstRows, IsActive, Possible, After, Insert;
    SingleStep(s, link, first);
    SelectionIsEnabled(Apply(s, link, first), link, second);
    OneMoreStep(s, link, [first], second);
    run := [first] + [second];
    RunKeepsInv(s, link, run);
  }

  lemma SelectionIsEnabled(s: System, link: Link, step: Step)
    requires step.WorkerSelects? && s.next == |s.batch| && IsBatch(s.rows, step.batch, step.now, step.limit)
    ensures Enabled(s, link, step) && Apply(s, link, step).batch == step.batch && Apply(s, link, step).next == 0
    ensures Apply(s, link, step).group == s.group && Apply(s, link, step).rows == s.rows && Apply(s, link, step).home == s.home
  {
  }

  lemma StartsIdle(s: System, link: Link)
    requires Init(s, link)
    ensures s.batch == [] && s.next == 0 && s.home == EMPTY && s.group.eventSeq == 1 && s.group.operations == map[]
    ensures s.group.gid == link.gid && s.group.host == link.host != link.home
  {
  }

  lemma FreshIsDeliverable(s: System, link: Link)
    requires s.next == 0 && |s.batch| == 1 && InQueue(s.batch[0], link) && s.batch[0] in s.rows && s.home == EMPTY
    ensures Deliverable(s, link)
  {
    hide FeedOf;
  }

  lemma SoleDeliveryShows(s: System, link: Link, k: RowKey)
    requires Inv(s, link) && IsActive(s.group, link.owner)
    requires k in s.rows && s.rows[k].status == Delivered && forall j :: j in s.rows && InQueue(j, link) ==> j == k
    ensures s.home.view.Some? && s.home.view.value.status == Active
    ensures ViewShows(s.home.view.value, FeedIn(s), link, s.group.eventSeq)
  {
    hide Inv, FeedOf;
    DrainedNow(s, link);
  }

  /**
   * From any open group with an empty outbox: the owner joins, the worker selects and sends the one
   * notification, it is answered and settled, and the Home's view is the Host's row.
   */
  lemma JoiningConverges(s: System, link: Link, env: Env, req: Request) returns (run: seq<Step>)
    requires Init(s, link) && s.rows == map[] && req.action == Join(link.home) && req.sender == link.owner
    requires Execute(s.group, env, req).Ok?
    ensures Possible(s, link, run) && |run| <= 5 && run != [] && run[0] == HostCommits(env, req)
    ensures var now := After(s, link, run);
            && Inv(now, link) && now.group == Execute(s.group, env, req).value.group && now.home.operations == map[]
            && IsActive(now.group, link.owner) && now.home.view.Some? && now.home.view.value.status == Active
            && ViewShows(now.home.view.value, FeedIn(now), link, now.group.eventSeq)
  {
    hide Inv, Init, Execute, Apply, Enabled, Possible, After, Deliverable, FeedOf, ViewShows;
    var k := RowKey(link.gid, 2, link.owner, StateKind);
    run := JoinThenSelect(s, link, env, req, Execute(s.group, env, req).value);
    var selected := After(s, link, run);
    FreshIsDeliverable(selected, link);
    var rest := AttemptDelivers(selected, link, req.time, req.time);
    RunsCompose(s, link, run, rest);
    run := run + rest;
    SoleDeliveryShows(After(s, link, run), link, k);
  }
}
