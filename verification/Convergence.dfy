/**
 * A Group Host, its outbox worker and one remote member's Home as one transition system: requests,
 * delivery attempts with lost acknowledgements and repeats, roster reads and forwarded departures
 * interleave freely. Profile v2; the Host answers a roster read atomically.
 */
module Convergence {
  import opened Common
  import opened MergePatch
  import opened GroupPolicy
  import opened GroupTypes
  import opened Outbox
  import opened GroupHost
  import opened GroupHistory
  import opened MemberHome
  import opened Replica

  /**
   * `selected`, `batch` and `next` are the worker's position in its drain; `attempting` says that its
   * current row is on its way, `granted` that the Home accepted it in this very attempt. `sent` are the
   * event numbers of the owner's notifications that ever left the Host.
   */
  datatype System = System(
    group: Group, genesis: GroupState, rows: Rows,
    selected: Rows, batch: seq<RowKey>, next: nat, attempting: bool, granted: bool,
    sent: set<nat>, home: Home)

  /**
   * `NoticeArrives` is a copy whose answer is lost or comes too late, now or after any later step;
   * `AttemptIsAnswered` is the current attempt's request arriving and its answer coming back.
   */
  datatype Step =
    | HostCommits(env: Env, request: Request)
    | OtherGroupEnqueues(added: Rows)
    | WorkerSelects(batch: seq<RowKey>, now: int, limit: int)
    | WorkerSends
    | NoticeArrives(eventSeq: nat)
    | AttemptIsAnswered
    | WorkerSettles(outcome: Outcome, now: int, clock: int)
    | HomeRefreshes(answer: Roster, at: int)
    | HomeForwards(key: OpKey)

  // ------------------------------------------------------------------------------------------
  // The Host's log as a feed
  // ------------------------------------------------------------------------------------------

  function BeatAt(g: Group, genesis: GroupState, s: nat): Beat
    requires s <= |g.events|
  {
    Beat(
      if s <= 1 then None
      else
        match g.events[s - 1]
        case Created => None
        case Changed(e) => Some(StateNotice(e))
        case Sent(_) => if s in g.messages then Some(MessageNotice(g.messages[s])) else None,
      StateAt(genesis, g.events, s))
  }

  function FeedOf(g: Group, genesis: GroupState): Feed {
    seq(|g.events| + 1, s requires 0 <= s <= |g.events| => BeatAt(g, genesis, s))
  }

  lemma FeedOfIsOk(g: Group, genesis: GroupState)
    requires Booked(g, genesis) && genesis.version >= 1
    ensures FeedOk(FeedOf(g, genesis), g.gid)
    ensures |FeedOf(g, genesis)| == g.eventSeq + 1 && FeedOf(g, genesis)[g.eventSeq].state == Current(g)
    ensures FeedOf(g, genesis)[1].state == genesis
  {
    var feed := FeedOf(g, genesis);
    forall s | 2 <= s < |feed|
      ensures Follows(g.gid, feed[s - 1].state, feed[s], s)
    {
      assert LoggedAt(g, genesis, s);
    }
    assert forall s :: MessageAt(feed, s) ==> s in g.messages && feed[s].notice == Some(MessageNotice(g.messages[s]));
  }

  lemma FeedOfExtends(g: Group, g': Group, genesis: GroupState)
    requires Booked(g, genesis) && LogExtends(g, g')
    ensures |FeedOf(g', genesis)| == |FeedOf(g, genesis)| + 1
    ensures forall s :: 0 <= s < |FeedOf(g, genesis)| ==> FeedOf(g', genesis)[s] == FeedOf(g, genesis)[s]
  {
    forall s | 0 <= s < |FeedOf(g, genesis)|
      ensures FeedOf(g', genesis)[s] == FeedOf(g, genesis)[s]
    {
      StateOfPrefix(genesis, g.events, [g'.events[|g.events|]], s);
      if 2 <= s {
        assert LoggedAt(g, genesis, s);
      }
    }
  }

  // ------------------------------------------------------------------------------------------
  // Steps
  // ------------------------------------------------------------------------------------------

  function FeedIn(s: System): Feed {
    FeedOf(s.group, s.genesis)
  }

  predicate InQueue(k: RowKey, link: Link) {
    k.gid == link.gid && k.target == link.owner
  }

  function OwnerKey(feed: Feed, link: Link, s: nat): RowKey {
    RowKey(link.gid, s, link.owner, KindAt(feed, s))
  }

  /** The worker stands at a row of the owner's queue. */
  predicate AtOwner(s: System, link: Link) {
    s.next < |s.batch| && InQueue(s.batch[s.next], link)
  }

  /** DID discovery answers the same Home for the owner every time. */
  predicate DiscoversHome(action: Action, sender: Did, link: Link) {
    match action
    case Join(home) => sender == link.owner ==> home == link.home
    case Add(member, _, home) => member == link.owner ==> home == link.home
    case _ => true
  }

  ghost predicate Enabled(s: System, link: Link, step: Step) {
    match step
    case HostCommits(env, request) =>
      DiscoversHome(request.action, request.sender, link) && Execute(s.group, env, request).Ok?
    case OtherGroupEnqueues(added) =>
      OneRowPerEvent(added) && Later(s.rows, added) && forall k :: k in added ==> k.gid != link.gid
    case WorkerSelects(batch, now, limit) => s.next == |s.batch| && IsBatch(s.rows, batch, now, limit)
    case WorkerSends => s.next < |s.batch| && !s.attempting
    case NoticeArrives(eventSeq) => eventSeq in s.sent
    case AttemptIsAnswered => s.attempting && AtOwner(s, link)
    case WorkerSettles(outcome, _, _) => s.next < |s.batch| && (outcome == Acknowledged && AtOwner(s, link) ==> s.granted)
    case HomeRefreshes(answer, at) => AnsweredAt(answer, FeedIn(s), link, at)
    case HomeForwards(key) =>
      && key in s.group.operations && TerminalMethod(key.op)
      && TerminalSubject(key.op, s.group.operations[key].result) == Some(link.owner)
  }

  /** The Home's answer to a row of the owner's queue. */
  function HomeAnswer(s: System, link: Link, key: RowKey): Result<Accepted, HomeError>
    requires key in s.rows
  {
    Deliver(s.home, link.host, s.rows[key].wire, s.rows[key].notice, link.owner)
  }

  function Committed(s: System, r: Result<Commit, HostError>): System {
    match r
    case Ok(c) => s.(group := c.group, rows := Insert(s.rows, c.rows))
    case Err(_) => s
  }

  function Received(s: System, r: Result<Accepted, HomeError>): System {
    match r
    case Ok(accepted) => s.(home := accepted.home)
    case Err(_) => s
  }

  function Sending(s: System, link: Link): System {
    if AtOwner(s, link) then s.(attempting := true, granted := false, sent := s.sent + {s.batch[s.next].eventSeq})
    else s.(attempting := true, granted := false)
  }

  function Settled(s: System, outcome: Outcome, now: int, clock: int): System {
    if s.next < |s.batch| && s.batch[s.next] in s.selected then
      s.(rows := Settle(s.rows, s.batch[s.next], s.selected[s.batch[s.next]], outcome, now, clock),
         next := s.next + 1, attempting := false, granted := false)
    else s
  }

  function Rehomed(s: System, r: Result<Home, HomeError>): System {
    match r
    case Ok(home) => s.(home := home)
    case Err(_) => s
  }

  /** One step. A refused transaction, at the Host or at the Home, leaves everything as it was. */
  function Apply(s: System, link: Link, step: Step): System {
    match step
    case HostCommits(env, request) => Committed(s, Execute(s.group, env, request))
    case OtherGroupEnqueues(added) => s.(rows := Insert(s.rows, added))
    case WorkerSelects(batch, _, _) => s.(selected := s.rows, batch := batch, next := 0, attempting := false, granted := false)
    case WorkerSends => Sending(s, link)
    case NoticeArrives(q) =>
      var key := OwnerKey(FeedIn(s), link, q);
      if key in s.rows then Received(s, HomeAnswer(s, link, key)) else s
    case AttemptIsAnswered =>
      if AtOwner(s, link) && s.batch[s.next] in s.rows
      then Received(s, HomeAnswer(s, link, s.batch[s.next])).(granted := HomeAnswer(s, link, s.batch[s.next]).Ok?)
      else s
    case WorkerSettles(outcome, now, clock) => Settled(s, outcome, now, clock)
    case HomeRefreshes(answer, _) =>
      (match Refresh(s.home, answer, link.owner)
       case Ok((home, _)) => s.(home := home)
       case Err(_) => s)
    case HomeForwards(key) =>
      if key !in s.group.operations then s
      else Rehomed(s, Forwarded(s.home, key.op, s.group.operations[key].result, link.owner))
  }

  // ------------------------------------------------------------------------------------------
  // The invariant
  // ------------------------------------------------------------------------------------------

  predicate HomeKnown(g: Group, link: Link) {
    link.owner in g.roster ==> g.roster[link.owner].home == link.home
  }

  ghost predicate HostOk(g: Group, genesis: GroupState, link: Link) {
    && Consistent(g, genesis) && genesis.version >= 1
    && g.gid == link.gid && g.host == link.host && g.wire == BaseV2 && link.home != link.host
    && HomeKnown(g, link)
  }

  /** The owner's queue holds exactly the notifications owed to it, each in its own row. */
  ghost predicate QueueOk(rows: Rows, feed: Feed, link: Link) {
    && (forall k :: k in rows && k.gid == link.gid ==> k.eventSeq < |feed|)
    && (forall k :: k in rows && InQueue(k, link) ==>
          && Notified(feed, link.owner, k.eventSeq) && k == OwnerKey(feed, link, k.eventSeq)
          && feed[k.eventSeq].notice == Some(rows[k].notice) && rows[k].wire == BaseV2 && rows[k].service == link.home)
    && (forall s :: Notified(feed, link.owner, s) ==> OwnerKey(feed, link, s) in rows)
  }

  ghost predicate WorkerOk(s: System) {
    s.next <= |s.batch| && InFlight(s.rows, s.batch, s.next, s.selected) && OnePerQueue(s.batch)
  }

  /** What has left the Host was first in line. */
  ghost predicate SentOk(rows: Rows, sent: set<nat>, feed: Feed, link: Link) {
    forall q :: q in sent ==> Notified(feed, link.owner, q) && HeadOfLine(rows, OwnerKey(feed, link, q))
  }

  predicate AttemptOk(s: System, link: Link) {
    s.attempting && AtOwner(s, link) ==> s.batch[s.next].eventSeq in s.sent
  }

  /** The Host's half of the invariant. */
  ghost predicate HostSide(s: System, link: Link) {
    && HostOk(s.group, s.genesis, link)
    && Sound(s.rows) && QueueOk(s.rows, FeedIn(s), link) && WorkerOk(s)
    && SentOk(s.rows, s.sent, FeedIn(s), link) && AttemptOk(s, link)
  }

  lemma HostIsKnown(s: System, link: Link)
    requires HostSide(s, link)
    ensures HostOk(s.group, s.genesis, link)
  {
    hide HostOk;
  }

  lemma HostIsConsistent(s: System, link: Link)
    requires HostSide(s, link)
    ensures Consistent(s.group, s.genesis)
  {
    hide Consistent;
  }

  lemma HostIsBooked(s: System, link: Link)
    requires HostOk(s.group, s.genesis, link)
    ensures Booked(s.group, s.genesis) && s.genesis.version >= 1 && s.group.gid == link.gid
  {
    hide Booked;
  }

  /** What counts as delivered, now or when the current attempt is settled, was taken in; what was taken in was sent. */
  ghost predicate ReceiptsOk(s: System, feed: Feed, link: Link) {
    && (forall k :: k in s.rows && InQueue(k, link) && s.rows[k].status == Delivered ==> HasRecorded(s.home, feed, link, k.eventSeq))
    && (s.granted && AtOwner(s, link) ==> HasRecorded(s.home, feed, link, s.batch[s.next].eventSeq))
    && (forall q: nat :: HasRecorded(s.home, feed, link, q) ==> q in s.sent)
  }

  ghost predicate ForwardsOk(h: Home, g: Group) {
    forall k :: k in h.operations ==> k in g.operations && h.operations[k].result.receipt == g.operations[k].result.receipt
  }

  /** The Home's half, for an owner who was not seated at creation. */
  ghost predicate HomeSide(s: System, link: Link) {
    && !ActiveIn(s.genesis, link.owner)
    && HomeOk(s.home, FeedIn(s), link) && ReceiptsOk(s, FeedIn(s), link) && ForwardsOk(s.home, s.group)
  }

  ghost predicate Inv(s: System, link: Link) {
    HostSide(s, link) && HomeSide(s, link)
  }

  /** A hosted v2 group just created, a Home that knows nothing of it, an idle worker. */
  ghost predicate Start(s: System, link: Link) {
    && HostOk(s.group, s.genesis, link) && s.group.events == [Created] && s.group.operations == map[]
    && Sound(s.rows) && (forall k :: k in s.rows ==> k.gid != link.gid)
    && s.batch == [] && s.next == 0 && !s.attempting && !s.granted && s.sent == {} && s.home == EMPTY
  }

  /** The same, without the owner among those seated at creation. */
  ghost predicate Init(s: System, link: Link) {
    Start(s, link) && !ActiveIn(s.genesis, link.owner)
  }

  lemma EmptyHomeIsOk(feed: Feed, link: Link)
    ensures HomeOk(EMPTY, feed, link) && forall q :: !HasRecorded(EMPTY, feed, link, q)
  {
  }

  lemma StartIsHostSide(s: System, link: Link)
    requires Start(s, link)
    ensures HostSide(s, link) && |FeedIn(s)| == 2
  {
    hide Consistent, Sound;
    assert |FeedIn(s)| == 2 && forall q :: !Notified(FeedIn(s), link.owner, q);
  }

  lemma InitIsInv(s: System, link: Link)
    requires Init(s, link)
    ensures Inv(s, link)
  {
    hide HomeOk, HostSide;
    StartIsHostSide(s, link);
    EmptyHomeIsOk(FeedIn(s), link);
  }

  /** Every creation is such a start, with the owner seated exactly when named. */
  lemma CreationStarts(link: Link, creator: Did, profile: Json, policy: Json, initial: seq<Initial>, rows: Rows, g: Group)
    requires Create(link.gid, link.host, BaseV2, creator, profile, policy, initial) == Ok(g)
    requires link.home != link.host && HomeKnown(g, link)
    requires Sound(rows) && forall k :: k in rows ==> k.gid != link.gid
    ensures var s := System(g, Current(g), rows, map[], [], 0, false, false, {}, EMPTY);
            Start(s, link) && !g.quiescing && (Init(s, link) <==> link.owner != creator && link.owner !in Seats(initial))
  {
    hide Create, Consistent, Sound;
    CreationIsConsistent(link.gid, link.host, BaseV2, creator, profile, policy, initial);
  }

  // ------------------------------------------------------------------------------------------
  // A notification arrives
  // ------------------------------------------------------------------------------------------

  /** The first row of the owner's queue that is not delivered yet. */
  ghost predicate IsHead(rows: Rows, k: RowKey, link: Link) {
    k in rows && InQueue(k, link) && rows[k].status != Delivered && HeadOfLine(rows, k)
  }

  /** Everything owed before the head was taken in, and nothing owed after it. */
  lemma HeadIsNext(s: System, link: Link, k: RowKey)
    requires Inv(s, link) && IsHead(s.rows, k, link)
    ensures Notified(FeedIn(s), link.owner, k.eventSeq) && FeedIn(s)[k.eventSeq].notice == Some(s.rows[k].notice)
    ensures !HasRecorded(s.home, FeedIn(s), link, k.eventSeq) ==> Due(s.home, FeedIn(s), link, k.eventSeq)
    ensures forall t :: HasRecorded(s.home, FeedIn(s), link, t) ==> t <= k.eventSeq
  {
    hide HomeOk, FeedOf, Sound, WorkerOk, HostOk, ForwardsOk;
    var feed := FeedIn(s);
    forall r | r < k.eventSeq && Notified(feed, link.owner, r)
      ensures HasRecorded(s.home, feed, link, r)
    {
      assert OwnerKey(feed, link, r) in s.rows;
    }
    forall t | HasRecorded(s.home, feed, link, t)
      ensures t <= k.eventSeq
    {
      var t': nat := t;
      assert t' in s.sent && HeadOfLine(s.rows, OwnerKey(feed, link, t'));
    }
  }

  /** How the Home answers the head of the owner's queue, whatever attempt or repeat it is. */
  ghost predicate AnswersHead(s: System, link: Link, k: RowKey, r: Result<Accepted, HomeError>)
    requires k in s.rows
  {
    && (r.Err? <==> !HasRecorded(s.home, FeedIn(s), link, k.eventSeq) && Overtaken(s.home, s.rows[k].notice, link.owner))
    && (r.Err? ==> r == Err(StaleEvent))
    && (HasRecorded(s.home, FeedIn(s), link, k.eventSeq) ==> r == Ok(Accepted(s.home, Duplicate)))
    && (s.home.operations == map[] ==> r.Ok?)
  }

  /** What taking in notification q leaves behind. */
  ghost predicate TakesIn(s: System, link: Link, q: nat, home: Home) {
    && HomeOk(home, FeedIn(s), link) && home.operations == s.home.operations
    && forall t :: HasRecorded(home, FeedIn(s), link, t) <==> t == q || HasRecorded(s.home, FeedIn(s), link, t)
  }

  lemma HeadIsAnswered(s: System, link: Link, k: RowKey, r: Result<Accepted, HomeError>)
    requires Inv(s, link) && IsHead(s.rows, k, link) && r == HomeAnswer(s, link, k)
    ensures AnswersHead(s, link, k, r) && (r.Ok? ==> TakesIn(s, link, k.eventSeq, r.value.home))
  {
    hide HomeOk, FeedOf, Sound, WorkerOk, SentOk, ReceiptsOk, ForwardsOk, Deliver, Overtaken;
    FeedOfIsOk(s.group, s.genesis);
    HeadIsNext(s, link, k);
    var feed, notice := FeedIn(s), s.rows[k].notice;
    if HasRecorded(s.home, feed, link, k.eventSeq) {
      Redelivered(s.home, feed, link, k.eventSeq, notice, r);
    } else {
      DueNotice(s.home, feed, link, k.eventSeq, notice, r);
      if s.home.operations == map[] {
        NothingOvertaken(s.home, feed, link, k.eventSeq, notice);
      }
    }
  }

  /** Whatever ever left the Host changes nothing when it comes again, and is taken in at most once. */
  lemma SentIsAnswered(s: System, link: Link, q: nat, r: Result<Accepted, HomeError>)
    requires Inv(s, link) && q in s.sent && OwnerKey(FeedIn(s), link, q) in s.rows && r == HomeAnswer(s, link, OwnerKey(FeedIn(s), link, q))
    ensures r.Ok? ==> TakesIn(s, link, q, r.value.home)
    ensures r.Ok? && HasRecorded(s.home, FeedIn(s), link, q) ==> r.value.home == s.home
    ensures !HasRecorded(s.home, FeedIn(s), link, q) ==> IsHead(s.rows, OwnerKey(FeedIn(s), link, q), link)
  {
    hide HomeOk, FeedOf, Sound, WorkerOk, Deliver, Overtaken, ForwardsOk;
    var k := OwnerKey(FeedIn(s), link, q);
    if HasRecorded(s.home, FeedIn(s), link, q) {
      FeedOfIsOk(s.group, s.genesis);
      Redelivered(s.home, FeedIn(s), link, q, s.rows[k].notice, r);
    } else {
      HeadIsAnswered(s, link, k, r);
    }
  }

  lemma TakingInKeepsHomeSide(s: System, link: Link, q: nat, home: Home, granted: bool)
    requires HomeSide(s, link) && q in s.sent && TakesIn(s, link, q, home)
    requires granted && AtOwner(s, link) ==> s.batch[s.next].eventSeq == q || s.granted
    ensures HomeSide(s.(home := home, granted := granted), link)
  {
    hide HomeOk, FeedOf;
  }

  lemma ArrivalKeeps(s: System, link: Link, q: nat)
    requires Inv(s, link) && q in s.sent
    ensures HomeSide(Apply(s, link, NoticeArrives(q)), link)
  {
    hide HomeOk, FeedOf, Deliver, ReceiptsOk, ForwardsOk, HostOk, Sound, WorkerOk;
    var k := OwnerKey(FeedIn(s), link, q);
    var r := HomeAnswer(s, link, k);
    SentIsAnswered(s, link, q, r);
    if r.Ok? {
      TakingInKeepsHomeSide(s, link, q, r.value.home, s.granted);
    }
  }

  lemma AnswerKeeps(s: System, link: Link)
    requires Inv(s, link) && s.attempting && AtOwner(s, link)
    ensures HomeSide(Apply(s, link, AttemptIsAnswered), link)
  {
    hide HomeOk, FeedOf, Deliver, ForwardsOk, HostOk, Sound, OnePerQueue, HomeSide;
    var k := s.batch[s.next];
    assert k in s.rows && k == OwnerKey(FeedIn(s), link, k.eventSeq);
    var r := HomeAnswer(s, link, k);
    SentIsAnswered(s, link, k.eventSeq, r);
    if r.Ok? {
      TakingInKeepsHomeSide(s, link, k.eventSeq, r.value.home, true);
    } else {
      UngrantedKeeps(s, link);
    }
  }

  lemma UngrantedKeeps(s: System, link: Link)
    requires HomeSide(s, link)
    ensures HomeSide(s.(granted := false), link)
  {
    hide HomeOk, FeedOf;
  }

  // ------------------------------------------------------------------------------------------
  // The Home moves by itself
  // ------------------------------------------------------------------------------------------

  lemma HomeMoveKeeps(s: System, link: Link, home: Home)
    requires HomeSide(s, link) && HomeOk(home, FeedIn(s), link) && home.inbound == s.home.inbound && ForwardsOk(home, s.group)
    ensures HomeSide(s.(home := home), link)
  {
    hide HomeOk, FeedOf;
    assert forall q :: HasRecorded(home, FeedIn(s), link, q) <==> HasRecorded(s.home, FeedIn(s), link, q);
  }

  lemma RefreshStepKeeps(s: System, link: Link, answer: Roster, at: int, r: Result<(Home, bool), HomeError>)
    requires Inv(s, link) && AnsweredAt(answer, FeedIn(s), link, at)
    requires r == Refresh(s.home, answer, link.owner)
    ensures r.Ok? && HomeSide(s.(home := r.value.0), link)
  {
    hide HomeOk, QueueOk, Sound, WorkerOk, SentOk, FeedOf, ReceiptsOk;
    FeedOfIsOk(s.group, s.genesis);
    RefreshKeeps(s.home, FeedIn(s), link, answer, at, r);
    HomeMoveKeeps(s, link, r.value.0);
  }

  /** What the Host recorded for a departure of the owner is the receipt of that very event. */
  lemma HostConfirms(s: System, link: Link, key: OpKey)
    requires HostOk(s.group, s.genesis, link) && key in s.group.operations && TerminalMethod(key.op)
    requires TerminalSubject(key.op, s.group.operations[key].result) == Some(link.owner)
    ensures var result := s.group.operations[key].result;
            && key == OpKey(result.receipt.actor, key.op, result.receipt.opId)
            && Confirms(key.op, result, FeedIn(s), link)
  {
    var r := s.group.operations[key];
    assert OperationRecorded(s.group, key, r);
    assert LoggedAt(s.group, s.genesis, r.result.eventSeq);
    var e := s.group.events[r.result.eventSeq - 1].event;
    assert FeedIn(s)[r.result.eventSeq].notice == Some(StateNotice(e));
  }

  lemma ForwardStepKeeps(s: System, link: Link, key: OpKey, r: Result<Home, HomeError>)
    requires Inv(s, link) && key in s.group.operations && TerminalMethod(key.op)
    requires TerminalSubject(key.op, s.group.operations[key].result) == Some(link.owner)
    requires r == Forwarded(s.home, key.op, s.group.operations[key].result, link.owner)
    ensures r.Ok? && HomeSide(Rehomed(s, r), link)
  {
    hide HomeOk, QueueOk, Sound, WorkerOk, SentOk, FeedOf, Forwarded, Booked, ValidPolicy, OperationsRecorded, ReceiptsOk;
    FeedOfIsOk(s.group, s.genesis);
    HostConfirms(s, link, key);
    ForwardKeeps(s.home, FeedIn(s), link, key.op, s.group.operations[key].result, r);
    HomeMoveKeeps(s, link, r.value);
  }

  // ------------------------------------------------------------------------------------------
  // The worker moves
  // ------------------------------------------------------------------------------------------

  lemma SendStepKeeps(s: System, link: Link)
    requires HostSide(s, link) && s.next < |s.batch|
    ensures HostSide(Sending(s, link), link) && (HomeSide(s, link) ==> HomeSide(Sending(s, link), link))
  {
    hide HomeOk, HostOk, Sound, FeedOf;
  }

  lemma SelectStepKeeps(s: System, link: Link, batch: seq<RowKey>, now: int, limit: int)
    requires HostSide(s, link) && IsBatch(s.rows, batch, now, limit)
    ensures var s' := s.(selected := s.rows, batch := batch, next := 0, attempting := false, granted := false);
            HostSide(s', link) && (HomeSide(s, link) ==> HomeSide(s', link))
  {
    hide HomeOk, HostOk, SentOk, QueueOk, FeedOf, IsBatch;
    BatchHasOneRowPerQueue(s.rows, batch, now, limit);
  }

  /** Rows change while every queue position, notice and delivered prefix stays. */
  ghost predicate RowsAdvance(rows: Rows, rows': Rows) {
    && rows'.Keys == rows.Keys
    && (forall k :: k in rows ==> rows'[k].notice == rows[k].notice && rows'[k].wire == rows[k].wire && rows'[k].service == rows[k].service)
    && (forall k :: k in rows && rows[k].status == Delivered ==> rows'[k].status == Delivered)
  }

  lemma SettledRowsAdvance(rows: Rows, k: RowKey, selected: Row, outcome: Outcome, now: int, clock: int)
    ensures RowsAdvance(rows, Settle(rows, k, selected, outcome, now, clock))
    ensures forall j :: j in rows && Settle(rows, k, selected, outcome, now, clock)[j].status == Delivered ==>
              rows[j].status == Delivered || (j == k && outcome == Acknowledged)
  {
  }

  lemma RowsStay(rows: Rows, rows': Rows, sent: set<nat>, feed: Feed, link: Link)
    requires RowsAdvance(rows, rows') && QueueOk(rows, feed, link) && SentOk(rows, sent, feed, link)
    ensures QueueOk(rows', feed, link) && SentOk(rows', sent, feed, link)
  {
  }

  lemma SettleStepKeepsHost(s: System, link: Link, outcome: Outcome, now: int, clock: int)
    requires HostSide(s, link) && s.next < |s.batch|
    ensures HostSide(Settled(s, outcome, now, clock), link)
  {
    hide HostOk, FeedOf, Sound, OnePerQueue, QueueOk, SentOk;
    var k := s.batch[s.next];
    SettleKeepsSound(s.rows, s.batch, s.next, s.selected, outcome, now, clock);
    SettledRowsAdvance(s.rows, k, s.selected[k], outcome, now, clock);
    RowsStay(s.rows, Settle(s.rows, k, s.selected[k], outcome, now, clock), s.sent, FeedIn(s), link);
  }

  lemma SettleStepKeepsHome(s: System, link: Link, outcome: Outcome, now: int, clock: int)
    requires Inv(s, link) && Enabled(s, link, WorkerSettles(outcome, now, clock))
    ensures HomeSide(Settled(s, outcome, now, clock), link)
  {
    hide HomeOk, HostOk, FeedOf, Sound, OnePerQueue, QueueOk, SentOk, Settle;
    SettledRowsAdvance(s.rows, s.batch[s.next], s.selected[s.batch[s.next]], outcome, now, clock);
  }

  // ------------------------------------------------------------------------------------------
  // The Host moves
  // ------------------------------------------------------------------------------------------

  lemma InsertedElsewhereStay(rows: Rows, added: Rows, sent: set<nat>, feed: Feed, link: Link)
    requires QueueOk(rows, feed, link) && SentOk(rows, sent, feed, link)
    requires forall k :: k in added ==> k.gid != link.gid
    ensures QueueOk(Insert(rows, added), feed, link) && SentOk(Insert(rows, added), sent, feed, link)
  {
  }

  lemma OtherGroupStepKeeps(s: System, link: Link, added: Rows)
    requires HostSide(s, link) && Enabled(s, link, OtherGroupEnqueues(added))
    ensures HostSide(s.(rows := Insert(s.rows, added)), link)
    ensures HomeSide(s, link) ==> HomeSide(s.(rows := Insert(s.rows, added)), link)
  {
    hide HomeOk, HostOk, ForwardsOk, FeedOf, Sound, OnePerQueue, QueueOk, SentOk;
    InsertKeepsSound(s.rows, added, s.batch, s.next, s.selected);
    InsertedElsewhereStay(s.rows, added, s.sent, FeedIn(s), link);
  }

  lemma ActivationKeepsHome(g: Group, env: Env, req: Request, target: Did, role: Role, home: Did, c: Commit, link: Link)
    requires Activate(g, env, req, target, role, home) == Ok(c) && HomeKnown(g, link)
    requires target == link.owner ==> home == link.home
    ensures HomeKnown(c.group, link)
  {
    hide Activate;
    ActivateRecords(g, env, req, target, role, home, c);
  }

  lemma DepartureKeepsHome(g: Group, env: Env, req: Request, target: Did, status: Status, etype: EventType, c: Commit, link: Link)
    requires IsActive(g, target) && Depart(g, env, req, target, status, etype) == Ok(c) && HomeKnown(g, link)
    ensures HomeKnown(c.group, link)
  {
    hide RowsFor;
  }

  lemma UpdateKeepsRoster(g: Group, env: Env, req: Request, permission: Name, c: Commit)
    requires (req.action.UpdateProfile? || req.action.UpdatePolicy?) && Update(g, env, req, permission) == Ok(c)
    ensures c.group.roster == g.roster
  {
    hide Update;
    UpdateRecords(g, env, req, permission, c);
  }

  lemma HomesStay(g: Group, env: Env, req: Request, c: Commit, link: Link)
    requires Execute(g, env, req) == Ok(c) && DiscoversHome(req.action, req.sender, link) && HomeKnown(g, link)
    ensures HomeKnown(c.group, link)
  {
    hide Activate, Depart, Update, RowsFor;
    if req.Key() !in g.operations {
      match req.action {
        case Join(home) => ActivationKeepsHome(g, env, req, req.sender, MemberRole, home, c, link);
        case Add(member, role, home) => ActivationKeepsHome(g, env, req, member, role, home, c, link);
        case Leave => DepartureKeepsHome(g, env, req, req.sender, Left, MemberLeft, c, link);
        case Remove(member) => DepartureKeepsHome(g, env, req, member, Removed, MemberRemoved, c, link);
        case UpdateProfile(_) => UpdateKeepsRoster(g, env, req, Known(UpdateProfilePermission), c);
        case UpdatePolicy(_) => UpdateKeepsRoster(g, env, req, Known(UpdatePolicyPermission), c);
        case Send(_, _) =>
      }
    }
  }

  lemma LatestBeat(g: Group, g': Group, genesis: GroupState)
    requires Booked(g', genesis) && LogExtends(g, g') && g.eventSeq >= 1
    ensures FeedOf(g', genesis)[g'.eventSeq] == Beat(Some(NoticeAt(g', g'.eventSeq)), Current(g'))
    ensures NoticeAt(g', g'.eventSeq).StateNotice? ==> Documented(Current(g')) && Replay(Current(g), g'.events[|g.events|]) == Current(g')
  {
    assert g'.events[|g.events|] == g'.events[g'.eventSeq - 1];
  }

  /** Whom the Host notifies, seen from one remote member. */
  lemma TargetsOwner(g: Group, notice: Notice, link: Link)
    requires HomeKnown(g, link) && g.wire == BaseV2 && g.host == link.host && link.home != link.host
    ensures link.owner in TargetsOf(g, notice) <==>
              IsActive(g, link.owner)
              || (notice.StateNotice? && Departure(notice.event) && notice.event.subject == Some(link.owner) && link.owner in g.roster)
  {
  }

  lemma DepartedStaysSeated(g: Group, g': Group, owner: Did)
    requires LogExtends(g, g')
    requires var ev := g'.events[|g.events|]; ev.Changed? && Departure(ev.event) && ev.event.subject == Some(owner)
    ensures owner in g'.roster
  {
    var e := g'.events[|g.events|].event;
    assert ActiveIn(Current(g), owner);
    assert owner in Seated(Current(g).roster, e);
    assert owner in Current(g').roster;
  }

  /** The Host notifies the owner of its latest event exactly when the feed says the owner is owed it. */
  lemma TargetedIffNotified(g: Group, feed: Feed, notice: Notice, link: Link)
    requires HomeKnown(g, link) && g.wire == BaseV2 && g.host == link.host && link.home != link.host
    requires g.eventSeq >= 2 && |feed| == g.eventSeq + 1 && feed[g.eventSeq] == Beat(Some(notice), Current(g))
    requires notice.StateNotice? && Departure(notice.event) && notice.event.subject == Some(link.owner) ==> link.owner in g.roster
    ensures link.owner in TargetsOf(g, notice) <==> Notified(feed, link.owner, g.eventSeq)
    ensures notice.Kind() == KindAt(feed, g.eventSeq)
  {
    TargetsOwner(g, notice, link);
  }

  /** A feed that grew by its last beat. */
  ghost predicate Grown(feed: Feed, feed': Feed) {
    |feed'| == |feed| + 1 && forall s :: 0 <= s < |feed| ==> feed'[s] == feed[s]
  }

  lemma CommitExtendsQueue(rows: Rows, added: Rows, sent: set<nat>, feed: Feed, feed': Feed, link: Link, notice: Notice)
    requires QueueOk(rows, feed, link) && SentOk(rows, sent, feed, link) && Grown(feed, feed')
    requires forall k :: k in added ==> k.gid == link.gid && k.eventSeq == |feed| && k.kind == notice.Kind()
    requires forall k :: k in added ==>
               added[k].notice == notice && added[k].status == Pending && added[k].wire == BaseV2
               && (k.target == link.owner ==> added[k].service == link.home)
    requires notice.Kind() == KindAt(feed', |feed|) && feed'[|feed|].notice == Some(notice)
    requires RowKey(link.gid, |feed|, link.owner, notice.Kind()) in added <==> Notified(feed', link.owner, |feed|)
    ensures QueueOk(Insert(rows, added), feed', link)
    ensures SentOk(Insert(rows, added), sent, feed', link)
  {
    var rows' := Insert(rows, added);
    assert forall s :: 0 <= s < |feed| ==> (Notified(feed', link.owner, s) <==> Notified(feed, link.owner, s));
    assert forall s: nat :: s < |feed| ==> OwnerKey(feed', link, s) == OwnerKey(feed, link, s);
    assert OwnerKey(feed', link, |feed|) == RowKey(link.gid, |feed|, link.owner, notice.Kind());
    assert QueueOk(rows', feed', link);
    forall q | q in sent
      ensures Notified(feed', link.owner, q) && HeadOfLine(rows', OwnerKey(feed', link, q))
    {
      assert HeadOfLine(rows, OwnerKey(feed, link, q));
    }
  }

  lemma CommitKeepsRows(s: System, link: Link, req: Request, c: Commit)
    requires HostOk(s.group, s.genesis, link) && HostOk(c.group, s.genesis, link) && Extends(s.group, req, c)
    requires QueueOk(s.rows, FeedIn(s), link) && SentOk(s.rows, s.sent, FeedIn(s), link)
    ensures QueueOk(Insert(s.rows, c.rows), FeedOf(c.group, s.genesis), link)
    ensures SentOk(Insert(s.rows, c.rows), s.sent, FeedOf(c.group, s.genesis), link)
  {
    hide QueueOk, SentOk, ValidPolicy, OperationsRecorded, StateAt, FeedOf, RemoteMembers, TargetsOf;
    var g, g' := s.group, c.group;
    var feed, feed' := FeedIn(s), FeedOf(g', s.genesis);
    var notice := NoticeAt(g', g'.eventSeq);
    FeedOfIsOk(g, s.genesis);
    FeedOfIsOk(g', s.genesis);
    FeedOfExtends(g, g', s.genesis);
    LatestBeat(g, g', s.genesis);
    if notice.StateNotice? && Departure(notice.event) && notice.event.subject == Some(link.owner) {
      DepartedStaysSeated(g, g', link.owner);
    }
    TargetedIffNotified(g', feed', notice, link);
    CommitExtendsQueue(s.rows, c.rows, s.sent, feed, feed', link, notice);
  }

  lemma CommitKeepsWorker(s: System, link: Link, req: Request, c: Commit)
    requires s.group.gid == link.gid && s.group.eventSeq + 1 == |FeedIn(s)| && Extends(s.group, req, c)
    requires Sound(s.rows) && QueueOk(s.rows, FeedIn(s), link) && WorkerOk(s)
    ensures Sound(Insert(s.rows, c.rows))
    ensures WorkerOk(s.(group := c.group, rows := Insert(s.rows, c.rows)))
  {
    hide Sound, FeedOf, OperationRecorded, WellRecorded, Replay;
    InsertKeepsSound(s.rows, c.rows, s.batch, s.next, s.selected);
  }

  lemma CommitStepKeepsHost(s: System, link: Link, env: Env, req: Request, c: Commit)
    requires HostSide(s, link) && DiscoversHome(req.action, req.sender, link) && Execute(s.group, env, req) == Ok(c)
    ensures HostSide(s.(group := c.group, rows := Insert(s.rows, c.rows)), link)
  {
    hide Booked, OperationsRecorded, ValidPolicy, Execute, QueueOk, SentOk, WorkerOk, Sound, FeedOf, DiscoversHome, HomeKnown;
    hide LogExtends, OperationRecorded, Enqueued;
    ExecuteKeepsHistory(s.group, s.genesis, env, req);
    if c.replay {
      assert Insert(s.rows, map[]) == s.rows;
    } else {
      HomesStay(s.group, env, req, c, link);
      FeedOfIsOk(s.group, s.genesis);
      CommitKeepsRows(s, link, req, c);
      CommitKeepsWorker(s, link, req, c);
    }
  }

  /** Growing the log changes nothing of what the Home has taken in. */
  lemma CommitKeepsRecords(s: System, link: Link, req: Request, c: Commit)
    requires Booked(s.group, s.genesis) && Extends(s.group, req, c) && HomeOk(s.home, FeedIn(s), link)
    ensures HomeOk(s.home, FeedOf(c.group, s.genesis), link)
    ensures forall q :: HasRecorded(s.home, FeedOf(c.group, s.genesis), link, q) <==> HasRecorded(s.home, FeedIn(s), link, q)
  {
    hide HomeOk, FeedOf, WellRecorded, Replay, Booked, OperationRecorded, LogExtends, Enqueued;
    FeedOfExtends(s.group, c.group, s.genesis);
    FeedGrows(s.home, FeedIn(s), FeedOf(c.group, s.genesis), link);
  }

  lemma CommitStepKeepsHome(s: System, link: Link, env: Env, req: Request, c: Commit)
    requires Inv(s, link) && Execute(s.group, env, req) == Ok(c)
    ensures HomeSide(s.(group := c.group, rows := Insert(s.rows, c.rows)), link)
  {
    hide HostSide, Booked, OperationsRecorded, ValidPolicy, Execute, FeedOf, HomeOk, LogExtends, OperationRecorded;
    HostIsConsistent(s, link);
    ExecuteKeepsHistory(s.group, s.genesis, env, req);
    if c.replay {
      assert Insert(s.rows, map[]) == s.rows;
    } else {
      CommitKeepsRecords(s, link, req, c);
    }
  }

  // ------------------------------------------------------------------------------------------
  // Runs
  // ------------------------------------------------------------------------------------------

  /** Every step keeps the Host's half, whatever the Home is worth. */
  lemma StepKeepsHostSide(s: System, link: Link, step: Step)
    requires HostSide(s, link) && Enabled(s, link, step)
    ensures HostSide(Apply(s, link, step), link)
  {
    hide QueueOk, SentOk, HostOk, Sound, Execute, Refresh, Forwarded, HomeAnswer, Settle, Insert, IsBatch, FeedOf, HomeSide;
    match step {
      case HostCommits(env, request) => CommitStepKeepsHost(s, link, env, request, Execute(s.group, env, request).value);
      case OtherGroupEnqueues(added) => OtherGroupStepKeeps(s, link, added);
      case WorkerSelects(batch, now, limit) => SelectStepKeeps(s, link, batch, now, limit);
      case WorkerSends => SendStepKeeps(s, link);
      case WorkerSettles(outcome, now, clock) => SettleStepKeepsHost(s, link, outcome, now, clock);
      case _ =>
    }
  }

  lemma StepKeepsInv(s: System, link: Link, step: Step)
    requires Inv(s, link) && Enabled(s, link, step)
    ensures Inv(Apply(s, link, step), link)
  {
    StepKeepsHostSide(s, link, step);
    hide HostSide, HomeSide, Execute, Refresh, Forwarded, HomeAnswer, Settle, Insert, IsBatch, FeedOf;
    match step {
      case HostCommits(env, request) => CommitStepKeepsHome(s, link, env, request, Execute(s.group, env, request).value);
      case OtherGroupEnqueues(added) => OtherGroupStepKeeps(s, link, added);
      case WorkerSelects(batch, now, limit) => SelectStepKeeps(s, link, batch, now, limit);
      case WorkerSends => SendStepKeeps(s, link);
      case NoticeArrives(q) => ArrivalKeeps(s, link, q);
      case AttemptIsAnswered => AnswerKeeps(s, link);
      case WorkerSettles(outcome, now, clock) => SettleStepKeepsHome(s, link, outcome, now, clock);
      case HomeRefreshes(answer, at) => RefreshStepKeeps(s, link, answer, at, Refresh(s.home, answer, link.owner));
      case HomeForwards(key) =>
        ForwardStepKeeps(s, link, key, Forwarded(s.home, key.op, s.group.operations[key].result, link.owner));
    }
  }

  function After(s: System, link: Link, run: seq<Step>): System {
    if run == [] then s else Apply(After(s, link, run[..|run| - 1]), link, run[|run| - 1])
  }

  ghost predicate Possible(s: System, link: Link, run: seq<Step>) {
    forall i :: 0 <= i < |run| ==> Enabled(After(s, link, run[..i]), link, run[i])
  }

  lemma LastStep(s: System, link: Link, run: seq<Step>)
    requires run != [] && Possible(s, link, run)
    ensures Possible(s, link, run[..|run| - 1]) && Enabled(After(s, link, run[..|run| - 1]), link, run[|run| - 1])
  {
    hide Enabled, After;
    var n := |run| - 1;
    assert forall i :: 0 <= i < n ==> run[..n][i] == run[i] && run[..n][..i] == run[..i];
  }

  lemma OneMoreStep(s: System, link: Link, run: seq<Step>, step: Step)
    requires Possible(s, link, run) && Enabled(After(s, link, run), link, step)
    ensures Possible(s, link, run + [step]) && After(s, link, run + [step]) == Apply(After(s, link, run), link, step)
  {
    hide Enabled, Apply;
    var longer := run + [step];
    assert longer[..|run|] == run;
    forall i | 0 <= i < |longer|
      ensures Enabled(After(s, link, longer[..i]), link, longer[i])
    {
      if i < |run| {
        assert longer[..i] == run[..i];
      }
    }
  }

  lemma {:induction false} RunKeepsHostSide(s: System, link: Link, run: seq<Step>)
    requires HostSide(s, link) && Possible(s, link, run)
    ensures HostSide(After(s, link, run), link)
  {
    hide HostSide, Enabled, Apply, Possible;
    if run != [] {
      LastStep(s, link, run);
      RunKeepsHostSide(s, link, run[..|run| - 1]);
      StepKeepsHostSide(After(s, link, run[..|run| - 1]), link, run[|run| - 1]);
    }
  }

  lemma {:induction false} RunKeepsInv(s: System, link: Link, run: seq<Step>)
    requires Inv(s, link) && Possible(s, link, run)
    ensures Inv(After(s, link, run), link)
  {
    hide Inv, Enabled, Apply, Possible;
    if run != [] {
      LastStep(s, link, run);
      RunKeepsInv(s, link, run[..|run| - 1]);
      StepKeepsInv(After(s, link, run[..|run| - 1]), link, run[|run| - 1]);
    }
  }

  // ------------------------------------------------------------------------------------------
  // What holds at every moment of every run
  // ------------------------------------------------------------------------------------------

  /**
   * However requests, failures, lost acknowledgements, repeats and roster reads interleave, the Home
   * refuses the head of the owner's queue exactly when it has not taken it in yet and a departure that
   * the Home itself forwarded overtook it; it acknowledges again what it has taken in, and refuses
   * nothing when it forwarded no departure.
   */
  lemma HeadIsAccepted(s: System, link: Link, run: seq<Step>, k: RowKey)
    requires Init(s, link) && Possible(s, link, run) && IsHead(After(s, link, run).rows, k, link)
    ensures AnswersHead(After(s, link, run), link, k, HomeAnswer(After(s, link, run), link, k))
  {
    InitIsInv(s, link);
    RunKeepsInv(s, link, run);
    var now := After(s, link, run);
    hide After, HomeAnswer, Inv, Init;
    HeadIsAnswered(now, link, k, HomeAnswer(now, link, k));
  }

  ghost predicate QueueEmpty(s: System, link: Link) {
    forall k :: k in s.rows && InQueue(k, link) ==> s.rows[k].status == Delivered
  }

  /** Once the queue has drained, an active member's view is the Host's row. */
  lemma DrainedViewIsTheHostRow(s: System, link: Link, run: seq<Step>)
    requires Init(s, link) && Possible(s, link, run)
    requires QueueEmpty(After(s, link, run), link) && IsActive(After(s, link, run).group, link.owner)
    ensures var now := After(s, link, run);
            && now.home.view.Some?
            && var v := now.home.view.value;
               && v.status == Active && v.role == now.group.roster[link.owner].role
               && v.host == now.group.host && v.version == now.group.version && v.eventSeq == now.group.eventSeq
               && v.profile == now.group.profile && v.policy == now.group.policy
  {
    InitIsInv(s, link);
    RunKeepsInv(s, link, run);
    var now := After(s, link, run);
    hide After;
    DrainedNow(now, link);
  }

  lemma DrainedNow(s: System, link: Link)
    requires Inv(s, link) && QueueEmpty(s, link) && IsActive(s.group, link.owner)
    ensures s.home.view.Some? && s.home.view.value.status == Active
    ensures ViewShows(s.home.view.value, FeedIn(s), link, s.group.eventSeq)
    ensures FeedIn(s)[s.group.eventSeq].state == Current(s.group)
  {
    hide HomeOk, FeedOf, Sound, WorkerOk;
    var feed := FeedIn(s);
    FeedOfIsOk(s.group, s.genesis);
    assert ActiveIn(Current(s.group), link.owner);
    assert s.group.eventSeq != 1;
    forall q | Notified(feed, link.owner, q)
      ensures HasRecorded(s.home, feed, link, q)
    {
      assert OwnerKey(feed, link, q) in s.rows;
    }
    CaughtUp(s.home, feed, link);
  }

  /**
   * From the roster read on, and until the membership ends, the active members and roles that the
   * Home shows are the Host's at the view's own event; once the queue has drained, the Host's now.
   */
  lemma RosterAgrees(s: System, link: Link, run: seq<Step>)
    requires Init(s, link) && Possible(s, link, run)
    ensures var now := After(s, link, run);
            var feed := FeedIn(now);
            now.home.view.Some? && now.home.view.value.status == Active && now.home.view.value.observedSeq > 0
            && SameInterval(feed, link.owner, now.home.view.value.observedSeq, now.home.view.value.eventSeq) ==>
              && 0 <= now.home.view.value.eventSeq < |feed|
              && ActiveRoles(now.home.roster) == ActiveRoles(feed[now.home.view.value.eventSeq].state.roster)
              && (QueueEmpty(now, link) && IsActive(now.group, link.owner) ==>
                    ActiveRoles(now.home.roster) == ActiveRoles(Views(now.group.roster)))
  {
    InitIsInv(s, link);
    RunKeepsInv(s, link, run);
    var now := After(s, link, run);
    hide After, FeedOf;
    assert HomeOk(now.home, FeedIn(now), link);
    if QueueEmpty(now, link) && IsActive(now.group, link.owner) {
      DrainedNow(now, link);
    }
  }
}
