/**
 * The cutover of one hosted group from profile v1 to v2: prepare, apply and cancel as the transactions
 * they consist of, interleaved with group writes, drains and each other. Plan and backup digests are
 * taken to identify what they were computed from; a preparation id is never issued twice.
 */
module Migration {
  import opened Common
  import opened MergePatch
  import opened GroupPolicy
  import opened GroupTypes
  import opened Outbox
  import opened GroupHost
  import opened GroupHistory

  datatype Envelope = Envelope(notice: Notice, wire: Wire)

  /** What the plan digest of `_inspect` covers; delivery statuses are not part of it. */
  datatype Plan = Plan(
    gid: Did, host: Did, wire: Wire, document: Token, documentVersion: nat,
    roster: map<Did, Member>, profile: Json, policy: Json, version: nat, eventSeq: nat,
    deliveries: map<RowKey, Envelope>)

  datatype Stage = Preparing | Prepared | Applied | Cancelled {
    function Rank(): nat {
      match this
      case Preparing => 0
      case Prepared => 1
      case _ => 2
    }
  }

  /** The group's row of `group_protocol_migrations`. */
  datatype Record = Record(plan: Plan, stage: Stage, backup: Option<Token>, preparation: nat)

  /** What an apply carries from its reading to its writing transaction, the backup verified in between. */
  datatype Verified = Verified(plan: Plan, preparation: nat, backup: Token)

  datatype Cutover = Cutover(
    group: Group, document: Token, documentVersion: nat, rows: Rows, record: Option<Record>,
    nextPreparation: nat, preparing: set<(Plan, nat)>, applying: set<Verified>)

  datatype MigrationError =
    | PlanChanged | BackupChanged | PreparationChanged | NotPrepared | StateInconsistent
    | OutboxNotDrained | CancelRejected | WriteRefused(error: HostError)

  datatype Step =
    | PrepareBegins(expected: Plan, backupIntact: bool)
    | PrepareFinishes(expected: Plan, preparation: nat, backup: Token)
    | ApplyReads(expected: Plan, backupIntact: bool)
    | ApplyCommits(verified: Verified, newDocument: Token)
    | Cancels(expected: Plan)
    | Writes(env: Env, request: Request)
    | Settles(key: RowKey, selected: Row, outcome: Outcome, now: int, clock: int)

  function Inventory(rows: Rows, gid: Did): map<RowKey, Envelope> {
    map k | k in rows && k.gid == gid :: Envelope(rows[k].notice, rows[k].wire)
  }

  /** `_inspect`: the plan of the group as it stands. */
  function Anchor(s: Cutover): Plan {
    Plan(s.group.gid, s.group.host, s.group.wire, s.document, s.documentVersion, s.group.roster, s.group.profile, s.group.policy,
         s.group.version, s.group.eventSeq, Inventory(s.rows, s.group.gid))
  }

  predicate FullyDelivered(s: Cutover) {
    forall k :: k in s.rows && k.gid == s.group.gid ==> s.rows[k].status == Delivered
  }

  /** The first transaction of `prepare_group`: the durable write fence. */
  function PrepareBegin(s: Cutover, expected: Plan, backupIntact: bool): Result<Cutover, MigrationError> {
    if s.group.wire != BaseV1 || Anchor(s) != expected then Err(PlanChanged)
    else if s.record.Some? && s.record.value.stage == Prepared && s.record.value.plan == expected && s.record.value.backup.Some? then
      if backupIntact then Ok(s) else Err(BackupChanged)
    else
      Ok(s.(group := s.group.(quiescing := true),
            record := Some(Record(expected, Preparing, None, s.nextPreparation)),
            nextPreparation := s.nextPreparation + 1,
            preparing := s.preparing + {(expected, s.nextPreparation)}))
  }

  /** Its second transaction, after the backup was written outside any transaction. */
  function PrepareFinish(s: Cutover, expected: Plan, preparation: nat, backup: Token): Result<Cutover, MigrationError> {
    if Anchor(s) != expected || !s.group.quiescing then Err(PlanChanged)
    else if s.record.None? || s.record.value.plan != expected || s.record.value.preparation != preparation
            || s.record.value.stage != Preparing then Err(PreparationChanged)
    else Ok(s.(record := Some(s.record.value.(stage := Prepared, backup := Some(backup)))))
  }

  /** The reading transaction of `apply_group`; an applied record answers at once. */
  function ApplyRead(s: Cutover, expected: Plan, backupIntact: bool): Result<Option<Verified>, MigrationError> {
    if s.record.None? || s.record.value.plan != expected then Err(PlanChanged)
    else if s.record.value.stage == Applied then
      if s.group.wire != BaseV2 || s.group.quiescing then Err(StateInconsistent) else Ok(None)
    else if s.record.value.stage != Prepared || s.record.value.backup.None? then Err(NotPrepared)
    else if !backupIntact then Err(BackupChanged)
    else Ok(Some(Verified(expected, s.record.value.preparation, s.record.value.backup.value)))
  }

  /** Its writing transaction, after the members' Homes were asked. */
  function ApplyCommit(s: Cutover, v: Verified, newDocument: Token): Result<Cutover, MigrationError> {
    if s.record.None? || s.record.value.stage != Prepared || s.record.value.preparation != v.preparation
       || s.record.value.backup != Some(v.backup) then Err(PreparationChanged)
    else if !s.group.quiescing || Anchor(s) != v.plan then Err(PlanChanged)
    else if !FullyDelivered(s) then Err(OutboxNotDrained)
    else
      Ok(s.(group := s.group.(wire := BaseV2, quiescing := false), document := newDocument, documentVersion := s.documentVersion + 1,
            record := Some(if s.record.value.plan == v.plan then s.record.value.(stage := Applied) else s.record.value)))
  }

  function Cancel(s: Cutover, expected: Plan): Result<Cutover, MigrationError> {
    if s.record.None? || s.record.value.plan != expected || s.record.value.stage == Applied then Err(CancelRejected)
    else
      Ok(s.(group := if s.group.wire == BaseV1 then s.group.(quiescing := false) else s.group,
            record := Some(s.record.value.(stage := Cancelled))))
  }

  function Write(s: Cutover, env: Env, request: Request): Result<Cutover, MigrationError> {
    match Execute(s.group, env, request)
    case Ok(c) => Ok(s.(group := c.group, rows := Insert(s.rows, c.rows)))
    case Err(e) => Err(WriteRefused(e))
  }

  predicate CanStep(s: Cutover, step: Step) {
    match step
    case PrepareFinishes(expected, preparation, _) => (expected, preparation) in s.preparing
    case ApplyCommits(verified, _) => verified in s.applying
    case _ => true
  }

  function Attempt(s: Cutover, step: Step): Result<Cutover, MigrationError> {
    match step
    case PrepareBegins(expected, backupIntact) => PrepareBegin(s, expected, backupIntact)
    case PrepareFinishes(expected, preparation, backup) => PrepareFinish(s, expected, preparation, backup)
    case ApplyReads(expected, backupIntact) =>
      (match ApplyRead(s, expected, backupIntact)
       case Ok(Some(v)) => Ok(s.(applying := s.applying + {v}))
       case Ok(None) => Ok(s)
       case Err(e) => Err(e))
    case ApplyCommits(verified, newDocument) => ApplyCommit(s, verified, newDocument)
    case Cancels(expected) => Cancel(s, expected)
    case Writes(env, request) => Write(s, env, request)
    case Settles(key, selected, outcome, now, clock) => Ok(s.(rows := Settle(s.rows, key, selected, outcome, now, clock)))
  }

  function Next(s: Cutover, step: Step): Cutover {
    match Attempt(s, step)
    case Ok(s') => s'
    case Err(_) => s
  }

  // ------------------------------------------------------------------------------------------
  // The invariant
  // ------------------------------------------------------------------------------------------

  predicate Underway(s: Cutover) {
    s.record.Some? && (s.record.value.stage == Preparing || s.record.value.stage == Prepared)
  }

  ghost predicate Fenced(s: Cutover) {
    && (s.group.quiescing <==> Underway(s))
    && (Underway(s) ==> Anchor(s) == s.record.value.plan)
    && (s.record.Some? ==> s.record.value.preparation < s.nextPreparation)
    && (s.record.Some? ==> (s.record.value.stage == Applied <==> s.group.wire == BaseV2))
    && (s.record.Some? && s.record.value.stage == Prepared ==> s.record.value.backup.Some?)
  }

  /** While a cutover is underway no request of any kind is served. */
  lemma FenceRefusesWrites(s: Cutover, env: Env, request: Request)
    requires Fenced(s) && Underway(s)
    ensures Write(s, env, request).Err? && Execute(s.group, env, request).error in {PatchRequired, ProtocolMismatch, UpgradeInProgress}
  {
  }

  lemma DrainKeepsAnchor(s: Cutover, key: RowKey, selected: Row, outcome: Outcome, now: int, clock: int)
    ensures Anchor(s.(rows := Settle(s.rows, key, selected, outcome, now, clock))) == Anchor(s)
  {
    var after := Settle(s.rows, key, selected, outcome, now, clock);
    assert Inventory(after, s.group.gid) == Inventory(s.rows, s.group.gid);
  }

  lemma WriteKeepsProtocol(g: Group, env: Env, request: Request, c: Commit)
    requires Execute(g, env, request) == Ok(c)
    ensures c.group.wire == g.wire && c.group.quiescing == g.quiescing == false
  {
    hide ValidatePolicy, ValidateProfile, Merge, Demanded, MemberLimit, HasCapacity, RowsFor, OpenJoin;
  }

  lemma StepKeepsFence(s: Cutover, step: Step)
    requires Fenced(s) && CanStep(s, step)
    ensures Fenced(Next(s, step))
    ensures s.group.wire == BaseV2 ==> Next(s, step).group.wire == BaseV2
  {
    hide Execute, Inventory, Settle;
    match step {
      case Writes(env, request) =>
        if Execute(s.group, env, request).Ok? {
          WriteKeepsProtocol(s.group, env, request, Execute(s.group, env, request).value);
        }
      case Settles(key, selected, outcome, now, clock) => DrainKeepsAnchor(s, key, selected, outcome, now, clock);
      case _ =>
    }
  }

  /** Everything but the named rows is as it was. */
  predicate OthersKept(s: Cutover, s': Cutover) {
    && s'.group == s.group.(wire := s'.group.wire, quiescing := s'.group.quiescing)
    && s'.rows == s.rows && s'.applying == s.applying
  }

  /**
   * A plan pins down whatever it was computed from: two states with the same plan agree in the group's
   * members, documents and counters, in its own document, and in every notification queued for it.
   */
  lemma PlanPinsDown(a: Cutover, b: Cutover)
    requires Anchor(a) == Anchor(b)
    ensures a.group.gid == b.group.gid && a.group.host == b.group.host && a.group.wire == b.group.wire
    ensures a.group.roster == b.group.roster && a.group.profile == b.group.profile && a.group.policy == b.group.policy
    ensures a.group.version == b.group.version && a.group.eventSeq == b.group.eventSeq
    ensures a.document == b.document && a.documentVersion == b.documentVersion
    ensures forall k: RowKey :: k.gid == a.group.gid ==>
              (k in a.rows <==> k in b.rows) && (k in a.rows ==> a.rows[k].notice == b.rows[k].notice && a.rows[k].wire == b.rows[k].wire)
  {
    forall k: RowKey | k.gid == a.group.gid
      ensures k in Inventory(a.rows, a.group.gid) <==> k in a.rows
      ensures k in Inventory(b.rows, b.group.gid) <==> k in b.rows
    {
    }
    assert forall k :: k in Inventory(a.rows, a.group.gid) ==> Inventory(a.rows, a.group.gid)[k] == Inventory(b.rows, b.group.gid)[k];
  }

  /** The plan has been prepared and backed up already. */
  predicate AlreadyPrepared(s: Cutover, plan: Plan) {
    s.record.Some? && s.record.value.plan == plan && s.record.value.stage == Prepared && s.record.value.backup.Some?
  }

  /**
   * Preparing asks for the plan of a v1 group as it stands. Prepared already, it answers for an intact
   * backup and changes nothing; otherwise it puts up the fence, issues the next preparation and forgets
   * any earlier one's backup.
   */
  lemma PreparingIsDecided(s: Cutover, expected: Plan, backupIntact: bool)
    ensures var r, fits := PrepareBegin(s, expected, backupIntact), s.group.wire == BaseV1 && Anchor(s) == expected;
            && (r.Ok? <==> fits && (AlreadyPrepared(s, expected) ==> backupIntact))
            && (r.Err? ==> r.error == if fits then BackupChanged else PlanChanged)
            && (r.Ok? && AlreadyPrepared(s, expected) ==> r.value == s)
            && (r.Ok? && !AlreadyPrepared(s, expected) ==>
                  var s' := r.value;
                  && OthersKept(s, s') && s'.group.wire == BaseV1 && s'.group.quiescing
                  && s'.document == s.document && s'.documentVersion == s.documentVersion
                  && s'.record == Some(Record(expected, Preparing, None, s.nextPreparation))
                  && s'.nextPreparation == s.nextPreparation + 1 && s'.preparing == s.preparing + {(expected, s.nextPreparation)})
  {
    hide Inventory;
  }

  /** Finishing records the backup of this very preparation, behind a standing fence and on an unchanged plan. */
  lemma FinishingIsDecided(s: Cutover, expected: Plan, preparation: nat, backup: Token)
    ensures var r := PrepareFinish(s, expected, preparation, backup);
            && (r.Ok? <==>
                  && Anchor(s) == expected && s.group.quiescing && s.record.Some?
                  && s.record.value == Record(expected, Preparing, s.record.value.backup, preparation))
            && (r.Err? ==> r.error == if Anchor(s) == expected && s.group.quiescing then PreparationChanged else PlanChanged)
            && (r.Ok? ==> r.value == s.(record := Some(Record(expected, Prepared, Some(backup), preparation))))
  {
    hide Inventory;
  }

  /**
   * An apply commits if and only if the record is still the prepared one it read, the fence stands, the
   * plan is unchanged and every notification of the group is delivered. It publishes the new document as
   * the next version, moves the group to v2, takes the fence down and marks the record applied; nothing
   * else of the group or its rows changes.
   */
  lemma ApplyingIsDecided(s: Cutover, v: Verified, newDocument: Token)
    requires Fenced(s)
    ensures var r := ApplyCommit(s, v, newDocument);
            && (r.Ok? <==>
                  && s.record == Some(Record(v.plan, Prepared, Some(v.backup), v.preparation))
                  && Anchor(s) == v.plan && forall k :: k in s.rows && k.gid == s.group.gid ==> s.rows[k].status == Delivered)
            && (r.Ok? ==>
                  var s' := r.value;
                  && OthersKept(s, s') && s'.group.wire == BaseV2 && !s'.group.quiescing
                  && s'.document == newDocument && s'.documentVersion == s.documentVersion + 1
                  && s'.record == Some(Record(v.plan, Applied, Some(v.backup), v.preparation))
                  && s'.nextPreparation == s.nextPreparation && s'.preparing == s.preparing)
            && (r.Err? ==>
                  match r.error
                  case PreparationChanged =>
                    s.record.None? || s.record.value.stage != Prepared || s.record.value.preparation != v.preparation || s.record.value.backup != Some(v.backup)
                  case PlanChanged => Anchor(s) != v.plan
                  case OutboxNotDrained => exists k :: k in s.rows && k.gid == s.group.gid && s.rows[k].status != Delivered
                  case _ => false)
  {
    hide Inventory;
  }

  /** Reading for an apply answers for the recorded plan only, and only with its backup intact. */
  lemma ApplyReadIsDecided(s: Cutover, expected: Plan, backupIntact: bool)
    requires Fenced(s)
    ensures var r := ApplyRead(s, expected, backupIntact);
            && (r == Ok(None) <==> s.record.Some? && s.record.value.plan == expected && s.record.value.stage == Applied && !s.group.quiescing)
            && (r.Ok? && r.value.Some? <==> AlreadyPrepared(s, expected) && backupIntact)
            && (r.Ok? && r.value.Some? ==>
                  r.value.value == Verified(expected, s.record.value.preparation, s.record.value.backup.value))
            && (r == Err(PlanChanged) <==> s.record.None? || s.record.value.plan != expected)
            && (r == Err(BackupChanged) <==> AlreadyPrepared(s, expected) && !backupIntact)
  {
    hide Anchor;
  }

  /** Cancelling ends any cutover of this plan that is not applied: the fence comes down, the record says so, nothing else moves. */
  lemma CancellingIsDecided(s: Cutover, expected: Plan)
    requires Fenced(s)
    ensures var r := Cancel(s, expected);
            && (r.Ok? <==> s.record.Some? && s.record.value.plan == expected && s.record.value.stage != Applied)
            && (r.Err? ==> r == Err(CancelRejected))
            && (r.Ok? ==>
                  r.value == s.(group := s.group.(quiescing := false), record := Some(s.record.value.(stage := Cancelled))))
  {
    hide Anchor;
  }

  // ------------------------------------------------------------------------------------------
  // A preparation never comes back
  // ------------------------------------------------------------------------------------------

  /** How far the migration row has come: the preparation, then its stage. */
  function Age(s: Cutover): (int, int) {
    if s.record.None? then (0, 0) else (s.record.value.preparation + 1, s.record.value.stage.Rank())
  }

  predicate NoYounger(a: (int, int), b: (int, int)) {
    a.0 < b.0 || (a.0 == b.0 && a.1 <= b.1)
  }

  lemma StepAges(s: Cutover, step: Step)
    requires Fenced(s) && CanStep(s, step)
    ensures NoYounger(Age(s), Age(Next(s, step)))
    ensures Age(Next(s, step)) == Age(s) && Underway(s) ==>
              Next(s, step).group == s.group && Anchor(Next(s, step)) == Anchor(s) && Next(s, step).record == s.record
  {
    hide Execute, Inventory, Settle;
    match step {
      case Writes(env, request) =>
        if Underway(s) {
          FenceRefusesWrites(s, env, request);
        }
      case Settles(key, selected, outcome, now, clock) => DrainKeepsAnchor(s, key, selected, outcome, now, clock);
      case _ =>
    }
  }

  function After(s: Cutover, run: seq<Step>): Cutover {
    if run == [] then s else Next(After(s, run[..|run| - 1]), run[|run| - 1])
  }

  ghost predicate Possible(s: Cutover, run: seq<Step>) {
    forall i :: 0 <= i < |run| ==> CanStep(After(s, run[..i]), run[i])
  }

  lemma {:induction false} RunKeepsFence(s: Cutover, run: seq<Step>, i: nat)
    requires Fenced(s) && Possible(s, run) && i <= |run|
    ensures Fenced(After(s, run[..i]))
    decreases i
  {
    hide Next, Fenced, CanStep;
    if i > 0 {
      RunKeepsFence(s, run, i - 1);
      StepKeepsFence(After(s, run[..i - 1]), run[i - 1]);
      assert run[..i][..i - 1] == run[..i - 1];
    }
  }

  lemma {:induction false} RunAges(s: Cutover, run: seq<Step>, i: nat, j: nat)
    requires Fenced(s) && Possible(s, run) && i <= j <= |run|
    ensures NoYounger(Age(After(s, run[..i])), Age(After(s, run[..j])))
    decreases j - i
  {
    hide Next, Fenced, CanStep, Age;
    if i < j {
      RunAges(s, run, i, j - 1);
      RunKeepsFence(s, run, j - 1);
      StepAges(After(s, run[..j - 1]), run[j - 1]);
      assert run[..j][..j - 1] == run[..j - 1];
    }
  }

  /** The state an apply saw when it read is the state it commits on, whatever happened in between. */
  lemma {:induction false} NothingMoved(s: Cutover, run: seq<Step>, i: nat, j: nat)
    requires Fenced(s) && Possible(s, run) && i <= j <= |run|
    requires Underway(After(s, run[..i])) && Age(After(s, run[..j])) == Age(After(s, run[..i]))
    ensures var a, b := After(s, run[..i]), After(s, run[..j]);
            b.group == a.group && Anchor(b) == Anchor(a) && b.record == a.record
    decreases j - i
  {
    hide Next, Fenced, CanStep, Age, Anchor;
    if i < j {
      RunAges(s, run, i, j - 1);
      RunAges(s, run, j - 1, j);
      NothingMoved(s, run, i, j - 1);
      RunKeepsFence(s, run, j - 1);
      StepAges(After(s, run[..j - 1]), run[j - 1]);
      assert run[..j][..j - 1] == run[..j - 1];
    }
  }

  // ------------------------------------------------------------------------------------------
  // Runs
  // ------------------------------------------------------------------------------------------

  ghost predicate Init(s: Cutover) {
    s.record == None && !s.group.quiescing && s.preparing == {} && s.applying == {}
  }

  /** The reading transaction that an apply in flight once was. */
  ghost predicate ReadAt(s: Cutover, run: seq<Step>, i: nat, v: Verified)
    requires i < |run|
  {
    && run[i] == ApplyReads(v.plan, true)
    && ApplyRead(After(s, run[..i]), v.plan, true) == Ok(Some(v))
  }

  lemma {:induction false} ApplyingWasRead(s: Cutover, run: seq<Step>, v: Verified)
    requires Init(s) && v in After(s, run).applying
    ensures exists i: nat :: i < |run| && ReadAt(s, run, i, v)
  {
    if run != [] {
      var n := |run| - 1;
      var before := After(s, run[..n]);
      if v in before.applying {
        ApplyingWasRead(s, run[..n], v);
        var i: nat :| i < n && ReadAt(s, run[..n], i, v);
        assert run[..n][..i] == run[..i];
        assert ReadAt(s, run, i, v);
      } else {
        ReadingAdds(before, run[n], v);
        assert ReadAt(s, run, n, v);
      }
    }
  }

  lemma ReadingAdds(s: Cutover, step: Step, v: Verified)
    requires v !in s.applying && v in Next(s, step).applying
    ensures step == ApplyReads(v.plan, true) && ApplyRead(s, v.plan, true) == Ok(Some(v))
  {
    hide Execute, Anchor, Settle;
  }

  lemma ReadingShows(s: Cutover, v: Verified)
    requires Fenced(s) && ApplyRead(s, v.plan, true) == Ok(Some(v))
    ensures Underway(s) && Age(s) == (v.preparation + 1, 1) && Anchor(s) == v.plan
  {
  }

  lemma CommittingShows(s: Cutover, v: Verified, newDocument: Token)
    requires Fenced(s) && ApplyCommit(s, v, newDocument).Ok?
    ensures Age(s) == (v.preparation + 1, 1) && Anchor(s) == v.plan
    ensures FullyDelivered(s) && s.group.quiescing && s.group.wire == BaseV1
    ensures s.record == Some(Record(v.plan, Prepared, Some(v.backup), v.preparation))
  {
  }

  /** No other step, and no refused apply, takes a group to v2. */
  lemma OnlyApplyCutsOver(s: Cutover, step: Step)
    requires s.group.wire == BaseV1 && Next(s, step).group.wire == BaseV2
    ensures step.ApplyCommits? && ApplyCommit(s, step.verified, step.newDocument).Ok?
  {
    hide Execute, Anchor, Settle;
    if step.Writes? && Execute(s.group, step.env, step.request).Ok? {
      WriteKeepsProtocol(s.group, step.env, step.request, Execute(s.group, step.env, step.request).value);
    }
  }

  /**
   * A step that takes the group from v1 to v2 is the commit of an apply that verified the backup of this
   * very preparation. From that reading to the commit the group was fenced, its plan and roster stood
   * still, and at the commit every notification had been delivered.
   */
  lemma CutoverIsVerified(s: Cutover, run: seq<Step>, step: Step)
    requires Init(s) && Possible(s, run) && CanStep(After(s, run), step)
    requires After(s, run).group.wire == BaseV1 && Next(After(s, run), step).group.wire == BaseV2
    ensures step.ApplyCommits?
    ensures exists i: nat :: i < |run| && ReadAt(s, run, i, step.verified) && After(s, run[..i]).group == After(s, run).group
                             && Anchor(After(s, run[..i])) == step.verified.plan == Anchor(After(s, run))
    ensures exists j: nat :: BackedUpAt(s, run, j, step.verified.plan, step.verified.preparation, step.verified.backup)
    ensures FullyDelivered(After(s, run)) && After(s, run).group.quiescing
  {
    OnlyApplyCutsOver(After(s, run), step);
    var v := step.verified;
    assert v in After(s, run).applying;
    ApplyingWasRead(s, run, v);
    var i: nat :| i < |run| && ReadAt(s, run, i, v);
    hide After, Anchor, Next, ApplyCommit, ApplyRead, Possible, Underway, Age, FullyDelivered;
    assert run[..|run|] == run;
    RunKeepsFence(s, run, i);
    RunKeepsFence(s, run, |run|);
    hide Fenced;
    ReadingShows(After(s, run[..i]), v);
    CommittingShows(After(s, run), v, step.newDocument);
    PreparedWasBackedUp(s, run, Record(v.plan, Prepared, Some(v.backup), v.preparation));
    NothingMoved(s, run, i, |run|);
  }

  /** The group's document as it is published: untouched before the cutover, the apply's own after it. */
  lemma StepPublishes(s: Cutover, step: Step)
    requires Fenced(s) && CanStep(s, step)
    ensures if s.group.wire == BaseV1 && Next(s, step).group.wire == BaseV2 then
              step.ApplyCommits? && Next(s, step).document == step.newDocument && Next(s, step).documentVersion == s.documentVersion + 1
            else
              Next(s, step).document == s.document && Next(s, step).documentVersion == s.documentVersion
  {
    if step.ApplyCommits? {
      ApplyingIsDecided(s, step.verified, step.newDocument);
    }
    hide Execute, Anchor, Settle, FullyDelivered;
    if s.group.wire == BaseV1 && Next(s, step).group.wire == BaseV2 {
      OnlyApplyCutsOver(s, step);
    }
  }

  /** Step i of the run took the group to v2, and this is the document it carried. */
  ghost predicate CutsOverAt(s: Cutover, run: seq<Step>, i: nat, document: Token) {
    && i < |run| && After(s, run[..i]).group.wire == BaseV1 && Next(After(s, run[..i]), run[i]).group.wire == BaseV2
    && run[i].ApplyCommits? && run[i].newDocument == document
  }

  /**
   * Over any run of a v1 group: while it is v1 its document is the one it started with; from the one step
   * that takes it to v2 on, it is the one which that apply carried, as the next version, for good.
   */
  lemma {:induction false} DocumentIsPublishedOnce(s: Cutover, run: seq<Step>)
    requires Init(s) && s.group.wire == BaseV1 && Possible(s, run)
    ensures After(s, run).group.wire == BaseV1 ==>
              After(s, run).document == s.document && After(s, run).documentVersion == s.documentVersion
    ensures After(s, run).group.wire == BaseV2 ==>
              && After(s, run).documentVersion == s.documentVersion + 1
              && exists i: nat :: CutsOverAt(s, run, i, After(s, run).document)
  {
    hide Next, Fenced, CanStep;
    if run != [] {
      var n := |run| - 1;
      var before := After(s, run[..n]);
      PrefixIsPossible(s, run, n);
      DocumentIsPublishedOnce(s, run[..n]);
      InitIsFenced(s);
      assert run[..n][..n] == run[..n];
      RunKeepsFence(s, run[..n], n);
      StepPublishes(before, run[n]);
      StepKeepsFence(before, run[n]);
      if before.group.wire == BaseV2 {
        var i: nat :| CutsOverAt(s, run[..n], i, before.document);
        assert run[..n][..i] == run[..i] && CutsOverAt(s, run, i, before.document);
      } else if Next(before, run[n]).group.wire == BaseV2 {
        assert CutsOverAt(s, run, n, After(s, run).document);
      }
    }
  }

  lemma InitIsFenced(s: Cutover)
    requires Init(s)
    ensures Fenced(s)
  {
  }

  lemma PrefixIsPossible(s: Cutover, run: seq<Step>, n: nat)
    requires Possible(s, run) && n <= |run|
    ensures Possible(s, run[..n])
  {
    hide CanStep, After;
    forall i | 0 <= i < n
      ensures CanStep(After(s, run[..n][..i]), run[..n][i])
    {
      assert run[..n][..i] == run[..i];
    }
  }

  /** Step j of the run finished this preparation with this backup. */
  ghost predicate BackedUpAt(s: Cutover, run: seq<Step>, j: nat, plan: Plan, preparation: nat, backup: Token) {
    j < |run| && run[j] == PrepareFinishes(plan, preparation, backup) && PrepareFinish(After(s, run[..j]), plan, preparation, backup).Ok?
  }

  lemma StepBacksUp(s: Cutover, step: Step, record: Record)
    requires Next(s, step).record == Some(record) && record.stage == Prepared && record.backup.Some?
    ensures s.record == Some(record)
            || (step == PrepareFinishes(record.plan, record.preparation, record.backup.value) && Attempt(s, step).Ok?)
  {
    hide Execute, Anchor, Settle, FullyDelivered;
  }

  /** The backup on record is the one written for that preparation behind its fence. */
  lemma {:induction false} PreparedWasBackedUp(s: Cutover, run: seq<Step>, record: Record)
    requires Init(s) && After(s, run).record == Some(record) && record.stage == Prepared && record.backup.Some?
    ensures exists j: nat :: BackedUpAt(s, run, j, record.plan, record.preparation, record.backup.value)
  {
    hide Next, PrepareFinish;
    if run != [] {
      var n := |run| - 1;
      StepBacksUp(After(s, run[..n]), run[n], record);
      if After(s, run[..n]).record == Some(record) {
        PreparedWasBackedUp(s, run[..n], record);
        var j: nat :| BackedUpAt(s, run[..n], j, record.plan, record.preparation, record.backup.value);
        assert run[..n][..j] == run[..j] && BackedUpAt(s, run, j, record.plan, record.preparation, record.backup.value);
      } else {
        assert BackedUpAt(s, run, n, record.plan, record.preparation, record.backup.value);
      }
    }
  }

  /** Over any run: the fence is up exactly during a cutover, the plan stands still behind it, and v2 is final. */
  lemma CutoverIsFenced(s: Cutover, run: seq<Step>, i: nat)
    requires Init(s) && Possible(s, run) && i <= |run|
    ensures var now := After(s, run);
            && (now.group.quiescing <==> Underway(now))
            && (Underway(now) ==> Anchor(now) == now.record.value.plan && now.group.wire == BaseV1)
            && (now.record.Some? && now.record.value.stage == Applied ==> now.group.wire == BaseV2 && !now.group.quiescing)
    ensures After(s, run[..i]).group.wire == BaseV2 ==> After(s, run).group.wire == BaseV2
  {
    assert run[..|run|] == run;
    RunKeepsFence(s, run, |run|);
    NeverReverted(s, run, i, |run|);
  }

  lemma {:induction false} NeverReverted(s: Cutover, run: seq<Step>, i: nat, j: nat)
    requires Fenced(s) && Possible(s, run) && i <= j <= |run|
    ensures After(s, run[..i]).group.wire == BaseV2 ==> After(s, run[..j]).group.wire == BaseV2
    decreases j - i
  {
    hide Next, Fenced, CanStep;
    if i < j {
      NeverReverted(s, run, i, j - 1);
      RunKeepsFence(s, run, j - 1);
      StepKeepsFence(After(s, run[..j - 1]), run[j - 1]);
      assert run[..j][..j - 1] == run[..j - 1];
    }
  }

  /** An apply that finds its record applied never finds the group inconsistent with it. */
  lemma RepeatedApplyIsAnswered(s: Cutover, run: seq<Step>, expected: Plan, backupIntact: bool)
    requires Init(s) && Possible(s, run)
    ensures ApplyRead(After(s, run), expected, backupIntact) != Err(StateInconsistent)
  {
    assert run[..|run|] == run;
    RunKeepsFence(s, run, |run|);
  }

  // ------------------------------------------------------------------------------------------
  // The transactions themselves
  // ------------------------------------------------------------------------------------------

  /** The rows the cutover reads and writes. */
  class MigrationTables {
    var group: Group
    var document: Token
    var documentVersion: nat
    var rows: Rows
    var record: Option<Record>
    var nextPreparation: nat

    constructor (s: Cutover)
      ensures Hold(s)
    {
      group, document, documentVersion, rows, record, nextPreparation :=
        s.group, s.document, s.documentVersion, s.rows, s.record, s.nextPreparation;
    }

    /** The tables agree with a state, whatever prepares and applies are in flight. */
    ghost predicate Hold(s: Cutover)
      reads this
    {
      && group == s.group && document == s.document && documentVersion == s.documentVersion
      && rows == s.rows && record == s.record && nextPreparation == s.nextPreparation
    }

    function Inspect(): Plan
      reads this
    {
      Anchor(Cutover(group, document, documentVersion, rows, record, nextPreparation, {}, {}))
    }

    /** The loop of `_inspect` that lists what is not delivered. */
    method UnresolvedDeliveries() returns (unresolved: set<RowKey>)
      ensures unresolved == set k | k in rows && k.gid == group.gid && rows[k].status != Delivered
    {
      unresolved := {};
      var todo := rows.Keys;
      while todo != {}
        invariant todo <= rows.Keys
        invariant unresolved == set k | k in rows && k !in todo && k.gid == group.gid && rows[k].status != Delivered
        decreases todo
      {
        var key: RowKey :| key in todo;
        if key.gid == group.gid && rows[key].status != Delivered {
          unresolved := unresolved + {key};
        }
        todo := todo - {key};
      }
    }

    method BeginPreparation(ghost s: Cutover, expected: Plan, backupIntact: bool) returns (r: Result<Option<nat>, MigrationError>)
      requires Hold(s)
      modifies this
      ensures match PrepareBegin(s, expected, backupIntact)
              case Ok(s') => Hold(s') && r.Ok? && (r.value.Some? ==> (expected, r.value.value) in s'.preparing)
              case Err(e) => Hold(s) && r == Err(e)
    {
      if group.wire != BaseV1 || Inspect() != expected {
        return Err(PlanChanged);
      }
      if record.Some? && record.value.stage == Prepared && record.value.plan == expected && record.value.backup.Some? {
        return if backupIntact then Ok(None) else Err(BackupChanged);
      }
      var preparation := nextPreparation;
      nextPreparation := nextPreparation + 1;
      group := group.(quiescing := true);
      record := Some(Record(expected, Preparing, None, preparation));
      r := Ok(Some(preparation));
    }

    method FinishPreparation(ghost s: Cutover, expected: Plan, preparation: nat, backup: Token) returns (r: Result<(), MigrationError>)
      requires Hold(s)
      modifies this
      ensures match PrepareFinish(s, expected, preparation, backup)
              case Ok(s') => Hold(s') && r == Ok(())
              case Err(e) => Hold(s) && r == Err(e)
    {
      if Inspect() != expected || !group.quiescing {
        return Err(PlanChanged);
      }
      if record.None? || record.value.plan != expected || record.value.preparation != preparation || record.value.stage != Preparing {
        return Err(PreparationChanged);
      }
      record := Some(record.value.(stage := Prepared, backup := Some(backup)));
      r := Ok(());
    }

    method CommitApply(ghost s: Cutover, v: Verified, newDocument: Token) returns (r: Result<(), MigrationError>)
      requires Hold(s)
      modifies this
      ensures match ApplyCommit(s, v, newDocument)
              case Ok(s') => Hold(s') && r == Ok(())
              case Err(e) => Hold(s) && r == Err(e)
    {
      if record.None? || record.value.stage != Prepared || record.value.preparation != v.preparation || record.value.backup != Some(v.backup) {
        return Err(PreparationChanged);
      }
      if !group.quiescing || Inspect() != v.plan {
        return Err(PlanChanged);
      }
      var unresolved := UnresolvedDeliveries();
      if unresolved != {} {
        ghost var key :| key in unresolved;
        assert s.rows[key].status != Delivered;
        return Err(OutboxNotDrained);
      }
      assert FullyDelivered(s) by {
        forall k | k in s.rows && k.gid == s.group.gid ensures s.rows[k].status == Delivered {
          assert k !in unresolved;
        }
      }
      document, documentVersion := newDocument, documentVersion + 1;
      group := group.(wire := BaseV2, quiescing := false);
      if record.value.plan == v.plan {
        record := Some(record.value.(stage := Applied));
      }
      r := Ok(());
    }

    method CancelMigration(ghost s: Cutover, expected: Plan) returns (r: Result<(), MigrationError>)
      requires Hold(s)
      modifies this
      ensures match Cancel(s, expected)
              case Ok(s') => Hold(s') && r == Ok(())
              case Err(e) => Hold(s) && r == Err(e)
    {
      if record.None? || record.value.plan != expected || record.value.stage == Applied {
        return Err(CancelRejected);
      }
      if group.wire == BaseV1 {
        group := group.(quiescing := false);
      }
      record := Some(record.value.(stage := Cancelled));
      r := Ok(());
    }
  }
}
