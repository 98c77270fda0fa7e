/**
 * The delivery outbox of a Group Host: rows keyed by their UNIQUE constraint, drained in order per
 * (group, target) with bounded retries. A selection and each settlement are separate transactions.
 */
module Outbox {
  import opened Common
  import opened GroupTypes

  const MAX_DELIVERY_ATTEMPTS := 8
  const MAX_BACKOFF_SECONDS := 300
  const MAX_BATCH := 100

  datatype RowKey = RowKey(gid: Did, eventSeq: nat, target: Did, kind: NoticeKind)

  datatype DeliveryStatus = Pending | Retry | Delivered | Dead

  datatype Row = Row(notice: Notice, wire: Wire, service: Did, status: DeliveryStatus, attempts: nat, due: int, createdAt: int) {
    predicate Open() {
      status == Pending || status == Retry
    }
  }

  type Rows = map<RowKey, Row>

  /** The rows still to be delivered. */
  function OpenRows(rows: Rows): set<RowKey> {
    set k | k in rows && rows[k].Open()
  }

  /** What became of one delivery attempt; Unsupported is the peer's NotSupported answer. */
  datatype Outcome = Acknowledged | Failed | Unsupported

  function Power2(n: nat): nat {
    if n == 0 then 1 else 2 * Power2(n - 1)
  }

  /** `_next_attempt`, in seconds from now. */
  function Backoff(attempts: nat): int {
    Min(MAX_BACKOFF_SECONDS, Power2(Max(0, attempts - 1)))
  }

  lemma {:induction false} Power2Monotone(m: nat, n: nat)
    requires m <= n
    ensures 1 <= Power2(m) <= Power2(n)
  {
    if m < n {
      Power2Monotone(m, n - 1);
    } else if n > 0 {
      Power2Monotone(m - 1, n - 1);
    }
  }

  /** The wait doubles per failed attempt from one second and levels off at five minutes. */
  lemma BackoffGrows(m: nat, n: nat)
    requires m <= n
    ensures 1 <= Backoff(m) <= Backoff(n) <= 300
    ensures Backoff(0) == Backoff(1) == 1
    ensures 1 <= m ==> Backoff(m + 1) == if 2 * Backoff(m) < 300 then 2 * Backoff(m) else 300
  {
    Power2Monotone(Max(0, m - 1), Max(0, n - 1));
    if 1 <= m {
      assert Power2(m) == 2 * Power2(m - 1);
    }
  }

  predicate SameQueue(j: RowKey, k: RowKey) {
    j.gid == k.gid && j.target == k.target
  }

  /** No earlier row of the same (group, target) is still undelivered; a dead one blocks for good. */
  ghost predicate HeadOfLine(rows: Rows, k: RowKey) {
    forall j :: j in rows && SameQueue(j, k) && j.eventSeq < k.eventSeq ==> rows[j].status == Delivered
  }

  ghost predicate Eligible(rows: Rows, k: RowKey, now: int) {
    k in rows && rows[k].Open() && rows[k].due <= now && HeadOfLine(rows, k)
  }

  predicate DueBefore(a: Row, b: Row) {
    a.due < b.due || (a.due == b.due && a.createdAt <= b.createdAt)
  }

  /** A possible answer of the selecting query; ties in its order are the database's choice. */
  ghost predicate IsBatch(rows: Rows, batch: seq<RowKey>, now: int, limit: int) {
    && (forall i :: 0 <= i < |batch| ==> Eligible(rows, batch[i], now))
    && (forall i, j :: 0 <= i < j < |batch| ==> batch[i] != batch[j])
    && (forall i, j :: 0 <= i < j < |batch| ==> DueBefore(rows[batch[i]], rows[batch[j]]))
    && |batch| <= Max(1, Min(limit, MAX_BATCH))
    && (forall k :: Eligible(rows, k, now) && k !in batch ==>
          |batch| == Max(1, Min(limit, MAX_BATCH)) && DueBefore(rows[batch[|batch| - 1]], rows[k]))
  }

  /** One settlement: the attempt count is the selected row's plus one, and settled rows are left alone. */
  function Settle(rows: Rows, k: RowKey, selected: Row, outcome: Outcome, now: int, retryFrom: int): Rows {
    var attempts := selected.attempts + 1;
    if k !in rows || !rows[k].Open() then rows
    else if outcome == Acknowledged then rows[k := rows[k].(status := Delivered, attempts := attempts)]
    else if attempts >= MAX_DELIVERY_ATTEMPTS || outcome == Unsupported then
      rows[k := rows[k].(status := Dead, attempts := attempts, due := now)]
    else rows[k := rows[k].(status := Retry, attempts := attempts, due := retryFrom + Backoff(attempts))]
  }

  /** What an attempt makes of a row that had `attempts` attempts before. */
  function Verdict(attempts: nat, outcome: Outcome): DeliveryStatus {
    match outcome
    case Acknowledged => Delivered
    case Unsupported => Dead
    case Failed => if attempts + 1 < 8 then Retry else Dead
  }

  /**
   * Settling an open row: delivered when acknowledged; dead when the peer does not support it or when
   * this was the eighth attempt in vain; otherwise up again after its backoff. The attempt is counted,
   * and no other row, notification or address changes. A row no longer open is left alone.
   */
  lemma SettledAsAnswered(rows: Rows, k: RowKey, selected: Row, outcome: Outcome, now: int, clock: int)
    requires k in rows
    ensures var after := Settle(rows, k, selected, outcome, now, clock);
            && after.Keys == rows.Keys && (forall j :: j in rows && j != k ==> after[j] == rows[j])
            && if !rows[k].Open() then after[k] == rows[k]
               else
                 && after[k].status == Verdict(selected.attempts, outcome) && after[k].attempts == selected.attempts + 1
                 && after[k].notice == rows[k].notice && after[k].wire == rows[k].wire
                 && after[k].service == rows[k].service && after[k].createdAt == rows[k].createdAt
                 && after[k].due == match after[k].status
                                    case Retry => clock + Backoff(selected.attempts + 1)
                                    case Dead => now
                                    case _ => rows[k].due
  {
  }

  /** `INSERT OR IGNORE`: a row whose key exists is not replaced. */
  function Insert(rows: Rows, added: Rows): Rows {
    added + rows
  }

  lemma InsertedIsKept(rows: Rows, added: Rows)
    ensures forall k :: k in rows ==> k in Insert(rows, added) && Insert(rows, added)[k] == rows[k]
    ensures forall k :: k in added && k !in rows ==> k in Insert(rows, added) && Insert(rows, added)[k] == added[k]
    ensures forall k :: k in Insert(rows, added) ==> k in rows || k in added
  {
  }

  /** Rows that later transactions may add: beyond every sequence number already queued for the group. */
  ghost predicate Later(rows: Rows, added: Rows) {
    && (forall j, k :: j in rows && k in added && j.gid == k.gid ==> j.eventSeq < k.eventSeq)
    && (forall k :: k in added ==> added[k].status == Pending && added[k].attempts == 0)
  }

  ghost predicate OneRowPerEvent(rows: Rows) {
    forall j, k :: j in rows && k in rows && SameQueue(j, k) && j.eventSeq == k.eventSeq ==> j == k
  }

  /** The delivered rows of every queue are a prefix of it. */
  ghost predicate DeliveredInOrder(rows: Rows) {
    forall k :: k in rows && rows[k].status == Delivered ==> HeadOfLine(rows, k)
  }

  ghost predicate AttemptsBounded(rows: Rows) {
    forall k :: k in rows ==>
      rows[k].attempts <= MAX_DELIVERY_ATTEMPTS && (rows[k].Open() ==> rows[k].attempts < MAX_DELIVERY_ATTEMPTS)
  }

  ghost predicate Sound(rows: Rows) {
    OneRowPerEvent(rows) && DeliveredInOrder(rows) && AttemptsBounded(rows)
  }

  /** The rows from the i-th selected one on are what they were when selected, and first in line. */
  ghost predicate InFlight(rows: Rows, batch: seq<RowKey>, i: nat, selected: Rows) {
    forall j :: i <= j < |batch| ==>
      && batch[j] in rows && batch[j] in selected
      && rows[batch[j]] == selected[batch[j]]
      && rows[batch[j]].Open()
      && HeadOfLine(rows, batch[j])
  }

  ghost predicate OnePerQueue(batch: seq<RowKey>) {
    forall i, j :: 0 <= i < j < |batch| ==> !SameQueue(batch[i], batch[j])
  }

  lemma BatchHasOneRowPerQueue(rows: Rows, batch: seq<RowKey>, now: int, limit: int)
    requires OneRowPerEvent(rows) && IsBatch(rows, batch, now, limit)
    ensures OnePerQueue(batch)
    ensures InFlight(rows, batch, 0, rows)
  {
    forall i, j | 0 <= i < j < |batch|
      ensures !SameQueue(batch[i], batch[j])
    {
      var a, b := batch[i], batch[j];
      assert Eligible(rows, a, now) && Eligible(rows, b, now);
    }
  }

  lemma BatchIsThere(rows: Rows, batch: seq<RowKey>, now: int, limit: int)
    requires IsBatch(rows, batch, now, limit)
    ensures forall i :: 0 <= i < |batch| ==> batch[i] in rows
  {
  }

  /**
   * A drain selects up to the limit, at most a hundred and at least one, of the rows that are open, due,
   * and behind nothing undelivered in their queue, the longest due first; it leaves one out only when full.
   */
  lemma SelectionIsDue(rows: Rows, batch: seq<RowKey>, now: int, limit: int)
    requires IsBatch(rows, batch, now, limit)
    ensures var most := if limit < 1 then 1 else if limit > 100 then 100 else limit;
            && |batch| <= most
            && (forall k :: k in batch ==>
                  && k in rows && (rows[k].status == Pending || rows[k].status == Retry) && rows[k].due <= now
                  && forall j :: j in rows && j.gid == k.gid && j.target == k.target && j.eventSeq < k.eventSeq ==> rows[j].status == Delivered)
            && (forall i, j :: 0 <= i < j < |batch| ==> batch[i] != batch[j] && rows[batch[i]].due <= rows[batch[j]].due)
            && (forall k :: k in rows && rows[k].Open() && rows[k].due <= now && HeadOfLine(rows, k) && k !in batch ==>
                  |batch| == most && rows[batch[|batch| - 1]].due <= rows[k].due)
  {
    forall k | k in rows && rows[k].Open() && rows[k].due <= now && HeadOfLine(rows, k)
      ensures Eligible(rows, k, now)
    {
    }
  }

  lemma InsertKeepsSound(rows: Rows, added: Rows, batch: seq<RowKey>, i: nat, selected: Rows)
    requires Sound(rows) && OneRowPerEvent(added) && Later(rows, added) && InFlight(rows, batch, i, selected)
    ensures Sound(Insert(rows, added)) && InFlight(Insert(rows, added), batch, i, selected)
  {
    var after := Insert(rows, added);
    forall k | k in rows && HeadOfLine(rows, k)
      ensures HeadOfLine(after, k)
    {
    }
  }

  lemma SettleKeepsSound(rows: Rows, batch: seq<RowKey>, i: nat, selected: Rows, outcome: Outcome, now: int, retryFrom: int)
    requires Sound(rows) && i < |batch| && InFlight(rows, batch, i, selected) && OnePerQueue(batch)
    ensures var after := Settle(rows, batch[i], selected[batch[i]], outcome, now, retryFrom);
            Sound(after) && InFlight(after, batch, i + 1, selected)
  {
    var k := batch[i];
    var after := Settle(rows, k, selected[k], outcome, now, retryFrom);
    forall j | j in after && HeadOfLine(rows, j)
      ensures HeadOfLine(after, j)
    {
    }
  }

  /** What one drain saw: the network's answers, the clock at each, and the rows enqueued meanwhile. */
  datatype Round = Round(outcome: Outcome, clock: int, arrivals: Rows)

  ghost predicate Arriving(rows: Rows, rounds: seq<Round>) {
    && (forall i :: 0 <= i < |rounds| ==> OneRowPerEvent(rounds[i].arrivals) && Later(rows, rounds[i].arrivals))
    && (forall i, j :: 0 <= i < j < |rounds| ==> Later(rounds[i].arrivals, rounds[j].arrivals))
  }

  /** The rows after the first n settlements of a drain that selected `batch`. */
  function Drained(selected: Rows, batch: seq<RowKey>, rounds: seq<Round>, now: int, n: nat): (rows: Rows)
    requires n <= |batch| == |rounds|
    requires forall i :: 0 <= i < |batch| ==> batch[i] in selected
  {
    if n == 0 then selected
    else
      var arrived := Insert(Drained(selected, batch, rounds, now, n - 1), rounds[n - 1].arrivals);
      Settle(arrived, batch[n - 1], selected[batch[n - 1]], rounds[n - 1].outcome, now, rounds[n - 1].clock)
  }

  /** Where a drain stands after n settlements. */
  ghost predicate Midway(selected: Rows, batch: seq<RowKey>, rounds: seq<Round>, now: int, n: nat)
    requires n <= |batch| == |rounds|
    requires forall i :: 0 <= i < |batch| ==> batch[i] in selected
  {
    var rows := Drained(selected, batch, rounds, now, n);
    Sound(rows) && InFlight(rows, batch, n, selected)
  }

  ghost predicate ArrivesLater(selected: Rows, batch: seq<RowKey>, rounds: seq<Round>, now: int, n: nat)
    requires n < |batch| == |rounds|
    requires forall i :: 0 <= i < |batch| ==> batch[i] in selected
  {
    OneRowPerEvent(rounds[n].arrivals) && Later(Drained(selected, batch, rounds, now, n), rounds[n].arrivals)
  }

  lemma RoundKeepsMidway(selected: Rows, batch: seq<RowKey>, rounds: seq<Round>, now: int, n: nat)
    requires n < |batch| == |rounds| && OnePerQueue(batch)
    requires forall i :: 0 <= i < |batch| ==> batch[i] in selected
    requires Midway(selected, batch, rounds, now, n)
    requires ArrivesLater(selected, batch, rounds, now, n)
    ensures Midway(selected, batch, rounds, now, n + 1)
  {
    var rows := Drained(selected, batch, rounds, now, n);
    InsertKeepsSound(rows, rounds[n].arrivals, batch, n, selected);
    SettleKeepsSound(Insert(rows, rounds[n].arrivals), batch, n, selected, rounds[n].outcome, now, rounds[n].clock);
  }

  lemma LaterSurvivesRound(rows: Rows, k: RowKey, selected: Row, round: Round, now: int, later: Rows)
    requires Later(rows, later) && Later(round.arrivals, later)
    ensures Later(Settle(Insert(rows, round.arrivals), k, selected, round.outcome, now, round.clock), later)
  {
    var after := Settle(Insert(rows, round.arrivals), k, selected, round.outcome, now, round.clock);
    assert after.Keys == rows.Keys + round.arrivals.Keys;
  }

  lemma {:induction false} ArrivalsStayLater(selected: Rows, batch: seq<RowKey>, rounds: seq<Round>, now: int, n: nat, j: nat)
    requires n <= |batch| == |rounds| && n <= j < |rounds| && Arriving(selected, rounds)
    requires forall i :: 0 <= i < |batch| ==> batch[i] in selected
    ensures Later(Drained(selected, batch, rounds, now, n), rounds[j].arrivals)
  {
    if n > 0 {
      ArrivalsStayLater(selected, batch, rounds, now, n - 1, j);
      LaterSurvivesRound(Drained(selected, batch, rounds, now, n - 1), batch[n - 1], selected[batch[n - 1]],
                         rounds[n - 1], now, rounds[j].arrivals);
    }
  }

  lemma {:induction false} RoundsKeepMidway(selected: Rows, batch: seq<RowKey>, rounds: seq<Round>, now: int, n: nat)
    requires n <= |batch| == |rounds| && OnePerQueue(batch)
    requires forall i :: 0 <= i < |batch| ==> batch[i] in selected
    requires Midway(selected, batch, rounds, now, 0)
    requires forall m :: 0 <= m < |batch| ==> ArrivesLater(selected, batch, rounds, now, m)
    ensures Midway(selected, batch, rounds, now, n)
  {
    hide Midway, ArrivesLater, OnePerQueue;
    if n > 0 {
      RoundsKeepMidway(selected, batch, rounds, now, n - 1);
      RoundKeepsMidway(selected, batch, rounds, now, n - 1);
    }
  }

  /**
   * However enqueues interleave with a drain, every queue keeps a delivered prefix, no row is
   * attempted more than eight times, and the rows not yet settled are still first in line.
   */
  lemma DrainKeepsSound(selected: Rows, batch: seq<RowKey>, rounds: seq<Round>, now: int, limit: int, n: nat)
    requires Sound(selected) && IsBatch(selected, batch, now, limit)
    requires n <= |batch| == |rounds| && Arriving(selected, rounds)
    ensures OnePerQueue(batch)
    ensures var rows := Drained(selected, batch, rounds, now, n);
            Sound(rows) && InFlight(rows, batch, n, selected)
  {
    BatchHasOneRowPerQueue(selected, batch, now, limit);
    forall m | 0 <= m < |batch|
      ensures ArrivesLater(selected, batch, rounds, now, m)
    {
      ArrivalsStayLater(selected, batch, rounds, now, m, m);
    }
    RoundsKeepMidway(selected, batch, rounds, now, n);
  }

  /** How many of the first n answers leave their row delivered, up for a retry, and dead. */
  function Tally(selected: Rows, batch: seq<RowKey>, rounds: seq<Round>, n: nat): (nat, nat, nat)
    requires n <= |batch| == |rounds|
    requires forall i :: 0 <= i < |batch| ==> batch[i] in selected
  {
    if n == 0 then (0, 0, 0)
    else
      var (delivered, retried, dead) := Tally(selected, batch, rounds, n - 1);
      match Verdict(selected[batch[n - 1]].attempts, rounds[n - 1].outcome)
      case Delivered => (delivered + 1, retried, dead)
      case Dead => (delivered, retried, dead + 1)
      case _ => (delivered, retried + 1, dead)
  }

  lemma NextRound(selected: Rows, batch: seq<RowKey>, rounds: seq<Round>, now: int, n: nat)
    requires n < |batch| == |rounds|
    requires forall i :: 0 <= i < |batch| ==> batch[i] in selected
    ensures Drained(selected, batch, rounds, now, n + 1)
            == Settle(Insert(Drained(selected, batch, rounds, now, n), rounds[n].arrivals),
                      batch[n], selected[batch[n]], rounds[n].outcome, now, rounds[n].clock)
    ensures var (delivered, retried, dead) := Tally(selected, batch, rounds, n);
            Tally(selected, batch, rounds, n + 1) == match Verdict(selected[batch[n]].attempts, rounds[n].outcome)
                                                     case Delivered => (delivered + 1, retried, dead)
                                                     case Dead => (delivered, retried, dead + 1)
                                                     case _ => (delivered, retried + 1, dead)
  {
  }

  lemma NoRounds(selected: Rows, batch: seq<RowKey>, rounds: seq<Round>, now: int)
    requires |batch| == |rounds|
    requires forall i :: 0 <= i < |batch| ==> batch[i] in selected
    ensures Drained(selected, batch, rounds, now, 0) == selected && Tally(selected, batch, rounds, 0) == (0, 0, 0)
  {
  }

  /** `_drain_group_outbox_locked`, with the transactions that commit between its own. */
  class Worker {
    var rows: Rows

    constructor (initial: Rows)
      ensures rows == initial
    {
      rows := initial;
    }

    method Drain(batch: seq<RowKey>, rounds: seq<Round>, now: int, limit: int) returns (delivered: nat, retried: nat, dead: nat)
      requires Sound(rows) && IsBatch(rows, batch, now, limit) && Arriving(rows, rounds)
      requires |rounds| == |batch|
      modifies this
      ensures forall i :: 0 <= i < |batch| ==> batch[i] in old(rows)
      ensures rows == Drained(old(rows), batch, rounds, now, |batch|)
      ensures Sound(rows)
      ensures (delivered, retried, dead) == Tally(old(rows), batch, rounds, |batch|)
    {
      hide Drained, Tally, Settle, Insert, Verdict, Sound, IsBatch, Arriving, OnePerQueue, InFlight;
      BatchIsThere(rows, batch, now, limit);
      NoRounds(rows, batch, rounds, now);
      delivered, retried, dead := 0, 0, 0;
      var selected := rows;
      var i := 0;
      while i < |batch|
        invariant 0 <= i <= |batch| && selected == old(rows)
        invariant rows == Drained(selected, batch, rounds, now, i)
        invariant (delivered, retried, dead) == Tally(selected, batch, rounds, i)
      {
        var round := rounds[i];
        NextRound(selected, batch, rounds, now, i);
        rows := Insert(rows, round.arrivals);
        var verdict := SettleOne(batch[i], selected[batch[i]], round.outcome, now, round.clock);
        if verdict == Delivered {
          delivered := delivered + 1;
        } else if verdict == Dead {
          dead := dead + 1;
        } else {
          retried := retried + 1;
        }
        i := i + 1;
      }
      DrainKeepsSound(selected, batch, rounds, now, limit, |batch|);
    }

    method SettleOne(key: RowKey, selected: Row, outcome: Outcome, now: int, clock: int) returns (verdict: DeliveryStatus)
      modifies this
      ensures rows == Settle(old(rows), key, selected, outcome, now, clock)
      ensures verdict == Verdict(selected.attempts, outcome)
    {
      var attempts := selected.attempts + 1;
      verdict := Delivered;
      var due := now;
      if outcome != Acknowledged {
        verdict := if attempts >= MAX_DELIVERY_ATTEMPTS || outcome == Unsupported then Dead else Retry;
        due := if verdict == Dead then now else clock + Backoff(attempts);
      }
      if key in rows && rows[key].Open() {
        rows := if verdict == Delivered
                then rows[key := rows[key].(status := verdict, attempts := attempts)]
                else rows[key := rows[key].(status := verdict, attempts := attempts, due := due)];
      }
    }
  }

  /** Attempts spent so far on the rows named in `keys`. */
  ghost function Spent(rows: Rows, keys: set<RowKey>): nat
    requires keys <= rows.Keys
  {
    if keys == {} then 0
    else
      var k :| k in keys;
      rows[k].attempts + Spent(rows, keys - {k})
  }

  lemma {:induction false} SpentWithout(rows: Rows, keys: set<RowKey>, k: RowKey)
    requires keys <= rows.Keys && k in keys
    ensures Spent(rows, keys) == rows[k].attempts + Spent(rows, keys - {k})
    decreases keys
  {
    var first :| first in keys && Spent(rows, keys) == rows[first].attempts + Spent(rows, keys - {first});
    if first != k {
      SpentWithout(rows, keys - {first}, k);
      SpentWithout(rows, keys - {k}, first);
      assert keys - {first} - {k} == keys - {k} - {first};
    }
  }

  lemma {:induction false} SpentElsewhere(rows: Rows, after: Rows, keys: set<RowKey>)
    requires keys <= rows.Keys && keys <= after.Keys
    requires forall k :: k in keys ==> after[k].attempts == rows[k].attempts
    ensures Spent(after, keys) == Spent(rows, keys)
    decreases keys
  {
    if keys != {} {
      var k :| k in keys;
      SpentWithout(rows, keys, k);
      SpentWithout(after, keys, k);
      SpentElsewhere(rows, after, keys - {k});
    }
  }

  lemma {:induction false} SpentBound(rows: Rows, keys: set<RowKey>)
    requires keys <= rows.Keys && AttemptsBounded(rows)
    ensures Spent(rows, keys) <= MAX_DELIVERY_ATTEMPTS * |keys|
    decreases keys
  {
    if keys != {} {
      var k :| k in keys;
      SpentWithout(rows, keys, k);
      SpentBound(rows, keys - {k});
    }
  }

  datatype Settlement = Settlement(key: RowKey, outcome: Outcome, now: int, clock: int)

  /** A run of settlements of open rows with nothing enqueued in between. */
  ghost predicate SettlesAll(rows: Rows, run: seq<Settlement>)
    decreases |run|
  {
    run != [] ==>
      && run[0].key in rows && rows[run[0].key].Open()
      && SettlesAll(Settle(rows, run[0].key, rows[run[0].key], run[0].outcome, run[0].now, run[0].clock), run[1..])
  }

  /** Without new rows the worker runs out of work: eight attempts per row, those already spent included. */
  lemma {:induction false} DrainingTerminates(rows: Rows, run: seq<Settlement>)
    requires AttemptsBounded(rows) && SettlesAll(rows, run)
    ensures |run| + Spent(rows, rows.Keys) <= MAX_DELIVERY_ATTEMPTS * |rows|
    decreases |run|
  {
    assert |rows.Keys| == |rows|;
    if run == [] {
      SpentBound(rows, rows.Keys);
    } else {
      var k := run[0].key;
      var after := Settle(rows, k, rows[k], run[0].outcome, run[0].now, run[0].clock);
      assert after.Keys == rows.Keys;
      DrainingTerminates(after, run[1..]);
      SpentWithout(rows, rows.Keys, k);
      SpentWithout(after, rows.Keys, k);
      SpentElsewhere(rows, after, rows.Keys - {k});
    }
  }
}
