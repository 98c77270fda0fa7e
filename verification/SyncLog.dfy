/**
 * One owner's sync log: numbering, the completeness check, and a client that pages through it with a
 * textual cursor while events keep being appended.
 */
module SyncLog {
  import opened Aggregates
  import opened Common
  import opened GroupTypes
  import Decimal

  datatype Entry = Entry(kind: Token, payload: Token)

  /** Rows of `sync_events` for one owner, keyed by event number; retention may have removed some. */
  type Log = map<nat, Entry>

  ghost predicate Positive(log: Log) {
    forall n :: n in log ==> n >= 1
  }

  /** The numbers are exactly 1 to |log|. */
  ghost predicate Contiguous(log: Log) {
    forall n :: n in log <==> 1 <= n <= |log|
  }

  ghost function Highest(log: Log): nat {
    MaxOf(log.Keys)
  }

  /** `add_sync_event`. */
  ghost function Append(log: Log, e: Entry): Log {
    log[Highest(log) + 1 := e]
  }

  function Numbers(n: nat): (numbers: set<nat>)
    ensures forall i :: i in numbers <==> 1 <= i <= n
  {
    if n == 0 then {} else Numbers(n - 1) + {n}
  }

  lemma {:induction false} NumbersAreMany(n: nat)
    ensures |Numbers(n)| == n
  {
    if n > 0 {
      NumbersAreMany(n - 1);
    }
  }

  /** `_log_gap`: counting the rows against the highest number finds every hole and nothing else. */
  lemma CountFindsEveryGap(log: Log)
    requires Positive(log)
    ensures |log| == Highest(log) <==> Contiguous(log)
  {
    var m := Highest(log);
    NumbersAreMany(m);
    NumbersAreMany(|log|);
    assert |log.Keys| == |log|;
    if |log| == m {
      assert log.Keys <= Numbers(m);
      SmallerSubset(log.Keys, Numbers(m));
    }
    if Contiguous(log) && log != map[] {
      assert |log| in log;
    }
  }

  /** Appending keeps the numbers 1 to n without a hole. */
  lemma AppendKeepsContiguous(log: Log, e: Entry)
    requires Contiguous(log)
    ensures Contiguous(Append(log, e)) && Highest(log) == |log| && |Append(log, e)| == |log| + 1
    ensures forall n :: n in log ==> n in Append(log, e) && Append(log, e)[n] == log[n]
    ensures |log| + 1 in Append(log, e) && Append(log, e)[|log| + 1] == e
  {
    assert Positive(log);
    CountFindsEveryGap(log);
    assert |Append(log, e)| == |log| + 1;
  }

  // ------------------------------------------------------------------------------------------
  // One page
  // ------------------------------------------------------------------------------------------

  datatype DeltaError = CursorInvalid | LimitInvalid | CursorAhead | LogIncomplete

  /** `scanned` are the numbers passed over, `events` those of them the owner may still see. */
  datatype Delta = Delta(scanned: seq<nat>, events: seq<(nat, Entry)>, next: nat, hasMore: bool)

  ghost predicate IsNext(log: Log, after: nat, n: nat) {
    n in log && n > after && forall k :: k in log && k > after ==> n <= k
  }

  lemma NextExists(log: Log, after: nat)
    requires after < Highest(log)
    ensures exists n :: IsNext(log, after, n)
  {
    var n := after + 1;
    while n !in log
      invariant after < n <= Highest(log) && forall k :: after < k < n ==> k !in log
      decreases Highest(log) - n
    {
      n := n + 1;
    }
    assert IsNext(log, after, n);
  }

  /** `event_seq > after ORDER BY event_seq LIMIT count`. */
  ghost function Rows(log: Log, after: nat, count: nat): seq<nat>
    decreases count
  {
    if count == 0 || after >= Highest(log) then []
    else
      NextExists(log, after);
      var n :| IsNext(log, after, n);
      [n] + Rows(log, n, count - 1)
  }

  ghost predicate AreRows(log: Log, after: nat, count: nat, rows: seq<nat>) {
    && |rows| <= count
    && (forall i :: 0 <= i < |rows| ==> rows[i] in log && rows[i] > after)
    && (forall i, j :: 0 <= i < j < |rows| ==> rows[i] < rows[j])
    && (forall n :: n in log && n > after ==> n in rows || (|rows| == count && forall i :: 0 <= i < |rows| ==> rows[i] < n))
  }

  lemma {:induction false} RowsAreRows(log: Log, after: nat, count: nat)
    ensures AreRows(log, after, count, Rows(log, after, count))
    decreases count
  {
    hide MaxOf;
    if count == 0 || after >= Highest(log) {
    } else {
      NextExists(log, after);
      var n :| IsNext(log, after, n) && Rows(log, after, count) == [n] + Rows(log, n, count - 1);
      RowsAreRows(log, n, count - 1);
      FirstRow(log, after, count, n, Rows(log, n, count - 1));
    }
  }

  lemma FirstRow(log: Log, after: nat, count: nat, n: nat, rest: seq<nat>)
    requires count > 0 && IsNext(log, after, n) && AreRows(log, n, count - 1, rest)
    ensures AreRows(log, after, count, [n] + rest)
  {
    var rows := [n] + rest;
    forall k | k in log && k > after
      ensures k in rows || (|rows| == count && forall i :: 0 <= i < |rows| ==> rows[i] < k)
    {
      assert k == n || k > n;
      assert rows[0] == n;
      if k in rest {
        var i :| 0 <= i < |rest| && rest[i] == k;
        assert rows[i + 1] == k;
      }
    }
  }

  function Shown(log: Log, scanned: seq<nat>, hidden: set<nat>): seq<(nat, Entry)>
    requires forall i :: 0 <= i < |scanned| ==> scanned[i] in log
  {
    if scanned == [] then []
    else
      var last := scanned[|scanned| - 1];
      Shown(log, scanned[..|scanned| - 1], hidden) + if last in hidden then [] else [(last, log[last])]
  }

  /** The page behind event `after`; `hidden` are messages of groups the owner cannot read now. */
  ghost function PageAfter(log: Log, after: nat, limit: nat, hidden: set<nat>): Result<Delta, DeltaError> {
    if after > Highest(log) then Err(CursorAhead)
    else
      RowsAreRows(log, after, limit + 1);
      var rows := Rows(log, after, limit + 1);
      var scanned := Cut(rows, limit);
      if !Consecutive(scanned, after) then Err(LogIncomplete)
      else Ok(Delta(scanned, Shown(log, scanned, hidden), after + |scanned|, |rows| > limit))
  }

  /** `sync_delta_v2` for the binding's own epoch. */
  ghost function Page(log: Log, cursor: string, limit: int, hidden: set<nat>): Result<Delta, DeltaError> {
    match Decimal.ParseCursor(cursor, false)
    case None => Err(CursorInvalid)
    case Some(after) => if !(1 <= limit <= 500) then Err(LimitInvalid) else PageAfter(log, after, limit, hidden)
  }

  predicate Consecutive(scanned: seq<nat>, after: nat) {
    forall i :: 0 <= i < |scanned| ==> scanned[i] == after + 1 + i
  }

  ghost predicate IsTop(log: Log, top: nat) {
    (forall n :: n in log ==> n <= top) && (top > 0 ==> top in log)
  }

  function Cut(rows: seq<nat>, limit: nat): seq<nat> {
    if |rows| > limit then rows[..limit] else rows
  }

  /** Where a page without a hole ends. */
  lemma ConsecutivePage(log: Log, after: nat, limit: nat, rows: seq<nat>, top: nat)
    requires IsTop(log, top) && after <= top && limit >= 1 && AreRows(log, after, limit + 1, rows)
    requires Consecutive(Cut(rows, limit), after)
    ensures after + |Cut(rows, limit)| <= top
    ensures |rows| > limit <==> after + |Cut(rows, limit)| < top
    ensures |Cut(rows, limit)| == 0 <==> after == top
    ensures forall n :: after < n <= after + limit && n < top ==> n in log
  {
    var scanned := Cut(rows, limit);
    if |scanned| > 0 {
      assert scanned[|scanned| - 1] in log;
    }
    if |rows| > limit {
      assert rows[limit] in log && rows[limit] > rows[limit - 1];
    } else if after < top {
      assert top in rows;
      var i :| 0 <= i < |rows| && rows[i] == top;
      assert top == after + 1 + i;
    }
    forall n | after < n <= after + limit && n < top
      ensures n in log
    {
      assert scanned[n - after - 1] == n;
    }
  }

  /** A page never steps over a missing event: what it passes is there, in order, up to its next cursor. */
  lemma PageSkipsNothing(log: Log, after: nat, limit: nat, hidden: set<nat>, d: Delta)
    requires PageAfter(log, after, limit, hidden) == Ok(d) && limit >= 1
    ensures after <= d.next <= Highest(log) && d.next - after == |d.scanned| <= limit
    ensures Consecutive(d.scanned, after) && forall i :: 0 <= i < |d.scanned| ==> d.scanned[i] in log
    ensures d.events == Shown(log, d.scanned, hidden)
    ensures d.hasMore <==> d.next < Highest(log)
    ensures d.next == after <==> after == Highest(log)
  {
    RowsAreRows(log, after, limit + 1);
    assert IsTop(log, Highest(log));
    hide Rows, Shown, IsTop, AreRows, Highest;
    ConsecutivePage(log, after, limit, Rows(log, after, limit + 1), Highest(log));
  }

  /** Event n should be among the next ones, later ones exist, and it is gone. */
  ghost predicate MissingNext(log: Log, after: nat, limit: nat, n: nat) {
    after < n <= after + limit && n < Highest(log) && n !in log
  }

  lemma EvenPageMissesNothing(log: Log, after: nat, limit: nat, rows: seq<nat>)
    requires IsTop(log, Highest(log)) && after <= Highest(log) && limit >= 1 && AreRows(log, after, limit + 1, rows)
    requires Consecutive(Cut(rows, limit), after)
    ensures forall n :: !MissingNext(log, after, limit, n)
  {
    hide IsTop, AreRows, Highest, Consecutive, Cut;
    ConsecutivePage(log, after, limit, rows, Highest(log));
  }

  lemma UnevenPageMissesOne(log: Log, after: nat, limit: nat, rows: seq<nat>) returns (n: nat)
    requires limit >= 1 && AreRows(log, after, limit + 1, rows) && !Consecutive(Cut(rows, limit), after)
    ensures MissingNext(log, after, limit, n)
  {
    hide AreRows, Highest;
    var i :| 0 <= i < |Cut(rows, limit)| && Cut(rows, limit)[i] != after + 1 + i;
    n := FirstHole(log, after, limit + 1, rows, i);
  }

  /** The page is refused as incomplete exactly when one of the next events it would pass is missing. */
  lemma GapIsReported(log: Log, after: nat, limit: nat, hidden: set<nat>)
    requires after <= Highest(log) && limit >= 1
    ensures PageAfter(log, after, limit, hidden) == Err(LogIncomplete) <==>
            exists n :: MissingNext(log, after, limit, n)
  {
    RowsAreRows(log, after, limit + 1);
    assert IsTop(log, Highest(log));
    var rows := Rows(log, after, limit + 1);
    hide Rows, Shown, IsTop, AreRows, Highest, Consecutive, Cut, MissingNext;
    if Consecutive(Cut(rows, limit), after) {
      EvenPageMissesNothing(log, after, limit, rows);
    } else {
      var n := UnevenPageMissesOne(log, after, limit, rows);
    }
  }

  /** The cursor is the print of a number the log has reached, behind which no event of the page is missing. */
  ghost predicate Servable(log: Log, cursor: string, limit: nat, after: nat) {
    && after < 100_000_000_000_000_000_000 && cursor == Decimal.Print(after) && after <= Highest(log)
    && forall n :: !MissingNext(log, after, limit, n)
  }

  /**
   * A poll is served if and only if its cursor is the print of a number that the log has reached, its limit
   * is from 1 to 500, and none of the next events it would pass is missing; each refusal names its reason.
   */
  lemma PollIsDecided(log: Log, cursor: string, limit: int, hidden: set<nat>)
    ensures Page(log, cursor, limit, hidden).Ok? <==>
              1 <= limit <= 500 && exists after: nat :: Servable(log, cursor, limit, after)
    ensures Page(log, cursor, limit, hidden).Ok? ==>
              var after := Decimal.ParseCursor(cursor, false);
              after.Some? && Page(log, cursor, limit, hidden) == PageAfter(log, after.value, limit, hidden)
    ensures Page(log, cursor, limit, hidden).Err? ==>
              match Page(log, cursor, limit, hidden).error
              case CursorInvalid => forall after: nat :: after < 100_000_000_000_000_000_000 ==> cursor != Decimal.Print(after)
              case LimitInvalid => !(1 <= limit <= 500)
              case CursorAhead => exists after: nat :: cursor == Decimal.Print(after) && after > Highest(log)
              case LogIncomplete => exists after: nat, n :: cursor == Decimal.Print(after) && MissingNext(log, after, limit, n)
  {
    hide PageAfter, Highest, MissingNext;
    forall after: nat
      ensures after < 100_000_000_000_000_000_000 && cursor == Decimal.Print(after) <==> Decimal.ParseCursor(cursor, false) == Some(after)
    {
      Decimal.CursorRoundTrip(after, cursor);
    }
    var parsed := Decimal.ParseCursor(cursor, false);
    if parsed.Some? && 1 <= limit <= 500 {
      AheadIsRefused(log, parsed.value, limit, hidden);
      if parsed.value <= Highest(log) {
        GapIsReported(log, parsed.value, limit, hidden);
        if PageAfter(log, parsed.value, limit, hidden).Ok? {
          assert Servable(log, cursor, limit, parsed.value);
        }
      }
    }
  }

  lemma AheadIsRefused(log: Log, after: nat, limit: nat, hidden: set<nat>)
    ensures PageAfter(log, after, limit, hidden) == Err(CursorAhead) <==> after > Highest(log)
    ensures PageAfter(log, after, limit, hidden).Err? ==> PageAfter(log, after, limit, hidden).error in {CursorAhead, LogIncomplete}
  {
  }

  /** Increasing numbers above `after` that are not consecutive skip one. */
  lemma {:induction false} FirstHole(log: Log, after: nat, count: nat, rows: seq<nat>, i: nat) returns (n: nat)
    requires i < |rows| && rows[i] != after + 1 + i && AreRows(log, after, count, rows)
    ensures after < n <= after + 1 + i && n !in log && n < Highest(log)
    decreases i
  {
    if i > 0 && rows[i - 1] != after + i {
      n := FirstHole(log, after, count, rows, i - 1);
    } else {
      n := after + 1 + i;
      assert rows[i] > n;
      forall j | 0 <= j < |rows|
        ensures rows[j] != n
      {
        if j < i {
          assert rows[j] <= rows[i - 1];
        } else {
          assert rows[j] >= rows[i];
        }
      }
      assert n < Highest(log) && n !in log;
    }
  }

  // ------------------------------------------------------------------------------------------
  // A client that follows its cursor
  // ------------------------------------------------------------------------------------------

  lemma {:induction false} ShownListsVisible(log: Log, scanned: seq<nat>, hidden: set<nat>, after: nat)
    requires Consecutive(scanned, after) && forall i :: 0 <= i < |scanned| ==> scanned[i] in log
    ensures forall p :: p in Shown(log, scanned, hidden) <==>
              after < p.0 <= after + |scanned| && p.0 in log && p.0 !in hidden && p.1 == log[p.0]
    ensures InOrder(Shown(log, scanned, hidden))
  {
    if scanned != [] {
      ShownListsVisible(log, scanned[..|scanned| - 1], hidden, after);
      var earlier := Shown(log, scanned[..|scanned| - 1], hidden);
      forall p | p in earlier
        ensures p.0 < scanned[|scanned| - 1]
      {
      }
    }
  }

  predicate InOrder(events: seq<(nat, Entry)>) {
    forall i, j :: 0 <= i < j < |events| ==> events[i].0 < events[j].0
  }

  /** `withheld` are the numbers the client passed while the owner could not read their group. */
  datatype Session = Session(log: Log, cursor: string, position: nat, received: seq<(nat, Entry)>, withheld: set<nat>)

  datatype SessionStep = Appends(entry: Entry) | Polls(limit: int, hidden: set<nat>)

  ghost function Advance(s: Session, step: SessionStep): Session {
    match step
    case Appends(e) => s.(log := Append(s.log, e))
    case Polls(limit, hidden) =>
      match Page(s.log, s.cursor, limit, hidden)
      case Err(_) => s
      case Ok(d) =>
        s.(cursor := Decimal.Print(d.next), position := d.next, received := s.received + d.events,
           withheld := s.withheld + set n | n in d.scanned && n in hidden)
  }

  ghost function Play(s: Session, run: seq<SessionStep>): Session {
    if run == [] then s else Advance(Play(s, run[..|run| - 1]), run[|run| - 1])
  }

  const START := Session(map[], "0", 0, [], {})

  /** The client has every event up to its cursor that was visible when it passed, once and in order. */
  ghost predicate Complete(s: Session) {
    && Contiguous(s.log) && s.position <= |s.log| && s.cursor == Decimal.Print(s.position)
    && AllDelivered(s.log, s.position, s.withheld, s.received)
  }

  ghost predicate AllDelivered(log: Log, upTo: nat, withheld: set<nat>, received: seq<(nat, Entry)>) {
    && InOrder(received)
    && (forall p :: p in received <==> Delivered(log, upTo, withheld, p))
    && (forall n :: n in withheld ==> 1 <= n <= upTo)
  }

  /** Event p was passed by position `upTo` while its group was readable. */
  predicate Delivered(log: Log, upTo: nat, withheld: set<nat>, p: (nat, Entry)) {
    1 <= p.0 <= upTo && p.0 in log && p.1 == log[p.0] && p.0 !in withheld
  }

  lemma JoinedReceived(log: Log, received: seq<(nat, Entry)>, events: seq<(nat, Entry)>, upTo: nat, next: nat,
                       withheld: set<nat>, withheld': set<nat>, hidden: set<nat>)
    requires upTo <= next && AllDelivered(log, upTo, withheld, received) && InOrder(events)
    requires forall p :: p in events <==> upTo < p.0 <= next && p.0 in log && p.0 !in hidden && p.1 == log[p.0]
    requires forall n :: n in withheld' <==> n in withheld || (upTo < n <= next && n in hidden)
    ensures AllDelivered(log, next, withheld', received + events)
  {
    forall p
      ensures p in received + events <==> Delivered(log, next, withheld', p)
    {
      assert p in received + events <==> p in received || p in events;
      assert p in received <==> Delivered(log, upTo, withheld, p);
    }
    forall i, j | 0 <= i < |received| && 0 <= j < |events|
      ensures received[i].0 < events[j].0
    {
      assert Delivered(log, upTo, withheld, received[i]) && events[j] in events;
    }
  }

  lemma ConsecutiveMembers(scanned: seq<nat>, after: nat)
    requires Consecutive(scanned, after)
    ensures forall n :: n in scanned <==> after < n <= after + |scanned|
  {
    forall n | after < n <= after + |scanned|
      ensures n in scanned
    {
      assert scanned[n - after - 1] == n;
    }
  }

  lemma PolledStaysComplete(s: Session, limit: nat, hidden: set<nat>, d: Delta)
    requires Complete(s) && PageAfter(s.log, s.position, limit, hidden) == Ok(d) && limit >= 1
    ensures Complete(Session(s.log, Decimal.Print(d.next), d.next, s.received + d.events,
                             s.withheld + set n | n in d.scanned && n in hidden))
  {
    hide PageAfter, Shown, Highest, MaxOf, AllDelivered, InOrder, Contiguous, Consecutive;
    AppendKeepsContiguous(s.log, Entry(Token(""), Token("")));
    PageSkipsNothing(s.log, s.position, limit, hidden, d);
    ShownListsVisible(s.log, d.scanned, hidden, s.position);
    ConsecutiveMembers(d.scanned, s.position);
    var withheld := s.withheld + set n | n in d.scanned && n in hidden;
    JoinedReceived(s.log, s.received, d.events, s.position, d.next, s.withheld, withheld, hidden);
  }

  lemma AppendedStaysComplete(s: Session, e: Entry)
    requires Complete(s)
    ensures Complete(s.(log := Append(s.log, e)))
  {
    AppendKeepsContiguous(s.log, e);
    hide MaxOf;
  }

  lemma StepStaysComplete(s: Session, step: SessionStep)
    requires Complete(s) && |s.log| < Decimal.CURSOR_LIMIT
    ensures Complete(Advance(s, step))
    ensures step.Polls? && 1 <= step.limit <= 500 ==>
              Page(s.log, s.cursor, step.limit, step.hidden).Ok?
              && var d := Page(s.log, s.cursor, step.limit, step.hidden).value;
                 (d.hasMore <==> d.next < |s.log|) && (d.next == s.position <==> s.position == |s.log|)
  {
    hide Complete, Decimal.Print;
    match step {
      case Appends(e) => AppendedStaysComplete(s, e);
      case Polls(limit, hidden) =>
        CursorReads(s);
        if 1 <= limit <= 500 {
          CompletePages(s, limit, hidden);
          PolledStaysComplete(s, limit, hidden, PageAfter(s.log, s.position, limit, hidden).value);
        }
    }
  }

  lemma CursorReads(s: Session)
    requires Complete(s) && |s.log| < Decimal.CURSOR_LIMIT
    ensures Decimal.ParseCursor(s.cursor, false) == Some(s.position)
  {
    Decimal.CursorRoundTrip(s.position, s.cursor);
  }

  lemma CompletePages(s: Session, limit: nat, hidden: set<nat>)
    requires Complete(s) && limit >= 1
    ensures PageAfter(s.log, s.position, limit, hidden).Ok?
    ensures var d := PageAfter(s.log, s.position, limit, hidden).value;
            (d.hasMore <==> d.next < |s.log|) && (d.next == s.position <==> s.position == |s.log|)
  {
    AppendKeepsContiguous(s.log, Entry(Token(""), Token("")));
    GapIsReported(s.log, s.position, limit, hidden);
    assert forall n :: n < Highest(s.log) && n > s.position ==> n in s.log;
    assert PageAfter(s.log, s.position, limit, hidden) != Err(LogIncomplete);
    PageSkipsNothing(s.log, s.position, limit, hidden, PageAfter(s.log, s.position, limit, hidden).value);
  }

  /**
   * Whatever is appended between polls, and whatever the page sizes: the client's events are exactly
   * the visible ones up to its cursor, each once, in order; and a page that promises no more has
   * brought it to the end of the log.
   */
  lemma {:induction false} ClientMissesNothing(run: seq<SessionStep>)
    requires forall i :: 0 <= i < |run| ==> |Play(START, run[..i]).log| < Decimal.CURSOR_LIMIT
    ensures Complete(Play(START, run))
  {
    if run == [] {
      Decimal.CursorRoundTrip(0, "0");
      StartIsComplete();
    } else {
      var n := |run| - 1;
      assert forall i :: 0 <= i < n ==> run[..n][..i] == run[..i];
      ClientMissesNothing(run[..n]);
      hide Complete, Advance;
      StepStaysComplete(Play(START, run[..n]), run[n]);
    }
  }

  lemma StartIsComplete()
    ensures Complete(START)
  {
    assert Decimal.Print(0) == "0";
  }

  // ------------------------------------------------------------------------------------------
  // The transactions themselves
  // ------------------------------------------------------------------------------------------

  class SyncEvents {
    var log: Log

    constructor ()
      ensures log == map[]
    {
      log := map[];
    }

    /** `add_sync_event`: read the highest number, insert the next. */
    method AddSyncEvent(e: Entry) returns (seqNo: nat)
      modifies this
      ensures seqNo == Highest(old(log)) + 1 && log == Append(old(log), e)
    {
      var highest := Maximum(log.Keys);
      seqNo := highest + 1;
      log := log[seqNo := e];
    }

    /** The loop over the fetched rows: stop at the first hole, leave out what the owner cannot read. */
    method ScanRows(scanned: seq<nat>, after: nat, hidden: set<nat>) returns (events: Option<seq<(nat, Entry)>>)
      requires forall i :: 0 <= i < |scanned| ==> scanned[i] in log
      ensures events == if Consecutive(scanned, after) then Some(Shown(log, scanned, hidden)) else None
    {
      var shown: seq<(nat, Entry)> := [];
      var n := 0;
      while n < |scanned|
        invariant 0 <= n <= |scanned| && Consecutive(scanned[..n], after)
        invariant shown == Shown(log, scanned[..n], hidden)
      {
        if scanned[n] != after + 1 + n {
          return None;
        }
        assert scanned[..n + 1][..n] == scanned[..n];
        if scanned[n] !in hidden {
          shown := shown + [(scanned[n], log[scanned[n]])];
        }
        n := n + 1;
      }
      assert scanned[..n] == scanned;
      events := Some(shown);
    }
  }
}
