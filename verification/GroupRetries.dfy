/** Clients that repeat their group operations, and why nothing shows of it. */
module GroupRetries {
  import opened Common
  import opened GroupTypes
  import opened Outbox
  import opened GroupHost
  import opened GroupHistory
  import opened HostTables

  datatype HostState = HostState(group: Group, rows: Rows)

  /** Between requests the worker settles rows, and a cutover may change the protocol fields. */
  datatype HostStep =
    | Serves(request: Request, maxPending: nat, takenMessages: set<Token>)
    | Settles(key: RowKey, selected: Row, outcome: Outcome, now: int, clock: int)
    | Switches(wire: Wire, quiescing: bool)

  function Reply(s: HostState, step: HostStep): Result<Commit, HostError>
    requires step.Serves?
  {
    Execute(s.group, EnvOf(s.rows, step.maxPending, step.takenMessages), step.request)
  }

  function Take(s: HostState, step: HostStep): HostState {
    match step
    case Serves(_, _, _) =>
      (match Reply(s, step)
       case Ok(c) => HostState(c.group, Insert(s.rows, c.rows))
       case Err(_) => s)
    case Settles(key, selected, outcome, now, clock) => s.(rows := Settle(s.rows, key, selected, outcome, now, clock))
    case Switches(wire, quiescing) => s.(group := s.group.(wire := wire, quiescing := quiescing))
  }

  function TakeAll(s: HostState, run: seq<HostStep>): HostState {
    if run == [] then s else Take(TakeAll(s, run[..|run| - 1]), run[|run| - 1])
  }

  /** Recorded operations are never overwritten or forgotten. */
  ghost predicate Remembers(g: Group, g': Group) {
    forall k :: k in g.operations ==> k in g'.operations && g'.operations[k] == g.operations[k]
  }

  lemma StepRemembers(s: HostState, genesis: GroupState, step: HostStep)
    requires Consistent(s.group, genesis)
    ensures Consistent(Take(s, step).group, genesis) && Remembers(s.group, Take(s, step).group)
    ensures step.Serves? && Reply(s, step).Ok? ==>
              step.request.Key() in Take(s, step).group.operations
              && Take(s, step).group.operations[step.request.Key()].result == Reply(s, step).value.result
              && Take(s, step).group.operations[step.request.Key()].digest == step.request.digest
              && Take(s, step).group.operations[step.request.Key()].wire == step.request.wire
  {
    hide Consistent, LogExtends, OperationRecorded, Enqueued, Handle, EnvOf, Settle, Insert;
    match step {
      case Serves(request, maxPending, takenMessages) =>
        ExecuteKeepsHistory(s.group, genesis, EnvOf(s.rows, maxPending, takenMessages), request);
      case Settles(key, selected, outcome, now, clock) =>
      case Switches(wire, quiescing) =>
        CutoverKeepsHistory(s.group, genesis, wire, quiescing);
    }
  }

  lemma {:induction false} RunRemembers(s: HostState, genesis: GroupState, run: seq<HostStep>, i: nat)
    requires Consistent(s.group, genesis) && i <= |run|
    ensures Consistent(TakeAll(s, run).group, genesis)
    ensures Remembers(TakeAll(s, run[..i]).group, TakeAll(s, run).group)
    decreases |run|
  {
    hide Consistent, Take, Reply;
    if i == |run| {
      assert run[..i] == run;
    }
    if run != [] {
      var n := |run| - 1;
      RunRemembers(s, genesis, run[..n], if i <= n then i else n);
      StepRemembers(TakeAll(s, run[..n]), genesis, run[n]);
      assert i <= n ==> run[..n][..i] == run[..i];
    }
  }

  predicate Accepted(s: HostState, run: seq<HostStep>, i: nat)
    requires i < |run|
  {
    run[i].Serves? && Reply(TakeAll(s, run[..i]), run[i]).Ok?
  }

  lemma AcceptedIsRemembered(s: HostState, genesis: GroupState, run: seq<HostStep>, i: nat, j: nat)
    requires Consistent(s.group, genesis) && i < j <= |run| && Accepted(s, run, i)
    ensures var ops := TakeAll(s, run[..j]).group.operations;
            && run[i].request.Key() in ops
            && ops[run[i].request.Key()].result == Reply(TakeAll(s, run[..i]), run[i]).value.result
            && ops[run[i].request.Key()].digest == run[i].request.digest
            && ops[run[i].request.Key()].wire == run[i].request.wire
  {
    hide Consistent, Take, Reply;
    RunRemembers(s, genesis, run[..i], 0);
    StepRemembers(TakeAll(s, run[..i]), genesis, run[i]);
    assert run[..i + 1][..i] == run[..i] && run[..j][..i + 1] == run[..i + 1];
    RunRemembers(s, genesis, run[..j], i + 1);
  }

  predicate SamePayload(a: Request, b: Request) {
    b.digest == a.digest && b.wire == a.wire
  }

  /** Not stopped before the lookup of recorded operations. */
  predicate Served(g: Group, req: Request) {
    req.wire == g.wire && !g.quiescing && !MissingPatch(req.action)
  }

  /**
   * A request under the identity of an accepted one, at any later time: the same payload gets the
   * recorded answer with its event number or a refusal, a changed one a conflict or a refusal, and
   * neither changes anything.
   */
  lemma RetryIsAnswered(s: HostState, genesis: GroupState, run: seq<HostStep>, i: nat, j: nat)
    requires Consistent(s.group, genesis) && i < j < |run| && Accepted(s, run, i)
    requires run[j].Serves? && run[j].request.Key() == run[i].request.Key()
    ensures var now := TakeAll(s, run[..j]);
            && Take(now, run[j]) == now
            && (Reply(now, run[j]).Ok? ==>
                  run[j].request.digest == run[i].request.digest
                  && Reply(now, run[j]).value.result == Reply(TakeAll(s, run[..i]), run[i]).value.result)
            && (Served(now.group, run[j].request) && SamePayload(run[i].request, run[j].request) ==> Reply(now, run[j]).Ok?)
  {
    hide Consistent, Handle, TakeAll, OpenRows;
    AcceptedIsRemembered(s, genesis, run, i, j);
    var now := TakeAll(s, run[..j]);
    assert Insert(now.rows, map[]) == now.rows;
  }

  /** So deleting the retry from the run changes nothing that comes after it. */
  lemma {:induction false} RetryIsInvisible(s: HostState, genesis: GroupState, run: seq<HostStep>, i: nat, j: nat, n: nat)
    requires Consistent(s.group, genesis) && i < j < n <= |run| && Accepted(s, run, i)
    requires run[j].Serves? && run[j].request.Key() == run[i].request.Key()
    ensures TakeAll(s, run[..n]) == TakeAll(s, run[..j] + run[j + 1..n])
  {
    hide Consistent, Take, Reply, Accepted;
    if n == j + 1 {
      RetryIsAnswered(s, genesis, run, i, j);
      assert run[..j] + run[j + 1..n] == run[..j] && run[..n][..j] == run[..j];
    } else {
      RetryIsInvisible(s, genesis, run, i, j, n - 1);
      var less := run[..j] + run[j + 1..n];
      assert less[..|less| - 1] == run[..j] + run[j + 1..n - 1] && less[|less| - 1] == run[n - 1];
      assert run[..n][..n - 1] == run[..n - 1];
    }
  }

  /** A run with every step removed that repeats an operation already recorded when it comes. */
  function WithoutRetries(s: HostState, run: seq<HostStep>): seq<HostStep> {
    if run == [] then []
    else
      var n := |run| - 1;
      var repeated := run[n].Serves? && run[n].request.Key() in TakeAll(s, run[..n]).group.operations;
      WithoutRetries(s, run[..n]) + if repeated then [] else [run[n]]
  }

  /** The run with all its retries and the run without any end in the same state. */
  lemma {:induction false} RetriesAreInvisible(s: HostState, run: seq<HostStep>)
    ensures TakeAll(s, WithoutRetries(s, run)) == TakeAll(s, run)
  {
    if run != [] {
      var n := |run| - 1;
      RetriesAreInvisible(s, run[..n]);
      var before := TakeAll(s, run[..n]);
      var kept := WithoutRetries(s, run[..n]);
      if run[n].Serves? && run[n].request.Key() in before.group.operations {
        RecordedChangesNothing(before, run[n]);
        assert kept + [] == kept;
      } else {
        assert (kept + [run[n]])[..|kept|] == kept;
      }
    }
  }

  lemma RecordedChangesNothing(s: HostState, step: HostStep)
    requires step.Serves? && step.request.Key() in s.group.operations
    ensures Take(s, step) == s
  {
    hide Handle, OpenRows;
    assert Insert(s.rows, map[]) == s.rows;
  }
}
