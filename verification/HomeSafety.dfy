/**
 * A Member Home against an arbitrary network: any source, any order, any repetition, any payload.
 * Nothing here assumes that a well-behaved Host is on the other side.
 */
module HomeSafety {
  import opened Common
  import opened GroupTypes
  import opened MemberHome

  datatype Input =
    | Notified(source: Did, wire: Wire, notice: Notice)
    | Listing(answer: Roster)
    | TerminalAnswer(op: Method, result: OpResult)
  {
    predicate HasKey(key: InboundKey) {
      Notified? && key == InboundKey(source, notice.EventSeq(), notice.Kind())
    }
  }

  predicate Accepts(h: Home, input: Input, owner: Did) {
    match input
    case Notified(source, wire, notice) => Deliver(h, source, wire, notice, owner).Ok?
    case Listing(answer) => Refresh(h, answer, owner).Ok?
    case TerminalAnswer(op, result) => Forwarded(h, op, result, owner).Ok?
  }

  /** One transaction: committed, or rolled back. */
  function Take(h: Home, input: Input, owner: Did): Home {
    match input
    case Notified(source, wire, notice) =>
      (match Deliver(h, source, wire, notice, owner)
       case Ok(accepted) => accepted.home
       case Err(_) => h)
    case Listing(answer) =>
      (match Refresh(h, answer, owner)
       case Ok((home, _)) => home
       case Err(_) => h)
    case TerminalAnswer(op, result) =>
      match Forwarded(h, op, result, owner)
      case Ok(home) => home
      case Err(_) => h
  }

  function TakeAll(h: Home, inputs: seq<Input>, owner: Did): Home {
    if inputs == [] then h else Take(TakeAll(h, inputs[..|inputs| - 1], owner), inputs[|inputs| - 1], owner)
  }

  /** What no transaction ever takes back. */
  ghost predicate Advanced(h: Home, h': Home) {
    && (h.view.Some? ==> h'.view.Some? && h.view.value.eventSeq <= h'.view.value.eventSeq)
    && (forall k :: k in h.inbound ==> k in h'.inbound && h'.inbound[k] == h.inbound[k])
    && (forall s :: s in h.messages ==> s in h'.messages && h'.messages[s] == h.messages[s])
    && (forall k :: k in h.operations ==> k in h'.operations && h'.operations[k] == h.operations[k])
    && h.log <= h'.log && |h'.log| <= |h.log| + 1
  }

  lemma StateChangedAdvances(h: Home, source: Did, wire: Wire, e: Event, owner: Did, r: Result<Accepted, HomeError>)
    requires r == StateChanged(h, source, wire, e, owner) && r.Ok?
    ensures Advanced(h, r.value.home)
    ensures forall k :: k in r.value.home.inbound <==> k in h.inbound || k == InboundKey(source, e.eventSeq, StateKind)
    ensures InboundKey(source, e.eventSeq, StateKind) in h.inbound ==> r.value == Accepted(h, Duplicate)
    ensures r.value.answer != Applied ==> r.value.home.view == h.view && r.value.home.log == h.log
  {
    hide EventBound, Reactivates, CoveredByObservation, MatchesForwardedTerminal, Activation;
  }

  lemma IncomingAdvances(h: Home, source: Did, wire: Wire, m: Message, owner: Did, r: Result<Accepted, HomeError>)
    requires r == Incoming(h, source, wire, m, owner) && r.Ok?
    ensures Advanced(h, r.value.home)
    ensures forall k :: k in r.value.home.inbound <==> k in h.inbound || k == InboundKey(source, m.eventSeq, MessageKind)
    ensures InboundKey(source, m.eventSeq, MessageKind) in h.inbound ==> r.value == Accepted(h, Duplicate)
  {
    hide MessageBound, CoveredByObservation, AcceptedBeforeTerminal;
  }

  /** No input moves a view back, forgets a record or rewrites a stored message or log entry. */
  lemma TakingAdvances(h: Home, input: Input, owner: Did)
    ensures Advanced(h, Take(h, input, owner))
  {
    hide StateChanged, Incoming;
    if Accepts(h, input, owner) {
      match input {
        case Notified(source, wire, StateNotice(e)) =>
          StateChangedAdvances(h, source, wire, e, owner, StateChanged(h, source, wire, e, owner));
        case Notified(source, wire, MessageNotice(m)) =>
          IncomingAdvances(h, source, wire, m, owner, Incoming(h, source, wire, m, owner));
        case Listing(answer) =>
        case TerminalAnswer(op, result) =>
      }
    }
  }

  lemma {:induction false} NothingIsTakenBack(h: Home, inputs: seq<Input>, owner: Did, i: nat)
    requires i <= |inputs|
    ensures var h', h'' := TakeAll(h, inputs[..i], owner), TakeAll(h, inputs, owner);
            && (h'.view.Some? ==> h''.view.Some? && h'.view.value.eventSeq <= h''.view.value.eventSeq)
            && (forall k :: k in h'.inbound ==> k in h''.inbound && h''.inbound[k] == h'.inbound[k])
            && h'.log <= h''.log
    decreases |inputs|
  {
    hide Take;
    if i == |inputs| {
      assert inputs[..i] == inputs;
    } else {
      var n := |inputs| - 1;
      assert inputs[..n][..i] == inputs[..i];
      NothingIsTakenBack(h, inputs[..n], owner, i);
      TakingAdvances(TakeAll(h, inputs[..n], owner), inputs[n], owner);
    }
  }

  /** A recorded key is spent: whatever payload comes under it later, nothing changes. */
  lemma SpentKeyIsInert(h: Home, input: Input, owner: Did, key: InboundKey)
    requires input.HasKey(key) && key in h.inbound
    ensures Take(h, input, owner) == h
    ensures input.notice != h.inbound[key] ==> !Accepts(h, input, owner)
  {
    hide EventBound, MessageBound, Reactivates, CoveredByObservation, MatchesForwardedTerminal, Activation, AcceptedBeforeTerminal, ApplyChange;
  }

  /** An accepted notification adds its key to the records, and nothing else does. */
  lemma TakenKeys(h: Home, input: Input, owner: Did, key: InboundKey)
    ensures key in Take(h, input, owner).inbound <==> key in h.inbound || (input.HasKey(key) && Accepts(h, input, owner))
  {
    hide StateChanged, Incoming;
    if input.Notified? && Accepts(h, input, owner) {
      match input.notice {
        case StateNotice(e) => StateChangedAdvances(h, input.source, input.wire, e, owner, StateChanged(h, input.source, input.wire, e, owner));
        case MessageNotice(m) => IncomingAdvances(h, input.source, input.wire, m, owner, Incoming(h, input.source, input.wire, m, owner));
      }
    }
  }

  /**
   * In any run, each (source, event number, kind) takes effect and is announced to the owner at most
   * once: after it was accepted, every later arrival under it leaves the whole projection as it was.
   */
  lemma EachKeyTakesEffectOnce(h: Home, inputs: seq<Input>, owner: Did, key: InboundKey, i: nat, j: nat)
    requires i < j < |inputs| && inputs[i].HasKey(key) && inputs[j].HasKey(key)
    requires Accepts(TakeAll(h, inputs[..i], owner), inputs[i], owner)
    ensures TakeAll(h, inputs[..j + 1], owner) == TakeAll(h, inputs[..j], owner)
  {
    hide Take, Accepts, Advanced;
    TakenKeys(TakeAll(h, inputs[..i], owner), inputs[i], owner, key);
    assert inputs[..i + 1][..i] == inputs[..i] && inputs[..j][..i + 1] == inputs[..i + 1];
    assert key in TakeAll(h, inputs[..i + 1], owner).inbound;
    NothingIsTakenBack(h, inputs[..j], owner, i + 1);
    assert inputs[..j + 1][..j] == inputs[..j];
    SpentKeyIsInert(TakeAll(h, inputs[..j], owner), inputs[j], owner, key);
  }

  /** Reading the same roster twice is reading it once. */
  lemma RefreshIsIdempotent(h: Home, answer: Roster, owner: Did)
    requires Refresh(h, answer, owner).Ok?
    ensures var once := Refresh(h, answer, owner).value.0;
            Refresh(once, answer, owner).Ok? && Refresh(once, answer, owner).value.0 == once
  {
    var (once, _) := Refresh(h, answer, owner).value;
    MemberRowsList(answer.members, |answer.members|, owner);
    assert answer.members[..|answer.members|] == answer.members;
    assert once.log + [] == once.log;
  }

  // ------------------------------------------------------------------------------------------
  // What each table remembers of the inputs
  // ------------------------------------------------------------------------------------------

  predicate AcceptedAt(inputs: seq<Input>, i: nat, owner: Did)
    requires i < |inputs|
  {
    Accepts(TakeAll(EMPTY, inputs[..i], owner), inputs[i], owner)
  }

  /** Input i took effect: a notification accepted as new and shown to the owner. */
  predicate AppliedAt(inputs: seq<Input>, i: nat, owner: Did)
    requires i < |inputs|
  {
    && inputs[i].Notified?
    && Applies(TakeAll(EMPTY, inputs[..i], owner), inputs[i], owner)
  }

  predicate Applies(h: Home, input: Input, owner: Did)
    requires input.Notified?
  {
    var r := Deliver(h, input.source, input.wire, input.notice, owner);
    r.Ok? && r.value.answer == Applied
  }

  predicate ActivatesAt(inputs: seq<Input>, i: nat, owner: Did)
    requires i < |inputs|
  {
    AppliedAt(inputs, i, owner) && inputs[i].notice.StateNotice? && Activation(inputs[i].notice.event, owner)
  }

  predicate StoresAt(inputs: seq<Input>, i: nat, owner: Did, m: Message)
    requires i < |inputs|
  {
    AppliedAt(inputs, i, owner) && inputs[i].notice == MessageNotice(m)
  }

  predicate AnsweredAt(inputs: seq<Input>, i: nat, owner: Did, key: OpKey, receipt: Receipt)
    requires i < |inputs|
  {
    && inputs[i].TerminalAnswer? && AcceptedAt(inputs, i, owner)
    && key == OpKey(receipt.actor, inputs[i].op, receipt.opId) && inputs[i].result.receipt == receipt
  }

  lemma TakenLog(h: Home, input: Input, owner: Did)
    ensures !input.Notified? ==> Take(h, input, owner).log in {h.log, h.log + [RefreshedEntry]}
    ensures input.Notified? ==>
              Take(h, input, owner).log ==
              if !Applies(h, input, owner) then h.log
              else h.log + [match input.notice
                            case StateNotice(e) => StateChangedEntry(e)
                            case MessageNotice(m) => MessageEntry(m.eventSeq, m.receipt.message.GetOr(Token("")))]
  {
    hide EventBound, Reactivates, CoveredByObservation, MatchesForwardedTerminal, AcceptedBeforeTerminal, Activation, LatestActivation;
    if input.Listing? {
      assert h.log + [] == h.log;
    }
  }

  lemma TakenActivation(h: Home, input: Input, owner: Did)
    ensures LatestActivation(Take(h, input, owner).log, owner) ==
            if input.Notified? && Applies(h, input, owner) && input.notice.StateNotice? && Activation(input.notice.event, owner)
            then Some(input.notice.event.eventSeq) else LatestActivation(h.log, owner)
  {
    hide Take, Applies, Activation, LatestActivation;
    TakenLog(h, input, owner);
    var log := Take(h, input, owner).log;
    if log != h.log {
      LatestActivationOfAppend(h.log, log[|h.log|], owner);
    }
  }

  lemma TakenMessages(h: Home, input: Input, owner: Did)
    ensures Take(h, input, owner).messages ==
            if input.Notified? && Applies(h, input, owner) && input.notice.MessageNotice?
            then h.messages[input.notice.message.eventSeq := input.notice.message] else h.messages
    ensures input.Notified? && Applies(h, input, owner) && input.notice.MessageNotice? ==>
              input.notice.message.eventSeq !in h.messages
  {
    hide EventBound, MessageBound, Reactivates, CoveredByObservation, MatchesForwardedTerminal, AcceptedBeforeTerminal, Activation;
  }

  /** Every remembered answer ended this owner's membership under v2. */
  ghost predicate AllTerminal(h: Home, owner: Did) {
    forall k :: k in h.operations ==>
      h.operations[k].wire == BaseV2 && TerminalSubject(k.op, h.operations[k].result) == Some(owner)
  }

  lemma TakenAnswers(h: Home, input: Input, owner: Did)
    requires AllTerminal(h, owner)
    ensures AllTerminal(Take(h, input, owner), owner)
    ensures input.TerminalAnswer? && Accepts(h, input, owner) ==>
              var key := OpKey(input.result.receipt.actor, input.op, input.result.receipt.opId);
              && key in Take(h, input, owner).operations
              && Take(h, input, owner).operations[key].result.receipt == input.result.receipt
              && forall k :: k in Take(h, input, owner).operations ==> k in h.operations || k == key
    ensures !(input.TerminalAnswer? && Accepts(h, input, owner)) ==> Take(h, input, owner).operations == h.operations
    ensures forall k :: k in h.operations ==> k in Take(h, input, owner).operations && Take(h, input, owner).operations[k] == h.operations[k]
  {
    hide EventBound, MessageBound, Reactivates, CoveredByObservation, MatchesForwardedTerminal, AcceptedBeforeTerminal, Activation;
  }

  /** What a prefix of the inputs did is what the inputs did there. */
  lemma PrefixAgrees(inputs: seq<Input>, n: nat, i: nat)
    requires i < n <= |inputs|
    ensures inputs[..n][i] == inputs[i] && inputs[..n][..i] == inputs[..i]
  {
  }

  lemma {:induction false} KeysFromInputs(inputs: seq<Input>, owner: Did, key: InboundKey)
    ensures key in TakeAll(EMPTY, inputs, owner).inbound <==>
            exists i: nat :: i < |inputs| && inputs[i].HasKey(key) && AcceptedAt(inputs, i, owner)
  {
    hide Take, Accepts;
    if inputs != [] {
      var n := |inputs| - 1;
      KeysFromInputs(inputs[..n], owner, key);
      TakenKeys(TakeAll(EMPTY, inputs[..n], owner), inputs[n], owner, key);
      forall i: nat | i < n
        ensures AcceptedAt(inputs[..n], i, owner) <==> AcceptedAt(inputs, i, owner)
      {
        PrefixAgrees(inputs, n, i);
      }
      if exists i: nat :: i < n && inputs[..n][i].HasKey(key) && AcceptedAt(inputs[..n], i, owner) {
        var i: nat :| i < n && inputs[..n][i].HasKey(key) && AcceptedAt(inputs[..n], i, owner);
        assert inputs[i].HasKey(key) && AcceptedAt(inputs, i, owner);
      }
      if exists i: nat :: i < |inputs| && inputs[i].HasKey(key) && AcceptedAt(inputs, i, owner) {
        var i: nat :| i < |inputs| && inputs[i].HasKey(key) && AcceptedAt(inputs, i, owner);
        assert i < n ==> inputs[..n][i].HasKey(key) && AcceptedAt(inputs[..n], i, owner);
      }
    }
  }

  /** Input i is the activation of the owner applied last. */
  ghost predicate ActivatesLast(inputs: seq<Input>, i: nat, owner: Did) {
    i < |inputs| && ActivatesAt(inputs, i, owner) && forall j: nat :: i < j < |inputs| ==> !ActivatesAt(inputs, j, owner)
  }

  /** The activation that a projection holds for the latest is the one the run applied last. */
  lemma {:induction false} ActivationFromInputs(inputs: seq<Input>, owner: Did) returns (i: nat)
    ensures LatestActivation(TakeAll(EMPTY, inputs, owner).log, owner).Some? ==>
              ActivatesLast(inputs, i, owner)
              && LatestActivation(TakeAll(EMPTY, inputs, owner).log, owner) == Some(inputs[i].notice.event.eventSeq)
    ensures LatestActivation(TakeAll(EMPTY, inputs, owner).log, owner).None? ==>
              forall j: nat :: j < |inputs| ==> !ActivatesAt(inputs, j, owner)
  {
    hide Take, Applies, Activation;
    i := 0;
    if inputs != [] {
      var n := |inputs| - 1;
      i := ActivationFromInputs(inputs[..n], owner);
      TakenActivation(TakeAll(EMPTY, inputs[..n], owner), inputs[n], owner);
      forall j: nat | j < n
        ensures ActivatesAt(inputs[..n], j, owner) <==> ActivatesAt(inputs, j, owner)
      {
        PrefixAgrees(inputs, n, j);
      }
      if ActivatesAt(inputs, n, owner) {
        i := n;
      }
    }
  }

  lemma {:induction false} AnswersFromInputs(inputs: seq<Input>, owner: Did, key: OpKey)
    ensures AllTerminal(TakeAll(EMPTY, inputs, owner), owner)
    ensures key in TakeAll(EMPTY, inputs, owner).operations ==>
              exists i: nat :: i < |inputs| && AnsweredAt(inputs, i, owner, key, TakeAll(EMPTY, inputs, owner).operations[key].result.receipt)
    ensures forall i: nat, receipt :: i < |inputs| && AnsweredAt(inputs, i, owner, key, receipt) ==>
              key in TakeAll(EMPTY, inputs, owner).operations && TakeAll(EMPTY, inputs, owner).operations[key].result.receipt == receipt
  {
    hide Take, Accepts, AllTerminal;
    if inputs == [] {
      assert AllTerminal(EMPTY, owner) by { EmptyIsTerminal(owner); }
    } else {
      var n := |inputs| - 1;
      AnswersFromInputs(inputs[..n], owner, key);
      TakenAnswers(TakeAll(EMPTY, inputs[..n], owner), inputs[n], owner);
      forall i: nat, receipt | i < n
        ensures AnsweredAt(inputs[..n], i, owner, key, receipt) <==> AnsweredAt(inputs, i, owner, key, receipt)
      {
        PrefixAgrees(inputs, n, i);
      }
      var before := TakeAll(EMPTY, inputs[..n], owner).operations;
      if key in before {
        var i: nat :| i < n && AnsweredAt(inputs[..n], i, owner, key, before[key].result.receipt);
        assert AnsweredAt(inputs, i, owner, key, before[key].result.receipt);
      } else if key in TakeAll(EMPTY, inputs, owner).operations {
        assert AnsweredAt(inputs, n, owner, key, inputs[n].result.receipt);
      }
    }
  }

  lemma EmptyIsTerminal(owner: Did)
    ensures AllTerminal(EMPTY, owner)
  {
  }

  lemma {:induction false} MessagesFromInputs(inputs: seq<Input>, owner: Did, m: Message)
    ensures (m.eventSeq in TakeAll(EMPTY, inputs, owner).messages && TakeAll(EMPTY, inputs, owner).messages[m.eventSeq] == m) <==>
            exists i: nat :: i < |inputs| && StoresAt(inputs, i, owner, m)
    ensures forall s :: s in TakeAll(EMPTY, inputs, owner).messages ==> TakeAll(EMPTY, inputs, owner).messages[s].eventSeq == s
  {
    hide Take, Applies;
    if inputs != [] {
      var n := |inputs| - 1;
      MessagesFromInputs(inputs[..n], owner, m);
      TakenMessages(TakeAll(EMPTY, inputs[..n], owner), inputs[n], owner);
      forall i: nat | i < n
        ensures StoresAt(inputs[..n], i, owner, m) <==> StoresAt(inputs, i, owner, m)
      {
        PrefixAgrees(inputs, n, i);
      }
      if exists i: nat :: i < n && StoresAt(inputs[..n], i, owner, m) {
        var i: nat :| i < n && StoresAt(inputs[..n], i, owner, m);
        assert StoresAt(inputs, i, owner, m);
      }
      if StoresAt(inputs, n, owner, m) {
        assert TakeAll(EMPTY, inputs, owner).messages[m.eventSeq] == m;
      }
    }
  }

  // ------------------------------------------------------------------------------------------
  // Messages after the membership ended
  // ------------------------------------------------------------------------------------------

  /** The run applied an activation of the owner before event number s, and none after that one. */
  ghost predicate ActivatedBefore(inputs: seq<Input>, owner: Did, s: int) {
    exists i: nat :: ActivatesLast(inputs, i, owner) && inputs[i].notice.event.eventSeq < s
  }

  /** The run accepted the answer to a departure of the owner that stands exactly where the view does. */
  ghost predicate DepartureAccepted(inputs: seq<Input>, owner: Did, v: View) {
    exists i: nat ::
      && i < |inputs| && inputs[i].TerminalAnswer? && AcceptedAt(inputs, i, owner)
      && inputs[i].op == (if v.status == Left then GroupLeave else GroupRemove)
      && inputs[i].result.receipt.eventSeq == v.eventSeq && inputs[i].result.receipt.version == v.version
  }

  /** Neither this notification nor this message row came through before. */
  ghost predicate Unseen(inputs: seq<Input>, owner: Did, source: Did, m: Message) {
    && (forall i: nat :: i < |inputs| && inputs[i].HasKey(InboundKey(source, m.eventSeq, MessageKind)) ==> !AcceptedAt(inputs, i, owner))
    && (forall i: nat, m' :: i < |inputs| && StoresAt(inputs, i, owner, m') ==>
          m'.eventSeq != m.eventSeq && m'.receipt.message != m.receipt.message)
  }

  lemma DepartureFromInputs(inputs: seq<Input>, owner: Did, v: View)
    ensures (exists k :: k in TakeAll(EMPTY, inputs, owner).operations && EndedBy(v, k.op, TakeAll(EMPTY, inputs, owner).operations[k], owner))
            <==> DepartureAccepted(inputs, owner, v)
  {
    hide TakeAll, AcceptedAt;
    var operations := TakeAll(EMPTY, inputs, owner).operations;
    AnswersFromInputs(inputs, owner, OpKey(owner, GroupLeave, Token("")));
    if exists k :: k in operations && EndedBy(v, k.op, operations[k], owner) {
      var k :| k in operations && EndedBy(v, k.op, operations[k], owner);
      AnswersFromInputs(inputs, owner, k);
    }
    if DepartureAccepted(inputs, owner, v) {
      var i: nat :|
        && i < |inputs| && inputs[i].TerminalAnswer? && AcceptedAt(inputs, i, owner)
        && inputs[i].op == (if v.status == Left then GroupLeave else GroupRemove)
        && inputs[i].result.receipt.eventSeq == v.eventSeq && inputs[i].result.receipt.version == v.version;
      var key := OpKey(inputs[i].result.receipt.actor, inputs[i].op, inputs[i].result.receipt.opId);
      assert AnsweredAt(inputs, i, owner, key, inputs[i].result.receipt);
      AnswersFromInputs(inputs, owner, key);
      assert key in operations && EndedBy(v, key.op, operations[key], owner);
    }
  }

  lemma ActivatedBeforeIffLogged(inputs: seq<Input>, owner: Did, s: int)
    ensures var latest := LatestActivation(TakeAll(EMPTY, inputs, owner).log, owner);
            latest.Some? && latest.value < s <==> ActivatedBefore(inputs, owner, s)
  {
    hide TakeAll, Applies, Activation, LatestActivation;
    var i := ActivationFromInputs(inputs, owner);
    if ActivatedBefore(inputs, owner, s) {
      var j: nat :| ActivatesLast(inputs, j, owner) && inputs[j].notice.event.eventSeq < s;
      assert i == j;
    }
  }

  lemma RowsFromInputs(inputs: seq<Input>, owner: Did, m: Message)
    ensures var messages := TakeAll(EMPTY, inputs, owner).messages;
            (m.eventSeq !in messages && forall s :: s in messages ==> messages[s].receipt.message != m.receipt.message)
            <==> forall i: nat, m' :: i < |inputs| && StoresAt(inputs, i, owner, m') ==>
                   m'.eventSeq != m.eventSeq && m'.receipt.message != m.receipt.message
  {
    hide TakeAll, StoresAt;
    var messages := TakeAll(EMPTY, inputs, owner).messages;
    forall i: nat, m' | i < |inputs| && StoresAt(inputs, i, owner, m')
      ensures m'.eventSeq in messages && messages[m'.eventSeq] == m'
    {
      MessagesFromInputs(inputs, owner, m');
    }
    forall s | s in messages
      ensures exists i: nat :: i < |inputs| && StoresAt(inputs, i, owner, messages[s])
      ensures messages[s].eventSeq == s
    {
      MessagesFromInputs(inputs, owner, messages[s]);
    }
  }

  /** One transition: the guards that a message meets when the view has ended. */
  lemma EndedViewAdmits(h: Home, source: Did, wire: Wire, m: Message, owner: Did, r: Result<Accepted, HomeError>)
    requires h.view.Some? && h.view.value.status != Active && r == Incoming(h, source, wire, m, owner)
    ensures (r.Ok? && r.value.answer == Applied) <==>
              MessageBound(m) && AcceptedBeforeTerminal(h, h.view.value, wire, owner, m.eventSeq, m.version)
              && InboundKey(source, m.eventSeq, MessageKind) !in h.inbound
              && m.eventSeq !in h.messages && forall s :: s in h.messages ==> h.messages[s].receipt.message != m.receipt.message
    ensures r.Ok? ==> r.value.home.view == Some(h.view.value.(wire := r.value.home.view.value.wire)) && r.value.home.roster == h.roster
    ensures r.Ok? && r.value.answer == Applied ==> r.value.home.messages == h.messages[m.eventSeq := m]
  {
    hide MessageBound, LatestActivation, EndedBy;
  }

  /**
   * Whatever arrived before, a message shown to an owner whose membership has ended in the view is
   * exactly a v2 message, not seen before, that lies between the activation which the run applied last
   * and a departure whose answer the run accepted and where the view stands; it leaves status, event
   * number, version, documents and roster of the view alone.
   */
  lemma LateMessageIsStoredIff(inputs: seq<Input>, source: Did, wire: Wire, m: Message, owner: Did, r: Result<Accepted, HomeError>)
    requires var h := TakeAll(EMPTY, inputs, owner);
             h.view.Some? && h.view.value.status != Active && r == Incoming(h, source, wire, m, owner)
    ensures var v := TakeAll(EMPTY, inputs, owner).view.value;
            (r.Ok? && r.value.answer == Applied) <==>
              && MessageBound(m) && wire == BaseV2 && (v.status == Left || v.status == Removed)
              && m.eventSeq < v.eventSeq && m.version < v.version
              && ActivatedBefore(inputs, owner, m.eventSeq) && DepartureAccepted(inputs, owner, v)
              && Unseen(inputs, owner, source, m)
    ensures var h := TakeAll(EMPTY, inputs, owner);
            r.Ok? ==>
              && r.value.home.view == Some(h.view.value.(wire := r.value.home.view.value.wire)) && r.value.home.roster == h.roster
              && (r.value.answer == Applied ==> r.value.home.messages == h.messages[m.eventSeq := m])
  {
    hide TakeAll, MessageBound, LatestActivation, Incoming, DepartureAccepted, ActivatedBefore, AcceptedAt, StoresAt, EndedBy;
    var h := TakeAll(EMPTY, inputs, owner);
    EndedViewAdmits(h, source, wire, m, owner, r);
    DepartureFromInputs(inputs, owner, h.view.value);
    ActivatedBeforeIffLogged(inputs, owner, m.eventSeq);
    KeysFromInputs(inputs, owner, InboundKey(source, m.eventSeq, MessageKind));
    RowsFromInputs(inputs, owner, m);
  }
}
