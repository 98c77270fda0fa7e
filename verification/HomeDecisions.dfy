/**
 * When a Member Home accepts what a network brings it, and what each acceptance leaves behind, whoever
 * may be on the other side.
 */
module HomeDecisions {
  import opened Common
  import opened MergePatch
  import opened GroupPolicy
  import opened GroupTypes
  import opened MemberHome
  import opened HomeSafety

  /** The receipt was issued for this very event. */
  predicate Signed(notice: Notice) {
    match notice
    case StateNotice(e) =>
      e.receipt.gid == e.gid && e.receipt.version == e.version && e.receipt.eventSeq == e.eventSeq && e.receipt.op == e.op
    case MessageNotice(m) =>
      && m.receipt.gid == m.gid && m.receipt.version == m.version && m.receipt.eventSeq == m.eventSeq
      && m.receipt.op == GroupSend && m.receipt.message.Some? && m.receipt.acceptedAt == m.acceptedAt
  }

  predicate Admits(e: Event, owner: Did) {
    e.etype == MemberActivated && e.subject == Some(owner) && e.status == Some(Active)
  }

  /** A v2 activation of a member whose membership had ended, at a later version. */
  predicate Reseats(v: View, wire: Wire, e: Event, owner: Did) {
    wire == BaseV2 && v.status != Active && Admits(e, owner) && e.version > v.version
  }

  /** A roster read from this host has shown the event's effect. */
  predicate SeenInRoster(v: View, source: Did, eventSeq: int, version: int) {
    v.host == source && 0 < eventSeq <= v.observedSeq && 0 < version <= v.observedVersion
  }

  /** The departure of the owner that this Home forwarded itself, by the very receipt it got back. */
  ghost predicate OwnDeparture(h: Home, wire: Wire, e: Event, owner: Did) {
    && wire == BaseV2 && e.subject == Some(owner)
    && ((e.receipt.op == GroupLeave && e.etype == MemberLeft && e.status == Some(Left))
        || (e.receipt.op == GroupRemove && e.etype == MemberRemoved && e.status == Some(Removed)))
    && exists k :: k in h.operations && k.op == e.receipt.op && h.operations[k].result.receipt == e.receipt
  }

  /** Every remembered answer stands under its receipt's own operation and ended this owner's membership. */
  ghost predicate AnswersKept(h: Home, owner: Did) {
    forall k :: k in h.operations ==>
      var r := h.operations[k];
      && k == OpKey(r.result.receipt.actor, r.result.receipt.op, r.result.receipt.opId) && TerminalMethod(k.op)
      && r.wire == BaseV2 && r.digest == r.result.receipt.digest && TerminalSubject(k.op, r.result) == Some(owner)
      && r.result.eventSeq == r.result.receipt.eventSeq && r.result.version == r.result.receipt.version
  }

  lemma MatchesIffOwn(h: Home, wire: Wire, e: Event, owner: Did)
    requires AnswersKept(h, owner)
    ensures MatchesForwardedTerminal(h, wire, e, owner) <==> OwnDeparture(h, wire, e, owner)
  {
  }

  /** Where a state change stands towards a view when it takes effect. */
  ghost predicate Lands(h: Home, source: Did, wire: Wire, e: Event, owner: Did) {
    match h.view
    case None => Admits(e, owner)
    case Some(v) =>
      || e.eventSeq == v.eventSeq + 1
      || (e.eventSeq > v.eventSeq && Reseats(v, wire, e, owner))
      || (e.eventSeq == v.eventSeq && !SeenInRoster(v, source, e.eventSeq, e.version) && OwnDeparture(h, wire, e, owner))
  }

  /**
   * A state change takes effect if and only if its receipt is its own, it was not seen before, and it is
   * the owner's first activation, the event right after the view, a re-activation, or the departure this
   * Home forwarded. Without effect it is taken in when a roster read showed it, or when it repeats; and
   * each refusal names its reason.
   */
  lemma ChangeIsDecided(h: Home, source: Did, wire: Wire, e: Event, owner: Did, r: Result<Accepted, HomeError>)
    requires AnswersKept(h, owner) && r == StateChanged(h, source, wire, e, owner)
    ensures var seen := InboundKey(source, e.eventSeq, StateKind) in h.inbound;
            && (r.Ok? && r.value.answer == Applied <==> Signed(StateNotice(e)) && !seen && Lands(h, source, wire, e, owner))
            && (r.Ok? && r.value.answer == Superseded <==>
                  && Signed(StateNotice(e)) && !seen && h.view.Some? && e.eventSeq <= h.view.value.eventSeq
                  && SeenInRoster(h.view.value, source, e.eventSeq, e.version))
            && (r.Ok? && r.value.answer == Duplicate ==>
                  || (seen && h.inbound[InboundKey(source, e.eventSeq, StateKind)] == StateNotice(e))
                  || (h.view.Some? && e.eventSeq < h.view.value.eventSeq && OwnDeparture(h, wire, e, owner)))
            && (r.Err? ==>
                  match r.error
                  case InvalidReceipt => !Signed(StateNotice(e))
                  case ProjectionGap => h.view.Some? && e.eventSeq > h.view.value.eventSeq + 1 && !Reseats(h.view.value, wire, e, owner)
                  case MembershipRequired => h.view.None? && !Admits(e, owner)
                  case InboundEventConflict => seen && h.inbound[InboundKey(source, e.eventSeq, StateKind)] != StateNotice(e)
                  case StaleEvent => h.view.Some? && !seen && e.eventSeq <= h.view.value.eventSeq && !OwnDeparture(h, wire, e, owner)
                  case _ => false)
  {
    hide MatchesForwardedTerminal, OwnDeparture, AnswersKept, ApplyChange;
    MatchesIffOwn(h, wire, e, owner);
  }

  lemma AppliedIs(h: Home, source: Did, wire: Wire, e: Event, owner: Did, r: Result<Accepted, HomeError>)
    requires r == StateChanged(h, source, wire, e, owner) && r.Ok? && r.value.answer == Applied
    ensures r.value.home
            == ApplyChange(h.(inbound := h.inbound[InboundKey(source, e.eventSeq, StateKind) := StateNotice(e)]), source, wire, e, owner)
  {
    hide MatchesForwardedTerminal, EventBound, CoveredByObservation, ApplyChange, Reactivates;
  }

  /** A state change that takes effect leaves exactly this: the event's numbers, documents and subject, and nothing else moved. */
  lemma ChangeLeaves(h: Home, source: Did, wire: Wire, e: Event, owner: Did, r: Result<Accepted, HomeError>)
    requires r == StateChanged(h, source, wire, e, owner) && r.Ok? && r.value.answer == Applied
    ensures var h' := r.value.home;
            && h'.inbound == h.inbound[InboundKey(source, e.eventSeq, StateKind) := StateNotice(e)]
            && h'.log == h.log + [StateChangedEntry(e)] && h'.messages == h.messages && h'.operations == h.operations
            && (e.subject.None? ==> h'.roster == h.roster)
            && (e.subject.Some? ==>
                  && h'.roster == h.roster[e.subject.value := h'.roster[e.subject.value]]
                  && h'.roster[e.subject.value].role == e.role.GetOr(MemberRole)
                  && h'.roster[e.subject.value].status ==
                     if e.status.Some? then e.status.value
                     else if e.etype == MemberRemoved then Removed else if e.etype == MemberLeft then Left else Active)
    ensures var v' := r.value.home.view;
            && v'.Some? && v'.value.version == e.version && v'.value.eventSeq == e.eventSeq && v'.value.wire == wire
            && v'.value.host == (if h.view.Some? then h.view.value.host else source)
            && v'.value.observedSeq == (if h.view.Some? then h.view.value.observedSeq else 0)
            && v'.value.observedVersion == (if h.view.Some? then h.view.value.observedVersion else 0)
            && v'.value.profile == (if e.profile.Some? && e.profile.value.Obj? then e.profile.value
                                    else if h.view.Some? then h.view.value.profile else Obj(map[]))
            && v'.value.policy == (if e.policy.Some? && e.policy.value.Obj? then e.policy.value
                                   else if h.view.Some? then h.view.value.policy else Obj(map[]))
    ensures var v' := r.value.home.view.value;
            var anew := h.view.None? || Reseats(h.view.value, wire, e, owner);
            && v'.role == (if anew then e.role.GetOr(MemberRole) else h.view.value.role)
            && v'.status == (if e.subject == Some(owner) && e.etype == MemberLeft then Left
                             else if e.subject == Some(owner) && e.etype == MemberRemoved then Removed
                             else if anew then Active else h.view.value.status)
  {
    hide StateChanged;
    AppliedIs(h, source, wire, e, owner, r);
  }

  predicate InFlight(h: Home, wire: Wire, m: Message, owner: Did) {
    h.view.Some? && AcceptedBeforeTerminal(h, h.view.value, wire, owner, m.eventSeq, m.version)
  }

  predicate RowTaken(h: Home, m: Message) {
    m.eventSeq in h.messages || exists s :: s in h.messages && h.messages[s].receipt.message == m.receipt.message
  }

  /** Where a message stands towards a view when it takes effect. */
  predicate Arrives(h: Home, source: Did, wire: Wire, m: Message, owner: Did) {
    || InFlight(h, wire, m, owner)
    || (h.view.Some? && h.view.value.status == Active
        && (m.eventSeq == h.view.value.eventSeq + 1
            || (m.eventSeq <= h.view.value.eventSeq && SeenInRoster(h.view.value, source, m.eventSeq, m.version))))
  }

  /**
   * A message takes effect if and only if its receipt is its own, neither it nor its row was seen before,
   * and an active view stands right before it or was read past it, or it fell inside the interval that a
   * known departure ended. A repeat changes nothing, and each refusal names its reason.
   */
  lemma MessageIsDecided(h: Home, source: Did, wire: Wire, m: Message, owner: Did, r: Result<Accepted, HomeError>)
    requires r == Incoming(h, source, wire, m, owner)
    ensures r.Ok? && r.value.answer == Applied <==>
              && Signed(MessageNotice(m)) && InboundKey(source, m.eventSeq, MessageKind) !in h.inbound && !RowTaken(h, m)
              && Arrives(h, source, wire, m, owner)
    ensures r.Ok? && r.value.answer != Applied ==>
              && r.value == Accepted(h, Duplicate) && InboundKey(source, m.eventSeq, MessageKind) in h.inbound
              && h.inbound[InboundKey(source, m.eventSeq, MessageKind)] == MessageNotice(m)
    ensures r.Err? ==>
              match r.error
              case InvalidReceipt => !Signed(MessageNotice(m))
              case MembershipRequired => h.view.None? || (h.view.value.status != Active && !InFlight(h, wire, m, owner))
              case ProjectionGap => h.view.Some? && m.eventSeq > h.view.value.eventSeq + 1
              case InboundEventConflict =>
                && InboundKey(source, m.eventSeq, MessageKind) in h.inbound
                && h.inbound[InboundKey(source, m.eventSeq, MessageKind)] != MessageNotice(m)
              case StaleEvent =>
                && h.view.Some? && m.eventSeq <= h.view.value.eventSeq && !InFlight(h, wire, m, owner)
                && !SeenInRoster(h.view.value, source, m.eventSeq, m.version)
              case MessageRowConflict => RowTaken(h, m)
              case _ => false
  {
    InFlightIsBehind(h, wire, m, owner);
    hide AcceptedBeforeTerminal;
  }

  lemma InFlightIsBehind(h: Home, wire: Wire, m: Message, owner: Did)
    ensures InFlight(h, wire, m, owner) ==> m.eventSeq < h.view.value.eventSeq
  {
  }

  /** A message that takes effect is stored and announced, and moves the view up to itself at most. */
  lemma MessageLeaves(h: Home, source: Did, wire: Wire, m: Message, owner: Did, r: Result<Accepted, HomeError>)
    requires r == Incoming(h, source, wire, m, owner) && r.Ok? && r.value.answer == Applied
    ensures h.view.Some? && m.receipt.message.Some?
    ensures var h', v := r.value.home, h.view.value;
            && h'.inbound == h.inbound[InboundKey(source, m.eventSeq, MessageKind) := MessageNotice(m)]
            && h'.messages == h.messages[m.eventSeq := m] && h'.log == h.log + [MessageEntry(m.eventSeq, m.receipt.message.value)]
            && h'.roster == h.roster && h'.operations == h.operations
            && h'.view == Some(v.(wire := wire,
                                  eventSeq := if m.eventSeq > v.eventSeq then m.eventSeq else v.eventSeq,
                                  version := if m.version > v.version then m.version else v.version))
  {
    hide AcceptedBeforeTerminal, CoveredByObservation;
  }

  /** What a roster answer says of its own moment: its number, or the view's when it leaves it out. */
  function Moment(s: Roster, v: View): int {
    match s.eventSeq
    case SeqNumber(n) => n
    case _ => v.eventSeq
  }

  /** Every entry is active, nobody is listed twice, and no number is negative. */
  predicate WellFormed(s: Roster) {
    && s.version >= 0 && (s.eventSeq.SeqNumber? ==> s.eventSeq.n >= 0)
    && (forall i :: 0 <= i < |s.members| ==> s.members[i].status == Active)
    && (forall i, j :: 0 <= i < j < |s.members| ==> s.members[i].member != s.members[j].member)
  }

  /** The reinserted rows are the listing, entry by entry. */
  lemma RowsAreListed(members: seq<Listed>, owner: Did)
    ensures forall d :: d in MemberRows(members, |members|) <==> exists i :: 0 <= i < |members| && members[i].member == d
    ensures ListsEachOnce(members) ==>
              forall i :: 0 <= i < |members| ==>
                && members[i].member in MemberRows(members, |members|)
                && MemberRows(members, |members|)[members[i].member] == MemberView(members[i].role, members[i].status)
  {
    hide MemberRows;
    assert members[..|members|] == members;
    forall d
      ensures d in MemberRows(members, |members|) <==> exists i :: 0 <= i < |members| && members[i].member == d
    {
      MemberRowsList(members, |members|, d);
    }
    MemberRowsList(members, |members|, owner);
  }

  /**
   * A roster answer replaces the projection if and only if it is well formed, lists the owner, finds an
   * active view and is no older than it in version and event number. Otherwise nothing changes.
   */
  lemma RefreshIsDecided(h: Home, s: Roster, owner: Did, r: Result<(Home, bool), HomeError>)
    requires r == Refresh(h, s, owner)
    ensures var listed := exists i :: 0 <= i < |s.members| && s.members[i].member == owner;
            && (r.Ok? && r.value.1 <==>
                  && WellFormed(s) && listed && h.view.Some? && h.view.value.status == Active && s.eventSeq != NullSeq
                  && s.version >= h.view.value.version && Moment(s, h.view.value) >= h.view.value.eventSeq)
            && (r.Ok? && !r.value.1 ==> r.value.0 == h)
            && (r.Err? ==>
                  match r.error
                  case SnapshotInvalid => !WellFormed(s)
                  case SnapshotMembershipRequired => !listed
                  case SnapshotSeqUnreadable => s.eventSeq == NullSeq && h.view.Some? && h.view.value.status == Active
                  case _ => false)
  {
    hide MemberRows;
  }

  /** A projection replaced by a roster answer is that answer, and is announced if and only if it is newer than what was read before. */
  lemma RefreshLeaves(h: Home, s: Roster, owner: Did, h': Home)
    requires Refresh(h, s, owner) == Ok((h', true))
    ensures h.view.Some? && h'.view.Some?
    ensures var v, v' := h.view.value, h'.view.value;
            && v'.host == s.host && v'.wire == s.wire && v'.status == Active
            && v'.version == v'.observedVersion == s.version && v'.eventSeq == v'.observedSeq == Moment(s, v)
            && v'.profile == (if s.profile.Some? && s.profile.value.Obj? then s.profile.value else v.profile)
            && v'.policy == (if s.policy.Some? && s.policy.value.Obj? then s.policy.value else v.policy)
            && h'.log == h.log + if s.version > v.observedVersion || Moment(s, v) > v.observedSeq then [RefreshedEntry] else []
    ensures forall i :: 0 <= i < |s.members| && s.members[i].member == owner ==> h'.view.value.role == s.members[i].role
    ensures forall d :: d in h'.roster <==> exists i :: 0 <= i < |s.members| && s.members[i].member == d
    ensures forall i :: 0 <= i < |s.members| ==>
              s.members[i].member in h'.roster && h'.roster[s.members[i].member] == MemberView(s.members[i].role, Active)
    ensures h'.inbound == h.inbound && h'.messages == h.messages && h'.operations == h.operations
  {
    hide MemberRows;
    RowsAreListed(s.members, owner);
  }

  /**
   * The answer to a forwarded departure is accepted if and only if it is a leave or remove of this owner,
   * its numbers are its receipt's, and it does not contradict one remembered under the same operation. It
   * is remembered, and ends the membership in a view that is not past it.
   */
  lemma TerminalIsDecided(h: Home, op: Method, result: OpResult, owner: Did, r: Result<Home, HomeError>)
    requires AnswersKept(h, owner) && r == Forwarded(h, op, result, owner)
    ensures var key := OpKey(result.receipt.actor, op, result.receipt.opId);
            && (r.Ok? <==>
                  && (op == GroupLeave || op == GroupRemove) && (if op == GroupLeave then result.leaver else result.member) == Some(owner)
                  && result.receipt.op == op && result.receipt.eventSeq == result.eventSeq && result.receipt.version == result.version
                  && (key in h.operations ==> h.operations[key].result.receipt == result.receipt))
            && (r.Ok? ==>
                  && r.value.operations == (if key in h.operations then h.operations else h.operations[key := OpRecord(result.receipt.digest, BaseV2, result)])
                  && r.value.inbound == h.inbound && r.value.messages == h.messages && r.value.roster == h.roster && r.value.log == h.log
                  && r.value.view ==
                     if h.view.Some? && h.view.value.eventSeq <= result.eventSeq
                     then Some(h.view.value.(status := if op == GroupLeave then Left else Removed, version := result.version, eventSeq := result.eventSeq))
                     else h.view)
            && (r.Err? ==> r.error == InvalidReceipt || (r.error == OperationReceiptConflict && key in h.operations && h.operations[key].result.receipt != result.receipt))
  {
  }

  // ------------------------------------------------------------------------------------------
  // Over runs
  // ------------------------------------------------------------------------------------------

  /** What a projection is worth against anyone: only signed notices, under their own keys; a view only after an activation. */
  ghost predicate Sane(h: Home, owner: Did) {
    && AnswersKept(h, owner)
    && (forall k :: k in h.inbound ==> Signed(h.inbound[k]) && k.eventSeq == h.inbound[k].EventSeq() && k.kind == h.inbound[k].Kind())
    && (forall s :: s in h.messages ==> Signed(MessageNotice(h.messages[s])) && h.messages[s].eventSeq == s)
    && (forall s, t :: s in h.messages && t in h.messages && s != t ==> h.messages[s].receipt.message != h.messages[t].receipt.message)
    && (h.view.Some? ==> LatestActivation(h.log, owner).Some?)
  }

  lemma ChangeKeepsSane(h: Home, source: Did, wire: Wire, e: Event, owner: Did, r: Result<Accepted, HomeError>)
    requires Sane(h, owner) && r == StateChanged(h, source, wire, e, owner) && r.Ok?
    ensures Sane(r.value.home, owner)
  {
    hide StateChanged, Lands, SeenInRoster, OwnDeparture, LatestActivation, Signed, Reseats, Admits;
    ChangeIsDecided(h, source, wire, e, owner, r);
    if r.value.answer == Applied {
      ChangeLeaves(h, source, wire, e, owner, r);
      LatestActivationOfAppend(h.log, StateChangedEntry(e), owner);
      if h.view.None? {
        FirstIsActivation(h, source, wire, e, owner);
      }
    } else {
      UnappliedIs(h, source, wire, e, owner, r);
    }
  }

  lemma FirstIsActivation(h: Home, source: Did, wire: Wire, e: Event, owner: Did)
    requires h.view.None? && Lands(h, source, wire, e, owner)
    ensures Activation(e, owner)
  {
  }

  lemma UnappliedIs(h: Home, source: Did, wire: Wire, e: Event, owner: Did, r: Result<Accepted, HomeError>)
    requires r == StateChanged(h, source, wire, e, owner) && r.Ok? && r.value.answer != Applied
    ensures Signed(StateNotice(e))
    ensures r.value.home == h || r.value.home == h.(inbound := h.inbound[InboundKey(source, e.eventSeq, StateKind) := StateNotice(e)])
  {
    hide MatchesForwardedTerminal, CoveredByObservation, ApplyChange, Reactivates;
  }

  lemma MessageKeepsSane(h: Home, source: Did, wire: Wire, m: Message, owner: Did, r: Result<Accepted, HomeError>)
    requires Sane(h, owner) && r == Incoming(h, source, wire, m, owner) && r.Ok?
    ensures Sane(r.value.home, owner)
  {
    hide Incoming, Arrives, LatestActivation;
    MessageIsDecided(h, source, wire, m, owner, r);
    if r.value.answer == Applied {
      MessageLeaves(h, source, wire, m, owner, r);
      LatestActivationOfAppend(h.log, MessageEntry(m.eventSeq, m.receipt.message.value), owner);
    }
  }

  lemma ListingKeepsSane(h: Home, s: Roster, owner: Did, r: Result<(Home, bool), HomeError>)
    requires Sane(h, owner) && r == Refresh(h, s, owner) && r.Ok?
    ensures Sane(r.value.0, owner)
  {
    hide Refresh, LatestActivation, WellFormed;
    RefreshIsDecided(h, s, owner, r);
    if r.value.1 {
      RefreshLeaves(h, s, owner, r.value.0);
      LatestActivationOfAppend(h.log, RefreshedEntry, owner);
      assert h.log + [] == h.log;
    }
  }

  lemma TerminalKeepsSane(h: Home, op: Method, result: OpResult, owner: Did, r: Result<Home, HomeError>)
    requires Sane(h, owner) && r == Forwarded(h, op, result, owner) && r.Ok?
    ensures Sane(r.value, owner)
  {
    hide Forwarded, LatestActivation;
    TerminalIsDecided(h, op, result, owner, r);
  }

  lemma TakingKeepsSane(h: Home, input: Input, owner: Did)
    requires Sane(h, owner)
    ensures Sane(Take(h, input, owner), owner)
  {
    hide Sane, StateChanged, Incoming, Refresh, Forwarded;
    if Accepts(h, input, owner) {
      match input {
        case Notified(source, wire, StateNotice(e)) => ChangeKeepsSane(h, source, wire, e, owner, StateChanged(h, source, wire, e, owner));
        case Notified(source, wire, MessageNotice(m)) => MessageKeepsSane(h, source, wire, m, owner, Incoming(h, source, wire, m, owner));
        case Listing(answer) => ListingKeepsSane(h, answer, owner, Refresh(h, answer, owner));
        case TerminalAnswer(op, result) => TerminalKeepsSane(h, op, result, owner, Forwarded(h, op, result, owner));
      }
    }
  }

  lemma EmptyIsSane(owner: Did)
    ensures Sane(EMPTY, owner)
  {
  }

  /**
   * Whatever a network sends: every recorded notice and stored message carries its own receipt under its
   * own number, no message is stored twice, every remembered departure is one of this owner's, and there
   * is no view without an activation of the owner that was announced.
   */
  lemma {:induction false} AlwaysSane(inputs: seq<Input>, owner: Did)
    ensures Sane(TakeAll(EMPTY, inputs, owner), owner)
  {
    hide Sane, Take;
    if inputs == [] {
      EmptyIsSane(owner);
    } else {
      AlwaysSane(inputs[..|inputs| - 1], owner);
      TakingKeepsSane(TakeAll(EMPTY, inputs[..|inputs| - 1], owner), inputs[|inputs| - 1], owner);
    }
  }

  /** How one input may move a view from one event number to another. */
  ghost predicate MovesView(h: Home, input: Input, owner: Did, v: View, v': View) {
    match input
    case Notified(_, wire, StateNotice(e)) =>
      v'.eventSeq == e.eventSeq && (v'.eventSeq == v.eventSeq + 1 || Reseats(v, wire, e, owner))
    case Notified(_, _, MessageNotice(m)) => v'.eventSeq == m.eventSeq == v.eventSeq + 1 && v.status == Active
    case Listing(answer) => v.status == Active && v'.eventSeq == v'.observedSeq == Moment(answer, v)
    case TerminalAnswer(_, result) => v'.status != Active && v'.eventSeq == result.receipt.eventSeq
  }

  /**
   * A view moves on only by the next event, by a re-activation of an ended membership, by a roster read
   * that is not older, or by a departure of its own: no notification ever makes it skip one.
   */
  lemma ViewNeverSkips(inputs: seq<Input>, owner: Did)
    requires inputs != []
    ensures var h, h' := TakeAll(EMPTY, inputs[..|inputs| - 1], owner), TakeAll(EMPTY, inputs, owner);
            h.view.Some? ==>
              && h'.view.Some?
              && (h'.view.value.eventSeq != h.view.value.eventSeq ==>
                    h'.view.value.eventSeq > h.view.value.eventSeq && MovesView(h, inputs[|inputs| - 1], owner, h.view.value, h'.view.value))
  {
    hide Sane, StateChanged, Incoming, Refresh, Forwarded, Lands, AcceptedBeforeTerminal;
    var h, input := TakeAll(EMPTY, inputs[..|inputs| - 1], owner), inputs[|inputs| - 1];
    AlwaysSane(inputs[..|inputs| - 1], owner);
    if h.view.Some? && Accepts(h, input, owner) {
      match input {
        case Notified(source, wire, StateNotice(e)) => ChangeMoves(h, source, wire, e, owner, StateChanged(h, source, wire, e, owner));
        case Notified(source, wire, MessageNotice(m)) => MessageMoves(h, source, wire, m, owner, Incoming(h, source, wire, m, owner));
        case Listing(answer) =>
          RefreshIsDecided(h, answer, owner, Refresh(h, answer, owner));
          if Refresh(h, answer, owner).value.1 {
            RefreshLeaves(h, answer, owner, Refresh(h, answer, owner).value.0);
          }
        case TerminalAnswer(op, result) =>
          SaneAnswers(h, owner);
          TerminalIsDecided(h, op, result, owner, Forwarded(h, op, result, owner));
      }
    }
  }

  lemma SaneAnswers(h: Home, owner: Did)
    requires Sane(h, owner)
    ensures AnswersKept(h, owner)
  {
  }

  lemma ChangeMoves(h: Home, source: Did, wire: Wire, e: Event, owner: Did, r: Result<Accepted, HomeError>)
    requires Sane(h, owner) && r == StateChanged(h, source, wire, e, owner) && r.Ok? && h.view.Some?
    ensures var v, v' := h.view.value, r.value.home.view;
            v'.Some? && (v'.value.eventSeq != v.eventSeq ==>
                           v'.value.eventSeq > v.eventSeq && v'.value.eventSeq == e.eventSeq
                           && (v'.value.eventSeq == v.eventSeq + 1 || Reseats(v, wire, e, owner)))
  {
    hide StateChanged, Sane, AnswersKept, OwnDeparture, SeenInRoster, Signed;
    SaneAnswers(h, owner);
    ChangeIsDecided(h, source, wire, e, owner, r);
    if r.value.answer == Applied {
      ChangeLeaves(h, source, wire, e, owner, r);
    } else {
      UnappliedIs(h, source, wire, e, owner, r);
    }
  }

  lemma MessageMoves(h: Home, source: Did, wire: Wire, m: Message, owner: Did, r: Result<Accepted, HomeError>)
    requires r == Incoming(h, source, wire, m, owner) && r.Ok? && h.view.Some?
    ensures var v, v' := h.view.value, r.value.home.view;
            v'.Some? && (v'.value.eventSeq != v.eventSeq ==> v'.value.eventSeq == m.eventSeq == v.eventSeq + 1 && v.status == Active)
  {
    hide Incoming, SeenInRoster, Signed, RowTaken;
    InFlightIsBehind(h, wire, m, owner);
    hide InFlight;
    MessageIsDecided(h, source, wire, m, owner, r);
    if r.value.answer == Applied {
      MessageLeaves(h, source, wire, m, owner, r);
    }
  }
}
