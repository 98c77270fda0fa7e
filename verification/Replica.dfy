/**
 * One Member Home against the stream of one Group Host: what its projection is worth at every moment,
 * and which notification it can refuse.
 */
module Replica {
  import opened Common
  import opened MergePatch
  import opened GroupPolicy
  import opened GroupTypes
  import opened Outbox
  import opened GroupHost
  import opened GroupHistory
  import opened MemberHome

  /** One event of the Host as seen from outside: its notification and the group state after it. */
  datatype Beat = Beat(notice: Option<Notice>, state: GroupState)

  /** feed[s] is event s; feed[0] and feed[1] are the group as created. */
  type Feed = seq<Beat>

  ghost predicate Follows(gid: Did, prev: GroupState, beat: Beat, s: nat) {
    match beat.notice
    case None => false
    case Some(StateNotice(e)) => WellRecorded(gid, prev, Changed(e), map[], s) && beat.state == Replay(prev, Changed(e))
    case Some(MessageNotice(m)) =>
      m.gid == gid && m.eventSeq == s && m.version == prev.version && MessageBound(m) && beat.state == prev && Documented(prev)
  }

  ghost predicate FeedOk(feed: Feed, gid: Did) {
    && |feed| >= 2 && feed[0] == feed[1] && feed[1].notice == None && feed[1].state.version >= 1
    && (forall s :: 2 <= s < |feed| ==> Follows(gid, feed[s - 1].state, feed[s], s))
    && (forall s, t :: 2 <= s < |feed| && 2 <= t < |feed| && s != t && MessageAt(feed, s) && MessageAt(feed, t) ==>
          feed[s].notice.value.message.receipt.message != feed[t].notice.value.message.receipt.message)
  }

  predicate MessageAt(feed: Feed, s: int) {
    2 <= s < |feed| && feed[s].notice.Some? && feed[s].notice.value.MessageNotice?
  }

  predicate ActiveAt(feed: Feed, owner: Did, s: int) {
    0 <= s < |feed| && ActiveIn(feed[s].state, owner)
  }

  predicate DepartsAt(feed: Feed, owner: Did, s: int) {
    && 2 <= s < |feed| && feed[s].notice.Some? && feed[s].notice.value.StateNotice?
    && Departure(feed[s].notice.value.event) && feed[s].notice.value.event.subject == Some(owner)
  }

  predicate ActivatesAt(feed: Feed, owner: Did, s: int) {
    && 2 <= s < |feed| && feed[s].notice.Some? && feed[s].notice.value.StateNotice?
    && feed[s].notice.value.event.etype == MemberActivated && feed[s].notice.value.event.subject == Some(owner)
  }

  /** The events a remote member hears about: those it is active after, and its own departures (v2). */
  predicate Notified(feed: Feed, owner: Did, s: int) {
    2 <= s < |feed| && (ActiveAt(feed, owner, s) || DepartsAt(feed, owner, s))
  }

  // ------------------------------------------------------------------------------------------
  // Facts about the feed alone
  // ------------------------------------------------------------------------------------------

  lemma Membership(feed: Feed, gid: Did, owner: Did, s: int)
    requires FeedOk(feed, gid) && 2 <= s < |feed|
    ensures ActiveAt(feed, owner, s - 1) ==> ActiveAt(feed, owner, s) || DepartsAt(feed, owner, s)
    ensures !ActiveAt(feed, owner, s - 1) && Notified(feed, owner, s) ==> ActivatesAt(feed, owner, s) && ActiveAt(feed, owner, s)
    ensures ActivatesAt(feed, owner, s) ==> ActiveAt(feed, owner, s) && !ActiveAt(feed, owner, s - 1)
    ensures DepartsAt(feed, owner, s) ==> !ActiveAt(feed, owner, s)
    ensures feed[s].state.version == feed[s - 1].state.version + if MessageAt(feed, s) then 0 else 1
    ensures feed[s].notice.Some? && feed[s].notice.value.EventSeq() == s && feed[s].notice.value.Version() == feed[s].state.version
  {
    assert Follows(gid, feed[s - 1].state, feed[s], s);
  }

  lemma {:induction false} VersionsGrow(feed: Feed, gid: Did, s: int, t: int)
    requires FeedOk(feed, gid) && 1 <= s <= t < |feed|
    ensures 1 <= feed[s].state.version <= feed[t].state.version
    ensures s < t && !MessageAt(feed, t) ==> feed[s].state.version < feed[t].state.version
    decreases t
  {
    if s < t {
      VersionsGrow(feed, gid, s, t - 1);
      assert Follows(gid, feed[t - 1].state, feed[t], t);
    } else if s > 1 {
      VersionsGrow(feed, gid, s - 1, t - 1);
      assert Follows(gid, feed[t - 1].state, feed[t], t);
    }
  }

  /** With no notified event in between, the next one re-activates the owner. */
  lemma {:induction false} SilenceEndsWithActivation(feed: Feed, gid: Did, owner: Did, s: int, t: int)
    requires FeedOk(feed, gid) && 1 <= s < t < |feed| && !ActiveAt(feed, owner, s)
    requires Notified(feed, owner, t) && forall r :: s < r < t ==> !Notified(feed, owner, r)
    ensures ActivatesAt(feed, owner, t)
    decreases t - s
  {
    if s + 1 < t {
      assert !Notified(feed, owner, s + 1);
      SilenceEndsWithActivation(feed, gid, owner, s + 1, t);
    } else {
      Membership(feed, gid, owner, t);
    }
  }

  // ------------------------------------------------------------------------------------------
  // What the projection is worth
  // ------------------------------------------------------------------------------------------

  /** Where one owner at this Home stands towards this Host: the constants of the run. */
  datatype Link = Link(gid: Did, host: Did, owner: Did, home: Did)

  function KindAt(feed: Feed, s: int): NoticeKind {
    if MessageAt(feed, s) then MessageKind else StateKind
  }

  predicate HasRecorded(h: Home, feed: Feed, link: Link, s: int) {
    2 <= s < |feed| && InboundKey(link.host, s, KindAt(feed, s)) in h.inbound
  }

  ghost predicate InboundOk(h: Home, feed: Feed, link: Link) {
    forall k :: k in h.inbound ==>
      && k.source == link.host && Notified(feed, link.owner, k.eventSeq) && k.kind == KindAt(feed, k.eventSeq)
      && feed[k.eventSeq].notice == Some(h.inbound[k])
  }

  /** Notifications are taken in: whatever is recorded, everything notified before it is recorded too. */
  ghost predicate RecordedInOrder(h: Home, feed: Feed, link: Link) {
    forall s, t :: HasRecorded(h, feed, link, t) && Notified(feed, link.owner, s) && s < t ==> HasRecorded(h, feed, link, s)
  }

  /** The view shows the Host as it was after some event; its documents only while the owner is active. */
  ghost predicate ViewShows(v: View, feed: Feed, link: Link, s: int) {
    && 2 <= s < |feed| && v.eventSeq == s
    && v.host == link.host && v.wire == BaseV2
    && v.version == feed[s].state.version
    && (v.status == Active <==> ActiveAt(feed, link.owner, s))
    && (v.status == Active ==>
          && v.profile == feed[s].state.profile && v.policy == feed[s].state.policy
          && v.role == feed[s].state.roster[link.owner].role)
    && (v.status != Active ==>
          DepartsAt(feed, link.owner, s) && Some(v.status) == feed[s].notice.value.event.status)
    && 0 <= v.observedSeq <= s
    && (v.observedSeq > 0 ==> v.observedVersion == feed[v.observedSeq].state.version)
  }

  /** A response this Home forwarded and got back: the departure it is the receipt of. */
  ghost predicate OperationOk(k: OpKey, r: OpRecord, feed: Feed, link: Link) {
    && r.wire == BaseV2 && r.digest == r.result.receipt.digest
    && r.result.eventSeq == r.result.receipt.eventSeq && r.result.version == r.result.receipt.version
    && DepartsAt(feed, link.owner, r.result.eventSeq)
    && feed[r.result.eventSeq].notice.value.event.receipt == r.result.receipt
    && k == OpKey(r.result.receipt.actor, r.result.receipt.op, r.result.receipt.opId)
    && TerminalSubject(k.op, r.result) == Some(link.owner)
  }

  ghost predicate OperationsOk(h: Home, feed: Feed, link: Link) {
    forall k :: k in h.operations ==> OperationOk(k, h.operations[k], feed, link)
  }

  /** The view is at a recorded event, or was carried past them by a roster read or by a forwarded departure. */
  ghost predicate Justified(h: Home, v: View, feed: Feed, link: Link) {
    || HasRecorded(h, feed, link, v.eventSeq)
    || (v.status == Active && v.observedSeq == v.eventSeq)
    || (v.status != Active && exists k :: k in h.operations && h.operations[k].result.eventSeq == v.eventSeq)
  }

  ghost predicate ViewOk(h: Home, feed: Feed, link: Link) {
    && (forall s :: HasRecorded(h, feed, link, s) ==> h.view.Some? && s <= h.view.value.eventSeq)
    && (h.view.Some? ==>
          && ViewShows(h.view.value, feed, link, h.view.value.eventSeq)
          && Justified(h, h.view.value, feed, link)
          && LatestActivation(h.log, link.owner).Some?)
  }

  ghost predicate MessagesOk(h: Home, feed: Feed, link: Link) {
    forall s :: s in h.messages ==>
      MessageAt(feed, s) && HasRecorded(h, feed, link, s) && feed[s].notice == Some(MessageNotice(h.messages[s]))
  }

  ghost predicate LogOk(h: Home, feed: Feed, link: Link) {
    forall i :: 0 <= i < |h.log| && h.log[i].StateChangedEntry? ==>
      && HasRecorded(h, feed, link, h.log[i].event.eventSeq)
      && feed[h.log[i].event.eventSeq].notice == Some(StateNotice(h.log[i].event))
  }

  /** No activation of the owner in (s, t]. */
  ghost predicate SameInterval(feed: Feed, owner: Did, s: int, t: int) {
    forall r :: s < r <= t ==> !ActivatesAt(feed, owner, r)
  }

  /** Once a roster was read in the current active interval, the roster view stays the Host's. */
  ghost predicate RosterOk(h: Home, feed: Feed, link: Link) {
    h.view.Some? && h.view.value.status == Active && h.view.value.observedSeq > 0
    && SameInterval(feed, link.owner, h.view.value.observedSeq, h.view.value.eventSeq)
    && 0 <= h.view.value.eventSeq < |feed| ==>
      ActiveRoles(h.roster) == ActiveRoles(feed[h.view.value.eventSeq].state.roster)
  }

  ghost predicate HomeOk(h: Home, feed: Feed, link: Link) {
    && InboundOk(h, feed, link) && RecordedInOrder(h, feed, link) && ViewOk(h, feed, link)
    && OperationsOk(h, feed, link) && MessagesOk(h, feed, link) && LogOk(h, feed, link) && RosterOk(h, feed, link)
  }

  /**
   * A state change that a forwarded departure overtook, that no roster read had shown before it, and
   * that is not itself a departure this Home forwarded: the view refuses it for good.
   */
  predicate Overtaken(h: Home, notice: Notice, owner: Did) {
    && h.view.Some? && h.view.value.status != Active && notice.StateNotice?
    && h.view.value.observedSeq < notice.event.eventSeq < h.view.value.eventSeq
    && !MatchesForwardedTerminal(h, BaseV2, notice.event, owner)
  }

  /** s is the next notification due: everything notified before it has been taken in. */
  ghost predicate Due(h: Home, feed: Feed, link: Link, s: int) {
    Notified(feed, link.owner, s) && forall r :: r < s && Notified(feed, link.owner, r) ==> HasRecorded(h, feed, link, r)
  }

  // ------------------------------------------------------------------------------------------
  // Where the next notification falls
  // ------------------------------------------------------------------------------------------

  /** A notification ahead of the view is the very next event, or the owner's re-activation. */
  lemma DueAhead(h: Home, v: View, feed: Feed, link: Link, s: int)
    requires FeedOk(feed, link.gid) && HomeOk(h, feed, link) && h.view == Some(v)
    requires Due(h, feed, link, s) && s > v.eventSeq
    ensures if v.status == Active then s == v.eventSeq + 1 else ActivatesAt(feed, link.owner, s)
  {
    assert Notified(feed, link.owner, v.eventSeq);
    if v.status == Active {
      Membership(feed, link.gid, link.owner, v.eventSeq + 1);
      assert Notified(feed, link.owner, v.eventSeq + 1);
    } else {
      assert forall r :: r < s && Notified(feed, link.owner, r) ==> HasRecorded(h, feed, link, r) && r <= v.eventSeq;
      SilenceEndsWithActivation(feed, link.gid, link.owner, v.eventSeq, s);
    }
  }

  /** A notification the view is already past was overtaken by a roster read or by a forwarded departure. */
  lemma DueBehind(h: Home, v: View, feed: Feed, link: Link, s: int)
    requires HomeOk(h, feed, link) && h.view == Some(v)
    requires Due(h, feed, link, s) && !HasRecorded(h, feed, link, s) && s <= v.eventSeq
    ensures !HasRecorded(h, feed, link, v.eventSeq)
    ensures v.status == Active ==> v.observedSeq == v.eventSeq
    ensures v.status != Active ==> exists k :: k in h.operations && h.operations[k].result.eventSeq == v.eventSeq
  {
    if HasRecorded(h, feed, link, v.eventSeq) {
      assert false;
    }
  }

  lemma FirstDue(h: Home, feed: Feed, link: Link, s: int)
    requires FeedOk(feed, link.gid) && HomeOk(h, feed, link) && h.view == None && !ActiveAt(feed, link.owner, 1)
    requires Due(h, feed, link, s)
    ensures ActivatesAt(feed, link.owner, s)
  {
    assert forall r :: r < s && Notified(feed, link.owner, r) ==> HasRecorded(h, feed, link, r) && h.view.Some?;
    SilenceEndsWithActivation(feed, link.gid, link.owner, 1, s);
  }

  // ------------------------------------------------------------------------------------------
  // Taking in a notification
  // ------------------------------------------------------------------------------------------

  function Recorded(h: Home, link: Link, s: int, notice: Notice): Home {
    h.(inbound := h.inbound[InboundKey(link.host, s, notice.Kind()) := notice])
  }

  /** Recording the notification that is due keeps the records a faithful prefix. */
  lemma RecordingKeeps(h: Home, feed: Feed, link: Link, s: int, h': Home)
    requires FeedOk(feed, link.gid) && InboundOk(h, feed, link) && RecordedInOrder(h, feed, link)
    requires Due(h, feed, link, s) && feed[s].notice.Some?
    requires h'.inbound == Recorded(h, link, s, feed[s].notice.value).inbound
    ensures InboundOk(h', feed, link) && RecordedInOrder(h', feed, link)
    ensures forall r :: HasRecorded(h', feed, link, r) <==> r == s || HasRecorded(h, feed, link, r)
  {
    assert feed[s].notice.value.Kind() == KindAt(feed, s);
    forall r
      ensures HasRecorded(h', feed, link, r) <==> r == s || HasRecorded(h, feed, link, r)
    {
    }
  }

  /** Taking in a notification that the view is already past leaves the view worth what it was. */
  lemma PassedKeepsView(h: Home, h': Home, feed: Feed, link: Link, s: int)
    requires FeedOk(feed, link.gid) && HomeOk(h, feed, link) && Due(h, feed, link, s)
    requires feed[s].notice.Some? && h.view.Some? && s <= h.view.value.eventSeq
    requires h'.inbound == Recorded(h, link, s, feed[s].notice.value).inbound
    requires h'.view == h.view && h'.roster == h.roster && h'.operations == h.operations
    requires LatestActivation(h'.log, link.owner).Some?
    ensures InboundOk(h', feed, link) && RecordedInOrder(h', feed, link) && ViewOk(h', feed, link)
    ensures OperationsOk(h', feed, link) && RosterOk(h', feed, link)
    ensures forall r :: HasRecorded(h', feed, link, r) <==> r == s || HasRecorded(h, feed, link, r)
  {
    RecordingKeeps(h, feed, link, s, h');
  }

  /** Taken in without effect: shown already by a roster read. */
  lemma SupersededKeeps(h: Home, feed: Feed, link: Link, s: int)
    requires FeedOk(feed, link.gid) && HomeOk(h, feed, link) && h.view.Some?
    requires Due(h, feed, link, s) && feed[s].notice.Some? && s <= h.view.value.eventSeq
    ensures HomeOk(Recorded(h, link, s, feed[s].notice.value), feed, link)
  {
    PassedKeepsView(h, Recorded(h, link, s, feed[s].notice.value), feed, link, s);
  }

  lemma {:induction false} LatestActivationIsLogged(log: seq<SyncEntry>, owner: Did)
    requires LatestActivation(log, owner).Some?
    ensures exists i :: 0 <= i < |log| && log[i].StateChangedEntry?
                        && log[i].event.eventSeq == LatestActivation(log, owner).value
  {
    var n := |log| - 1;
    if log[n].StateChangedEntry? && Activation(log[n].event, owner) {
    } else {
      LatestActivationIsLogged(log[..n], owner);
      var i :| 0 <= i < n && log[..n][i].StateChangedEntry?
               && log[..n][i].event.eventSeq == LatestActivation(log, owner).value;
      assert log[i] == log[..n][i];
    }
  }

  /** Each way a state notification that is due moves the view onto its own event. */
  ghost predicate Advances(h: Home, feed: Feed, link: Link, s: int) {
    || (h.view == None && ActivatesAt(feed, link.owner, s))
    || (h.view.Some? && h.view.value.status == Active && s == h.view.value.eventSeq + 1)
    || (h.view.Some? && h.view.value.status != Active && s > h.view.value.eventSeq && ActivatesAt(feed, link.owner, s))
    || (h.view.Some? && h.view.value.status != Active && s == h.view.value.eventSeq)
  }

  lemma AppliedViewShows(h: Home, feed: Feed, link: Link, s: int, e: Event)
    requires FeedOk(feed, link.gid) && 2 <= s < |feed| && feed[s].notice == Some(StateNotice(e))
    requires h.view.Some? ==> ViewShows(h.view.value, feed, link, h.view.value.eventSeq)
    requires Advances(h, feed, link, s) && Notified(feed, link.owner, s)
    ensures var v' := ApplyChange(h, link.host, BaseV2, e, link.owner).view;
            && v'.Some? && ViewShows(v'.value, feed, link, s)
            && v'.value.observedSeq == if h.view.Some? then h.view.value.observedSeq else 0
  {
    Membership(feed, link.gid, link.owner, s);
    assert Follows(link.gid, feed[s - 1].state, feed[s], s);
    if h.view.Some? && h.view.value.eventSeq < s {
      VersionsGrow(feed, link.gid, h.view.value.eventSeq, s);
    }
  }

  /** The roster view keeps up with the Host through the one event applied to it. */
  lemma AppliedRosterAgrees(h: Home, feed: Feed, link: Link, s: int, e: Event)
    requires FeedOk(feed, link.gid) && 2 <= s < |feed| && feed[s].notice == Some(StateNotice(e))
    requires ActiveRoles(h.roster) == ActiveRoles(feed[s - 1].state.roster)
    ensures ActiveRoles(ApplyChange(h, link.host, BaseV2, e, link.owner).roster) == ActiveRoles(feed[s].state.roster)
  {
    assert Follows(link.gid, feed[s - 1].state, feed[s], s);
    var before, after := feed[s - 1].state.roster, feed[s].state.roster;
    var roster := ApplyChange(h, link.host, BaseV2, e, link.owner).roster;
    forall d
      ensures d in ActiveRoles(roster) <==> d in ActiveRoles(after)
      ensures d in ActiveRoles(after) ==> ActiveRoles(roster)[d] == ActiveRoles(after)[d]
    {
      assert d in ActiveRoles(h.roster) <==> d in ActiveRoles(before);
    }
  }

  lemma AppliedRosterOk(h: Home, feed: Feed, link: Link, s: int, e: Event)
    requires FeedOk(feed, link.gid) && RosterOk(h, feed, link)
    requires h.view.Some? ==> ViewShows(h.view.value, feed, link, h.view.value.eventSeq)
    requires 2 <= s < |feed| && feed[s].notice == Some(StateNotice(e)) && Notified(feed, link.owner, s)
    requires Advances(h, feed, link, s)
    ensures RosterOk(ApplyChange(h, link.host, BaseV2, e, link.owner), feed, link)
  {
    AppliedViewShows(h, feed, link, s, e);
    var h' := ApplyChange(h, link.host, BaseV2, e, link.owner);
    var v' := h'.view.value;
    if v'.status == Active && v'.observedSeq > 0 && SameInterval(feed, link.owner, v'.observedSeq, s) {
      assert h.view.Some?;
      var v := h.view.value;
      assert !ActivatesAt(feed, link.owner, s);
      Membership(feed, link.gid, link.owner, s);
      assert v.status == Active && s == v.eventSeq + 1;
      assert SameInterval(feed, link.owner, v.observedSeq, v.eventSeq);
      AppliedRosterAgrees(h, feed, link, s, e);
    }
  }

  /** The view stands on the event just recorded. */
  lemma ViewLands(h: Home, h': Home, feed: Feed, link: Link, s: int)
    requires ViewOk(h, feed, link) && (h.view.Some? ==> h.view.value.eventSeq <= s)
    requires forall r :: HasRecorded(h', feed, link, r) <==> r == s || HasRecorded(h, feed, link, r)
    requires h'.view.Some? && ViewShows(h'.view.value, feed, link, s)
    requires LatestActivation(h'.log, link.owner).Some?
    ensures ViewOk(h', feed, link)
  {
    assert h'.view.value.eventSeq == s;
    assert HasRecorded(h', feed, link, s);
  }

  /** Taking in the notification that is due and standing on its event keeps the projection sound. */
  lemma LandingKeeps(h: Home, h': Home, feed: Feed, link: Link, s: int)
    requires FeedOk(feed, link.gid) && HomeOk(h, feed, link) && Due(h, feed, link, s)
    requires feed[s].notice.Some? && h'.inbound == Recorded(h, link, s, feed[s].notice.value).inbound
    requires h'.operations == h.operations
    requires h.view.Some? ==> h.view.value.eventSeq <= s
    requires h'.view.Some? && ViewShows(h'.view.value, feed, link, s)
    requires LatestActivation(h'.log, link.owner).Some?
    requires forall r :: r in h'.messages ==>
               (r in h.messages && h'.messages[r] == h.messages[r])
               || (r == s && feed[s].notice.value == MessageNotice(h'.messages[r]))
    requires forall i :: 0 <= i < |h'.log| && h'.log[i].StateChangedEntry? ==>
               h'.log[i] in h.log || feed[s].notice.value == StateNotice(h'.log[i].event)
    requires RosterOk(h', feed, link)
    ensures HomeOk(h', feed, link)
  {
    RecordingKeeps(h, feed, link, s, h');
    ViewLands(h, h', feed, link, s);
    assert MessagesOk(h', feed, link);
    Membership(feed, link.gid, link.owner, s);
    assert LogOk(h', feed, link);
    assert OperationsOk(h', feed, link);
  }

  lemma AppliedKeeps(h: Home, feed: Feed, link: Link, s: int, e: Event, h': Home)
    requires FeedOk(feed, link.gid) && HomeOk(h, feed, link) && Due(h, feed, link, s)
    requires feed[s].notice == Some(StateNotice(e)) && Advances(h, feed, link, s)
    requires h' == ApplyChange(Recorded(h, link, s, StateNotice(e)), link.host, BaseV2, e, link.owner)
    ensures HomeOk(h', feed, link)
  {
    assert e.eventSeq == s && (ActivatesAt(feed, link.owner, s) ==> Activation(e, link.owner)) by {
      assert Follows(link.gid, feed[s - 1].state, feed[s], s);
    }
    var recorded := Recorded(h, link, s, StateNotice(e));
    AppliedViewShows(recorded, feed, link, s, e);
    AppliedRosterOk(recorded, feed, link, s, e);
    LatestActivationOfAppend(h.log, StateChangedEntry(e), link.owner);
    LandingKeeps(h, h', feed, link, s);
  }

  /** A departure this Home forwarded is recognised by its receipt when its notification arrives. */
  lemma ForwardedDepartureMatches(h: Home, feed: Feed, link: Link, k: OpKey, e: Event)
    requires FeedOk(feed, link.gid) && k in h.operations && OperationOk(k, h.operations[k], feed, link)
    requires feed[h.operations[k].result.eventSeq].notice == Some(StateNotice(e))
    ensures MatchesForwardedTerminal(h, BaseV2, e, link.owner)
  {
    var s := h.operations[k].result.eventSeq;
    assert Follows(link.gid, feed[s - 1].state, feed[s], s);
  }

  /** What a roster read at event t shows includes every event up to t. */
  lemma ObservationCovers(v: View, feed: Feed, link: Link, s: int)
    requires FeedOk(feed, link.gid) && ViewShows(v, feed, link, v.eventSeq) && 2 <= s <= v.observedSeq
    ensures feed[s].notice.Some? && CoveredByObservation(v, link.host, s, feed[s].notice.value.Version())
  {
    Membership(feed, link.gid, link.owner, s);
    VersionsGrow(feed, link.gid, s, v.observedSeq);
  }

  lemma ChangeAheadIsApplied(h: Home, feed: Feed, link: Link, s: int, e: Event)
    requires FeedOk(feed, link.gid) && HomeOk(h, feed, link) && Due(h, feed, link, s)
    requires feed[s].notice == Some(StateNotice(e)) && h.view.Some? && s > h.view.value.eventSeq
    ensures Advances(h, feed, link, s)
    ensures h.view.value.status == Active ==> s == h.view.value.eventSeq + 1
    ensures h.view.value.status != Active ==> Reactivates(h.view.value, BaseV2, e, link.owner)
  {
    var v := h.view.value;
    DueAhead(h, v, feed, link, s);
    if v.status != Active {
      VersionsGrow(feed, link.gid, v.eventSeq, s);
      assert Follows(link.gid, feed[s - 1].state, feed[s], s);
    }
  }

  /** Where a state change that the view is already past stands. */
  lemma ChangeBehindIsKnown(h: Home, feed: Feed, link: Link, s: int, e: Event)
    requires FeedOk(feed, link.gid) && HomeOk(h, feed, link) && Due(h, feed, link, s)
    requires feed[s].notice == Some(StateNotice(e)) && h.view.Some? && s <= h.view.value.eventSeq
    requires !HasRecorded(h, feed, link, s)
    ensures s <= h.view.value.observedSeq ==> CoveredByObservation(h.view.value, link.host, s, e.version)
    ensures s > h.view.value.observedSeq ==> h.view.value.status != Active
    ensures s == h.view.value.eventSeq && h.view.value.status != Active ==>
              MatchesForwardedTerminal(h, BaseV2, e, link.owner)
  {
    var v := h.view.value;
    DueBehind(h, v, feed, link, s);
    if s <= v.observedSeq {
      ObservationCovers(v, feed, link, s);
    }
    if s == v.eventSeq && v.status != Active {
      var k :| k in h.operations && h.operations[k].result.eventSeq == s;
      ForwardedDepartureMatches(h, feed, link, k, e);
    }
  }

  lemma ChangeNotRecorded(h: Home, feed: Feed, link: Link, s: int, e: Event)
    requires FeedOk(feed, link.gid) && Notified(feed, link.owner, s) && feed[s].notice == Some(StateNotice(e))
    requires !HasRecorded(h, feed, link, s)
    ensures EventBound(e) && e.eventSeq == s
    ensures Recording(h, InboundKey(link.host, s, StateKind), StateNotice(e)) == NewEvent
    ensures ActivatesAt(feed, link.owner, s) ==> Activation(e, link.owner)
  {
    assert Follows(link.gid, feed[s - 1].state, feed[s], s);
  }

  /** The state change that is due is refused exactly when a forwarded departure overtook it. */
  lemma DueChange(h: Home, feed: Feed, link: Link, s: int, e: Event, r: Result<Accepted, HomeError>)
    requires FeedOk(feed, link.gid) && HomeOk(h, feed, link) && Due(h, feed, link, s)
    requires !ActiveAt(feed, link.owner, 1) && feed[s].notice == Some(StateNotice(e)) && !HasRecorded(h, feed, link, s)
    requires r == StateChanged(h, link.host, BaseV2, e, link.owner)
    ensures r.Err? <==> Overtaken(h, StateNotice(e), link.owner)
    ensures r.Err? ==> r == Err(StaleEvent)
    ensures r.Ok? ==> HomeOk(r.value.home, feed, link)
    ensures r.Ok? ==> r.value.home.inbound == Recorded(h, link, s, StateNotice(e)).inbound
    ensures r.Ok? ==> r.value.home.operations == h.operations
    ensures r.Ok? && r.value.answer != Applied ==> r.value.home.log == h.log && r.value.home.view == h.view
  {
    ChangeNotRecorded(h, feed, link, s, e);
    var recorded := Recorded(h, link, s, StateNotice(e));
    if h.view == None {
      FirstDue(h, feed, link, s);
      AppliedKeeps(h, feed, link, s, e, ApplyChange(recorded, link.host, BaseV2, e, link.owner));
    } else if s > h.view.value.eventSeq {
      ChangeAheadIsApplied(h, feed, link, s, e);
      AppliedKeeps(h, feed, link, s, e, ApplyChange(recorded, link.host, BaseV2, e, link.owner));
    } else {
      ChangeBehindIsKnown(h, feed, link, s, e);
      SupersededKeeps(h, feed, link, s);
      if s == h.view.value.eventSeq && h.view.value.status != Active {
        AppliedKeeps(h, feed, link, s, e, ApplyChange(recorded, link.host, BaseV2, e, link.owner));
      }
    }
  }

  lemma MessageNotRecorded(h: Home, feed: Feed, link: Link, s: int, m: Message)
    requires FeedOk(feed, link.gid) && Notified(feed, link.owner, s) && feed[s].notice == Some(MessageNotice(m))
    requires MessagesOk(h, feed, link) && !HasRecorded(h, feed, link, s)
    ensures MessageBound(m) && m.eventSeq == s && ActiveAt(feed, link.owner, s)
    ensures Recording(h, InboundKey(link.host, s, MessageKind), MessageNotice(m)) == NewEvent
    ensures s !in h.messages && forall r :: r in h.messages ==> h.messages[r].receipt.message != m.receipt.message
  {
    assert Follows(link.gid, feed[s - 1].state, feed[s], s);
    assert MessageAt(feed, s);
    forall r | r in h.messages
      ensures r != s && h.messages[r].receipt.message != m.receipt.message
    {
      assert MessageAt(feed, r) && feed[r].notice == Some(MessageNotice(h.messages[r]));
    }
  }

  /** Everything logged is older than what is due. */
  lemma LoggedBefore(h: Home, feed: Feed, link: Link, s: int)
    requires LogOk(h, feed, link) && RecordedInOrder(h, feed, link) && LatestActivation(h.log, link.owner).Some?
    requires Notified(feed, link.owner, s) && !HasRecorded(h, feed, link, s)
    ensures LatestActivation(h.log, link.owner).value < s
  {
    LatestActivationIsLogged(h.log, link.owner);
  }

  /** A forwarded departure at the view's own event is what ended the membership. */
  lemma ViewEndedByOperation(h: Home, v: View, feed: Feed, link: Link, k: OpKey)
    requires FeedOk(feed, link.gid) && ViewShows(v, feed, link, v.eventSeq) && v.status != Active
    requires k in h.operations && OperationOk(k, h.operations[k], feed, link)
    requires h.operations[k].result.eventSeq == v.eventSeq
    ensures (v.status == Left || v.status == Removed) && EndedBy(v, k.op, h.operations[k], link.owner)
  {
    assert Follows(link.gid, feed[v.eventSeq - 1].state, feed[v.eventSeq], v.eventSeq);
  }

  /** A message that a forwarded departure overtook still falls inside the interval which that departure ended. */
  lemma OvertakenMessageIsAdmitted(h: Home, feed: Feed, link: Link, s: int, m: Message)
    requires FeedOk(feed, link.gid) && HomeOk(h, feed, link) && Due(h, feed, link, s)
    requires feed[s].notice == Some(MessageNotice(m)) && !HasRecorded(h, feed, link, s)
    requires h.view.Some? && h.view.value.status != Active && s <= h.view.value.eventSeq
    ensures AcceptedBeforeTerminal(h, h.view.value, BaseV2, link.owner, s, m.version)
  {
    var v := h.view.value;
    DueBehind(h, v, feed, link, s);
    LoggedBefore(h, feed, link, s);
    var k :| k in h.operations && h.operations[k].result.eventSeq == v.eventSeq;
    ViewEndedByOperation(h, v, feed, link, k);
    assert MessageAt(feed, s) && !MessageAt(feed, v.eventSeq);
    VersionsGrow(feed, link.gid, s, v.eventSeq);
    Membership(feed, link.gid, link.owner, s);
  }

  /** `h` after it took in message s and moved its view by at most that event. */
  ghost predicate Stored(h: Home, h': Home, link: Link, s: int, m: Message) {
    && h'.inbound == Recorded(h, link, s, MessageNotice(m)).inbound
    && h'.messages == h.messages[s := m] && h'.operations == h.operations && h'.roster == h.roster
    && h'.log == h.log + [MessageEntry(s, m.receipt.message.GetOr(Token("")))]
    && h.view.Some? && h'.view.Some?
    && h'.view.value == h.view.value.(eventSeq := Max(h.view.value.eventSeq, s),
                                      version := Max(h.view.value.version, m.version), wire := BaseV2)
  }

  lemma StoredBehindKeeps(h: Home, h': Home, feed: Feed, link: Link, s: int, m: Message)
    requires FeedOk(feed, link.gid) && HomeOk(h, feed, link) && Due(h, feed, link, s)
    requires feed[s].notice == Some(MessageNotice(m)) && Stored(h, h', link, s, m) && s <= h.view.value.eventSeq
    ensures HomeOk(h', feed, link) && h'.view == h.view
  {
    Membership(feed, link.gid, link.owner, s);
    VersionsGrow(feed, link.gid, s, h.view.value.eventSeq);
    LatestActivationOfAppend(h.log, MessageEntry(s, m.receipt.message.GetOr(Token(""))), link.owner);
    assert h'.view == h.view;
    PassedKeepsView(h, h', feed, link, s);
    assert MessagesOk(h', feed, link);
    assert LogOk(h', feed, link);
  }

  lemma StoredAheadKeeps(h: Home, h': Home, feed: Feed, link: Link, s: int, m: Message)
    requires FeedOk(feed, link.gid) && HomeOk(h, feed, link) && Due(h, feed, link, s)
    requires feed[s].notice == Some(MessageNotice(m)) && Stored(h, h', link, s, m)
    requires h.view.value.status == Active && s == h.view.value.eventSeq + 1
    ensures HomeOk(h', feed, link)
  {
    assert Follows(link.gid, feed[s - 1].state, feed[s], s);
    LatestActivationOfAppend(h.log, MessageEntry(s, m.receipt.message.GetOr(Token(""))), link.owner);
    assert RosterOk(h', feed, link) by {
      if SameInterval(feed, link.owner, h.view.value.observedSeq, s) {
        assert SameInterval(feed, link.owner, h.view.value.observedSeq, h.view.value.eventSeq);
      }
    }
    LandingKeeps(h, h', feed, link, s);
  }

  /** The message that is due is always stored, also after a departure that overtook it. */
  lemma DueMessage(h: Home, feed: Feed, link: Link, s: int, m: Message, r: Result<Accepted, HomeError>)
    requires FeedOk(feed, link.gid) && HomeOk(h, feed, link) && Due(h, feed, link, s)
    requires !ActiveAt(feed, link.owner, 1) && feed[s].notice == Some(MessageNotice(m)) && !HasRecorded(h, feed, link, s)
    requires r == Incoming(h, link.host, BaseV2, m, link.owner)
    ensures r.Ok? && r.value.answer == Applied && Stored(h, r.value.home, link, s, m)
    ensures r.Ok? && HomeOk(r.value.home, feed, link)
  {
    MessageNotRecorded(h, feed, link, s, m);
    if h.view == None {
      FirstDue(h, feed, link, s);
    } else if s > h.view.value.eventSeq {
      DueAhead(h, h.view.value, feed, link, s);
      StoredAheadKeeps(h, r.value.home, feed, link, s, m);
    } else {
      if h.view.value.status == Active {
        DueBehind(h, h.view.value, feed, link, s);
        ObservationCovers(h.view.value, feed, link, s);
      } else {
        OvertakenMessageIsAdmitted(h, feed, link, s, m);
      }
      StoredBehindKeeps(h, r.value.home, feed, link, s, m);
    }
  }

  /** The notification that is due is taken in unless a forwarded departure overtook it. */
  lemma DueNotice(h: Home, feed: Feed, link: Link, s: int, notice: Notice, r: Result<Accepted, HomeError>)
    requires FeedOk(feed, link.gid) && HomeOk(h, feed, link) && Due(h, feed, link, s)
    requires !ActiveAt(feed, link.owner, 1) && feed[s].notice == Some(notice) && !HasRecorded(h, feed, link, s)
    requires r == Deliver(h, link.host, BaseV2, notice, link.owner)
    ensures r.Err? <==> Overtaken(h, notice, link.owner)
    ensures r.Err? ==> r == Err(StaleEvent)
    ensures r.Ok? ==> HomeOk(r.value.home, feed, link) && r.value.home.operations == h.operations
    ensures r.Ok? ==> forall t :: HasRecorded(r.value.home, feed, link, t) <==> t == s || HasRecorded(h, feed, link, t)
  {
    match notice {
      case StateNotice(e) => DueChange(h, feed, link, s, e, r);
      case MessageNotice(m) => DueMessage(h, feed, link, s, m, r);
    }
    if r.Ok? {
      RecordingKeeps(h, feed, link, s, r.value.home);
    }
  }

  lemma LoggedAtMost(h: Home, feed: Feed, link: Link, s: int)
    requires LogOk(h, feed, link) && LatestActivation(h.log, link.owner).Some?
    requires MessageAt(feed, s) && forall t :: HasRecorded(h, feed, link, t) ==> t <= s
    ensures LatestActivation(h.log, link.owner).value < s
  {
    LatestActivationIsLogged(h.log, link.owner);
  }

  /** A lost acknowledgement costs nothing: the notification taken in last is acknowledged when it comes again. */
  lemma LatestMessageAgain(h: Home, feed: Feed, link: Link, s: int, m: Message)
    requires FeedOk(feed, link.gid) && HomeOk(h, feed, link) && HasRecorded(h, feed, link, s)
    requires feed[s].notice == Some(MessageNotice(m)) && Notified(feed, link.owner, s)
    requires forall t :: HasRecorded(h, feed, link, t) ==> t <= s
    ensures h.view.Some? && s <= h.view.value.eventSeq
    ensures h.view.value.status != Active ==>
              AcceptedBeforeTerminal(h, h.view.value, BaseV2, link.owner, s, m.version)
  {
    var v := h.view.value;
    Membership(feed, link.gid, link.owner, s);
    if v.status != Active {
      assert v.eventSeq != s;
      LoggedAtMost(h, feed, link, s);
      var k :| k in h.operations && h.operations[k].result.eventSeq == v.eventSeq;
      ViewEndedByOperation(h, v, feed, link, k);
      assert MessageAt(feed, s) && !MessageAt(feed, v.eventSeq);
      VersionsGrow(feed, link.gid, s, v.eventSeq);
    }
  }

  /** A notification that comes again changes nothing, and the latest one is acknowledged again. */
  lemma Redelivered(h: Home, feed: Feed, link: Link, s: int, notice: Notice, r: Result<Accepted, HomeError>)
    requires FeedOk(feed, link.gid) && HomeOk(h, feed, link) && HasRecorded(h, feed, link, s)
    requires feed[s].notice == Some(notice) && r == Deliver(h, link.host, BaseV2, notice, link.owner)
    ensures r.Ok? ==> r.value == Accepted(h, Duplicate)
    ensures (forall t :: HasRecorded(h, feed, link, t) ==> t <= s) ==> r.Ok?
  {
    var key := InboundKey(link.host, s, KindAt(feed, s));
    assert key in h.inbound && h.inbound[key] == notice;
    assert Notified(feed, link.owner, s) && h.view.Some? && s <= h.view.value.eventSeq;
    assert notice.EventSeq() == s && notice.Kind() == KindAt(feed, s) by {
      Membership(feed, link.gid, link.owner, s);
    }
    assert notice.StateNotice? ==> EventBound(notice.event) by {
      assert Follows(link.gid, feed[s - 1].state, feed[s], s);
    }
    if notice.MessageNotice? && forall t :: HasRecorded(h, feed, link, t) ==> t <= s {
      assert MessageBound(notice.message) by {
        assert Follows(link.gid, feed[s - 1].state, feed[s], s);
      }
      LatestMessageAgain(h, feed, link, s, notice.message);
    }
  }

  // ------------------------------------------------------------------------------------------
  // The two ways to overtake the stream
  // ------------------------------------------------------------------------------------------

  /** A roster answered by the Host when event q was its latest, to an owner who was active then. */
  ghost predicate AnsweredAt(s: Roster, feed: Feed, link: Link, q: int) {
    && 2 <= q < |feed| && ActiveAt(feed, link.owner, q)
    && s.host == link.host && s.wire == BaseV2
    && s.version == feed[q].state.version && s.eventSeq == SeqNumber(q)
    && s.profile == Some(feed[q].state.profile) && s.policy == Some(feed[q].state.policy)
    && ListsEachOnce(s.members)
    && (forall i :: 0 <= i < |s.members| ==>
          && s.members[i].status == Active && ActiveIn(feed[q].state, s.members[i].member)
          && s.members[i].role == feed[q].state.roster[s.members[i].member].role)
    && (forall d :: ActiveIn(feed[q].state, d) ==> Lists(s.members, d))
  }

  /** The rows reinserted from a complete answer are the Host's active members and roles. */
  lemma ListedRosterAgrees(s: Roster, feed: Feed, link: Link, q: int)
    requires AnsweredAt(s, feed, link, q)
    ensures WellFormedSnapshot(s) || s.version < 0
    ensures ActiveRoles(MemberRows(s.members, |s.members|)) == ActiveRoles(feed[q].state.roster)
    ensures link.owner in MemberRows(s.members, |s.members|)
    ensures MemberRows(s.members, |s.members|)[link.owner].role == feed[q].state.roster[link.owner].role
  {
    var rows := MemberRows(s.members, |s.members|);
    assert s.members[..|s.members|] == s.members;
    forall d
      ensures d in rows <==> ActiveIn(feed[q].state, d)
      ensures d in rows ==> rows[d] == MemberView(feed[q].state.roster[d].role, Active)
    {
      MemberRowsList(s.members, |s.members|, d);
      if Lists(s.members, d) {
        var i :| 0 <= i < |s.members| && s.members[i].member == d;
      }
    }
  }

  /** A roster read moves an active view to the moment of the answer, and its roster with it. */
  lemma RefreshKeeps(h: Home, feed: Feed, link: Link, s: Roster, q: int, r: Result<(Home, bool), HomeError>)
    requires FeedOk(feed, link.gid) && HomeOk(h, feed, link) && AnsweredAt(s, feed, link, q)
    requires r == Refresh(h, s, link.owner)
    ensures r.Ok? && HomeOk(r.value.0, feed, link)
    ensures r.value.1 <==> h.view.Some? && h.view.value.status == Active && h.view.value.eventSeq <= q
    ensures r.value.1 ==> r.value.0.view.value.eventSeq == q == r.value.0.view.value.observedSeq
    ensures r.value.1 ==> ActiveRoles(r.value.0.roster) == ActiveRoles(feed[q].state.roster)
    ensures !r.value.1 ==> r.value.0 == h
    ensures r.value.0.inbound == h.inbound && r.value.0.operations == h.operations
  {
    hide InboundOk, RecordedInOrder, MessagesOk, LogOk, OperationsOk, RosterOk, Justified, ListsEachOnce, Lists, MemberRows, LatestActivation;
    ListedRosterAgrees(s, feed, link, q);
    assert h.view.Some? ==> ViewShows(h.view.value, feed, link, h.view.value.eventSeq);
    if h.view.Some? && h.view.value.eventSeq <= q {
      VersionsGrow(feed, link.gid, h.view.value.eventSeq, q);
      LatestActivationOfAppend(h.log, RefreshedEntry, link.owner);
      assert Follows(link.gid, feed[q - 1].state, feed[q], q);
      assert h.log + [] == h.log;
      RefreshedKeeps(h, r.value.0, feed, link, q);
    } else {
      VersionsGrow(feed, link.gid, 1, q);
    }
  }

  lemma RefreshedKeeps(h: Home, h': Home, feed: Feed, link: Link, q: int)
    requires HomeOk(h, feed, link) && h.view.Some? && h.view.value.eventSeq <= q
    requires h' == h || (
               && h'.inbound == h.inbound && h'.messages == h.messages && h'.operations == h.operations
               && (h'.log == h.log || h'.log == h.log + [RefreshedEntry])
               && LatestActivation(h'.log, link.owner) == LatestActivation(h.log, link.owner)
               && h'.view.Some? && ViewShows(h'.view.value, feed, link, q)
               && h'.view.value.status == Active && h'.view.value.observedSeq == q
               && ActiveRoles(h'.roster) == ActiveRoles(feed[q].state.roster))
    ensures HomeOk(h', feed, link)
  {
    if h' != h {
      assert forall s :: HasRecorded(h', feed, link, s) <==> HasRecorded(h, feed, link, s);
      assert ViewOk(h', feed, link);
      assert LogOk(h', feed, link);
      assert InboundOk(h', feed, link) && RecordedInOrder(h', feed, link) && MessagesOk(h', feed, link);
      assert OperationsOk(h', feed, link) && RosterOk(h', feed, link);
    }
  }

  /** The answer to a forwarded leave or remove of this owner, at whatever time it arrives. */
  ghost predicate Confirms(op: Method, result: OpResult, feed: Feed, link: Link) {
    OperationOk(OpKey(result.receipt.actor, op, result.receipt.opId), OpRecord(result.receipt.digest, BaseV2, result), feed, link)
  }

  lemma ForwardedViewShows(v: View, feed: Feed, link: Link, op: Method, result: OpResult)
    requires FeedOk(feed, link.gid) && ViewShows(v, feed, link, v.eventSeq) && v.eventSeq <= result.eventSeq
    requires Confirms(op, result, feed, link) && TerminalMethod(op)
    ensures ViewShows(v.(status := if op == GroupLeave then Left else Removed, version := result.version, eventSeq := result.eventSeq),
                      feed, link, result.eventSeq)
  {
    var s := result.eventSeq;
    assert Follows(link.gid, feed[s - 1].state, feed[s], s);
  }

  /** A forwarded departure ends the membership in the view unless the view is already past it. */
  lemma ForwardKeeps(h: Home, feed: Feed, link: Link, op: Method, result: OpResult, r: Result<Home, HomeError>)
    requires FeedOk(feed, link.gid) && HomeOk(h, feed, link)
    requires TerminalMethod(op) && Confirms(op, result, feed, link)
    requires var key := OpKey(result.receipt.actor, op, result.receipt.opId);
             key in h.operations ==> h.operations[key].result.receipt == result.receipt
    requires r == Forwarded(h, op, result, link.owner)
    ensures r.Ok? && HomeOk(r.value, feed, link) && r.value.inbound == h.inbound
    ensures r.value.operations == h.operations
            || r.value.operations == h.operations[OpKey(result.receipt.actor, op, result.receipt.opId) := OpRecord(result.receipt.digest, BaseV2, result)]
    ensures r.value.view.Some? <==> h.view.Some?
    ensures h.view.Some? && h.view.value.eventSeq <= result.eventSeq ==>
              r.value.view.value.eventSeq == result.eventSeq && r.value.view.value.status != Active
    ensures h.view.Some? && h.view.value.eventSeq > result.eventSeq ==> r.value.view == h.view
  {
    var s := result.eventSeq;
    assert Follows(link.gid, feed[s - 1].state, feed[s], s);
    if h.view.Some? && h.view.value.eventSeq <= s {
      ForwardedViewShows(h.view.value, feed, link, op, result);
    }
    EndedKeeps(h, r.value, feed, link, OpKey(result.receipt.actor, op, result.receipt.opId), s);
  }

  /** Remembering one more forwarded departure, with or without moving the view onto it. */
  lemma EndedKeeps(h: Home, h': Home, feed: Feed, link: Link, key: OpKey, s: int)
    requires HomeOk(h, feed, link)
    requires h'.inbound == h.inbound && h'.messages == h.messages && h'.log == h.log && h'.roster == h.roster
    requires key in h'.operations && OperationOk(key, h'.operations[key], feed, link)
    requires h'.operations[key].result.eventSeq == s
    requires forall k :: k in h.operations ==> k in h'.operations && h'.operations[k] == h.operations[k]
    requires forall k :: k in h'.operations ==> k == key || k in h.operations
    requires h'.view == h.view
             || (h.view.Some? && h'.view.Some? && h.view.value.eventSeq <= s && h'.view.value.status != Active
                 && ViewShows(h'.view.value, feed, link, s))
    ensures HomeOk(h', feed, link)
  {
    assert forall r :: HasRecorded(h', feed, link, r) <==> HasRecorded(h, feed, link, r);
    assert InboundOk(h', feed, link) && RecordedInOrder(h', feed, link);
    assert LogOk(h', feed, link) && MessagesOk(h', feed, link);
    assert OperationsOk(h', feed, link);
    assert RosterOk(h', feed, link);
    if h'.view.Some? {
      EndedStaysJustified(h, h', feed, link, key, s);
    }
  }

  lemma EndedStaysJustified(h: Home, h': Home, feed: Feed, link: Link, key: OpKey, s: int)
    requires h.view.Some? && h'.view.Some? && Justified(h, h.view.value, feed, link)
    requires h'.inbound == h.inbound && key in h'.operations && h'.operations[key].result.eventSeq == s
    requires forall k :: k in h.operations ==> k in h'.operations && h'.operations[k] == h.operations[k]
    requires h'.view == h.view || (h'.view.value.status != Active && h'.view.value.eventSeq == s)
    ensures Justified(h', h'.view.value, feed, link)
  {
    var v := h.view.value;
    if h'.view == h.view && !HasRecorded(h, feed, link, v.eventSeq) && v.status != Active {
      var k :| k in h.operations && h.operations[k].result.eventSeq == v.eventSeq;
      assert k in h'.operations && h'.operations[k].result.eventSeq == v.eventSeq;
    }
  }

  // ------------------------------------------------------------------------------------------
  // The stream goes on
  // ------------------------------------------------------------------------------------------

  lemma ViewOutlivesGrowth(h: Home, v: View, feed: Feed, more: Feed, link: Link)
    requires h.view == Some(v) && ViewShows(v, feed, link, v.eventSeq) && Justified(h, v, feed, link) && RosterOk(h, feed, link)
    requires |feed| <= |more| && forall s :: 0 <= s < |feed| ==> more[s] == feed[s]
    ensures ViewShows(v, more, link, v.eventSeq) && Justified(h, v, more, link) && RosterOk(h, more, link)
  {
    assert forall r :: ActivatesAt(feed, link.owner, r) ==> ActivatesAt(more, link.owner, r);
  }

  /** What the Host does next changes nothing for the Home yet. */
  lemma FeedGrows(h: Home, feed: Feed, more: Feed, link: Link)
    requires HomeOk(h, feed, link)
    requires |feed| <= |more| && forall s :: 0 <= s < |feed| ==> more[s] == feed[s]
    ensures HomeOk(h, more, link)
    ensures forall s :: HasRecorded(h, more, link, s) <==> HasRecorded(h, feed, link, s)
  {
    forall s | HasRecorded(h, more, link, s)
      ensures s < |feed| && HasRecorded(h, feed, link, s)
    {
      var key := InboundKey(link.host, s, KindAt(more, s));
      assert Notified(feed, link.owner, key.eventSeq);
    }
    assert forall s :: s < |feed| && Notified(more, link.owner, s) ==> Notified(feed, link.owner, s);
    assert InboundOk(h, more, link) && RecordedInOrder(h, more, link);
    assert OperationsOk(h, more, link);
    assert MessagesOk(h, more, link) && LogOk(h, more, link);
    if h.view.Some? {
      ViewOutlivesGrowth(h, h.view.value, feed, more, link);
    }
  }

  /** Without forwarded departures nothing is ever overtaken: the view left no event behind. */
  lemma NothingOvertaken(h: Home, feed: Feed, link: Link, s: int, notice: Notice)
    requires FeedOk(feed, link.gid) && HomeOk(h, feed, link) && h.operations == map[]
    requires Notified(feed, link.owner, s) && feed[s].notice == Some(notice) && !HasRecorded(h, feed, link, s)
    ensures !Overtaken(h, notice, link.owner)
  {
    Membership(feed, link.gid, link.owner, s);
    if h.view.Some? && h.view.value.status != Active {
      assert HasRecorded(h, feed, link, h.view.value.eventSeq);
    }
  }

  /** A Home that took in all it was owed shows an active owner the Host as it is. */
  lemma CaughtUp(h: Home, feed: Feed, link: Link)
    requires HomeOk(h, feed, link) && |feed| >= 3 && ActiveAt(feed, link.owner, |feed| - 1)
    requires forall s :: Notified(feed, link.owner, s) ==> HasRecorded(h, feed, link, s)
    ensures h.view.Some? && h.view.value.status == Active && ViewShows(h.view.value, feed, link, |feed| - 1)
  {
    assert Notified(feed, link.owner, |feed| - 1);
    assert HasRecorded(h, feed, link, |feed| - 1);
  }

  /** What a remote member seated at creation is owed first is no activation, and a Home without a view refuses it. */
  lemma InitialMemberIsRefused(h: Home, feed: Feed, link: Link, notice: Notice)
    requires FeedOk(feed, link.gid) && |feed| > 2 && ActiveAt(feed, link.owner, 1) && h.view == None
    requires feed[2].notice == Some(notice)
    ensures Notified(feed, link.owner, 2) && Deliver(h, link.host, BaseV2, notice, link.owner) == Err(MembershipRequired)
  {
    Membership(feed, link.gid, link.owner, 2);
    assert Follows(link.gid, feed[1].state, feed[2], 2);
  }
}
