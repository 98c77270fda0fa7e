/**
 * Direct messages of one server: idempotent sends, per-message read flags, and the watermark of each
 * (owner, peer) thread that has to agree with them.
 */
module DirectMessages {
  import opened Aggregates
  import opened Common
  import opened GroupTypes

  datatype DirectMessage = DirectMessage(
    sender: Did, recipient: Did, opId: Token, body: Token, contentType: Token, createdAt: int, serverSeq: nat)

  datatype ViewKey = ViewKey(owner: Did, messageId: Token)

  datatype MessageView = MessageView(peer: Did, readAt: Option<int>)

  datatype Thread = Thread(owner: Did, peer: Did)

  datatype ReadState = ReadState(upTo: nat, version: nat, updatedAt: int)

  datatype MailEvent =
    | MessageCreated(owner: Did, messageId: Token, serverSeq: nat)
    | ReadStateUpdated(thread: Thread, upTo: nat, version: nat)

  datatype Mailbox = Mailbox(
    messages: map<Token, DirectMessage>, views: map<ViewKey, MessageView>, states: map<Thread, ReadState>, log: seq<MailEvent>)

  datatype MailError =
    | MessageConflict | OperationTaken
    | WatermarkRequired | SeqInvalid | WatermarkMismatch

  // ------------------------------------------------------------------------------------------
  // Aggregates
  // ------------------------------------------------------------------------------------------

  predicate InThread(box: Mailbox, t: Thread, k: ViewKey) {
    k in box.views && k.owner == t.owner && box.views[k].peer == t.peer && k.messageId in box.messages
  }

  function SeqOf(box: Mailbox, k: ViewKey): nat
    requires k.messageId in box.messages
  {
    box.messages[k.messageId].serverSeq
  }

  predicate Read(box: Mailbox, k: ViewKey) {
    k in box.views && box.views[k].readAt.Some?
  }

  function VisibleSeqs(box: Mailbox, t: Thread): set<nat> {
    set k | k in box.views && InThread(box, t, k) :: SeqOf(box, k)
  }

  function UpTo(box: Mailbox, t: Thread): nat {
    if t in box.states then box.states[t].upTo else 0
  }

  // ------------------------------------------------------------------------------------------
  // Sending
  // ------------------------------------------------------------------------------------------

  /** `generated` is the operation id the server makes up when the client names none. */
  datatype Send = Send(
    sender: Did, recipient: Did, messageId: Token, body: Token, contentType: Token,
    operation: Option<Token>, generated: Token, senderLocal: bool, recipientLocal: bool, time: int)

  datatype Stored = Stored(messageId: Token, serverSeq: nat, replay: bool)

  predicate HasOperation(box: Mailbox, sender: Did, opId: Token, id: Token) {
    id in box.messages && box.messages[id].sender == sender && box.messages[id].opId == opId
  }

  predicate OperationUsed(box: Mailbox, sender: Did, opId: Token) {
    exists id :: id in box.messages && HasOperation(box, sender, opId, id)
  }

  /** The UNIQUE index on (sender, operation id). */
  ghost predicate OperationsUnique(messages: map<Token, DirectMessage>) {
    forall id, id' :: id in messages && id' in messages && id != id' ==>
      messages[id].sender != messages[id'].sender || messages[id].opId != messages[id'].opId
  }

  predicate SameSend(box: Mailbox, s: Send, id: Token)
    requires id in box.messages
  {
    var row := box.messages[id];
    && id == s.messageId && row.sender == s.sender && row.recipient == s.recipient
    && row.contentType == s.contentType && row.body == s.body
    && (s.operation.Some? ==> row.opId == s.operation.value)
  }

  /** `_direct_idempotent_result_or_raise`. */
  function Again(box: Mailbox, s: Send, id: Token): Result<Stored, MailError>
    requires id in box.messages
  {
    if SameSend(box, s, id) then Ok(Stored(id, SeqOf(box, ViewKey(s.sender, id)), true)) else Err(MessageConflict)
  }

  /** `INSERT OR IGNORE` of one owner's view of a new message. */
  function Shown(views: map<ViewKey, MessageView>, local: bool, owner: Did, id: Token, peer: Did): map<ViewKey, MessageView> {
    if !local || ViewKey(owner, id) in views then views else views[ViewKey(owner, id) := MessageView(peer, None)]
  }

  function Announced(local: bool, owner: Did, id: Token, serverSeq: nat): seq<MailEvent> {
    if local then [MessageCreated(owner, id, serverSeq)] else []
  }

  ghost function NextSeq(box: Mailbox): (n: nat)
    ensures n >= 1
  {
    MaxOf(set id | id in box.messages :: box.messages[id].serverSeq) + 1
  }

  ghost function Inserted(box: Mailbox, s: Send): Mailbox {
    var id, n := s.messageId, NextSeq(box);
    var opId := s.operation.GetOr(s.generated);
    var row := DirectMessage(s.sender, s.recipient, opId, s.body, s.contentType, s.time, n);
    var views := Shown(Shown(box.views, s.senderLocal, s.sender, id, s.recipient), s.recipientLocal, s.recipient, id, s.sender);
    box.(messages := box.messages[id := row], views := views,
         log := box.log + Announced(s.senderLocal, s.sender, id, n) + Announced(s.recipientLocal, s.recipient, id, n))
  }

  /** `_store_direct_message`: by operation, then by message id, else a new row. */
  ghost function Store(box: Mailbox, s: Send): Result<(Mailbox, Stored), MailError> {
    if s.operation.Some? && OperationUsed(box, s.sender, s.operation.value) then
      var id :| id in box.messages && HasOperation(box, s.sender, s.operation.value, id);
      (match Again(box, s, id)
       case Ok(r) => Ok((box, r))
       case Err(e) => Err(e))
    else if s.messageId in box.messages then
      (match Again(box, s, s.messageId)
       case Ok(r) => Ok((box, r))
       case Err(e) => Err(e))
    else if OperationUsed(box, s.sender, s.operation.GetOr(s.generated)) then Err(OperationTaken)
    else Ok((Inserted(box, s), Stored(s.messageId, NextSeq(box), false)))
  }

  // ------------------------------------------------------------------------------------------
  // Reading
  // ------------------------------------------------------------------------------------------

  /** What `mark_read` resolves the request to, before it compares with what is visible. */
  function Requested(box: Mailbox, t: Thread, at: Option<int>, messageId: Option<Token>): Result<nat, MailError> {
    if at.Some? && at.value < 0 then Err(SeqInvalid)
    else if at.None? && messageId.None? then Err(WatermarkRequired)
    else if messageId.Some? then
      var key := ViewKey(t.owner, messageId.value);
      if !InThread(box, t, key) then Err(WatermarkMismatch)
      else if at.Some? && at.value != SeqOf(box, key) then Err(WatermarkMismatch)
      else Ok(SeqOf(box, key))
    else Ok(at.value)
  }

  function MarkUpTo(box: Mailbox, t: Thread, upTo: nat, now: int): map<ViewKey, MessageView> {
    map k | k in box.views ::
      if InThread(box, t, k) && box.views[k].readAt.None? && SeqOf(box, k) <= upTo then box.views[k].(readAt := Some(now)) else box.views[k]
  }

  /** A new watermark: the next version of the thread's state, and the sync event that announces it. */
  function Remember(box: Mailbox, t: Thread, upTo: nat, now: int): Mailbox {
    var version := if t in box.states then box.states[t].version + 1 else 1;
    box.(states := box.states[t := ReadState(upTo, version, now)], log := box.log + [ReadStateUpdated(t, upTo, version)])
  }

  /** `mark_read` on a direct thread; when the watermark does not move its row is written back unchanged. */
  ghost function MarkRead(box: Mailbox, t: Thread, at: Option<int>, messageId: Option<Token>, now: int): Result<Mailbox, MailError> {
    match Requested(box, t, at, messageId)
    case Err(e) => Err(e)
    case Ok(wanted) =>
      if wanted > MaxOf(VisibleSeqs(box, t)) then Err(WatermarkMismatch)
      else
        var saved := if UpTo(box, t) > wanted then UpTo(box, t) else wanted;
        var moved := saved > UpTo(box, t) || t !in box.states;
        var time := if moved then now else box.states[t].updatedAt;
        var flagged := box.(views := MarkUpTo(box, t, saved, time));
        Ok(if moved then Remember(flagged, t, saved, now) else flagged)
  }

  /** Read messages beyond the watermark with no unread one in between. */
  function ReadPrefix(box: Mailbox, t: Thread): set<nat> {
    set k | k in box.views && InThread(box, t, k) && SeqOf(box, k) > UpTo(box, t) && Read(box, k)
            && (forall j :: j in box.views && InThread(box, t, j) && UpTo(box, t) < SeqOf(box, j) && !Read(box, j) ==> SeqOf(box, k) < SeqOf(box, j))
      :: SeqOf(box, k)
  }

  /** `_advance_direct_read_prefix`. */
  ghost function AdvancePrefix(box: Mailbox, t: Thread, now: int): Mailbox {
    if ReadPrefix(box, t) == {} then box else Remember(box, t, MaxOf(ReadPrefix(box, t)), now)
  }

  function MarkListed(box: Mailbox, owner: Did, ids: set<Token>, now: int): Mailbox {
    box.(views := map k | k in box.views ::
      if k.owner == owner && k.messageId in ids && box.views[k].readAt.None? then box.views[k].(readAt := Some(now)) else box.views[k])
  }

  ghost function AdvanceAll(box: Mailbox, owner: Did, peers: seq<Did>, now: int): Mailbox {
    if peers == [] then box
    else AdvancePrefix(AdvanceAll(box, owner, peers[..|peers| - 1], now), Thread(owner, peers[|peers| - 1]), now)
  }

  function TouchedPeers(box: Mailbox, owner: Did, ids: set<Token>): set<Did> {
    set k | k in box.views && k.owner == owner && k.messageId in ids :: box.views[k].peer
  }

  /** The peers in the order the handler happens to visit them, each once. */
  ghost predicate Enumerates(peers: seq<Did>, all: set<Did>) {
    (forall p :: p in peers <==> p in all) && forall i, j :: 0 <= i < j < |peers| ==> peers[i] != peers[j]
  }

  /** `inbox_mark_read`. */
  ghost function InboxMarkRead(box: Mailbox, owner: Did, ids: set<Token>, peers: seq<Did>, now: int): Mailbox {
    AdvanceAll(MarkListed(box, owner, ids, now), owner, peers, now)
  }

  // ------------------------------------------------------------------------------------------
  // The invariant
  // ------------------------------------------------------------------------------------------

  ghost predicate SeqsDistinct(messages: map<Token, DirectMessage>) {
    && (forall id :: id in messages ==> messages[id].serverSeq >= 1)
    && (forall id, id' :: id in messages && id' in messages && id != id' ==> messages[id].serverSeq != messages[id'].serverSeq)
  }

  ghost predicate ViewsKnown(box: Mailbox) {
    forall k :: k in box.views ==> k.messageId in box.messages
  }

  /** Nothing visible at or below the watermark is unread. */
  ghost predicate ReadUpTo(box: Mailbox, t: Thread) {
    forall k :: k in box.views && InThread(box, t, k) && SeqOf(box, k) <= UpTo(box, t) ==> Read(box, k)
  }

  function Updates(log: seq<MailEvent>, t: Thread): nat {
    if log == [] then 0
    else
      var last := log[|log| - 1];
      Updates(log[..|log| - 1], t) + if last.ReadStateUpdated? && last.thread == t then 1 else 0
  }

  ghost predicate ThreadOk(box: Mailbox, t: Thread) {
    && ReadUpTo(box, t)
    && UpTo(box, t) <= MaxOf(VisibleSeqs(box, t))
    && (if t in box.states then box.states[t].version else 0) == Updates(box.log, t)
  }

  ghost predicate Valid(box: Mailbox) {
    SeqsDistinct(box.messages) && OperationsUnique(box.messages) && ViewsKnown(box) && forall t :: ThreadOk(box, t)
  }

  const EMPTY := Mailbox(map[], map[], map[], [])

  /** What no step takes back. */
  ghost predicate Advanced(box: Mailbox, box': Mailbox) {
    && (forall id :: id in box.messages ==> id in box'.messages && box'.messages[id] == box.messages[id])
    && (forall k :: k in box.views ==> k in box'.views && box'.views[k].peer == box.views[k].peer)
    && (forall k :: k in box.views && Read(box, k) ==> box'.views[k] == box.views[k])
    && (forall t :: UpTo(box, t) <= UpTo(box', t))
  }

  lemma ValidThread(box: Mailbox, t: Thread)
    requires Valid(box)
    ensures ThreadOk(box, t)
  {
  }

  lemma UpdatesOfAppend(log: seq<MailEvent>, e: MailEvent, t: Thread)
    ensures Updates(log + [e], t) == Updates(log, t) + if e.ReadStateUpdated? && e.thread == t then 1 else 0
  {
    assert (log + [e])[..|log|] == log;
  }

  /** Threads seen alike in both boxes: their rows below some bound, their state, their events. */
  lemma ThreadUntouched(box: Mailbox, box': Mailbox, t: Thread)
    requires ThreadOk(box, t) && Advanced(box, box') && UpTo(box', t) == UpTo(box, t)
    requires (t in box.states) == (t in box'.states) && (t in box.states ==> box'.states[t].version == box.states[t].version)
    requires Updates(box'.log, t) == Updates(box.log, t)
    requires forall k :: k in box'.views && InThread(box', t, k) && k !in box.views ==> SeqOf(box', k) > UpTo(box, t)
    requires ViewsKnown(box)
    ensures ThreadOk(box', t)
  {
    forall k | k in box.views && InThread(box, t, k)
      ensures InThread(box', t, k) && SeqOf(box', k) == SeqOf(box, k)
    {
    }
    assert VisibleSeqs(box, t) <= VisibleSeqs(box', t);
    MaxOfLarger(VisibleSeqs(box, t), VisibleSeqs(box', t));
    assert ReadUpTo(box', t);
  }

  // ------------------------------------------------------------------------------------------
  // A send keeps it
  // ------------------------------------------------------------------------------------------

  lemma InsertedSeqIsLast(box: Mailbox, s: Send)
    ensures forall id :: id in box.messages ==> box.messages[id].serverSeq < NextSeq(box)
  {
    var seqs := set id | id in box.messages :: box.messages[id].serverSeq;
    forall id | id in box.messages
      ensures box.messages[id].serverSeq < NextSeq(box)
    {
      assert box.messages[id].serverSeq in seqs;
    }
  }

  lemma VisibleBelowNext(box: Mailbox, t: Thread)
    requires ThreadOk(box, t)
    ensures UpTo(box, t) < NextSeq(box)
  {
    InsertedSeqIsLast(box, Send(t.owner, t.peer, Token(""), Token(""), Token(""), None, Token(""), false, false, 0));
    var seqs := VisibleSeqs(box, t);
    if seqs != {} {
      assert MaxOf(seqs) in seqs;
    }
  }

  lemma InsertedSeqsDistinct(box: Mailbox, s: Send)
    requires SeqsDistinct(box.messages) && s.messageId !in box.messages
    ensures SeqsDistinct(Inserted(box, s).messages)
  {
    hide Shown, Announced, NextSeq;
    InsertedSeqIsLast(box, s);
  }

  lemma InsertedOperationsUnique(box: Mailbox, s: Send)
    requires OperationsUnique(box.messages) && s.messageId !in box.messages
    requires !OperationUsed(box, s.sender, s.operation.GetOr(s.generated))
    ensures OperationsUnique(Inserted(box, s).messages)
  {
    hide Shown, Announced, NextSeq;
    assert forall id :: id in box.messages ==> HasOperation(box, box.messages[id].sender, box.messages[id].opId, id);
  }

  lemma InsertedViewsKnown(box: Mailbox, s: Send)
    requires ViewsKnown(box) && s.messageId !in box.messages
    ensures ViewsKnown(Inserted(box, s))
    ensures forall k :: k in Inserted(box, s).views && k !in box.views ==> k.messageId == s.messageId
  {
    hide Announced, NextSeq;
  }

  lemma InsertedIsUnique(box: Mailbox, s: Send)
    requires SeqsDistinct(box.messages) && OperationsUnique(box.messages) && ViewsKnown(box)
    requires s.messageId !in box.messages && !OperationUsed(box, s.sender, s.operation.GetOr(s.generated))
    ensures SeqsDistinct(Inserted(box, s).messages) && OperationsUnique(Inserted(box, s).messages)
    ensures ViewsKnown(Inserted(box, s))
    ensures forall k :: k in Inserted(box, s).views && k !in box.views ==> k.messageId == s.messageId
  {
    hide Inserted;
    InsertedSeqsDistinct(box, s);
    InsertedOperationsUnique(box, s);
    InsertedViewsKnown(box, s);
  }

  lemma InsertedAdvances(box: Mailbox, s: Send)
    requires s.messageId !in box.messages
    ensures Advanced(box, Inserted(box, s))
  {
    hide NextSeq;
  }

  lemma InsertedKeepsThread(box: Mailbox, s: Send, t: Thread)
    requires SeqsDistinct(box.messages) && ViewsKnown(box) && ThreadOk(box, t) && s.messageId !in box.messages
    requires forall k :: k in Inserted(box, s).views && k !in box.views ==> k.messageId == s.messageId
    ensures ThreadOk(Inserted(box, s), t)
  {
    hide ReadUpTo, VisibleSeqs;
    InsertedAdvances(box, s);
    VisibleBelowNext(box, t);
    AnnouncedUpdatesNothing(box.log, s.senderLocal, s.sender, s.messageId, NextSeq(box), t);
    AnnouncedUpdatesNothing(box.log + Announced(s.senderLocal, s.sender, s.messageId, NextSeq(box)),
                            s.recipientLocal, s.recipient, s.messageId, NextSeq(box), t);
    ThreadUntouched(box, Inserted(box, s), t);
  }

  lemma InsertedKeeps(box: Mailbox, s: Send)
    requires Valid(box) && s.messageId !in box.messages && !OperationUsed(box, s.sender, s.operation.GetOr(s.generated))
    ensures Valid(Inserted(box, s)) && Advanced(box, Inserted(box, s))
  {
    hide Inserted, ThreadOk, SeqsDistinct, OperationsUnique, ViewsKnown;
    InsertedIsUnique(box, s);
    InsertedAdvances(box, s);
    forall t: Thread
      ensures ThreadOk(Inserted(box, s), t)
    {
      InsertedKeepsThread(box, s, t);
    }
  }

  /** What the owner of a local mailbox finds: a row of its own for the message, with its peer, unread. */
  predicate FindsUnread(box: Mailbox, owner: Did, peer: Did, id: Token) {
    ViewKey(owner, id) in box.views && box.views[ViewKey(owner, id)] == MessageView(peer, None)
  }

  /**
   * A send is stored anew if and only if neither its operation nor its message id is known. It then gets
   * the sender's content and a number above all others, is shown unread to whichever of the two is local
   * under the other as peer, is announced to each of them, and leaves everything else alone.
   */
  lemma NewSendIsShown(box: Mailbox, s: Send)
    requires ViewsKnown(box)
    ensures var id, opId := s.messageId, s.operation.GetOr(s.generated);
            Store(box, s).Ok? && !Store(box, s).value.1.replay <==>
              id !in box.messages && forall other :: other in box.messages ==> box.messages[other].sender != s.sender || box.messages[other].opId != opId
    ensures Store(box, s).Ok? && !Store(box, s).value.1.replay ==>
              var (box', stored) := Store(box, s).value;
              var id, opId := s.messageId, s.operation.GetOr(s.generated);
              && stored.messageId == id && (forall other :: other in box.messages ==> box.messages[other].serverSeq < stored.serverSeq)
              && box'.messages == box.messages[id := DirectMessage(s.sender, s.recipient, opId, s.body, s.contentType, s.time, stored.serverSeq)]
              && box'.states == box.states
              && (s.senderLocal ==> FindsUnread(box', s.sender, s.recipient, id))
              && (s.recipientLocal && s.recipient != s.sender ==> FindsUnread(box', s.recipient, s.sender, id))
              && (s.recipientLocal && s.recipient == s.sender ==> FindsUnread(box', s.sender, s.sender, id))
              && (forall k :: k in box'.views <==>
                    k in box.views || (s.senderLocal && k == ViewKey(s.sender, id)) || (s.recipientLocal && k == ViewKey(s.recipient, id)))
              && (forall k :: k in box.views ==> box'.views[k] == box.views[k])
              && box'.log == box.log
                             + (if s.senderLocal then [MessageCreated(s.sender, id, stored.serverSeq)] else [])
                             + (if s.recipientLocal then [MessageCreated(s.recipient, id, stored.serverSeq)] else [])
  {
    hide NextSeq;
    InsertedSeqIsLast(box, s);
    NewOperation(box, s);
  }

  lemma NewOperation(box: Mailbox, s: Send)
    ensures OperationUsed(box, s.sender, s.operation.GetOr(s.generated)) <==>
              exists other :: other in box.messages && box.messages[other].sender == s.sender && box.messages[other].opId == s.operation.GetOr(s.generated)
  {
    forall other | other in box.messages && box.messages[other].sender == s.sender && box.messages[other].opId == s.operation.GetOr(s.generated)
      ensures HasOperation(box, s.sender, s.operation.GetOr(s.generated), other)
    {
    }
  }

  lemma AnnouncedUpdatesNothing(log: seq<MailEvent>, local: bool, owner: Did, id: Token, n: nat, t: Thread)
    ensures Updates(log + Announced(local, owner, id, n), t) == Updates(log, t)
  {
    if local {
      UpdatesOfAppend(log, MessageCreated(owner, id, n), t);
    } else {
      assert log + [] == log;
    }
  }

  lemma StoreKeeps(box: Mailbox, s: Send)
    requires Valid(box)
    ensures Store(box, s).Ok? ==> Valid(Store(box, s).value.0) && Advanced(box, Store(box, s).value.0)
  {
    hide Inserted, ThreadOk, SeqsDistinct, OperationsUnique, ViewsKnown;
    if Store(box, s).Ok? && !Store(box, s).value.1.replay {
      InsertedKeeps(box, s);
    }
  }

  // ------------------------------------------------------------------------------------------
  // Reading keeps it
  // ------------------------------------------------------------------------------------------

  /** Marking rows read, with every thread's watermark where it was. */
  ghost predicate Flagged(box: Mailbox, box': Mailbox) {
    && box'.messages == box.messages && box'.views.Keys == box.views.Keys
    && forall k :: k in box.views ==>
         && box'.views[k].peer == box.views[k].peer
         && (Read(box, k) ==> box'.views[k] == box.views[k])
  }

  lemma FlaggedKeeps(box: Mailbox, box': Mailbox)
    requires Valid(box) && Flagged(box, box') && box'.states == box.states && box'.log == box.log
    ensures Valid(box') && Advanced(box, box')
    ensures forall t :: VisibleSeqs(box', t) == VisibleSeqs(box, t)
  {
    hide ThreadOk, SeqsDistinct, OperationsUnique, VisibleSeqs;
    assert Advanced(box, box');
    forall t: Thread
      ensures ThreadOk(box', t) && VisibleSeqs(box', t) == VisibleSeqs(box, t)
    {
      FlaggedSees(box, box', t);
      ThreadUntouched(box, box', t);
    }
  }

  lemma FlaggedSees(box: Mailbox, box': Mailbox, t: Thread)
    requires Flagged(box, box')
    ensures VisibleSeqs(box', t) == VisibleSeqs(box, t)
  {
    assert forall k :: InThread(box', t, k) <==> InThread(box, t, k);
  }

  /** A watermark may move up to any visible message below which nothing is unread. */
  lemma RememberKeeps(box: Mailbox, t: Thread, upTo: nat, now: int)
    requires Valid(box) && UpTo(box, t) <= upTo <= MaxOf(VisibleSeqs(box, t))
    requires forall k :: k in box.views && InThread(box, t, k) && SeqOf(box, k) <= upTo ==> Read(box, k)
    ensures Valid(Remember(box, t, upTo, now)) && Advanced(box, Remember(box, t, upTo, now))
  {
    hide SeqsDistinct, OperationsUnique, MaxOf;
    var box' := Remember(box, t, upTo, now);
    forall u: Thread
      ensures ThreadOk(box', u)
    {
      UpdatesOfAppend(box.log, box'.log[|box.log|], u);
      assert VisibleSeqs(box', u) == VisibleSeqs(box, u);
      assert ThreadOk(box, u);
    }
  }

  lemma MarkedUpTo(box: Mailbox, t: Thread, upTo: nat, now: int)
    ensures var box' := box.(views := MarkUpTo(box, t, upTo, now));
            Flagged(box, box') && forall k :: k in box'.views && InThread(box', t, k) && SeqOf(box', k) <= upTo ==> Read(box', k)
  {
  }

  lemma MarkReadKeeps(box: Mailbox, t: Thread, at: Option<int>, messageId: Option<Token>, now: int, box': Mailbox)
    requires Valid(box) && MarkRead(box, t, at, messageId, now) == Ok(box')
    ensures Valid(box') && Advanced(box, box')
    ensures Requested(box, t, at, messageId).Ok? && Requested(box, t, at, messageId).value <= UpTo(box', t)
  {
    hide Valid, Advanced, MarkUpTo, Requested;
    var wanted := Requested(box, t, at, messageId).value;
    var saved := if UpTo(box, t) > wanted then UpTo(box, t) else wanted;
    var moved := saved > UpTo(box, t) || t !in box.states;
    var time := if moved then now else box.states[t].updatedAt;
    var flagged := box.(views := MarkUpTo(box, t, saved, time));
    MarkedUpTo(box, t, saved, time);
    FlaggedKeeps(box, flagged);
    ValidThread(box, t);
    if moved {
      RememberKeeps(flagged, t, saved, now);
      AdvancedTwice(box, flagged, box');
    }
  }

  /** Visible to the owner in the thread with that peer. */
  predicate ShownIn(box: Mailbox, t: Thread, k: ViewKey) {
    k in box.views && k.owner == t.owner && box.views[k].peer == t.peer && k.messageId in box.messages
  }

  /** The number a thread read asks for: its message's, or the one it names. */
  predicate AsksFor(box: Mailbox, t: Thread, at: Option<int>, messageId: Option<Token>, wanted: nat) {
    if messageId.Some? then
      && ShownIn(box, t, ViewKey(t.owner, messageId.value)) && wanted == box.messages[messageId.value].serverSeq
      && (at.Some? ==> at.value == wanted)
    else at == Some(wanted)
  }

  /** No higher than the number of some message shown in the thread. */
  ghost predicate NotPast(box: Mailbox, t: Thread, wanted: nat) {
    wanted == 0 || exists k :: ShownIn(box, t, k) && wanted <= box.messages[k.messageId].serverSeq
  }

  /**
   * A thread read is accepted if and only if it names a number no higher than that of some message shown
   * in the thread, or zero, or such a message itself.
   */
  lemma MarkReadIsDecided(box: Mailbox, t: Thread, at: Option<int>, messageId: Option<Token>, now: int)
    ensures MarkRead(box, t, at, messageId, now).Ok? <==>
              exists wanted: nat ::
                AsksFor(box, t, at, messageId, wanted) && NotPast(box, t, wanted)
    ensures MarkRead(box, t, at, messageId, now).Err? ==>
              MarkRead(box, t, at, messageId, now).error ==
              if at.Some? && at.value < 0 then SeqInvalid else if at.None? && messageId.None? then WatermarkRequired else WatermarkMismatch
  {
    hide MarkUpTo, Remember, UpTo, MaxOf;
    if Requested(box, t, at, messageId).Ok? {
      HighestIsShown(box, t, Requested(box, t, at, messageId).value);
      assert AsksFor(box, t, at, messageId, Requested(box, t, at, messageId).value);
    }
    assert forall wanted: nat :: AsksFor(box, t, at, messageId, wanted) && (at.Some? ==> at.value >= 0) ==> Requested(box, t, at, messageId) == Ok(wanted);
  }

  lemma HighestIsShown(box: Mailbox, t: Thread, wanted: nat)
    ensures wanted <= MaxOf(VisibleSeqs(box, t)) <==> NotPast(box, t, wanted)
  {
    var seqs := VisibleSeqs(box, t);
    hide MaxOf;
    forall k | ShownIn(box, t, k)
      ensures box.messages[k.messageId].serverSeq in seqs
    {
      assert InThread(box, t, k) && SeqOf(box, k) in seqs;
    }
    if seqs != {} {
      var k :| k in box.views && InThread(box, t, k) && SeqOf(box, k) == MaxOf(seqs);
      assert ShownIn(box, t, k);
    }
  }

  /**
   * A thread read moves the watermark up to the number asked for, never down, and flags exactly what the
   * thread shows at or below it; messages, other threads and the flags set before stay as they were. A
   * watermark that moves, or is the thread's first, gets the next version and is announced.
   */
  lemma MarkReadIsExact(box: Mailbox, t: Thread, at: Option<int>, messageId: Option<Token>, now: int, box': Mailbox, wanted: nat)
    requires MarkRead(box, t, at, messageId, now) == Ok(box') && AsksFor(box, t, at, messageId, wanted)
    ensures UpTo(box', t) == if UpTo(box, t) > wanted then UpTo(box, t) else wanted
    ensures box'.messages == box.messages && box'.views.Keys == box.views.Keys
    ensures forall k :: k in box.views ==>
              box'.views[k] ==
              if ShownIn(box, t, k) && box.messages[k.messageId].serverSeq <= UpTo(box', t) && box.views[k].readAt.None?
              then box.views[k].(readAt := Some(box'.states[t].updatedAt)) else box.views[k]
    ensures t in box'.states && box'.states.Keys == box.states.Keys + {t}
    ensures forall u :: u in box.states && u != t ==> box'.states[u] == box.states[u]
    ensures t in box.states && wanted <= UpTo(box, t) ==> box'.states == box.states && box'.log == box.log
    ensures t !in box.states || wanted > UpTo(box, t) ==>
              && box'.states[t] == ReadState(UpTo(box', t), if t in box.states then box.states[t].version + 1 else 1, now)
              && box'.log == box.log + [ReadStateUpdated(t, UpTo(box', t), box'.states[t].version)]
  {
    hide MaxOf, VisibleSeqs;
    assert Requested(box, t, at, messageId) == Ok(wanted);
  }

  lemma AdvancedTwice(a: Mailbox, b: Mailbox, c: Mailbox)
    requires Advanced(a, b) && Advanced(b, c)
    ensures Advanced(a, c)
  {
    forall k | k in a.views && Read(a, k)
      ensures c.views[k] == a.views[k]
    {
      assert Read(b, k);
    }
  }

  /** The watermark is the longest read prefix: past it, some unread message precedes every read one. */
  ghost predicate PrefixIsLongest(box: Mailbox, t: Thread) {
    forall k :: k in box.views && InThread(box, t, k) && SeqOf(box, k) > UpTo(box, t) && Read(box, k) ==>
      exists j :: j in box.views && InThread(box, t, j) && !Read(box, j) && UpTo(box, t) < SeqOf(box, j) < SeqOf(box, k)
  }

  lemma EmptyPrefixIsLongest(box: Mailbox, t: Thread)
    requires SeqsDistinct(box.messages) && ReadPrefix(box, t) == {}
    ensures PrefixIsLongest(box, t)
  {
    forall k | k in box.views && InThread(box, t, k) && SeqOf(box, k) > UpTo(box, t) && Read(box, k)
      ensures exists j :: j in box.views && InThread(box, t, j) && !Read(box, j) && UpTo(box, t) < SeqOf(box, j) < SeqOf(box, k)
    {
      assert SeqOf(box, k) !in ReadPrefix(box, t);
      var j :| j in box.views && InThread(box, t, j) && UpTo(box, t) < SeqOf(box, j) && !Read(box, j) && SeqOf(box, k) >= SeqOf(box, j);
      assert j.messageId != k.messageId || j == k;
    }
  }

  /** After the thread's step no read message is left in the prefix. */
  lemma AdvancingExhausts(box: Mailbox, t: Thread, now: int)
    ensures ReadPrefix(AdvancePrefix(box, t, now), t) == {}
  {
    var box' := AdvancePrefix(box, t, now);
    if ReadPrefix(box, t) != {} {
      forall k | k in box'.views && InThread(box', t, k) && SeqOf(box', k) > UpTo(box', t) && Read(box', k)
        ensures exists j :: j in box'.views && InThread(box', t, j) && UpTo(box', t) < SeqOf(box', j) && !Read(box', j) && SeqOf(box', k) >= SeqOf(box', j)
      {
        assert InThread(box, t, k) && Read(box, k);
        assert SeqOf(box, k) !in ReadPrefix(box, t);
        var j :| j in box.views && InThread(box, t, j) && UpTo(box, t) < SeqOf(box, j) && !Read(box, j) && SeqOf(box, k) >= SeqOf(box, j);
        assert InThread(box', t, j) && !Read(box', j);
      }
    }
  }

  lemma AdvancePrefixKeeps(box: Mailbox, t: Thread, now: int)
    requires Valid(box)
    ensures Valid(AdvancePrefix(box, t, now)) && Advanced(box, AdvancePrefix(box, t, now))
    ensures AdvancePrefix(box, t, now).views == box.views && AdvancePrefix(box, t, now).messages == box.messages
  {
    var seqs := ReadPrefix(box, t);
    if seqs != {} {
      var upTo := MaxOf(seqs);
      assert upTo in seqs;
      assert seqs <= VisibleSeqs(box, t);
      MaxOfLarger(seqs, VisibleSeqs(box, t));
      assert ThreadOk(box, t);
      hide Valid, Advanced, MaxOf;
      RememberKeeps(box, t, upTo, now);
    }
  }

  /** A thread's step leaves the prefixes of the owner's other threads alone. */
  lemma AdvancingElsewhere(box: Mailbox, t: Thread, u: Thread, now: int)
    requires u != t
    ensures ReadPrefix(AdvancePrefix(box, t, now), u) == ReadPrefix(box, u)
  {
    hide MaxOf;
    var box' := AdvancePrefix(box, t, now);
    assert forall k :: InThread(box', u, k) <==> InThread(box, u, k);
  }

  lemma {:induction false} AdvanceAllKeeps(box: Mailbox, owner: Did, peers: seq<Did>, now: int)
    requires Valid(box)
    ensures var box' := AdvanceAll(box, owner, peers, now);
            Valid(box') && Advanced(box, box') && box'.views == box.views && box'.messages == box.messages
    ensures forall p :: p in peers ==> ReadPrefix(AdvanceAll(box, owner, peers, now), Thread(owner, p)) == {}
  {
    hide Valid, Advanced, AdvancePrefix, ReadPrefix;
    if peers == [] {
      AdvancedByNothing(box);
    } else {
      var n := |peers| - 1;
      var t := Thread(owner, peers[n]);
      AdvanceAllKeeps(box, owner, peers[..n], now);
      var before := AdvanceAll(box, owner, peers[..n], now);
      AdvancePrefixKeeps(before, t, now);
      AdvancedTwice(box, before, AdvancePrefix(before, t, now));
      AdvancingExhausts(before, t, now);
      forall p | p in peers && p != peers[n]
        ensures ReadPrefix(AdvancePrefix(before, t, now), Thread(owner, p)) == {}
      {
        assert p in peers[..n];
        AdvancingElsewhere(before, t, Thread(owner, p), now);
      }
    }
  }

  lemma AdvancedByNothing(box: Mailbox)
    ensures Advanced(box, box)
  {
  }

  /**
   * After `inbox_mark_read` every touched thread's watermark is its longest read prefix, the requested
   * visible messages are read, and no other flag has changed.
   */
  lemma InboxMarkReadIsExact(box: Mailbox, owner: Did, ids: set<Token>, peers: seq<Did>, now: int)
    requires Valid(box) && Enumerates(peers, TouchedPeers(box, owner, ids))
    ensures var box' := InboxMarkRead(box, owner, ids, peers, now);
            && Valid(box') && Advanced(box, box') && box'.messages == box.messages && box'.views.Keys == box.views.Keys
            && (forall p :: p in TouchedPeers(box, owner, ids) ==> PrefixIsLongest(box', Thread(owner, p)))
            && (forall k :: k in box.views ==>
                  (Read(box', k) <==> Read(box, k) || (k.owner == owner && k.messageId in ids)))
  {
    var flagged := MarkListed(box, owner, ids, now);
    assert Flagged(box, flagged);
    hide AdvanceAll, ThreadOk, OperationsUnique, PrefixIsLongest, MaxOf, ReadPrefix;
    FlaggedKeeps(box, flagged);
    AdvanceAllKeeps(flagged, owner, peers, now);
    var box' := AdvanceAll(flagged, owner, peers, now);
    AdvancedTwice(box, flagged, box');
    forall p | p in TouchedPeers(box, owner, ids)
      ensures PrefixIsLongest(box', Thread(owner, p))
    {
      assert p in peers;
      EmptyPrefixIsLongest(box', Thread(owner, p));
    }
  }

  predicate StateKept(box: Mailbox, box': Mailbox, t: Thread) {
    (t in box'.states <==> t in box.states) && (t in box.states ==> box'.states[t] == box.states[t])
  }

  /** At most one step of a thread's watermark: the next version, as of now, further up. */
  predicate StepsOnce(box: Mailbox, box': Mailbox, t: Thread, now: int) {
    || StateKept(box, box', t)
    || (t in box'.states && box'.states[t].upTo > UpTo(box, t) && box'.states[t].updatedAt == now
        && box'.states[t].version == if t in box.states then box.states[t].version + 1 else 1)
  }

  lemma AdvancePrefixTouches(box: Mailbox, t: Thread, now: int)
    ensures StepsOnce(box, AdvancePrefix(box, t, now), t, now)
    ensures forall u :: u != t ==> StateKept(box, AdvancePrefix(box, t, now), u)
  {
    hide MaxOf;
    if ReadPrefix(box, t) != {} {
      assert MaxOf(ReadPrefix(box, t)) in ReadPrefix(box, t);
    }
  }

  lemma {:induction false} AdvanceAllTouches(box: Mailbox, owner: Did, peers: seq<Did>, now: int)
    requires forall i, j :: 0 <= i < j < |peers| ==> peers[i] != peers[j]
    ensures forall u: Thread :: if u.owner == owner && u.peer in peers then StepsOnce(box, AdvanceAll(box, owner, peers, now), u, now)
                                else StateKept(box, AdvanceAll(box, owner, peers, now), u)
  {
    hide AdvancePrefix;
    if peers != [] {
      var n := |peers| - 1;
      var before := AdvanceAll(box, owner, peers[..n], now);
      var t := Thread(owner, peers[n]);
      AdvanceAllTouches(box, owner, peers[..n], now);
      AdvancePrefixTouches(before, t, now);
      assert StateKept(box, before, t);
      forall u: Thread
        ensures if u.owner == owner && u.peer in peers then StepsOnce(box, AdvancePrefix(before, t, now), u, now)
                else StateKept(box, AdvancePrefix(before, t, now), u)
      {
        assert u.peer in peers <==> u.peer in peers[..n] || u.peer == peers[n];
        if u != t {
          assert StateKept(before, AdvancePrefix(before, t, now), u);
        }
      }
    }
  }

  /** An inbox read stamps exactly the requested unread rows, and moves watermarks of the threads it touched only. */
  lemma InboxMarkReadTouchesOnly(box: Mailbox, owner: Did, ids: set<Token>, peers: seq<Did>, now: int)
    requires Valid(box) && Enumerates(peers, TouchedPeers(box, owner, ids))
    ensures var box' := InboxMarkRead(box, owner, ids, peers, now);
            && box'.views.Keys == box.views.Keys
            && (forall k :: k in box.views ==>
                  box'.views[k] == if k.owner == owner && k.messageId in ids && box.views[k].readAt.None?
                                   then box.views[k].(readAt := Some(now)) else box.views[k])
            && (forall u: Thread :: if u.owner == owner && u.peer in TouchedPeers(box, owner, ids) then StepsOnce(box, box', u, now)
                                    else StateKept(box, box', u))
            && (forall k :: k in box.views && k.owner == owner && k.messageId in ids ==>
                  PrefixIsLongest(box', Thread(owner, box.views[k].peer)))
  {
    hide AdvanceAll, ThreadOk, SeqsDistinct, OperationsUnique, PrefixIsLongest;
    InboxMarkReadIsExact(box, owner, ids, peers, now);
    var flagged := MarkListed(box, owner, ids, now);
    FlaggedKeeps(box, flagged);
    AdvanceAllTouches(flagged, owner, peers, now);
    AdvanceAllKeeps(flagged, owner, peers, now);
  }

  /** The last update announced for a thread. */
  function LastUpdate(log: seq<MailEvent>, t: Thread): Option<(nat, nat)> {
    if log == [] then None
    else
      var last := log[|log| - 1];
      if last.ReadStateUpdated? && last.thread == t then Some((last.upTo, last.version)) else LastUpdate(log[..|log| - 1], t)
  }

  /** What was announced last for each thread is its present watermark and version. */
  ghost predicate LogTells(box: Mailbox) {
    forall t: Thread :: LastUpdate(box.log, t) == if t in box.states then Some((box.states[t].upTo, box.states[t].version)) else None
  }

  lemma LastUpdateOfAppend(log: seq<MailEvent>, e: MailEvent, t: Thread)
    ensures LastUpdate(log + [e], t) == if e.ReadStateUpdated? && e.thread == t then Some((e.upTo, e.version)) else LastUpdate(log, t)
  {
    assert (log + [e])[..|log|] == log;
  }

  lemma RememberTells(box: Mailbox, t: Thread, upTo: nat, now: int)
    requires LogTells(box)
    ensures LogTells(Remember(box, t, upTo, now))
  {
    var box' := Remember(box, t, upTo, now);
    forall u: Thread
      ensures LastUpdate(box'.log, u) == if u in box'.states then Some((box'.states[u].upTo, box'.states[u].version)) else None
    {
      LastUpdateOfAppend(box.log, box'.log[|box.log|], u);
    }
  }

  lemma AnnouncedTells(log: seq<MailEvent>, local: bool, owner: Did, id: Token, n: nat, t: Thread)
    ensures LastUpdate(log + Announced(local, owner, id, n), t) == LastUpdate(log, t)
  {
    if local {
      LastUpdateOfAppend(log, MessageCreated(owner, id, n), t);
    } else {
      assert log + [] == log;
    }
  }

  lemma InsertedTells(box: Mailbox, s: Send)
    requires LogTells(box)
    ensures LogTells(Inserted(box, s))
  {
    hide NextSeq, Shown, LastUpdate, Announced;
    var n := NextSeq(box);
    forall t: Thread
      ensures LastUpdate(Inserted(box, s).log, t) == LastUpdate(box.log, t)
    {
      AnnouncedTells(box.log, s.senderLocal, s.sender, s.messageId, n, t);
      AnnouncedTells(box.log + Announced(s.senderLocal, s.sender, s.messageId, n), s.recipientLocal, s.recipient, s.messageId, n, t);
    }
  }

  lemma FlagsTell(box: Mailbox, views: map<ViewKey, MessageView>)
    requires LogTells(box)
    ensures LogTells(box.(views := views))
  {
    hide LastUpdate;
  }

  lemma {:induction false} AdvanceAllTells(box: Mailbox, owner: Did, peers: seq<Did>, now: int)
    requires LogTells(box)
    ensures LogTells(AdvanceAll(box, owner, peers, now))
  {
    hide LogTells, Remember, ReadPrefix, MaxOf;
    if peers != [] {
      var n := |peers| - 1;
      var before := AdvanceAll(box, owner, peers[..n], now);
      AdvanceAllTells(box, owner, peers[..n], now);
      if ReadPrefix(before, Thread(owner, peers[n])) != {} {
        RememberTells(before, Thread(owner, peers[n]), MaxOf(ReadPrefix(before, Thread(owner, peers[n]))), now);
      }
    }
  }

  lemma MarkReadTells(box: Mailbox, t: Thread, at: Option<int>, messageId: Option<Token>, now: int)
    requires LogTells(box) && MarkRead(box, t, at, messageId, now).Ok?
    ensures LogTells(MarkRead(box, t, at, messageId, now).value)
  {
    hide LogTells, Remember, MaxOf, MarkUpTo, Requested, VisibleSeqs;
    var wanted := Requested(box, t, at, messageId).value;
    var saved := if UpTo(box, t) > wanted then UpTo(box, t) else wanted;
    var moved := saved > UpTo(box, t) || t !in box.states;
    var time := if moved then now else box.states[t].updatedAt;
    FlagsTell(box, MarkUpTo(box, t, saved, time));
    RememberTells(box.(views := MarkUpTo(box, t, saved, time)), t, saved, now);
  }

  // ------------------------------------------------------------------------------------------
  // Runs
  // ------------------------------------------------------------------------------------------

  datatype MailStep =
    | Sends(send: Send)
    | MarksThread(thread: Thread, at: Option<int>, messageId: Option<Token>, now: int)
    | MarksInbox(owner: Did, ids: set<Token>, peers: seq<Did>, now: int)

  ghost predicate CanTake(box: Mailbox, step: MailStep) {
    step.MarksInbox? ==> Enumerates(step.peers, TouchedPeers(box, step.owner, step.ids))
  }

  ghost function TakeStep(box: Mailbox, step: MailStep): Mailbox {
    match step
    case Sends(s) =>
      (match Store(box, s)
       case Ok((box', _)) => box'
       case Err(_) => box)
    case MarksThread(t, at, messageId, now) =>
      (match MarkRead(box, t, at, messageId, now)
       case Ok(box') => box'
       case Err(_) => box)
    case MarksInbox(owner, ids, peers, now) => InboxMarkRead(box, owner, ids, peers, now)
  }

  lemma StepKeeps(box: Mailbox, step: MailStep)
    requires Valid(box) && CanTake(box, step)
    ensures Valid(TakeStep(box, step)) && Advanced(box, TakeStep(box, step))
  {
    hide Valid, Advanced, Store, MarkRead, InboxMarkRead;
    AdvancedByNothing(box);
    match step {
      case Sends(s) => StoreKeeps(box, s);
      case MarksThread(t, at, messageId, now) =>
        if MarkRead(box, t, at, messageId, now).Ok? {
          MarkReadKeeps(box, t, at, messageId, now, MarkRead(box, t, at, messageId, now).value);
        }
      case MarksInbox(owner, ids, peers, now) => InboxMarkReadIsExact(box, owner, ids, peers, now);
    }
  }

  ghost function TakeSteps(box: Mailbox, run: seq<MailStep>): Mailbox {
    if run == [] then box else TakeStep(TakeSteps(box, run[..|run| - 1]), run[|run| - 1])
  }

  ghost predicate CanTakeAll(box: Mailbox, run: seq<MailStep>) {
    forall i :: 0 <= i < |run| ==> CanTake(TakeSteps(box, run[..i]), run[i])
  }

  lemma {:induction false} RunKeeps(box: Mailbox, run: seq<MailStep>, i: nat)
    requires Valid(box) && CanTakeAll(box, run) && i <= |run|
    ensures Valid(TakeSteps(box, run)) && Advanced(TakeSteps(box, run[..i]), TakeSteps(box, run))
    decreases |run|
  {
    hide Valid, Advanced, TakeStep, CanTake;
    AdvancedByNothing(TakeSteps(box, run));
    if i == |run| {
      assert run[..i] == run;
    }
    if run != [] {
      var n := |run| - 1;
      PrefixCanTake(box, run, n);
      RunKeeps(box, run[..n], if i <= n then i else n);
      StepKeeps(TakeSteps(box, run[..n]), run[n]);
      if i <= n {
        assert run[..n][..i] == run[..i];
        AdvancedTwice(TakeSteps(box, run[..i]), TakeSteps(box, run[..n]), TakeSteps(box, run));
      }
    }
  }

  /**
   * Over any run of sends and reads from an empty mailbox: nothing visible at or below a thread's
   * watermark is unread, the watermark never falls and never passes the highest visible message, and
   * its version counts the updates announced for the thread.
   */
  lemma WatermarksAreSound(run: seq<MailStep>, i: nat, t: Thread)
    requires CanTakeAll(EMPTY, run) && i <= |run|
    ensures var before, after := TakeSteps(EMPTY, run[..i]), TakeSteps(EMPTY, run);
            && UpTo(before, t) <= UpTo(after, t) <= MaxOf(VisibleSeqs(after, t))
            && (forall k :: k in after.views && InThread(after, t, k) && SeqOf(after, k) <= UpTo(after, t) ==> Read(after, k))
            && (if t in after.states then after.states[t].version else 0) == Updates(after.log, t)
  {
    hide TakeSteps;
    assert Valid(EMPTY);
    RunKeeps(EMPTY, run, i);
    ValidThread(TakeSteps(EMPTY, run), t);
  }

  lemma StepTells(box: Mailbox, step: MailStep)
    requires LogTells(box)
    ensures LogTells(TakeStep(box, step))
  {
    hide LogTells, Inserted, MarkRead, AdvanceAll, Again, OperationUsed, HasOperation;
    match step {
      case Sends(s) => InsertedTells(box, s);
      case MarksThread(t, at, messageId, now) =>
        if MarkRead(box, t, at, messageId, now).Ok? {
          MarkReadTells(box, t, at, messageId, now);
        }
      case MarksInbox(owner, ids, peers, now) =>
        FlagsTell(box, MarkListed(box, owner, ids, now).views);
        AdvanceAllTells(MarkListed(box, owner, ids, now), owner, peers, now);
    }
  }

  /** Over any run from an empty mailbox, whoever follows the announcements of a thread knows its watermark and version. */
  lemma {:induction false} AnnouncementsTell(run: seq<MailStep>, t: Thread)
    ensures LogTells(TakeSteps(EMPTY, run))
    ensures var box := TakeSteps(EMPTY, run);
            LastUpdate(box.log, t) == if t in box.states then Some((box.states[t].upTo, box.states[t].version)) else None
  {
    hide TakeStep;
    if run != [] {
      AnnouncementsTell(run[..|run| - 1], t);
      StepTells(TakeSteps(EMPTY, run[..|run| - 1]), run[|run| - 1]);
    }
  }

  // ------------------------------------------------------------------------------------------
  // Retried sends
  // ------------------------------------------------------------------------------------------

  /** The same client operation, or failing that the same message id. */
  predicate SameIdentity(s: Send, s': Send) {
    s'.sender == s.sender && s'.messageId == s.messageId && s'.operation == s.operation
  }

  predicate SamePayload(s: Send, s': Send) {
    s'.recipient == s.recipient && s'.contentType == s.contentType && s'.body == s.body
  }

  /** Once accepted, a send answers its retries with the same number and a changed payload with a conflict. */
  lemma RetriedSend(box: Mailbox, s: Send, box': Mailbox, s': Send)
    requires Valid(box) && Store(box, s).Ok? && Advanced(Store(box, s).value.0, box') && Valid(box')
    requires SameIdentity(s, s')
    ensures Store(box', s') ==
            if SamePayload(s, s') then Ok((box', Stored(s.messageId, Store(box, s).value.1.serverSeq, true))) else Err(MessageConflict)
  {
    hide ThreadOk, SeqsDistinct, ViewsKnown, MaxOf;
    var after := Store(box, s).value.0;
    assert s.messageId in after.messages && after.messages[s.messageId].sender == s.sender;
    if s.operation.Some? {
      assert HasOperation(after, s.sender, s.operation.value, s.messageId);
      assert HasOperation(box', s.sender, s.operation.value, s.messageId);
    }
  }

  /** Deleting a retry from a run changes nothing that comes after it. */
  lemma {:induction false} RetryIsInvisible(run: seq<MailStep>, i: nat, j: nat, n: nat)
    requires i < j < n <= |run| && CanTakeAll(EMPTY, run) && run[i].Sends? && run[j].Sends?
    requires SameIdentity(run[i].send, run[j].send) && Store(TakeSteps(EMPTY, run[..i]), run[i].send).Ok?
    ensures TakeSteps(EMPTY, run[..n]) == TakeSteps(EMPTY, run[..j] + run[j + 1..n])
  {
    hide Valid, Advanced, TakeStep, CanTakeAll, Store, SameIdentity;
    if n == j + 1 {
      RetryStandsStill(run, i, j);
      assert run[..j] + run[j + 1..n] == run[..j];
    } else {
      RetryIsInvisible(run, i, j, n - 1);
      var less := run[..j] + run[j + 1..n];
      assert less[..|less| - 1] == run[..j] + run[j + 1..n - 1] && less[|less| - 1] == run[n - 1];
      assert run[..n][..n - 1] == run[..n - 1];
    }
  }

  lemma PrefixCanTake(box: Mailbox, run: seq<MailStep>, n: nat)
    requires CanTakeAll(box, run) && n <= |run|
    ensures CanTakeAll(box, run[..n])
  {
    hide CanTake, TakeSteps;
    forall i | 0 <= i < n
      ensures CanTake(TakeSteps(box, run[..n][..i]), run[..n][i])
    {
      assert run[..n][..i] == run[..i];
    }
  }

  lemma EmptyIsValid()
    ensures Valid(EMPTY)
  {
  }

  lemma RetryStandsStill(run: seq<MailStep>, i: nat, j: nat)
    requires i < j < |run| && CanTakeAll(EMPTY, run) && run[i].Sends? && run[j].Sends?
    requires SameIdentity(run[i].send, run[j].send) && Store(TakeSteps(EMPTY, run[..i]), run[i].send).Ok?
    ensures TakeSteps(EMPTY, run[..j + 1]) == TakeSteps(EMPTY, run[..j])
  {
    hide Valid, Advanced, CanTakeAll, Store, SameIdentity, SamePayload;
    EmptyIsValid();
    PrefixCanTake(EMPTY, run, i);
    PrefixCanTake(EMPTY, run, j);
    RunKeeps(EMPTY, run[..i], 0);
    RunKeeps(EMPTY, run[..j], i + 1);
    assert run[..j][..i + 1] == run[..i + 1] && run[..i + 1][..i] == run[..i] && run[..j + 1][..j] == run[..j];
    RetriedSend(TakeSteps(EMPTY, run[..i]), run[i].send, TakeSteps(EMPTY, run[..j]), run[j].send);
  }

  /** Step n sends again under the identity of a send that the run accepted before. */
  ghost predicate Retries(run: seq<MailStep>, n: nat)
    requires n < |run|
  {
    run[n].Sends? && exists i: nat :: i < n && run[i].Sends? && AcceptedAs(run, i, run[n].send)
  }

  ghost predicate AcceptedAs(run: seq<MailStep>, i: nat, s: Send)
    requires i < |run| && run[i].Sends?
  {
    SameIdentity(run[i].send, s) && Store(TakeSteps(EMPTY, run[..i]), run[i].send).Ok?
  }

  /** A run without any of its retries. */
  ghost function WithoutRetries(run: seq<MailStep>): seq<MailStep> {
    if run == [] then []
    else WithoutRetries(run[..|run| - 1]) + if Retries(run, |run| - 1) then [] else [run[|run| - 1]]
  }

  /** The run with all its retries and the run without any end in the same mailbox. */
  lemma {:induction false} RetriesAreInvisible(run: seq<MailStep>)
    requires CanTakeAll(EMPTY, run)
    ensures TakeSteps(EMPTY, WithoutRetries(run)) == TakeSteps(EMPTY, run)
  {
    hide CanTakeAll, Store, SameIdentity, TakeStep;
    if run != [] {
      var n := |run| - 1;
      PrefixCanTake(EMPTY, run, n);
      RetriesAreInvisible(run[..n]);
      var kept := WithoutRetries(run[..n]);
      if Retries(run, n) {
        var i: nat :| i < n && run[i].Sends? && AcceptedAs(run, i, run[n].send);
        RetryStandsStill(run, i, n);
        assert run[..n + 1] == run && kept + [] == kept;
      } else {
        assert (kept + [run[n]])[..|kept|] == kept;
      }
    }
  }
}
