/** The direct-message handlers as they run, table by table. Each is proved against DirectMessages. */
module MailTables {
  import opened Aggregates
  import opened Common
  import opened GroupTypes
  import opened DirectMessages

  class MailStore {
    var messages: map<Token, DirectMessage>
    var views: map<ViewKey, MessageView>
    var states: map<Thread, ReadState>
    var log: seq<MailEvent>

    constructor ()
      ensures Box() == EMPTY
    {
      messages, views, states, log := map[], map[], map[], [];
    }

    function Box(): Mailbox
      reads this
    {
      Mailbox(messages, views, states, log)
    }

    /** The two lookups of an existing row, by operation and then by message id. */
    method FindExisting(s: Send) returns (found: Option<Token>)
      requires OperationsUnique(messages)
      ensures found.None? <==> !(s.operation.Some? && OperationUsed(Box(), s.sender, s.operation.value)) && s.messageId !in messages
      ensures found.Some? ==> found.value in messages
      ensures found.Some? && s.operation.Some? && OperationUsed(Box(), s.sender, s.operation.value) ==>
                HasOperation(Box(), s.sender, s.operation.value, found.value)
      ensures found.Some? && !(s.operation.Some? && OperationUsed(Box(), s.sender, s.operation.value)) ==> found.value == s.messageId
    {
      if s.operation.Some? && exists id :: id in messages && HasOperation(Box(), s.sender, s.operation.value, id) {
        var id: Token :| id in messages && HasOperation(Box(), s.sender, s.operation.value, id);
        return Some(id);
      }
      found := if s.messageId in messages then Some(s.messageId) else None;
    }

    method Show(local: bool, owner: Did, id: Token, peer: Did, serverSeq: nat)
      modifies `views, `log
      ensures views == Shown(old(views), local, owner, id, peer) && log == old(log) + Announced(local, owner, id, serverSeq)
    {
      if local {
        if ViewKey(owner, id) !in views {
          views := views[ViewKey(owner, id) := MessageView(peer, None)];
        }
        log := log + [MessageCreated(owner, id, serverSeq)];
      }
    }

    method StoreDirectMessage(s: Send) returns (r: Result<Stored, MailError>)
      requires OperationsUnique(messages)
      modifies this
      ensures match Store(old(Box()), s)
              case Ok((box, stored)) => r == Ok(stored) && Box() == box
              case Err(e) => r == Err(e) && Box() == old(Box())
    {
      hide MaxOf;
      var existing := FindExisting(s);
      if existing.Some? {
        return Again(Box(), s, existing.value);
      }
      if OperationUsed(Box(), s.sender, s.operation.GetOr(s.generated)) {
        return Err(OperationTaken);
      }
      var highest := Maximum(set id | id in messages :: messages[id].serverSeq);
      var serverSeq := highest + 1;
      messages := messages[s.messageId := DirectMessage(s.sender, s.recipient, s.operation.GetOr(s.generated), s.body, s.contentType, s.time, serverSeq)];
      Show(s.senderLocal, s.sender, s.messageId, s.recipient, serverSeq);
      Show(s.recipientLocal, s.recipient, s.messageId, s.sender, serverSeq);
      r := Ok(Stored(s.messageId, serverSeq, false));
    }

    method WriteState(t: Thread, upTo: nat, now: int)
      modifies `states, `log
      ensures Box() == Remember(old(Box()), t, upTo, now)
    {
      var version := 1;
      if t in states {
        version := states[t].version + 1;
      }
      states := states[t := ReadState(upTo, version, now)];
      log := log + [ReadStateUpdated(t, upTo, version)];
    }

    method MarkThreadRead(t: Thread, at: Option<int>, messageId: Option<Token>, now: int) returns (r: Result<(), MailError>)
      modifies this
      ensures match MarkRead(old(Box()), t, at, messageId, now)
              case Ok(box) => r == Ok(()) && Box() == box
              case Err(e) => r == Err(e) && Box() == old(Box())
    {
      hide MaxOf, Requested;
      var wanted := Requested(Box(), t, at, messageId);
      if wanted.Err? {
        return Err(wanted.error);
      }
      var highest := Maximum(VisibleSeqs(Box(), t));
      if wanted.value > highest {
        return Err(WatermarkMismatch);
      }
      var previous := UpTo(Box(), t);
      var saved := if previous > wanted.value then previous else wanted.value;
      var moved := saved > previous || t !in states;
      var readAt := now;
      if !moved {
        readAt := states[t].updatedAt;
      }
      views := MarkUpTo(Box(), t, saved, readAt);
      if moved {
        WriteState(t, saved, now);
      }
      r := Ok(());
    }

    method AdvanceReadPrefix(t: Thread, now: int)
      modifies `states, `log
      ensures Box() == AdvancePrefix(old(Box()), t, now)
    {
      hide MaxOf;
      var prefix := ReadPrefix(Box(), t);
      if prefix == {} {
        return;
      }
      var candidate := Maximum(prefix);
      WriteState(t, candidate, now);
    }

    /** `inbox_mark_read`: flag the listed rows, then visit each touched peer once, in some order. */
    method InboxMarkRead(owner: Did, ids: set<Token>, now: int) returns (ghost peers: seq<Did>, updated: nat)
      modifies this
      ensures Enumerates(peers, TouchedPeers(old(Box()), owner, ids))
      ensures Box() == DirectMessages.InboxMarkRead(old(Box()), owner, ids, peers, now)
      ensures updated == |set k | k in old(views) && k.owner == owner && k.messageId in ids && old(views)[k].readAt.None?|
    {
      hide AdvancePrefix;
      updated := |set k | k in views && k.owner == owner && k.messageId in ids && views[k].readAt.None?|;
      var touched := TouchedPeers(Box(), owner, ids);
      views := MarkListed(Box(), owner, ids, now).views;
      ghost var flagged := Box();
      var todo := touched;
      peers := [];
      while todo != {}
        invariant todo <= touched
        invariant Enumerates(peers, touched - todo)
        invariant Box() == AdvanceAll(flagged, owner, peers, now)
        decreases todo
      {
        var peer: Did :| peer in todo;
        AdvanceReadPrefix(Thread(owner, peer), now);
        assert (peers + [peer])[..|peers|] == peers;
        peers := peers + [peer];
        todo := todo - {peer};
      }
      assert touched - todo == touched;
    }
  }
}
