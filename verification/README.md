# Verified model of the group replication, sync and cutover core

The project models in Dafny 4.11 how a server of this repository hosts groups for members on other
servers, and proves what that replication is worth. A *Group Host* numbers the events of a group and
queues one notification per remote member; a worker drains the queues; a *Member Home* applies the
notifications to a projection. Around it stand the owner's sync log, read watermarks, paged snapshots,
the cutover from profile v1 to v2, and the limiter of registration checks.

A handler's database transaction is one atomic step: it commits, or raises and changes nothing. Tables
are maps and sequences that keep the schema's key constraints. Handlers that read and decide are
functions; handlers that update rows in place are classes whose methods, loops and rollbacks are
proved against those functions, and the theorems are about the functions.

| file | content |
|---|---|
| Common, Aggregates, Decimal | optional values, fallible results, `MAX` queries, decimal cursors |
| MergePatch, GroupPolicy | JSON merge patch, policy and profile validation |
| GroupTypes, GroupHost, GroupHistory, Requests | what the two servers exchange, the Host's transactions, its log as the source of truth, who may ask for what and what it does |
| Outbox, BackPressure, HostTables | ordered retrying delivery, the bounded backlog, the Host's handlers in place |
| MemberHome, HomeTables, HomeSafety, HomeDecisions | the Home's transactions, its handlers in place, safety and decisions against any network |
| Replica, Convergence | one Home against one Host's stream, and both machines as one transition system |
| Progress, Blocking, InitialMembers, Provenance | when a queue can still drain, what a forwarded departure blocks, members seated at creation, where notifications and row statuses come from |
| LocalProjection, GroupRetries | the Host's own members, repeated operations |
| DirectMessages, MailTables | idempotent direct sends, read flags and watermarks |
| SnapshotPaging, SnapshotWalk, SyncLog | budgeted selection and greedy paging, the client's walk, the sync log |
| Migration, RateLimiter | the cutover state machine, the registration limiter |

`hide` statements keep definitions folded while a proof does not need them.

What the proofs bring out:

- Convergence holds for members activated by a join or an add, and only for them. A remote member seated
  at creation is never sent an activation; its Home refuses its first notification in every run, and nothing
  of its queue is ever delivered (`InitialMembers.SeatedAtCreationIsNeverReached`). Being seated is the exact
  condition (`InitialMembers.HeadsAreAcceptedIffNotSeated`).
- A departure that a Home forwards can overtake state changes still in its own queue, sent or not. Those are
  refused as stale for good, and the queue behind them is never delivered again (`Blocking.ForwardingBlocks`,
  `Blocking.BlockedQueueNeverDrains`). It takes one profile update and one leave (`Blocking.BlockingHappens`).
  This is the only way a head notification is refused (`Convergence.HeadIsAccepted`).
- A dead row blocks its queue: the selecting query asks for earlier rows that are not delivered, dead ones
  included. docs/community-groups-design.zh-CN.md describes later rows as unaffected; the model follows the code.
  A queue can drain exactly when it has no dead row and no overtaken notification (`Progress.DrainsUnlessStuck`).
- The snapshot selection truncates at the page budget except when required state occupies no page at all;
  then the trial itself raises at the hundred-and-first page (`SnapshotPaging.TrialCanRaise`).
- An explicit null `group_event_seq` in a roster answer passes validation and raises on conversion, but only
  for an active view (`MemberHome.Refresh`).

## Model

| member | source | states |
|---|---|---|
| `Convergence.HeadIsAccepted` | src/awiki_open_server/messaging/groups/inbound.py:139-214 | In every run of Host requests, drain attempts with failures, lost acknowledgements and repeats, roster reads and forwarded departures: whatever undelivered row stands at the head of a remote member's queue, the Home refuses it (and then only as stale) if and only if it has not taken it in yet and a departure forwarded by that very Home overtook it; what it has taken in it acknowledges again and changes nothing; with no forwarded departure it refuses nothing |
| `Convergence.DrainedViewIsTheHostRow` | src/awiki_open_server/messaging/groups/inbound.py:180-214 | In every run, once every row of an active member's queue is delivered, its view shows the Host row's sequence number, version, profile, policy and role |
| `Convergence.RosterAgrees` | src/awiki_open_server/messaging/groups/projection.py:120-177 | In every run, from a roster read in the current active interval on, the active members and roles in the roster view are the Host's at the view's own event, and the Host's present ones once the queue has drained |
| `Convergence.RunKeepsInv` | src/awiki_open_server/messaging/groups/outbox.py:148-220 | Every run of the two machines keeps the joint invariant of Host log, outbox, worker position, attempt in flight and Home projection |
| `Convergence.StepKeepsInv` | src/awiki_open_server/messaging/groups/outbox.py:148-220 | Each of the nine kinds of step keeps that invariant |
| `Convergence.StepKeepsHostSide` | src/awiki_open_server/messaging/groups/outbox.py:148-220 | The Host's half of it needs nothing of the Home, so it holds for members seated at creation too |
| `Convergence.CreationStarts` | src/awiki_open_server/messaging/groups/service.py:486-572 | Every v2 creation is an unfenced starting state, and one of the convergence theorems exactly when the member is not among those seated |
| `Convergence.HeadIsAnswered` | src/awiki_open_server/messaging/groups/inbound.py:158-179 | The answer to the head of the queue in any state of the invariant, and what an accepted head leaves behind |
| `Convergence.HeadIsNext` | src/awiki_open_server/messaging/groups/outbox.py:153-169 | Everything owed before the head was taken in, and nothing owed after it |
| `Convergence.SentIsAnswered` | src/awiki_open_server/messaging/groups/inbound.py:95-130 | Whatever ever left the Host changes nothing when it comes again, and while not taken in it is the head |
| `Convergence.FeedOfIsOk` | src/awiki_open_server/messaging/groups/service.py:345-377 | The Host's log, seen from outside, is a well-formed stream of notices ending in the Host's current state |
| `Convergence.TargetedIffNotified` | src/awiki_open_server/messaging/groups/delivery.py:85-104 | The Host enqueues an event for a remote member exactly when the member is active after it or it is that member's own departure |
| `Convergence.CommitStepKeepsHost` | src/awiki_open_server/messaging/groups/service.py:945-1011 | A committed request adds exactly the row owed to the member and keeps everything sent first in line |
| `Convergence.CommitStepKeepsHome` | src/awiki_open_server/messaging/groups/service.py:945-1011 | What the Home has taken in is worth the same after the Host commits |
| `Convergence.HostConfirms` | src/awiki_open_server/messaging/groups/service.py:1054-1071 | The answer the Host stored for a leave or remove is the receipt of that departure's event |
| `Progress.AttemptDelivers` | src/awiki_open_server/messaging/groups/outbox.py:172-219 | From any state in which the worker's current row was taken in or is not overtaken, the Home accepts or recognises this very attempt, and at most three steps end with the row delivered |
| `Progress.QuietStepKeepsStuck` | src/awiki_open_server/messaging/groups/outbox.py:172-219 | Sending, repeating and settling leave exactly the same notifications stuck |
| `Progress.DrainsUnlessStuck` | src/awiki_open_server/messaging/groups/outbox.py:148-220 | At any moment of any run: the worker and the network alone can still empty the member's queue if and only if no row of it is dead and no notification in it was overtaken |
| `Progress.QueueCanDrain` | src/awiki_open_server/messaging/groups/outbox.py:148-220 | Constructs that continuation, selection by selection and attempt by attempt |
| `Progress.MemberCanCatchUp` | src/awiki_open_server/messaging/groups/outbox.py:148-220 | From every reachable state without a dead row and with nothing stuck, for which it suffices that no departure was forwarded, a continuation in which the Host commits nothing brings an active member's view up to the Host's row |
| `Progress.JoiningConverges` | src/awiki_open_server/messaging/groups/service.py:846-1011 | A run that shows the system at work: from any open group with an empty outbox, joining and one delivery attempt end with the Home's view equal to the Host's row |
| `Blocking.ForwardingBlocks` | src/awiki_open_server/messaging/groups/routing.py:125-159 | Applying a forwarded departure blocks exactly the state changes, queued or travelling, that lie before it and after the last roster read |
| `Blocking.BlockedIffPassed` | src/awiki_open_server/messaging/groups/inbound.py:171-179 | A state change is blocked exactly when it is still owed and the ended view lies past it |
| `Blocking.BlockedStays` | src/awiki_open_server/messaging/groups/inbound.py:171-179 | A blocked notification stays blocked through every later step of any kind |
| `Blocking.BlockedQueueNeverDrains` | src/awiki_open_server/messaging/groups/outbox.py:157-163 | From a blocked notification on, no row of that queue is ever delivered again, in any continuation |
| `Blocking.UpdateThenLeaveBlocks` | src/awiki_open_server/messaging/groups/routing.py:125-159 | From every state in which the member is active with a view: a profile update and the member's leave, forwarded before the update was delivered, block its queue |
| `Blocking.BlockingHappens` | src/awiki_open_server/messaging/groups/routing.py:125-159 | A concrete run from a group just created to a blocked queue: Bob joins and is up to date, Alice changes the profile, Bob leaves through his Home |
| `InitialMembers.SeatedAtCreationIsNeverReached` | src/awiki_open_server/messaging/groups/service.py:511-572 | For a remote member seated at creation, in every run: its view stays absent, no row of its queue is ever delivered, and the head of its queue is the second event, refused for want of a membership |
| `InitialMembers.HeadsAreAcceptedIffNotSeated` | src/awiki_open_server/messaging/groups/service.py:511-572 | From every creation: the heads of a member's queue are accepted, in all runs without a forwarded departure, if and only if the member was not seated at creation |
| `Replica.DueNotice` | src/awiki_open_server/messaging/groups/inbound.py:139-239 | The next notification owed is taken in, keeping the projection sound, unless a forwarded departure overtook it |
| `Replica.DueChange` | src/awiki_open_server/messaging/groups/inbound.py:148-239 | For a state change: refused exactly when overtaken, otherwise applied, superseded or recognised, and the projection stays sound |
| `Replica.DueMessage` | src/awiki_open_server/messaging/groups/inbound.py:339-396 | For a message: always stored, also behind a forwarded departure, and the view moves by at most that message |
| `Replica.Redelivered` | src/awiki_open_server/messaging/groups/inbound.py:95-130 | A notification that comes again changes nothing, and the latest one taken in is always acknowledged again |
| `Replica.OvertakenMessageIsAdmitted` | src/awiki_open_server/messaging/groups/inbound.py:270-297 | A message overtaken by a forwarded departure lies inside the interval that departure ended |
| `Replica.DueAhead` | src/awiki_open_server/messaging/groups/inbound.py:150-155 | A notification ahead of the view is the very next event or the member's re-activation, so it is never a gap |
| `Replica.ObservationCovers` | src/awiki_open_server/messaging/groups/inbound.py:133-136 | Everything up to the event a roster was read at counts as covered |
| `Replica.ForwardedDepartureMatches` | src/awiki_open_server/messaging/groups/inbound.py:251-267 | The notification of a forwarded departure is recognised by its receipt |
| `Replica.AppliedViewShows` | src/awiki_open_server/messaging/groups/inbound.py:180-214 | Applying the notification due makes the view show the Host after exactly that event |
| `Replica.AppliedRosterAgrees` | src/awiki_open_server/messaging/groups/inbound.py:215-239 | Applying one event turns agreement with the Host's roster before it into agreement after it |
| `Replica.RefreshKeeps` | src/awiki_open_server/messaging/groups/projection.py:104-183 | A roster answer moves an active view to the moment of the answer if it is not older, and leaves roster and Host in agreement |
| `Replica.ListedRosterAgrees` | src/awiki_open_server/messaging/groups/routing.py:203-221 | A complete answer, reinserted row by row, is the Host's active roster with roles |
| `Replica.ForwardKeeps` | src/awiki_open_server/messaging/groups/routing.py:108-159 | A forwarded departure ends the membership in the view unless the view is past it, and keeps the projection sound |
| `Replica.CaughtUp` | src/awiki_open_server/messaging/groups/inbound.py:180-214 | A Home that has taken in all it was owed shows an active member the Host as it is |
| `Replica.NothingOvertaken` | src/awiki_open_server/messaging/groups/inbound.py:171-179 | Without forwarded departures no notification is ever overtaken |
| `Replica.InitialMemberIsRefused` | src/awiki_open_server/messaging/groups/inbound.py:158-167 | The first event owed to a member seated at creation is no activation of it, and a Home without a view refuses it whatever else it knows |
| `Provenance.TakenInWasAsked` | src/awiki_open_server/messaging/groups/inbound.py:139-239 | Over runs of the whole system: every notification a member's Home has recorded is what a step of that run asked of the Host, by a sender permitted at that moment: subject, status, role and documents, or content, id and time, and the receipt |
| `Provenance.StoredMessageWasSent` | src/awiki_open_server/messaging/groups/inbound.py:368-396 | Over runs: a message stored at the Home has the content, id, time, sender and digest of a send that the run committed at that event number, by a sender entitled to send |
| `Provenance.EveryNoticeWasAsked` | src/awiki_open_server/messaging/groups/delivery.py:85-160 | The same for every notification of the Host's log, delivered or not |
| `Provenance.RowIsItsHistory` | src/awiki_open_server/messaging/groups/outbox.py:172-219 | Over runs from a creation: a delivery row counts its attempts, all but the last failed; it is dead if and only if the last was answered with no support or was the eighth failure, delivered if and only if it was acknowledged, and otherwise open |
| `Provenance.RetriesWait` | src/awiki_open_server/messaging/groups/outbox.py:22-24 | A row that failed is not selected again before its wait is over |
| `HomeSafety.NothingIsTakenBack` | src/awiki_open_server/messaging/groups/inbound.py:95-130 | Against any network, a view's sequence number never falls, delivery records never change and the sync log only grows, over any run |
| `HomeSafety.EachKeyTakesEffectOnce` | src/awiki_open_server/messaging/groups/inbound.py:113-130 | Against any network, an accepted (source, event number, method) key leaves the whole projection untouched whenever it comes again |
| `HomeSafety.SpentKeyIsInert` | src/awiki_open_server/messaging/groups/inbound.py:113-117 | Under a recorded key any payload changes nothing, and a different payload is refused |
| `HomeSafety.TakingAdvances` | src/awiki_open_server/messaging/groups/projection.py:120-131 | No notification, roster read or terminal answer moves a view back or rewrites stored rows |
| `HomeSafety.LateMessageIsStoredIff` | src/awiki_open_server/messaging/groups/inbound.py:348-396 | Against any network and over any inputs from the empty projection: a message takes effect in a view that has ended if and only if it is a bound v2 message, not seen before, later than the activation the run applied last and earlier, in event and version, than a departure whose answer the run accepted and where the view stands; it moves neither status, event number, version nor roster |
| `HomeSafety.ActivationFromInputs` | src/awiki_open_server/messaging/groups/inbound.py:280-288 | What the projection holds for the owner's latest activation is the one the run applied last |
| `HomeSafety.DepartureFromInputs` | src/awiki_open_server/messaging/groups/inbound.py:290-297 | A remembered departure ends the view exactly when the run accepted such a terminal answer |
| `HomeSafety.KeysFromInputs` | src/awiki_open_server/messaging/groups/inbound.py:95-130 | A delivery key is recorded exactly when some earlier input under it was accepted |
| `HomeSafety.MessagesFromInputs` | src/awiki_open_server/storage/db.py:284-298 | A message row is stored exactly when some earlier input took effect with that very message |
| `HomeSafety.RefreshIsIdempotent` | src/awiki_open_server/messaging/groups/projection.py:112-183 | Applying the same roster answer twice is applying it once |
| `HomeDecisions.ChangeIsDecided` | src/awiki_open_server/messaging/groups/inbound.py:139-179 | Against any network: a state change takes effect if and only if its receipt is its own, it was not seen before, and it is the owner's first activation, the next event, a re-activation or the departure this Home forwarded; when it is consumed without effect; and that each refusal names a reason that holds |
| `HomeDecisions.ChangeLeaves` | src/awiki_open_server/messaging/groups/inbound.py:180-239 | What a state change that takes effect leaves in view, roster, records and log, absent fields and defaults included |
| `HomeDecisions.MessageIsDecided` | src/awiki_open_server/messaging/groups/inbound.py:339-396 | Against any network: exactly which messages take effect, in active, ended and absent views, what they leave, and why others are refused |
| `HomeDecisions.RefreshIsDecided` | src/awiki_open_server/messaging/groups/projection.py:111-126 | Exactly when a roster answer replaces the projection |
| `HomeDecisions.RefreshLeaves` | src/awiki_open_server/messaging/groups/projection.py:127-183 | The replaced projection is the answer, entry by entry, and it is announced if and only if it is newer than what was read before |
| `HomeDecisions.TerminalIsDecided` | src/awiki_open_server/messaging/groups/routing.py:97-159 | Exactly when the answer to a forwarded departure is accepted, and what it leaves |
| `HomeDecisions.AlwaysSane` | src/awiki_open_server/messaging/groups/inbound.py:69-130 | Over any inputs: only notices with their own receipt are recorded, each under its own number, no message is stored twice, every remembered departure is this owner's, and there is no view without an announced activation |
| `HomeDecisions.ViewNeverSkips` | src/awiki_open_server/messaging/groups/inbound.py:150-158 | Over any inputs: a view moves on only by the next event, a re-activation, a roster read that is not older, or a departure of its own |
| `HomeTables.Projection.RecordInbound` | src/awiki_open_server/messaging/groups/inbound.py:95-130 | Inserts the key, or tells a repeat from a contradiction |
| `HomeTables.Projection.GroupStateChanged` | src/awiki_open_server/messaging/groups/inbound.py:139-240 | The handler's table updates and rollbacks realise the specified transition |
| `HomeTables.Projection.ApplyStateChange` | src/awiki_open_server/messaging/groups/inbound.py:180-239 | The upserts of view, wire profile, roster row and sync event, in the handler's order |
| `HomeTables.Projection.GroupIncoming` | src/awiki_open_server/messaging/groups/inbound.py:339-420 | The handler's table updates and rollbacks realise the specified transition |
| `HomeTables.Projection.BeforeTerminal` | src/awiki_open_server/messaging/groups/inbound.py:270-297 | Decides exactly the in-flight condition |
| `HomeTables.Projection.EndedByKnownDeparture` | src/awiki_open_server/messaging/groups/inbound.py:290-297 | The loop finds a matching departure if and only if there is one |
| `HomeTables.Projection.InsertMessage` | src/awiki_open_server/storage/db.py:284-298 | The insert succeeds exactly when neither uniqueness constraint is violated |
| `HomeTables.Projection.ValidateMembers` | src/awiki_open_server/messaging/groups/routing.py:203-215 | The loop accepts exactly the listings whose entries are active and distinct, and collects their members |
| `HomeTables.Projection.RefreshMembers` | src/awiki_open_server/messaging/groups/projection.py:104-183 | The view update, roster replacement and sync event realise the specified refresh |
| `HomeTables.Projection.ReplaceRoster` | src/awiki_open_server/messaging/groups/projection.py:153-176 | Delete and reinsert leave exactly the listed rows |
| `HomeTables.Projection.FindListed` | src/awiki_open_server/messaging/groups/projection.py:134 | Finds the owner's own entry |
| `HomeTables.Projection.ApplyTerminal` | src/awiki_open_server/messaging/groups/routing.py:97-159 | The operation row and the view update realise the specified forwarded departure |
| `MemberHome.MemberRowsList` | src/awiki_open_server/messaging/groups/projection.py:157-176 | The reinserted rows hold exactly the listed members with their roles |
| `GroupHistory.LogExplainsState` | src/awiki_open_server/messaging/groups/service.py:345-377 | In every reachable state of a hosted group events are numbered without a hole, the event number is the version plus the stored messages, and roster, profile and policy are the fold of the event payloads; the policy is valid and at most a hundred members are active |
| `GroupHistory.ExecuteKeepsHistory` | src/awiki_open_server/messaging/groups/service.py:234-279 | Every accepted request either replays a recorded operation and touches nothing, or appends exactly one event that explains every difference in the state |
| `GroupHistory.HandleExtends` | src/awiki_open_server/messaging/groups/service.py:945-1011 | Each handler's commit extends the log by one well-formed event and enqueues one fresh row per notified member |
| `GroupHistory.ActivationExtends` | src/awiki_open_server/messaging/groups/service.py:926-1000 | For join and add |
| `GroupHistory.DepartureExtends` | src/awiki_open_server/messaging/groups/service.py:1022-1111 | For leave and remove |
| `GroupHistory.SendExtends` | src/awiki_open_server/messaging/groups/service.py:1390-1534 | For messages: the event number moves, the version does not |
| `GroupHistory.UpdateExtends` | src/awiki_open_server/messaging/groups/service.py:1259-1345 | For profile and policy updates |
| `GroupHistory.HandleKeepsLimits` | src/awiki_open_server/messaging/groups/service.py:907-914 | A stored policy stays valid and active members never exceed a hundred, whatever the current policy says |
| `GroupHistory.OperationsSurvive` | src/awiki_open_server/messaging/groups/service.py:261-279 | Recorded operations keep pointing at the events they produced |
| `GroupHistory.CutoverKeepsHistory` | src/awiki_open_server/messaging/groups/migration.py:241-246 | A protocol cutover keeps the books |
| `GroupHistory.CreationIsConsistent` | src/awiki_open_server/messaging/groups/service.py:411-572 | A created group starts with one event, its own state as the base of the fold and exactly the creator and initial members seated |
| `GroupHistory.StateOfPrefix` | src/awiki_open_server/messaging/groups/service.py:345-377 | Later events never change what earlier ones fold to |
| `Requests.AcceptedIsPermitted` | src/awiki_open_server/messaging/groups/service.py:292-306 | Whatever new request is accepted: its sender is active and stands at or above the role that the policy's permissions name under the action's own word, member below admin below owner; joining takes open admission, leaving a membership |
| `Requests.DeniedIff` | src/awiki_open_server/messaging/groups/service.py:302-306 | Permission is denied exactly to active senders below the named role |
| `Requests.AcceptedIff` | src/awiki_open_server/messaging/groups/service.py:234-306 | Exactly when a new request is accepted: permitted, subject and seat fit under the group's own limit, content valid, and everyone to be told fits the backlog; exactly when a repeated one is answered; and every refusal names a reason that holds |
| `Requests.CommitDoes` | src/awiki_open_server/messaging/groups/service.py:945-1011 | An accepted new request does what it asked for and nothing else: roster, documents, receipt, event or message, stored answer, and one pending row with that notification for each of its audience |
| `Requests.ActivationDoes` | src/awiki_open_server/messaging/groups/service.py:846-1011 | For join and add: the member is seated with the role asked for, at the home discovered |
| `Requests.DepartureDoes` | src/awiki_open_server/messaging/groups/service.py:1022-1111 | For leave and remove |
| `Requests.UpdateDoes` | src/awiki_open_server/messaging/groups/service.py:1259-1345 | For profile and policy updates |
| `Requests.SendDoes` | src/awiki_open_server/messaging/groups/service.py:1390-1534 | For messages: the stored row and every queued one carry the client's content, id and time under a receipt for this request |
| `Requests.CreatedAsAsked` | src/awiki_open_server/messaging/groups/service.py:411-572 | Exactly when a creation succeeds; then the creator is its owner, everyone named is seated as named, and nobody else is |
| `Requests.EveryEventWasAsked` | src/awiki_open_server/messaging/groups/service.py:345-377 | In every reachable group, every event is the committed request of a sender permitted at that moment, and says what it asked |
| `Requests.EveryMemberWasAdmitted` | src/awiki_open_server/messaging/groups/service.py:891-944 | In every reachable group, nobody is active uninvited or in a role nobody gave: creation seated it so, it joined an open group, or someone entitled to add members added it in that role |
| `HostTables.HostedGroup.Serve` | src/awiki_open_server/messaging/groups/service.py:234-252 | The request path from protocol fence to handler realises the specified transaction, rows and outbox included, whose meaning `Requests.AcceptedIff` and `Requests.CommitDoes` state |
| `HostTables.HostedGroup.MembershipMutation` | src/awiki_open_server/messaging/groups/service.py:891-1011 | Join and add, with the member row put back when the backlog is full |
| `HostTables.HostedGroup.EndMembership` | src/awiki_open_server/messaging/groups/service.py:1022-1111 | Leave and remove, with the backlog counted before or after the departure as the profile demands |
| `HostTables.HostedGroup.UpdateGroup` | src/awiki_open_server/messaging/groups/service.py:1259-1345 | Profile and policy updates |
| `HostTables.HostedGroup.Send` | src/awiki_open_server/messaging/groups/service.py:1356-1534 | Messages, realising what `Requests.SendDoes` states |
| `HostTables.HostedGroup.WriteChange` | src/awiki_open_server/messaging/groups/service.py:945-1011 | Counters, event, operation and notifications of a management request |
| `HostTables.HostedGroup.Enqueue` | src/awiki_open_server/messaging/groups/delivery.py:52-131 | The loop inserts one row per target and leaves existing rows alone |
| `HostTables.HostedGroup.OutboxHasCapacity` | src/awiki_open_server/messaging/groups/delivery.py:28-49 | Decides exactly whether the counted rows fit |
| `GroupPolicy.ValidationIsAProjection` | src/awiki_open_server/messaging/groups/service.py:184-209 | Validation yields only storable policies, and a policy is storable exactly when validation returns it unchanged |
| `GroupPolicy.PolicyValidatesIff` | src/awiki_open_server/messaging/groups/service.py:184-208 | Exactly which policies validate, entry by entry |
| `GroupPolicy.ValidatedPolicyIs` | src/awiki_open_server/messaging/groups/service.py:190-209 | What a valid policy gives is kept, the limit as canonical digits, and what it leaves out gets its default |
| `GroupPolicy.ValidatedProfileMeans` | src/awiki_open_server/messaging/groups/service.py:212-219 | Exactly which profiles validate, and that all they give is kept |
| `GroupPolicy.LimitsRead` | src/awiki_open_server/messaging/groups/service.py:200-206 | A limit may be a number, a boolean, or digits with or without a sign |
| `GroupPolicy.ProfileValidationIsAProjection` | src/awiki_open_server/messaging/groups/service.py:212-219 | Validating a profile twice is validating it once |
| `GroupPolicy.StoredPolicyIsReadable` | src/awiki_open_server/messaging/groups/service.py:302-306 | A stored policy always yields a limit from 1 to 100 and exactly the five permissions |
| `MergePatch.MergePatchInPlace` | src/awiki_open_server/messaging/groups/service.py:222-231 | The in-place patch loop computes the merge of section 2 of RFC 7396 |
| `MergePatch.MergeIsIdempotent` | src/awiki_open_server/messaging/groups/service.py:222-231 | Applying a patch twice is applying it once |
| `MergePatch.PatchExistsIffReachable` | src/awiki_open_server/messaging/groups/service.py:222-231 | A document can be reached by some patch exactly when it adds no null member, and then its diff reaches it |
| `MergePatch.NullFreeIsReachable` | src/awiki_open_server/messaging/groups/service.py:222-231 | A null-free target is reached from any document by its diff |
| `LocalProjection.LocalViewsAlwaysAgree` | src/awiki_open_server/messaging/groups/projection.py:13-101 | In every run of requests, drains and cutover transactions every local active member's view and roster are the hosted rows, wire profile included, and everyone else's view is inactive |
| `LocalProjection.ServeKeepsAgreement` | src/awiki_open_server/messaging/groups/migration.py:240-246 | Each request and each transaction of a cutover, whose apply refreshes the views in its own commit, keeps that agreement |
| `LocalProjection.CommitKeepsAgreement` | src/awiki_open_server/messaging/groups/projection.py:186-230 | Every accepted request keeps that agreement, and a message reaches every local active member |
| `LocalProjection.AgreementShows` | src/awiki_open_server/messaging/groups/projection.py:34-101 | What that agreement shows a local member, field by field, and whom it shows nothing |
| `LocalProjection.LocalTables.RefreshLocalProjections` | src/awiki_open_server/messaging/groups/projection.py:13-101 | The upsert and deactivation loops realise the specified refresh |
| `LocalProjection.LocalTables.UpsertViews` | src/awiki_open_server/messaging/groups/projection.py:34-88 | The loop over local active members upserts their views and rosters |
| `LocalProjection.LocalTables.DeactivateOthers` | src/awiki_open_server/messaging/groups/projection.py:89-101 | The loop over stored views marks everyone else inactive |
| `Outbox.DrainKeepsSound` | src/awiki_open_server/messaging/groups/outbox.py:148-219 | However enqueues interleave with a drain, delivered rows of every queue stay a prefix of it, a batch holds one row per queue, and no row is attempted more than eight times |
| `Outbox.Worker.Drain` | src/awiki_open_server/messaging/groups/outbox.py:148-220 | The drain loop leaves the rows its settlements specify, keeps them sound and counts delivered, retried and dead exactly |
| `Outbox.Worker.SettleOne` | src/awiki_open_server/messaging/groups/outbox.py:175-219 | One settlement writes the status, attempt count and next attempt specified, and its verdict is retry exactly for a failure before the eighth attempt |
| `Outbox.SettledAsAnswered` | src/awiki_open_server/messaging/groups/outbox.py:172-219 | Settling an open row: delivered when acknowledged; dead when unsupported or at the eighth attempt in vain; otherwise up again at the clock plus its backoff; no other row, notification or address changes |
| `Outbox.SelectionIsDue` | src/awiki_open_server/messaging/groups/outbox.py:153-169 | A drain selects up to the limit, at most a hundred, of the open rows that are due and first in line, longest due first, and leaves one out only when full |
| `Outbox.BatchHasOneRowPerQueue` | src/awiki_open_server/messaging/groups/outbox.py:153-169 | A selection never holds two rows of one queue, and each is first in line |
| `Outbox.SettleKeepsSound` | src/awiki_open_server/messaging/groups/outbox.py:178-219 | Settling a selected row keeps order, bounds and the rest of the batch first in line |
| `Outbox.InsertKeepsSound` | src/awiki_open_server/messaging/groups/delivery.py:52-82 | So does enqueueing later events |
| `Outbox.InsertedIsKept` | src/awiki_open_server/messaging/groups/delivery.py:52-82 | Enqueueing adds what is new and never replaces a row that is there |
| `Outbox.DrainingTerminates` | src/awiki_open_server/messaging/groups/outbox.py:17-24 | With nothing enqueued a run of settlements has at most eight attempts per row, those already spent included |
| `Outbox.BackoffGrows` | src/awiki_open_server/messaging/groups/outbox.py:22-24 | The wait starts at one second, doubles per attempt and is five minutes at most, exactly |
| `BackPressure.BacklogIsBounded` | src/awiki_open_server/messaging/groups/delivery.py:28-49 | Over any run of a Host with many groups, pending and retrying rows never exceed the limit plus the management reserve |
| `BackPressure.StepKeepsBound` | src/awiki_open_server/messaging/groups/delivery.py:28-49 | Each step keeps the bound, and a message never takes the backlog past the limit itself |
| `BackPressure.BacklogIsWhatIsOpen` | src/awiki_open_server/messaging/groups/delivery.py:36-44 | The backlog counted is every pending or retrying row of any group |
| `BackPressure.CommitAdmits` | src/awiki_open_server/messaging/groups/delivery.py:85-131 | Every handler enqueues exactly as many new rows as its capacity check counted, in both profiles |
| `BackPressure.DepartureAdmits` | src/awiki_open_server/messaging/groups/service.py:1043-1050 | A departure counts its subject exactly when the profile also notifies it |
| `GroupRetries.RetriesAreInvisible` | src/awiki_open_server/messaging/groups/service.py:234-252 | A run of group operations with arbitrary retries ends in the same state as the run without them |
| `GroupRetries.RetryIsInvisible` | src/awiki_open_server/messaging/groups/service.py:234-252 | Deleting any one retry from a run changes nothing that follows |
| `GroupRetries.RetryIsAnswered` | src/awiki_open_server/messaging/groups/service.py:234-279 | A retry gets the recorded answer or a refusal, a changed payload never succeeds, and neither changes anything |
| `DirectMessages.RetriesAreInvisible` | src/awiki_open_server/messaging/core.py:235-268 | A run of direct sends and reads with arbitrary client retries ends in the same mailbox as the run with all of them deleted |
| `DirectMessages.RetryIsInvisible` | src/awiki_open_server/messaging/core.py:235-268 | Deleting any one retried send from a run changes nothing that follows |
| `DirectMessages.RetriedSend` | src/awiki_open_server/messaging/core.py:376-419 | Once accepted, a send answers its retries with the same number and a changed payload with a conflict |
| `DirectMessages.WatermarksAreSound` | src/awiki_open_server/messaging/core.py:1548-1613 | Over any run of sends and reads nothing visible at or below a thread's watermark is unread, the watermark never falls and never passes the highest visible message, and its version counts the updates announced |
| `DirectMessages.InboxMarkReadIsExact` | src/awiki_open_server/messaging/core.py:1045-1076 | After an inbox read each touched thread's watermark is its longest read prefix, and exactly the requested visible messages became read |
| `DirectMessages.InboxMarkReadTouchesOnly` | src/awiki_open_server/messaging/core.py:1045-1076 | An inbox read stamps exactly the requested unread rows, steps only watermarks of the threads it touched, and leaves each of those the longest read prefix |
| `DirectMessages.MarkReadIsExact` | src/awiki_open_server/messaging/core.py:1479-1609 | A thread read moves the watermark up to the number asked for, never down, flags exactly what that thread shows at or below it, changes no message, no other thread and no flag set before, and announces a new watermark |
| `DirectMessages.MarkReadIsDecided` | src/awiki_open_server/messaging/core.py:1563-1593 | Exactly which thread reads are accepted, and why others are refused |
| `DirectMessages.NewSendIsShown` | src/awiki_open_server/messaging/core.py:270-310 | Exactly when a send is stored anew; it then gets the sender's content and the highest number, and is shown unread and announced to whichever of the two is local, under the other as peer |
| `DirectMessages.AnnouncementsTell` | src/awiki_open_server/messaging/core.py:1607-1609 | Over any run, the last update announced for a thread is its present watermark and version |
| `DirectMessages.MarkReadKeeps` | src/awiki_open_server/messaging/core.py:1571-1613 | A thread read keeps every thread's watermark sound and reaches the requested message |
| `DirectMessages.StoreKeeps` | src/awiki_open_server/messaging/core.py:235-320 | A send keeps numbers distinct, operations unique and every watermark sound |
| `DirectMessages.AdvancePrefixKeeps` | src/awiki_open_server/messaging/core.py:1013-1042 | Advancing a read prefix keeps every watermark sound and changes no flag |
| `DirectMessages.AdvancingExhausts` | src/awiki_open_server/messaging/core.py:1023-1033 | After the step no read message is left in front of the first unread one |
| `MailTables.MailStore.StoreDirectMessage` | src/awiki_open_server/messaging/core.py:235-310 | The lookups and inserts realise the specified send |
| `MailTables.MailStore.MarkThreadRead` | src/awiki_open_server/messaging/core.py:1567-1613 | The state row, flags and event realise the thread read that `DirectMessages.MarkReadIsExact` states |
| `MailTables.MailStore.AdvanceReadPrefix` | src/awiki_open_server/messaging/core.py:1013-1042 | The candidate row realises the specified prefix advance |
| `MailTables.MailStore.InboxMarkRead` | src/awiki_open_server/messaging/core.py:1045-1076 | The flags and the loop over touched peers realise the specified inbox read, and the count is that of rows flagged |
| `Aggregates.Maximum` | src/awiki_open_server/storage/db.py:556-568 | Computes the maximum that numbers new rows |
| `SnapshotPaging.SelectionIsLongestSuffix` | src/awiki_open_server/messaging/standard_sync.py:148-239 | Decides every input: required state with an oversized item or beyond a budget is refused; otherwise the selected messages are exactly the longest newest suffix within item, byte and page budgets, and it raises exactly at an oversized message right behind that suffix or, with no page of required state, where a hundred-and-first would be needed |
| `SnapshotPaging.SelectionFollows` | src/awiki_open_server/messaging/standard_sync.py:192-239 | The same for a given longest affordable suffix |
| `SnapshotPaging.SelectedPackagePages` | src/awiki_open_server/messaging/standard_sync.py:274-280 | A selected package always pages without error, within a hundred pages and the package limits |
| `SnapshotPaging.GreedyIsOptimal` | src/awiki_open_server/messaging/standard_sync.py:242-267 | Greedy paging uses the fewest pages of all contiguous splits within the page limits |
| `SnapshotPaging.PrependingCostsAtMostOne` | src/awiki_open_server/messaging/standard_sync.py:208 | Prepending one item changes the page count by 0 or 1 |
| `SnapshotPaging.SuffixNeedsNoMore` | src/awiki_open_server/messaging/standard_sync.py:242-267 | Dropping items from the front never costs a page |
| `SnapshotPaging.GreedyIsSplit` | src/awiki_open_server/messaging/standard_sync.py:242-267 | Greedy pages are within limits and join to the section |
| `SnapshotPaging.ScanTakesLongest` | src/awiki_open_server/messaging/standard_sync.py:250-258 | The inner loop takes the longest prefix that fits a page |
| `SnapshotPaging.PaginateIsGreedyPages` | src/awiki_open_server/messaging/standard_sync.py:261-266 | Paging succeeds exactly when at most a hundred pages are needed |
| `SnapshotPaging.ChoiceIsLongest` | src/awiki_open_server/messaging/standard_sync.py:197-213 | Where the message loop stops, and why it can raise |
| `SnapshotPaging.ChoiceIsDecided` | src/awiki_open_server/messaging/standard_sync.py:197-213 | The longest affordable run alone decides the loop's outcome |
| `SnapshotPaging.RequiredStateIsRefused` | src/awiki_open_server/messaging/standard_sync.py:173-191 | Required state beyond any budget is refused as such |
| `SnapshotPaging.TrialCanRaise` | src/awiki_open_server/messaging/standard_sync.py:208-211 | Concrete input: with no required state a hundred bulky messages are delivered and a hundred and one raise |
| `SnapshotPaging.SelectSnapshotPackage` | src/awiki_open_server/messaging/standard_sync.py:148-239 | The sizing, paging and selection loops realise the specified selection |
| `SnapshotPaging.SelectMessages` | src/awiki_open_server/messaging/standard_sync.py:197-213 | The loop over messages, newest first |
| `SnapshotPaging.PaginateSections` | src/awiki_open_server/messaging/standard_sync.py:242-267 | The loop over sections |
| `SnapshotPaging.PaginateSection` | src/awiki_open_server/messaging/standard_sync.py:248-266 | The paging loop of one section, with the page limit |
| `SnapshotPaging.FillBatch` | src/awiki_open_server/messaging/standard_sync.py:250-258 | The loop that fills one page |
| `SnapshotPaging.SizeSection` | src/awiki_open_server/messaging/standard_sync.py:163-172 | Sums a section, raising exactly for an oversized item |
| `SnapshotWalk.Recover` | src/awiki_open_server/messaging/core.py:1771-1810 | From selection to client: a recovery fails exactly as the selection does; otherwise following the references visits one to a hundred pages, none twice, which join to each selected section, add up to the manifest's count, and hold the newest messages in increasing event order |
| `SnapshotWalk.PagesRebuildSelection` | src/awiki_open_server/messaging/standard_sync.py:283-337 | The pages of a selection join to each section, number at most a hundred, and their counts add up to the total |
| `SnapshotWalk.Walk` | src/awiki_open_server/messaging/core.py:2443-2481 | Following next references from the first page visits every page once, in order, and ends |
| `SnapshotWalk.PagesRebuildPackage` | src/awiki_open_server/messaging/standard_sync.py:283-337 | Joining the pages per section gives the package, and returned items add up to the manifest's total |
| `SnapshotWalk.PagesAreOrderly` | src/awiki_open_server/messaging/standard_sync.py:242-280 | Pages come section by section, none empty, each within a hundred items and one mebibyte; only an empty package has an empty page |
| `SnapshotWalk.PageNumber` | src/awiki_open_server/messaging/standard_sync.py:274-280 | The number of pages is the sum over sections, and one for an empty package |
| `SnapshotWalk.StrangeRefIsRefused` | src/awiki_open_server/messaging/core.py:2452-2454 | A reference no page of the session carries is refused |
| `Migration.CutoverIsVerified` | src/awiki_open_server/messaging/groups/migration.py:208-247 | In any interleaving, a step that takes the group from v1 to v2 is the commit of an apply that verified the backup of this very preparation; from that reading to the commit group and plan stood still behind the fence, its backup is the one finished for that preparation, and every notification was delivered |
| `Migration.OnlyApplyCutsOver` | src/awiki_open_server/messaging/groups/migration.py:241-246 | No other transaction and no refused apply changes the profile to v2 |
| `Migration.ApplyingIsDecided` | src/awiki_open_server/messaging/groups/migration.py:226-246 | Exactly when an apply commits; it then publishes the new document as the next version, moves the group to v2, takes the fence down and marks the record applied, and nothing else of the group or its rows changes |
| `Migration.DocumentIsPublishedOnce` | src/awiki_open_server/messaging/groups/migration.py:233-244 | Over any run of a v1 group: the document and its version stay as they were until the one step that takes it to v2, and from then on are that apply's own document as the next version |
| `Migration.PreparedWasBackedUp` | src/awiki_open_server/messaging/groups/migration.py:181-190 | The backup on record is the one finished for that very preparation |
| `Migration.PreparingIsDecided` | src/awiki_open_server/messaging/groups/migration.py:164-180 | Exactly when the fence goes up, and when a prepared plan is only answered for |
| `Migration.FinishingIsDecided` | src/awiki_open_server/messaging/groups/migration.py:183-190 | Exactly when a backup is recorded |
| `Migration.ApplyReadIsDecided` | src/awiki_open_server/messaging/groups/migration.py:208-222 | Exactly what an apply's reading answers, and that it needs the backup intact |
| `Migration.CancellingIsDecided` | src/awiki_open_server/messaging/groups/migration.py:252-259 | Exactly when a cutover is cancelled, and that only fence and record change |
| `Migration.PlanPinsDown` | src/awiki_open_server/messaging/groups/migration.py:79-98 | Two states with the same plan agree in members, documents, counters, and every notification queued |
| `Migration.CutoverIsFenced` | src/awiki_open_server/messaging/groups/migration.py:164-259 | Over any interleaving the group is quiescing exactly while its record is preparing or prepared, its plan then is the recorded one, and v2 is never reverted |
| `Migration.FenceRefusesWrites` | src/awiki_open_server/messaging/groups/protocol.py:54-58 | While a cutover is underway no request of any kind is served |
| `Migration.StepKeepsFence` | src/awiki_open_server/messaging/groups/migration.py:164-259 | Each transaction, write and settlement keeps fence, plan and profile in step |
| `Migration.NothingMoved` | src/awiki_open_server/messaging/groups/migration.py:226-231 | Between two moments of the same preparation and stage nothing of group, plan or record changed |
| `Migration.StepAges` | src/awiki_open_server/messaging/groups/migration.py:176-190 | A preparation, once left, never comes back |
| `Migration.DrainKeepsAnchor` | src/awiki_open_server/messaging/groups/migration.py:79-98 | Settling deliveries does not change the plan |
| `Migration.RepeatedApplyIsAnswered` | src/awiki_open_server/messaging/groups/migration.py:214-218 | An apply that finds its record applied never finds the group inconsistent with it |
| `Migration.MigrationTables.BeginPreparation` | src/awiki_open_server/messaging/groups/migration.py:164-180 | The fence transaction realises its specification |
| `Migration.MigrationTables.FinishPreparation` | src/awiki_open_server/messaging/groups/migration.py:183-190 | So does the transaction after the backup |
| `Migration.MigrationTables.CommitApply` | src/awiki_open_server/messaging/groups/migration.py:226-246 | So does the cutover itself, which `Migration.ApplyingIsDecided` states |
| `Migration.MigrationTables.CancelMigration` | src/awiki_open_server/messaging/groups/migration.py:252-259 | So does the cancellation |
| `Migration.MigrationTables.UnresolvedDeliveries` | src/awiki_open_server/messaging/groups/migration.py:91-96 | The loop lists exactly the undelivered rows |
| `SyncLog.ClientMissesNothing` | src/awiki_open_server/messaging/core.py:2092-2139 | A client following its cursor, with appends interleaved, has exactly the visible events up to it, each once and in order |
| `SyncLog.CountFindsEveryGap` | src/awiki_open_server/messaging/core.py:1714-1719 | Comparing count and maximum detects exactly the logs with a hole |
| `SyncLog.AppendKeepsContiguous` | src/awiki_open_server/shared/runtime.py:342-354 | Appending keeps the numbers 1 to n |
| `SyncLog.GapIsReported` | src/awiki_open_server/messaging/core.py:2099-2125 | A page is refused as incomplete exactly when one of the next events it would pass is missing |
| `SyncLog.PollIsDecided` | src/awiki_open_server/messaging/core.py:2092-2125 | Exactly which polls are served, and that each refusal names a reason that holds |
| `SyncLog.PageSkipsNothing` | src/awiki_open_server/messaging/core.py:2096-2136 | A page passes consecutive present events only, and promises more exactly when there is more |
| `SyncLog.StepStaysComplete` | src/awiki_open_server/messaging/core.py:2092-2139 | Each append or poll keeps the client complete, and a poll of a whole log succeeds |
| `SyncLog.SyncEvents.AddSyncEvent` | src/awiki_open_server/shared/runtime.py:342-354 | Inserts under the next number |
| `SyncLog.SyncEvents.ScanRows` | src/awiki_open_server/messaging/core.py:2099-2135 | The loop stops at the first hole and leaves out exactly what is hidden |
| `Decimal.CursorRoundTrip` | src/awiki_open_server/messaging/sync_contract.py:113-121 | A printed number reads back as itself exactly below 10^20, and only its own print does |
| `RateLimiter.LimiterRefinesCounter` | src/awiki_open_server/user_compat/registration.py:39-56 | Along any run the limiter decides as the unbounded per-client counter, except for refusing unknown clients while ten thousand are in use; entries stay ordered by last use and bounded |
| `RateLimiter.RateIsLimited` | src/awiki_open_server/user_compat/registration.py:46-56 | A client passes at most twenty times per window and forty times in any sixty seconds |
| `RateLimiter.CheckRefinesCounter` | src/awiki_open_server/user_compat/registration.py:39-56 | The same for one check |
| `RateLimiter.EvictionLosesNothing` | src/awiki_open_server/user_compat/registration.py:43-44 | Eviction never loses a running window |
| `RateLimiter.RegistrationCheckLimiter.CheckRegistration` | src/awiki_open_server/user_compat/registration.py:39-56 | The eviction loop, pop and reinsertion realise the specified check |
| `RateLimiter.RegistrationCheckLimiter.Pop` | src/awiki_open_server/user_compat/registration.py:45 | Removes the client's entry and keeps the others in order |

## Left out

- Cryptography and discovery: signatures, DID resolution, origin proofs, HTTP signatures and HMAC page references are library calls; verification is taken as done, digests and references as injective. `DiscoversHome` assumes that discovery answers the same Home for a member every time.
- HTTP, routing, WebSocket publishing, files and backup input or output: only delivery outcomes and the backup's verdict appear, as parameters.
- Profile v1's handles, binding generations and `group.rebind_member`; the end-to-end theorems are for v2, the Host's own for both profiles.
- Timestamps that nothing decides on (`updated_at`, `joined_at`, `last_error`) and the acceptance-time window of inbound messages.
- The Host answers a roster read atomically; the separate selects of `hosted_group_get_info` are not interleaved with writes.
- The first, reading transaction of `_membership_mutation`, whose checks the second one repeats, and the checks of the requester's envelope (`_request_context`, `validate_v2_shape`).
- A settlement's return to a selected row whose status changed in between is modelled; two workers draining at once are not, since the drain lock excludes them.
- JSON text and canonical encoding: a snapshot item has an abstract size, a body is a token. `AsInt` reads what Python's `int` reads of numbers, booleans and signed digits, without floats, white space and underscores; lists and objects given as an admission mode or a role are refused here where the set lookup raises.
- `select_snapshot_package` history fields other than count and reason, and the session checks of `sync_snapshot` (owner, token, expiry).
- Group threads of `mark_read`, which have no per-message flags, the counts in its answer, and the `read_message_id` column of a read state.
- The recovery branch of `sync_delta_v2`: a gap is reported as an error in place of the snapshot offered to negotiated clients.
- Message projections of the Home are not joined with `sync_contract.group_source`; which events a client may see is a parameter of each poll.
- Wall-clock text: clocks are integers, and where order matters non-decreasing.
- The legacy `groups` and `group_messages` path, sync v1, users, profiles, sites, content, attachments and tokens.
