# Replicated shopping lists: a verified model

The program keeps shopping lists on clients that work offline and on servers that replicate
them.  A list is a map of items; an item is a PN-counter (the quantity) and a last-writer-wins
register (the acquired flag).  Servers sit on a consistent-hash ring; the first server of a
list's preference list coordinates quorum writes and reads, hands writes off when a replica
cannot be reached, and learns of other servers by gossip.

This project models those layers and proves what they are for.  It has three kinds of files.

*Values and their laws.*  `CrdtValues` (merges and the order they are the join of), `Quantity`
(sums, machine-integer casts and overflow, "set the quantity to q"), `History` and `Conservation`
(what it means for a copy of an item to be the effect of a prefix-closed set of operations),
`RingValues`, `RingMembership`, `RingSearch` (the ring, who is on it, the fallback search),
`ClientTables` (the client's linked tables).

*Objects changed in place.*  `CrdtObjects`, `ClientObjects`, `HashRingObjects`, `ServerObjects`:
one class for each of the program's mutable structures.  Every method is proved against the
value functions above; the server's handlers are proved equal to the functions of `Protocol` and
`Gossip`.

*Runs.*  `Protocol` (a server's reaction to each message), `Cluster` (clients, servers and a
network that loses, reorders and duplicates messages; a run is a sequence of steps and every
choice the program leaves open is a parameter of a step), and theorems over all runs:
`RequestTracking`, `ClusterHistory`, `Convergence`, `ClusterRings`, `Growth`, `WriteQuorum`,
`ReadQuorum`, `HintedHandoff`, `Carried`, `Durability`, `RowLaws`, `Replies`, `ReadYourWrites`,
`EndToEnd`, `FallbackSearch`, `Fallbacks`; `Starts` and `Exchanges` say what single requests and
answered messages do, from rings, rows and messages alone; `LostWrite` and `ReadRun` hold concrete
runs, on the ring of `ThreeServers`.
The state of a run carries an audit that no program reads: which operations were applied, which
writes each server handled and which of them it deleted again, which requests had a message
duplicated.  `Gossip` is a second transition system, for membership.

Main results, each for every run and every input:

- every copy of an item anywhere is the effect of a set of client operations that is closed under
  "earlier by the same client"; merging is union of those sets, and equal sets give equal items
  (`Convergence.CopiesExplained`, `Convergence.Converges`);
- equal stamps carry equal values, so merging is commutative, associative, idempotent and a least
  upper bound on everything reachable (`Convergence.ReachableListsCoherent`), although it does not
  commute on arbitrary registers (`CrdtValues.MergeMapCommutesIff`);
- the register of every copy is that of the included operation with the lexicographically greatest
  (clock, actor) (`Convergence.CopyShowsLatest`);
- the join of all client stores shows exactly the sum of every change ever applied
  (`Convergence.QuantityConserved`), and nobody's copy exceeds the writer's own
  (`Convergence.OwnStoreIsLargest`);
- with merged rows a server stops holding a state exactly when it deletes that row in a handoff
  pass (`Growth.HoldsAfterIff`); as written a step takes nothing from any row exactly when it
  deletes none and every list it writes, be it a replicate, a handoff, a completed put or the
  write-back of a read, includes every operation of the row it replaces
  (`RowLaws.LiteralStepGrowsIff`);
- with either of them, each write a server handled is in its row unless a later step that the exact
  step law names took it from there (`RowLaws.HoldsAfterSparedIff`, `RowLaws.RunKeepsUndropped`);
- a completed write was handled for every replica slot
  (`WriteQuorum.CompletedWriteHandledByAll`), and a completed read has heard both its replicas
  (`ReadQuorum.CompletedReadHeardAll`), if no message of that request was duplicated;
- an acknowledged write is held by every server that had to handle it and has not deleted its row
  since (`Durability.AcknowledgedWriteHeld`); only a server that was handed the list deletes that
  row (`Durability.RunRisksOnlyHanded`); on each of them it outlives the server's passes exactly
  when no hint or pass entry of the list is left there (`Durability.AcknowledgedKeptIff`); and a
  concrete run loses one from its coordinator (`LostWrite.AcknowledgedWriteLost`);
- it survives any joins and leaves that spare one server of its preference list
  (`Durability.AcknowledgedSurvivesChanges`), and a later get contains it as soon as one of the
  three servers, with its row, is the get's coordinator or, if the coordinator has any row of the
  list, one of the get's replicas (`ReadYourWrites.ReadSeesAcknowledgedWrite`,
  `ReadYourWrites.ReadAfterRemovals`), so that what one user set is in the list of another user who
  reads it later (`EndToEnd.ReaderSeesEdit`); a coordinator without a row answers with the
  client's own list, and a concrete run misses a write that both replicas hold
  (`ReadYourWrites.GetWithoutRow`, `LostWrite.GetMissesAcknowledgedWrite`);
- every list a client is sent is the result of a request that completed: of a put, its own list,
  which then counts as acknowledged, or of a read, the least list at or above everything it
  collected; exactly the puts that completed count as acknowledged, and what the coordinator gave up
  on is answered with a nack (`Replies.ListsComeFromCompletion`, `Replies.AckedIffCompleted`,
  `Replies.RepliesEndRequests`);
- a failed send of a write is handed to the first available server met by `next_node` from the last
  replica, or to nobody if none is met before it (`FallbackSearch.SlotsAre`);
- with handoffs an acknowledged write may sit on fewer servers, one fewer for each handoff, and in a
  concrete run on one only, with nothing left to take it further
  (`Fallbacks.AcknowledgedWriteSpread`, `LostWrite.OneServerWrite`);
- a state vanishes from all rows and all messages on their way to rows in exactly two ways, the
  deletion of the last row that holds it and the loss of the last message that carries it
  (`Carried.AliveAfterIff`); a handoff
  pass conserves what it has read if it names another server, no message that carries the state
  is lost and no other server deletes its row (`Carried.HeldStateConserved`, and
  `HintedHandoff.HandedOffStateConserved` for the way home to the original node), and of what
  reaches the row between reading and deletion exactly that survives which is in the copy or
  elsewhere (`Carried.LateWriteSurvivesIff`);
- a list's preference list is what a clockwise turn from the list's hash meets: each member owns the
  first position met whose owner is not earlier on the list (`RingValues.PreferenceClockwise`);
- the ring depends only on its set of servers, and adding or removing one disturbs preference
  lists as little as possible (`RingMembership.RingDeterminedByServers`,
  `RingMembership.RemovalDisruption`, `RingMembership.AdditionDisruption`);
- the fallback search stops on a ring with one position per server, and in general diverges
  exactly when it leads into a trap (`RingSearch.SingleVnodeSearch`,
  `RingSearch.SearchDivergesIff`);
- membership tables stay true and only grow (`Gossip.RunSafe`, `Gossip.RunGrows`), and a server
  that leaves disappears from its own ring only, until the next gossip
  (`Gossip.NobodyLeavesOthers`, `Gossip.GossipReachesRing`); gossip that arrives leaves the
  receiver with everything both knew, and a newcomer that says hello ends up with the table of the
  server it asked (`Gossip.GossipSpreads`, `Gossip.JoinCompletes`);
- the client's tables behave as a map from list ids to lists, and what the user sets is what the
  user is shown (`ClientObjects.ClientStorage.HandleItemStorageRequest`,
  `ClientObjects.RequestThenShow`).

## Where the code and its intent differ

- Both server writes serialise the incoming list before merging it into the stored one and then
  store the serialised bytes (src/storage.rs:607 and src/storage.rs:630, src/storage.rs:643 and
  src/storage.rs:666), so the merge is discarded.  `Protocol.Policy` has both: `Literal` is the
  code, `Merged` its evident intent.  History, convergence, conservation, request tracking, write
  and read quorums hold of both, and so does the exact law of what a step takes from a row
  (`RowLaws.HoldsAfterSparedIff`); what follows from rows that only grow is stated for `Merged`,
  and `Growth.LiteralLosesUpdates` shows the literal code losing an update.
- The repository's own description promises observed-remove items; items are never removed, and no
  result here claims otherwise.
- Totals can be negative after concurrent lowering and then wrap when shown; results about shown
  quantities state the exact ranges.
- `is_available` returns the failure flag itself (src/server.rs:84).  Availability is a parameter.
- Acknowledgements are counted, not senders (src/server.rs:121-123), so what a quorum proves of a
  request lapses when the network duplicates a message of that request; `audit.repeated` records
  those requests, and duplicates of other messages do no harm.
- `get_replicas` drops the first entry of the preference list whoever it is (src/server.rs:1087-1098);
  results that need the coordinator to be that entry say so.
- A server that stores a list and receives a handoff of it marks its only row with the hint, and a
  later handoff pass of its own deletes that row (src/server.rs:1036-1044).  So an acknowledged
  write is not durable without a condition: `Durability.AcknowledgedKeptIff` gives the exact one,
  `Durability.NeverHandedHeld` one in terms of deliveries, and `LostWrite.AcknowledgedWriteLost` a
  run in which a coordinator hands the list to itself and loses it.
- A coordinator that has no row of a list, because it is new or its own pass deleted the row,
  treats a get as a put of the client's list and never asks its replicas
  (src/server.rs:660-668), so the get can miss an acknowledged write that both replicas hold.
- A server told to leave takes itself off its own ring only (src/server.rs:600-604); tables and the
  rings of others keep it, and any gossip it receives puts it back.
- The search for a fallback starts from the last replica for every failed send and skips nobody
  (src/server.rs:1138-1158), so handoffs of one write can go to a replica, to one server twice, or
  back to the coordinator.

## Model

| member | source | states |
|---|---|---|
| CrdtValues.MergeMapAbove | src/crdt.rs:82-95 | a merge never loses the receiver's state, and contains the argument's state if and only if equal stamps carry equal values |
| CrdtValues.MergeMapLeast | src/crdt.rs:82-95 | a merge is below every state above both sides |
| CrdtValues.MergeMapAbsorbs | src/crdt.rs:82-95 | merging an older state changes nothing |
| CrdtValues.MergeMapIdempotent | src/crdt.rs:82-95 | merging a list with itself changes nothing |
| CrdtValues.MergeMapAssociative | src/crdt.rs:82-95 | merging is associative on all lists, coherent or not |
| CrdtValues.MergeRegLatest | src/crdt.rs:304-310 | the merged register is the one with the lexicographically greatest (clock, actor), the receiver on equal stamps |
| CrdtValues.MergeItemCommutesIff | src/crdt.rs:39-44 | item merge commutes exactly when equal stamps carry equal values |
| CrdtValues.MergeMapCommutesIff | src/crdt.rs:304-329 | map merge commutes exactly on coherent lists |
| CrdtValues.MergeDoesNotCommute | src/crdt.rs:304-310 | two registers with one stamp and two values on which merge does not commute |
| CrdtValues.FoldAbove | src/server.rs:103-114 | the merge of collected lists is above each of them |
| CrdtValues.FoldLeast | src/server.rs:103-114 | and below every common upper bound |
| CrdtValues.FoldOrderIndependent | src/server.rs:103-114 | it depends on which lists were collected, not on their order or repetition |
| CrdtObjects.GCounter.IncBy | src/crdt.rs:420-422 | adds to the object's own entry only; reports overflow |
| CrdtObjects.GCounter.Inc | src/crdt.rs:416-418 | adds one to the object's own entry only |
| CrdtObjects.GCounter.ValueTotal | src/crdt.rs:428-430 | the loop computes the sum of all entries, or reports overflow exactly when the sum does not fit |
| CrdtObjects.GCounter.Merge | src/crdt.rs:433-440 | the loop leaves the entry-wise maximum and keeps the actor id |
| CrdtObjects.LWWReg.Update | src/crdt.rs:304-318 | takes the new value exactly if its clock is greater, or equal with a greater actor |
| CrdtObjects.LWWReg.Merge | src/crdt.rs:304-329 | leaves the register with the lexicographically greatest (clock, actor), its own on equal stamps |
| CrdtObjects.PNCounter.ValueTotal | src/crdt.rs:383-385 | the difference of the cast sums, or overflow |
| CrdtObjects.PNCounter.DecBy | src/crdt.rs:375-377 | lowers by raising the object's own negative entry |
| CrdtObjects.PNCounter.Merge | src/crdt.rs:388-393 | merges both counters |
| CrdtObjects.ItemObject.Create | src/crdt.rs:27-36 | a new item counts q for its creator with a zero clock |
| CrdtObjects.ItemObject.Merge | src/crdt.rs:39-44 | merges counters and register |
| CrdtObjects.AWORMap.Insert | src/crdt.rs:73-79 | inserting is merging a one-item map |
| CrdtObjects.AWORMap.Merge | src/crdt.rs:82-95 | the loop leaves the merge of both maps |
| Quantity.ShownIs | src/client.rs:15-30 | the quantity shown is the difference of the sums modulo 2^64; exactly when it cannot be shown |
| Quantity.EditCreates | src/storage.rs:180-183 | the first edit counts the quantity for its author, with a zero clock |
| Quantity.EditWrites | src/storage.rs:146-171 | an edit stamps a changed flag with the next clock and its author, and touches one of the two counters, on the author's entry only |
| Quantity.EditPanicsIff | src/storage.rs:146-171 | exactly when an edit of a stored item overflows |
| Quantity.MergeWithEditedCopy | src/storage.rs:152-171 | merging an item with its edited copy gives the edited copy |
| Quantity.SumsAfterEdit | src/storage.rs:149-159 | an edit adds its delta to exactly one of the two sums |
| Quantity.SetThenShow | src/storage.rs:133-187 | an edit that can be shown at all shows exactly the requested quantity and flag, whatever was stored |
| Quantity.SetThenShowIff | src/storage.rs:149-169 | in range, the request succeeds and shows its values exactly when the removed total plus q stays below 2^63 |
| Quantity.NewItemShows | src/storage.rs:180-183 | a new item shows its quantity and flag |
| History.StampsUnique | src/storage.rs:161-171 | copies of one item with equal stamps carry equal registers |
| History.EffectUnique | src/crdt.rs:433-440 | a set of operations has one effect |
| History.RegisterIsLatest | src/crdt.rs:304-310 | a copy's register is that of the included operation with the lexicographically greatest (clock, actor) |
| History.MergeShowsUnion | src/crdt.rs:39-44 | merging two copies is the effect of the union of their operations |
| History.EditShows | src/storage.rs:146-179 | an edit is the effect of the old operations and one new one |
| History.CreateShows | src/storage.rs:180-183 | the same for the first edit of an item |
| History.OpDelta | src/storage.rs:149-159 | an operation changes the quantity by what is requested minus what was shown, modulo 2^64 |
| History.WellFormedAfterEdit | src/storage.rs:161-169 | stored clock plus one keeps each client's stamps rising |
| Conservation.CompleteTotal | src/crdt.rs:428-430 | a copy that holds every operation shows the sum of every delta |
| Conservation.OwnEntriesLargest | src/crdt.rs:433-440 | no copy holds more of an actor than the actor's complete copy |
| ClientTables.CounterAfterWrite | src/storage.rs:370-396 | writing a counter's rows changes that counter only |
| ClientTables.AfterOverwrite | src/storage.rs:347-401 | overwriting an item keeps the tables linked and changes that item only |
| ClientTables.AfterInsert | src/storage.rs:403-466 | inserting an item under two fresh counters stores it exactly and changes nothing else |
| ClientTables.OverlayExactIff | src/storage.rs:468-551 | writing a list leaves exactly that list if and only if it has every stored item and entry |
| ClientTables.OverlayAbove | src/storage.rs:468-551 | in particular for a list at or above the stored one |
| ClientObjects.ClientStorage.EnsureList | src/storage.rs:189-199 | registers a list once |
| ClientObjects.ClientStorage.ReadGCounter | src/storage.rs:226-257 | the counter's entries, with the client as actor; an error exactly if one does not fit the signed column |
| ClientObjects.ClientStorage.ReadItem | src/storage.rs:259-293 | finds the row of a name if there is one |
| ClientObjects.ClientStorage.BuildItem | src/storage.rs:332-345 | the item a row stands for, or an error exactly if an entry does not fit |
| ClientObjects.ClientStorage.ReadShoppingList | src/storage.rs:295-330 | the loop builds exactly the list the tables stand for, or fails exactly if an item cannot be read |
| ClientObjects.ClientStorage.OverwriteItem | src/storage.rs:347-401 | the item becomes the overlay; other items and lists are unchanged; counters stay unshared |
| ClientObjects.ClientStorage.WriteItem | src/storage.rs:403-466 | the item is stored exactly and nothing else changes, or, if an entry does not fit, nothing changes |
| ClientObjects.ClientStorage.WriteShoppingList | src/storage.rs:468-551 | the list becomes the overlay, and exactly the written list if that is at or above it; if an entry does not fit nothing is written; other lists are unchanged |
| ClientObjects.ClientStorage.HandleItemStorageRequest | src/storage.rs:133-187 | the item becomes its edit and every other item and list is unchanged; overflow, an unreadable stored item and a new quantity that does not fit leave every item as it was |
| ClientObjects.AppliedReadableIff | src/storage.rs:370-396 | an applied request leaves a list that can be read back exactly when the other items can and the client's own entries stay below 2^63 |
| ClientObjects.RequestIs | src/storage.rs:133-187 | a request that is applied changes the named item only, which shows what was requested; it is refused exactly on entries of 2^63 or more and cut short exactly on overflow, and then changes nothing |
| ClientObjects.RequestThenShow | src/storage.rs:133-187 | after a request the shown list differs from before in the requested item only, which shows the request |
| ClientObjects.ShownListIs | src/client.rs:15-30 | a shown list has every item, each with the difference of its sums modulo 2^64 and its flag; it cannot be shown exactly if an item cannot |
| ClientObjects.Client.FromCrdt | src/client.rs:15-30 | the loop computes the shown form of every item, or overflow |
| ClientObjects.Client.RetrieveList | src/client.rs:168-184 | shows the merge of the answer and stores it if it fits, never falls below the local list, leaves other lists alone; an unreadable local list is an error |
| ClientObjects.Client.SendItemStorageRequest | src/client.rs:186-203 | applies the request and sends exactly the stored list if it can be read back |
| RingValues.WalkIsRotation | src/hash_ring.rs:50-62 | walking from the hash and then the whole ring visits servers in the order of one true turn |
| RingValues.PreferenceShape | src/hash_ring.rs:41-65 | duplicate-free, drawn from the ring, of length min(replicas, servers), at least one if any |
| RingValues.PreferenceClockwise | src/hash_ring.rs:41-65 | from the positions alone: each member owns the first position met clockwise from the hash whose owner is not earlier on the list |
| RingValues.ClockwiseUnique | src/hash_ring.rs:41-65 | there is one such list |
| RingValues.DedupWithout | src/hash_ring.rs:52-62 | de-duplicating a walk commutes with dropping servers |
| RingMembership.AddRepresents | src/hash_ring.rs:25-31 | adding a server gives the ring of the larger set |
| RingMembership.RemoveRepresents | src/hash_ring.rs:33-39 | removing a server gives the ring of the smaller set and deletes exactly its positions |
| RingMembership.RingDeterminedByServers | src/hash_ring.rs:25-39 | any two histories of joins and leaves with the same final set give equal rings |
| RingMembership.AddThenRemove | src/hash_ring.rs:25-39 | adding and removing a fresh server is the identity; adding a present one changes nothing |
| RingMembership.CollisionLosesServer | src/hash_ring.rs:25-39 | without distinct hashes that fails |
| RingMembership.RemovalDisruption | src/hash_ring.rs:33-65 | `remove_node` leaves lists the server was not on, and elsewhere deletes it, keeps the order and appends the next server clockwise |
| RingMembership.AdditionDisruption | src/hash_ring.rs:25-65 | the dual for `add_node` of a new server |
| RingMembership.ChangesRemove | src/hash_ring.rs:25-39 | any joins and leaves that end with some of the first servers amount to removing the others |
| RingMembership.SurvivorsAfterChanges | src/hash_ring.rs:25-94 | after such changes the new coordinator is a spared member of the old list, and every spared member is still on the list |
| RingMembership.SameServersSameChoice | src/proxy.rs:55-66 | a proxy and a peer that know the same servers choose the same coordinator, and the rest of the list is its replicas |
| RingSearch.NextNodeDefined | src/hash_ring.rs:111-139 | an answer exists exactly for a server that is on the ring and not alone, and is another server |
| RingSearch.NextNodeWraps | src/hash_ring.rs:126-129 | with 128-bit hashes `start + 1` overflows only at the very last position, and wrapping around there gives the same answer |
| RingSearch.NextNodeIs | src/hash_ring.rs:111-139 | from the positions alone: the answer owns the first position met clockwise from the server's smallest that the server does not own |
| RingSearch.SearchIs | src/server.rs:1226-1247 | within a budget the loop finds exactly the first available server met by successive `next_node` steps, if it is met not after the start |
| RingSearch.NextOnCircle | src/hash_ring.rs:111-139 | with one position per server it is the clockwise successor |
| RingSearch.SingleVnodeSearch | src/server.rs:1226-1247 | then the search ends within one turn with the first available server, and fails only if none is |
| RingSearch.SearchDivergesIff | src/server.rs:1226-1247 | in general it runs forever exactly when the start leads into a closed set of unavailable servers without the start |
| RingSearch.ThreeVnodesDiverge | src/server.rs:1226-1247 | a ring with three positions per server on which it does |
| RingSearch.ThreeVnodesBuilt | src/hash_ring.rs:25-31 | three joins with distinct hashes build that ring |
| HashRingObjects.HashRing.AddNode | src/hash_ring.rs:25-31 | the loop adds every virtual node |
| HashRingObjects.HashRing.RemoveNode | src/hash_ring.rs:33-39 | the loop removes every virtual node |
| HashRingObjects.HashRing.GetPreferenceListHash | src/hash_ring.rs:67-90 | the early-exit walk collects the first distinct servers of one true turn |
| HashRingObjects.HashRing.GetPreferenceList | src/hash_ring.rs:41-65 | the same from a list id |
| HashRingObjects.HashRing.GetCoordinator | src/hash_ring.rs:92-94 | the head of the list; none only on an empty ring |
| HashRingObjects.HashRing.NextNode | src/hash_ring.rs:111-139 | the scan finds the first other server after the smallest position |
| HashRingObjects.HashRing.NextAvailable | src/server.rs:1226-1247 | the loop is the search, cut off after a number of turns |
| ServerObjects.ServerStorage.WriteShoppingList | src/storage.rs:606-636 | stores the incoming list (literal) or the merge (intended), without a hint |
| ServerObjects.ServerStorage.WriteShoppingListHandoff | src/storage.rs:638-672 | the same with the hint of the original node |
| ServerObjects.ServerStorage.GetHintedHandoffs | src/storage.rs:694-728 | exactly the rows with a hint |
| ServerObjects.ServerStorage.DeleteShoppingList | src/storage.rs:788-799 | deletes that row only |
| ServerObjects.QuorumState.Receive | src/server.rs:871-905 | counts one answer, keeps its list, fires if enough have come |
| ServerObjects.QuorumState.MergeLists | src/server.rs:103-114 | the loop merges all collected lists in order |
| ServerObjects.FiresOnce | src/server.rs:879-883 | the responder fires exactly once, at the first answer that makes received at least needed; everything received is counted and lists are kept in order |
| ServerObjects.Peer.GetReplicas | src/server.rs:1087-1098 | what a clockwise turn from the list's hash yields after the first server, which is the one `GetCoordinator` answers |
| ServerObjects.Peer.SendReplicate | src/server.rs:1138-1158 | one message per replica, where the send failed a handoff naming it to the first available server met from the last replica, nothing after a failed send for which none is met |
| ServerObjects.Peer.HandleIncomingPut | src/server.rs:974-1008 | registers the write with two answers needed and sends it to the servers that follow the first clockwise; refines the protocol's start of a write |
| ServerObjects.Peer.HandleGet | src/server.rs:649-723 | a quorum read of a stored list from those servers, a put of an unknown one |
| ServerObjects.Peer.HandleIncoming | src/server.rs:823-972 | every handler of the replication protocol: its new state and messages are those of the protocol |
| ServerObjects.Peer.FinishRequest | src/server.rs:981-1004 | stores and acknowledges the answer; or, at the timeout, leaves all rows alone and answers with a nack |
| ServerObjects.Peer.HandleGossip | src/server.rs:732-748 | keeps every address it has and takes every other from the message; every gossiped server is put on the ring |
| ServerObjects.Peer.HandleHello | src/server.rs:797-821 | records the newcomer, sends it the table with it, and sends that table to the pick unless that is itself |
| ServerObjects.Peer.Leave | src/server.rs:600-645 | takes itself off its ring and hands every row, as a write, to the first other server met clockwise from the list's hash |
| ServerObjects.LeaveKeepsToTheList | src/server.rs:600-645 | that coordinator is on the list's preference list already, if anyone else was |
| Exchanges.LeavingRowArrives | src/server.rs:600-645 | each such message, once delivered, leaves the recipient's row at or above the one handed over |
| Starts.PutStarts | src/server.rs:1108-1169 | the start of a put, from the ring, the list's hash and the fates of the sends: whom it is written to or handed to, and that two answers are awaited |
| Starts.ReadStarts | src/server.rs:669-692 | the start of a read: every such replica is asked and two answers are awaited |
| Exchanges.WriteExchange | src/server.rs:823-841 | a write or handoff and its acknowledgement: the receiver has the list under the right hint and the coordinator has counted one more answer |
| Exchanges.ReadExchange | src/server.rs:842-856 | a read and its answer: the coordinator has counted one more answer and has the replica's row among its lists |
| Exchanges.HandoffComesHome | src/server.rs:1012-1052 | a pass and its delivery: a marked row is at the server its hint names, without a hint, and gone from its holder |
| Protocol.FinishIs | src/server.rs:981-1004 | the end of a request, in both branches: rows, hint and the one message sent |
| Protocol.ReplicaCount | src/server.rs:1087-1098 | a full set of replicas exactly on a ring of at least three servers |
| RequestTracking.RunTracked | src/server.rs:1114-1136 | in every run, messages and waiting requests belong to the request recorded under their id; a read has one list more than answers |
| ClusterHistory.StepHistory | src/server.rs:649-1008 | every step keeps every copy explained and every client's store complete for its own operations |
| ClusterHistory.FetchedIsMerge | src/client.rs:168-184 | merging the answer twice is merging it once |
| ClusterHistory.RunHistory | src/storage.rs:133-187 | the same over all runs, under loss, reordering and duplication |
| Convergence.CopiesExplained | src/storage.rs:133-187 | every copy in the system is the effect of a prefix-closed set of operations |
| Convergence.CopyShowsLatest | src/crdt.rs:304-310 | every reachable copy carries the register of the included operation with the lexicographically greatest (clock, actor) |
| Convergence.Converges | src/crdt.rs:82-95 | merging any two copies is the union in either order; equal sets give equal items |
| Convergence.ReachableListsCoherent | src/crdt.rs:304-329 | on reachable lists merging is commutative and a least upper bound |
| Convergence.OwnStoreIsLargest | src/storage.rs:253-256 | every entry for an actor, anywhere, is at most the entry in the actor's own store |
| Convergence.QuantityConserved | src/storage.rs:149-159 | the join of all client stores shows the sum of every delta ever applied |
| Growth.StepGrows | src/storage.rs:606-672 | with merged rows every step but hint deletion leaves every row at or above its old value |
| Growth.HoldsAfterIff | src/storage.rs:788-799 | a server stops holding a state exactly when it deletes its own row of that list |
| Growth.DeliverStores | src/server.rs:823-841 | a delivered replicate, handoff or merge leaves the row at or above the incoming list |
| Growth.CompleteStores | src/server.rs:676-683 | a completed request leaves the row at or above its answer, whatever landed in between |
| History.BelowIffIncludes | src/crdt.rs:39-44 | one copy is below another exactly when some operations explaining the second include operations explaining the first |
| Growth.LiteralDeliveryGrowsIff | src/storage.rs:606-672 | as written, in every reachable state, a delivered write takes nothing from any row of its server exactly when the incoming list includes every operation the row it replaces includes |
| RowLaws.HoldsAfterSparedIff | src/storage.rs:606-672 | with either policy a server goes on holding a state exactly when the step does not delete the row and, as written, writes no list to it that lacks the state |
| RowLaws.LiteralStepGrowsIff | src/storage.rs:606-672 | as written, in every reachable state, any step leaves all rows at or above their old values exactly when it deletes none and what it writes includes every operation of the row it replaces |
| RowLaws.LiteralCompletionGrowsIff | src/server.rs:676-683 | in particular the write-back of a completed put or read, which drops what reached the row meanwhile and is not in the answer |
| RowLaws.RunKeepsUndropped | src/server.rs:823-841 | with either policy, in every run, each write a server handled is in its row unless a later step took it from there |
| RowLaws.MergedDropsLost | src/storage.rs:788-799 | with merged rows those are the writes whose row was deleted |
| RowLaws.AcknowledgedUndropped | src/server.rs:974-995 | with either policy, each of the three servers of an acknowledged write holds it unless a later step took it from the row |
| Growth.MergeListGrows | src/server.rs:933-955 | a merge message grows the row even as the code is written |
| Growth.LiteralLosesUpdates | src/storage.rs:606-636 | two writes after which the literal code has lost the first and the intended code has both |
| Growth.QuorumReadAbove | src/server.rs:1179-1224 | a quorum read is at or above the client's list, the coordinator's row and every counted reply, and has received + 1 lists |
| Growth.QuorumReadOrderIndependent | src/server.rs:103-114 | its answer does not depend on the order or repetition of replies |
| WriteQuorum.FiredHeardAll | src/server.rs:871-890 | a fired write no message of which was duplicated heard each slot once |
| WriteQuorum.RunCounted | src/server.rs:121-123 | in every run a write no message of which was duplicated has counted each slot at most once |
| WriteQuorum.CompletedWriteHandledByAll | src/server.rs:1108-1169 | such a write, once completed, was handled for every replica, by it or by a server given a handoff naming it, and the ring had at least three servers |
| ReadQuorum.RunReplies | src/server.rs:892-912 | in every run a read no message of which was duplicated has counted each replica at most once, and every counted reply is what that replica answered |
| ReadQuorum.CompletedReadHeardAll | src/server.rs:1179-1224 | such a read, once completed, merged the answers of both its replicas |
| Replies.RepliesEndRequests | src/server.rs:981-1004 | in every run each list or nack a client is sent is what some step that completed a request, or gave up on it, told it |
| Replies.ListsComeFromCompletion | src/server.rs:669-702 | a list a client is sent is the put's own list, of a request with two answers that counts as acknowledged, or the read's merged answer |
| Replies.ReadAnswerLeast | src/server.rs:676-683 | a read's answer is the least list at or above the client's, the coordinator's row and every counted reply |
| Replies.AckedIffCompleted | src/server.rs:981-1001 | exactly the writes that completed count as acknowledged, none that timed out |
| ClusterRings.RunRings | src/server.rs:1069-1098 | with distinct hashes every ring of a run is the ring of its servers |
| Durability.RunKeepsStored | src/server.rs:823-841 | in every run each write a server handled is contained in its row until the server deletes that row |
| HintedHandoff.PassesKeepIff | src/server.rs:1012-1065 | a held state outlives every handoff pass of its server exactly when the row carries no hint and no pass has read or is about to delete it |
| Durability.RunRisksOnlyHanded | src/server.rs:914-931 | in every run only a server that was handed a list can delete its row of it |
| Durability.AcknowledgedWriteHeld | src/server.rs:974-995 | an acknowledged write was handled by its coordinator and the servers of two slots, and each that has not deleted its row holds it |
| Durability.AcknowledgedEverywhere | src/server.rs:974-995 | a write acknowledged without handoff is on every server of its preference list that has not deleted its row |
| Durability.NeverHandedHeld | src/server.rs:914-931 | in particular on every one that was never handed the list, where no pass can delete it |
| Durability.AcknowledgedWriteSurvives | src/server.rs:974-995 | after removals that spare one of them, the new coordinator is one of them and has the write, unless a spared one was handed the list |
| Durability.AcknowledgedSurvivesChanges | src/server.rs:1069-1098 | the same after any joins and leaves with distinct hashes |
| Durability.HeldKeptIff | src/server.rs:1012-1065 | in every run a held state outlives every pass of its server exactly when the row is clean there, as it is if the server was never handed the list |
| Durability.AcknowledgedKeptIff | src/server.rs:1012-1065 | each of the three servers of an acknowledged write that has not deleted its row holds the write, and keeps it through every pass of its own exactly when the row is clean |
| Durability.HandoffCanLoseHeld | src/server.rs:1036-1044 | whenever a handoff of a list is on its way to a server that holds a state of it, delivering the handoff and a pass of the server can lose the state |
| LostWrite.AcknowledgedWriteLost | src/server.rs:1036-1044 | a run, with every fallback found by the search, that acknowledges a write with no handoff, which its coordinator holds, and ends with the coordinator not holding it |
| ReadYourWrites.ReadSeesRow | src/server.rs:669-692 | a get returns everything its coordinator's row held when it arrived |
| ReadYourWrites.ReadSeesReplica | src/server.rs:842-856 | a get whose coordinator has a row contains what one of its replicas had handled when it arrived, unless the replica deleted its row |
| ReadYourWrites.GetWithoutRow | src/server.rs:660-668 | a coordinator without a row answers a get with the client's own list |
| ReadYourWrites.ReadSeesAcknowledgedWrite | src/server.rs:649-702 | a get that arrives after the acknowledgement contains the write if one of the three servers that had to handle it, with its row, is the coordinator, or a replica of a coordinator that has a row of the list; without a row, exactly if the client's list did |
| ReadYourWrites.ReadAfterRemovals | src/server.rs:649-702 | on a ring of some of the write's servers, one server of the write's list that still has its row is enough, if it is the coordinator or the coordinator has a row |
| LostWrite.GetMissesAcknowledgedWrite | src/server.rs:660-668 | a run in which a get at a coordinator without a row is answered without an acknowledged write that both its replicas hold |
| ReadRun.ReadCompletes | src/server.rs:669-692 | a run in which a get by another client completes with an acknowledged write and the client has it after merging |
| ReadYourWrites.AnswerReachesClient | src/client.rs:93-129 | a get that completes answers the client that sent it, whose list contains the answer after merging it and loses nothing |
| EndToEnd.AckedEditIsPlanned | src/client.rs:186-208 | the write that a successful storage request led to, once acknowledged, is of the client's whole list, the edit included, whatever the network did to the put |
| EndToEnd.ReaderSeesEdit | src/client.rs:93-129 | from then on a read by any client that takes in one of the three servers leaves that client's list at or above the writer's list |
| FallbackSearch.SearchFinds | src/server.rs:1226-1247 | a fallback is an available server of the ring, some steps after the last replica |
| FallbackSearch.AttemptsFound | src/server.rs:1138-1158 | so is every fallback of a write |
| FallbackSearch.AttemptsAre | src/server.rs:1138-1158 | a send that fails is handed to the first available server met from the last replica, and to nobody only if none is met within the budget and before the last replica |
| FallbackSearch.SlotsAre | src/server.rs:1138-1158 | so every handed-off slot of a write has an available holder, and slots follow the replicas in order up to the first send nobody stands in for |
| FallbackSearch.SteadyIsSearched | src/server.rs:1138-1158 | a run whose fallbacks are computed by the search, with an availability that stays the same during each, is among the runs the results on fallbacks are about |
| Fallbacks.HandlersAtLeast | src/server.rs:1138-1158 | each handoff costs at most one of three distinct servers |
| Fallbacks.AcknowledgedWriteSpread | src/server.rs:1108-1169 | an acknowledged write sits on at least that many servers, all on the coordinator's ring |
| LostWrite.OneServerWrite | src/server.rs:1138-1158 | a run, with every fallback found by the search, in which both handoffs go to the coordinator, which acknowledges the write and alone holds it, with no hint, pass entry or message left to take it further |
| HintedHandoff.StepConserves | src/server.rs:1020-1052 | each step keeps a handed-off state in the holder's row, on its way, or at the original node |
| HintedHandoff.HandedOffStateConserved | src/server.rs:1012-1065 | the same from the delivery of a handoff to a server without a row of the list, over any continuation that loses no message carrying the state home, does not delete the original node's row and, until the state has left, writes the list to the holder by nothing else |
| Carried.AliveAfterIff | src/server.rs:1020-1052 | with merged rows a step ends the last trace of a state in rows and in messages on their way to rows exactly when it deletes the only row that holds it while no message carries it, or loses the only message that carries it while no row holds it |
| Carried.StepConservesHeld | src/server.rs:1020-1052 | a state that is in every copy a pass of its server has read stays in the row or elsewhere, whatever else the row holds and whatever is written to it |
| Carried.HeldStateConserved | src/server.rs:1012-1065 | the same over any continuation that loses no message carrying the state, deletes no other server's row of the list and reads no hint naming the server itself |
| Carried.LateWriteSurvivesIff | src/server.rs:1020-1044 | when a write lands between a pass's reading and its deletion, exactly those states survive that the copy includes, another row held or another message carried |
| Gossip.MoveSafe | src/server.rs:725-821 | every move, leaving among them, keeps all tables true, loses no server from a table and changes no address |
| Gossip.RunSafe | src/server.rs:281-332 | in every run each table, held or in flight, is a part of the true map, a table sent to a server contains it, each ring's servers are known to its owner, and the owner is among them exactly if it has not left since its last gossip |
| Gossip.RunGrows | src/server.rs:584-590 | no table ever forgets a server, not even when a joining server replaces its own |
| Gossip.GossipSent | src/server.rs:281-306 | sending gossip puts one message with exactly the sender's table on its way to the pick, unless that is the sender |
| Gossip.HelloSent | src/server.rs:505-520 | a newcomer announces its own address to the seed |
| Gossip.HelloReceived | src/server.rs:797-821 | the receiver records the newcomer, and that table is on its way to the newcomer and to the pick |
| Gossip.GossipTaken | src/server.rs:743-765 | the receiver keeps every address it has and takes every other from the message |
| Gossip.GossipSpreads | src/server.rs:281-332 | in every run, gossip sent and received leaves the receiver with every entry and every ring member both had |
| Gossip.JoinCompletes | src/server.rs:584-590 | in every run, a newcomer that says hello and takes the answer has the seed's table and itself, and the seed knows it |
| Gossip.KeepFirstCommutesIff | src/server.rs:743-765 | keep-first union commutes exactly on tables that agree |
| Gossip.GossipReachesRing | src/server.rs:735-738 | with distinct hashes a gossip puts every server it names on the receiver's ring, and no other; the receiver is one of them |
| Gossip.RingAfter | src/server.rs:600-604 | with distinct hashes only a gossip adds to a ring and only the server's own leaving takes from it, itself |
| Gossip.NobodyLeavesOthers | src/server.rs:600-604 | in every run whoever is on another server's ring stays there, whether it has left or not |
| Gossip.GossipCommutes | src/server.rs:743-765 | all tables in circulation agree |
| Gossip.SameMembersSameChoice | src/server.rs:1069-1098 | servers with the same ring members choose the same preference list, empty only on an empty ring, and know the address of everyone on it |

## Left out

- Sockets, frames, tasks, timers and locks: a message is delivered, lost or duplicated by a step; a handler is one step, except that a coordinator's request starts and ends in separate steps; a failed `send_to` is a message that was not delivered, and replies are matched to requests.
- SQLite and JSON: tables are maps with fresh ids, transactions are steps, serialisation is the identity. The one error of the client's database that is modelled is a counter entry of 2^63 or more, which its signed column cannot hold; in `Cluster` such an edit is an edit that is never sent or read again. Server storage calls succeed.
- MD5 (RFC 1321): an uninterpreted function into the naturals. That the virtual nodes of the servers in play do not collide is a hypothesis where it is needed. Server rows are keyed by list id rather than by its hash.
- HashRingObjects.HashRing.NextNode: does not panic when `start + 1` overflows at the largest 128-bit hash, because hashes are unbounded naturals here; a build that wraps around instead gives the modelled answer (`RingSearch.NextNodeWraps`).
- ServerObjects.Peer.SendReplicate: which sends fail, and who counts as available then, are parameters; a search that outlasts its budget sends nothing more.
- HashRingObjects.HashRing.NextAvailable: has a budget of turns in place of waiting forever; `RingSearch.SearchDivergesIff` says when no budget suffices.
- `GCounter.actor_id` is a field of the counter object only. It is not part of the replicated value, and items read from a list carry no particular one; the client's reads set it to the client.
- CrdtObjects.AWORMap.Merge: borrows an item out of the map as an object and puts it back, where the program mutates it inside the map; aliasing between items, which the language rules out there, is not represented.
- `get_user_lists` and `retrieve_available_lists` (one read per registered list), `value_local`, `dec`, and getters.
- ServerObjects.Peer.HandleIncoming: handles the messages of the replication protocol; `Gossip`, `Hello` and `Leave` have methods of their own.
- ServerObjects.Peer.HandleGossip: does not send old lists to a new predecessor, because the query that selects them has no clear meaning.
- `get_old_data`, `get_predecessors`, `prev_node_hash` and the migration that uses them: a server may send any of its rows to any server at any time (`Push` in `Cluster`), which covers their effect on rows but not which rows are sent.
- The three attempts that `leave` makes to send each row: a row that is not sent is a lost message.
- Failure detection and the failure table: which sends fail and which servers count as available are parameters.
- Gossip.MoveSafe: a server finishes at most one join, before it starts to listen, which is the order of the program's start-up; a gossip send reads its table and picks its peer in one step.
- The proxy beyond its choice of coordinator: a client request may reach any server.
- The commented-out `DeltaAWORMap` and `VClock`, the command line, start-up, paths and printing.
- Two client processes on one database: each client id has one store.
