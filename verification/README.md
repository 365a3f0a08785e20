# Verification of cf-sync

A Dafny model of a local-first sync engine: one durable object per workspace holds rows stamped with
versions and pushes patches to clients over WebSockets; clients apply mutations optimistically, queue them
and catch up by cursor. The model follows the code's own state and branches, and proves what the parts
promise one another. `dafny verify dfyconfig.toml` checks all of it.

How the modules build on each other:

- `Rows`, `JsMaps`: rows, patches and what applying one means; JavaScript's insertion-ordered map.
- `WriteSets`, `EngineCore`: the per-mutation write buffer as a specification and as the objects the server
  uses. A mutator is a function from the exchanges so far to its next call, so later calls may depend on
  earlier reads; the reference form makes each call on the live rows directly.
- `Server`, `Workspace`: the server's steps as relations over its state with the exactness of every patch it
  sends, and the object whose handlers are proved to take those steps.
- `Client`, `SyncClients`: the client's steps as functions over its state, and the object that takes them.
- `Protocol`, `Streams`, `Convergence`, `Ledgers`, `ExactlyOnce`: one server, any number of clients, a FIFO
  in each direction of every socket that may be cut at any point, and disks that clients may share, written
  behind their backs and read back on reload; `timeline` records the rows at every version ever reached. The
  two main theorems range over all runs of this system.
- `CatchUp`, `Settled`: the same runs where nothing is left in flight: what a quiet client then holds, and what
  it has settled.
- `LostPokes`, `Stranded`: runs of the system in which something is lost, and what it leads to.
- `Presence`: supersede, close and presence, whose handlers call each other in a circle.
- `Frames`: UTF-8 counting, packing patches into parts, and the frames of a poke.
- `LocalWrites`, `ListOrder`, `StartupReplay`: the client's mirror of the write buffer and its flush into
  collections, the order of a list on either side, and the replay of the queue after a reload.
- `Mirror`: the durable mirror several tabs share, with the in-memory store as its reference.
- `HookGate`: the compacting buffer in front of a collection that has not started.
- `Migrations`: the declared migration chain and its rollout.
- `FieldLog`, `FieldSync`: Yjs fields, the server's log and n clients syncing one field with it.

Results the code does not meet without a condition, each proved with the exact condition or a
counterexample:

- The LMID write is an UPDATE, so a mutation is recorded only for a client that said hello in this history
  (`Server.RecordedIff`, `Server.ReplayRunsAgainIff`). `POST reset` leaves ready sockets without a client row
  (`Server.ResetForgetsClients`), and their clients ahead of the server for good (`LostPokes.ResetStrands`,
  `Stranded.StrandedForGood`); so `ExactlyOnce` speaks of runs without a reset. `Convergence` allows any.
- Hello re-confirms the LMID without results, so a promise can resolve for a mutation the server rejected
  (`LostPokes.RejectedYetResolved`). A settled promise tells what the server logged exactly if no error was
  logged or the poke that confirmed it names the error (`ExactlyOnce.SettlesTrulyIff`).
- A push aborted by a transient failure sends its error alone, also when earlier mutations of it committed, and
  a migration sends nothing: until the version moves again the other clients stay behind, with nothing on its
  way (`CatchUp.UnannouncedLeavesBehind`). Where no version moves that way, whoever is quiet is current
  (`CatchUp.QuietMeansCurrent`).
- Hello serializes the attachment it read before sending, which undoes the defunct mark of a delivery that
  failed in between (`Presence.SocketHub.HandleHello`).
- The subsumption guard compares cursors only, so tabs sharing a disk can break it
  (`Mirror.LateClearBreaksMirror`). `Convergence.Converges` asks that a write which does not clear starts at
  or below what the disk holds of the same history; `Convergence.SteadyIsOrderly` says when that is so, and
  `Convergence.OwnStoresConverge` that without sharing it always is. What a delta over older rows does is
  `Mirror.DeltaOverStaleIff`.
- Optimistic and authoritative runs differ exactly on the checks only the server makes
  (`LocalWrites.AnswersAgreeIff`), in the order of lists exactly as the rows below do
  (`ListOrder.ListsAlikeIff`), and new rows must name the id they are put under (`LocalWrites.FlushShowsViewIff`).
- A field's refusals are forgotten on a wake (`FieldLog.ForgettingLetsInIff`, `FieldLog.WakeBreaksPrefixIff`,
  and `FieldLog.WakeForgetsRefusals` for a run from nothing). A client of this library sends nothing once it
  knows (`FieldSync.RefusalCollapses`), and `FieldSync.QuietMeansEqual` allows wakes.
- The documentation of `writeBlocked` says a sticky rejection keeps its reason; another REJECT with another
  reason replaces it, and nothing else does (`FieldSync.ReasonStaysIff`, `FieldSync.ReasonReplaced`).
- A key listed twice fails an import at the current schema version, but the last one wins in a snapshot old
  enough to be migrated first (`Workspace.WorkspaceDO.ImportRows`, `Workspace.WorkspaceDO.MigrateSnapshot`).

## Model

| member | source | states |
|---|---|---|
| `Convergence.Converges` | packages/client/src/client.ts:1244-1286 | In every reachable state, under any interleaving of pushes, duplicates, unsent or lost commits, cut and superseded sockets, compactions, imports, migrations, wakes, resets, disk writes and reloads, in which no write reaches a shared disk from a base past what the disk holds: a client whose cursor is (b, v) holds exactly the live rows the server had at version v of history b, at the server's own cursor the live rows, and so does every disk at its stored cursor. |
| `Convergence.OwnStoresConverge` | packages/client/src/idb-store.ts:174-199 | With stores of their own whose writes succeed, clients hold those rows in every run, with no condition on order. |
| `Convergence.SteadyIsOrderly` | packages/client/src/idb-store.ts:181-185 | Tabs sharing a disk write in order, however they interleave, if writes succeed, no store in use is wiped, and a clear reaches a disk only once no other tab there is past it or in another history. |
| `Convergence.StepTells` | packages/client/src/client.ts:1384-1406 | Every step keeps clients' and disks' rows right as long as a write that reaches a disk clears it or starts at or below what it holds. |
| `Convergence.NotedKeeps` | packages/client/src/client.ts:1386-1406 | What applying a poke hands the store is a faithful update from the cursor the client had, so that the writes still to come lead step by step to its present cursor. |
| `Convergence.HelloCatchesUp` | packages/server/src/do.ts:941-966 | From any cursor a client can hold, one hello whose answer arrives whole ends at the server's cursor with its live rows, synced. |
| `Convergence.StepKeeps` | packages/server/src/do.ts:941-1118 | Every single step, whatever order disks are written in, keeps all pokes on their way exact and the writes still to come faithful, and only ever extends the recorded history of snapshots. |
| `Convergence.ApplyPokeHolds` | packages/client/src/client.ts:1316-1360 | A poke exact for the history, applied from its base or with a clear, takes a client that holds its cursor's rows to one that holds the new cursor's. |
| `CatchUp.QuietMeansCurrent` | packages/server/src/do.ts:1099-1118 | In every run in which no version moves unannounced, a synced client on an uncut, open socket with nothing in flight either way is at the server's cursor with exactly its live rows, and waits for nothing. |
| `CatchUp.WaitingIsAnswered` | packages/client/src/client.ts:1178-1191 | In every run, a client that awaits catch-up over a socket not cut has a hello from its cursor on the way up, or a poke it can apply from there on the way down. |
| `CatchUp.UnannouncedLeavesBehind` | packages/server/src/do.ts:1081-1104 | A push aborted after it committed rows, or a migration under ready sockets, leaves every quiet client but the sender behind the server with nothing on its way. |
| `Settled.QuietMeansSettled` | packages/client/src/client.ts:1465-1498 | Over runs of durable clients in one history in which no push is aborted over what it committed, a synced client with nothing in flight has settled exactly the calls the server executed for it, the first LMID in order. |
| `ExactlyOnce.ExecutesEachOnceInOrder` | packages/server/src/do.ts:1065-1097 | Over runs of durable clients in one history, the mutations the server logged for a client are its first LMID calls, each once, in call order, despite replays, reconnects and transient failures. |
| `ExactlyOnce.OutboxIsTheUnconfirmed` | packages/client/src/client.ts:1358-1383 | Over the same runs the outbox is the calls after the confirmed ones: ids confirmed+1, confirmed+2, ... then unnumbered entries; renumbering would not change the run; no promise settles before the server reached its id, and one rejects with a server error only if the server logged that error. |
| `ExactlyOnce.PushesAreNeverRefused` | packages/server/src/do.ts:1076-1081 | Every push in flight is gap-free and starts at or below LMID+1, and no PushInvalid is ever on its way to a client. |
| `ExactlyOnce.ServedPushIsAccepted` | packages/server/src/do.ts:1058-1061 | No push a server serves in such a run is answered with PushInvalid. |
| `ExactlyOnce.PushDrains` | packages/client/src/client.ts:1538-1545 | A push served without a transient failure brings the LMID up to everything the client had numbered. |
| `ExactlyOnce.IssuedIsEnqueued` | packages/client/src/client.ts:967-1000 | The calls the ledger compares with are exactly the client's enqueue steps of the run, in order. |
| `ExactlyOnce.SettlesTrulyIff` | packages/client/src/client.ts:1465-1478 | Whatever frame a client takes in such a run, each promise it settles tells what the server logged exactly if no error was logged or the results at hand name it. |
| `ExactlyOnce.AnswerTellsAll` | packages/server/src/do.ts:1111-1118 | The answer to a push tells every error to a client that had confirmed what came before it. |
| `LostPokes.RejectedYetResolved` | packages/server/src/do.ts:961-965 | A run from the start: a mutation is rejected, its answer is lost with the connection, hello confirms its id without results, and the promise resolves. |
| `LostPokes.ResetStrands` | packages/server/src/do.ts:838-872 | A run from the start: the workspace is reset under a ready socket, the client's next mutation is executed and confirmed to it, but recorded nowhere. |
| `Stranded.StrandedForGood` | packages/server/src/do.ts:1076-1081 | From there on, short of another reset or a reload of its own, nothing of that client is ever executed again and each of its non-empty pushes is refused, in every run. |
| `Ledgers.ApplyPokeOk` | packages/client/src/client.ts:1356-1383 | Applying a poke that confirms what the server logged keeps the outbox the unconfirmed tail of the calls. |
| `Ledgers.ApplyPokeTellsIff` | packages/client/src/client.ts:1465-1478 | The promises such a poke settles tell what the server logged exactly as far as its results name the errors. |
| `Ledgers.SliceLists` | packages/server/src/do.ts:1066-1088 | The results of a push name every error among the mutations it executed. |
| `Ledgers.CommitExtendsLedger` | packages/server/src/do.ts:1136-1205 | Committing the next mutation of a batch extends the executed prefix by exactly that call. |
| `Ledgers.PushBatchOk` | packages/client/src/client.ts:1538-1545 | What is pushed is a gap-free run of the client's own calls starting right after its confirmed id. |
| `Streams.CompletesPoke` | packages/client/src/client.ts:1244-1286 | The frames of one poke, whatever unfinished poke they follow, complete that poke and no other. |
| `Server.DeltaSound` | packages/server/src/do.ts:1258-1272 | A delta built for version b, which carries current rows, takes the rows of every version from b on to the current live rows. |
| `Server.BootstrapSound` | packages/server/src/do.ts:1280-1293 | A bootstrap patch reaches the live rows from any base. |
| `Server.HelloExact` | packages/server/src/do.ts:952-966 | Whatever cursor is presented, the answer is exact for the history; it clears if and only if the cursor is not accepted. |
| `Server.HelloAnswers` | packages/server/src/do.ts:945-966 | A cursor of this history, not ahead of it nor behind the oldest one kept, is answered from where it is and any other from nothing; the client is known afterwards and is told the last id recorded for it. |
| `Server.BootstrapsIsBootstrap` | packages/server/src/do.ts:1280-1293 | A bootstrap served from the cache is one a rebuild could have served. |
| `Server.PushExact` | packages/server/src/do.ts:1057-1118 | A push, cut short or not, extends the history one snapshot per row-writing commit, and its poke is exact. |
| `Server.PushAnswersIff` | packages/server/src/do.ts:1069-1096 | An error alone is the answer exactly if a mutation reached as the next one due fails for the time being; otherwise a poke is, after PushInvalid exactly if an id is skipped. |
| `Server.PushReachesAllIff` | packages/server/src/do.ts:1099-1117 | The poke of a push goes to everyone exactly if the version moved; it starts where the push did, ends where the rows now are and tells a known sender the last id recorded for it. |
| `Server.CommitKeeps` | packages/server/src/do.ts:1136-1205 | Stamping a mutation's rows with the next version keeps every older accepted version tied to the rows. |
| `Server.EmptyPatchIffSameVersion` | packages/server/src/do.ts:1106-1110 | The version moves exactly when a row changes, so clients left out of an empty poke stay current. |
| `Server.CompactKeeps` | packages/server/src/do.ts:516-531 | Physically dropping tombstones is invisible to every cursor still accepted and changes no live row. |
| `Server.CompactDropsExactly` | packages/server/src/do.ts:516-531 | Exactly the tombstones at or before version minus retention go, no row changes, and within the first retention versions nothing happens. |
| `Server.CompactRefusesIff` | packages/server/src/do.ts:516-531 | A cursor accepted before is refused after exactly if a tombstone newer than it was dropped. |
| `Server.CompactSparesRecent` | packages/server/src/do.ts:512-531 | A cursor within the retention horizon accepted before is accepted after. |
| `Server.ImportKeeps` | packages/server/src/do.ts:792-822 | A full replacement lands at one new version that no earlier cursor survives, and the history goes on. |
| `Server.MigrateKeeps` | packages/server/src/do.ts:363-408 | So does a schema migration. |
| `Server.FreshKeeps` | packages/server/src/do.ts:838-872 | A reset starts a history of its own, and its clear poke is exact from any base. |
| `Server.RecordedIff` | packages/server/src/do.ts:1181-1186 | A committed mutation is recorded as its client's last exactly when the client has a row: the LMID write is an UPDATE. |
| `Server.ReplayRunsAgainIff` | packages/server/src/do.ts:1070-1075 | A pushed mutation delivered again is skipped exactly when its client has a row. |
| `Server.ResetForgetsClients` | packages/server/src/do.ts:838-872 | After a reset a socket that stayed ready has no client row, so its next mutation runs once per delivery: exactly-once needs hello first. |
| `Workspace.WorkspaceDO.HandleHello` | packages/server/src/do.ts:941-966 | The handler's new state and poke are those of the relation the exactness lemmas speak about. |
| `Workspace.WorkspaceDO.HandlePush` | packages/server/src/do.ts:1057-1118 | With storage failing where the caller says, each mutation reached as the next one due comes to what its mutator comes to on the rows of that moment, and is transient only if that crashed or storage failed there; the new state and the answer are those of the push relation. Before hello nothing changes. |
| `Workspace.WorkspaceDO.ApplyMutation` | packages/server/src/do.ts:1120-1217 | Rolls back exactly if storage fails or the mutator crashes, and then changes nothing. Otherwise commits: LMID and log entry also for an unregistered mutator, arguments that do not parse or an error thrown, with rows untouched; an event is raised exactly when the version moved, and its changes lead from the old rows to the new. |
| `Workspace.WorkspaceDO.RanIsItsRun` | packages/server/src/do.ts:1146-1178 | What a mutation comes to is how its mutator, given its parsed arguments, ends when it reads and writes the live rows directly: the same error, crash or rows. |
| `Workspace.WorkspaceDO.GapFreePushLands` | packages/server/src/do.ts:1065-1118 | A gap-free push from the next id due or below, none of which crashes while storage works, takes the LMID to its last id, permanent errors included, and is answered by one poke and no error. |
| `Workspace.WorkspaceDO.PatchSince` | packages/server/src/do.ts:1258-1272 | Every row stamped after the version, each once, in version order, tombstones as deletes. |
| `Workspace.WorkspaceDO.BootstrapPatch` | packages/server/src/do.ts:1280-1293 | Serves the cache while backend and version stand, else rebuilds and caches. |
| `Workspace.WorkspaceDO.Compact` | packages/server/src/do.ts:516-531 | Drops exactly the tombstones at or before the horizon and raises the minimum cursor to the youngest dropped. |
| `Workspace.WorkspaceDO.ImportRows` | packages/server/src/do.ts:770-832 | Succeeds exactly if every row is valid and no key repeats; then all rows are replaced and everyone is sent a bootstrap; otherwise nothing changes. |
| `Workspace.WorkspaceDO.ImportStoresParses` | packages/server/src/do.ts:772-793 | Each row an import stores is its table's parse of the listed one, within the size limit. |
| `Workspace.WorkspaceDO.ImportFitsIff` | packages/server/src/do.ts:776-791 | A listed row is refused exactly if its key is malformed, its table has no parse of it or the parse is too large. |
| `Workspace.LastListedIsStaged` | packages/server/src/do.ts:757-759 | Staging an older snapshot keeps the row last listed under each key. |
| `Workspace.WorkspaceDO.ImportSnapshot` | packages/server/src/do.ts:735-832 | Succeeds exactly when the snapshot comes to rows that all fit, an older one by the migration path from its version, and then replaces everything by them; otherwise nothing changes. |
| `Workspace.WorkspaceDO.MigrateSnapshot` | packages/server/src/do.ts:750-769 | An older snapshot's rows come out as a rollout on a store of their own leaves them, a key listed twice staged as last listed. |
| `Workspace.WorkspaceDO.MigrateAppSchema` | packages/server/src/do.ts:363-408 | The steps share a buffer, the net rows are validated, and rows, versions, log and stored schema version change all together or not at all. |
| `Workspace.WorkspaceDO.Reset` | packages/server/src/do.ts:838-872 | Empties the workspace under a new backend id and sends a lone clear. |
| `Client.PokeRoundTrip` | packages/client/src/client.ts:1244-1286 | Receiving the frames of a poke, however split, from the client's cursor or with a clear, applies it as a whole; otherwise changes nothing but that the client waits for catch-up. |
| `Client.ResyncsIff` | packages/client/src/client.ts:1254-1286 | A part or end without its own buffer, an end whose base is not held with no clear, or PushInvalid, and nothing else, makes a client that is not already waiting say hello from its cursor and wait; rows and cursor stay, and only a poke applied ends the wait. |
| `Client.RefusalRenumbers` | packages/client/src/client.ts:1418-1422 | After PushInvalid the next poke applied renumbers what it does not settle from the confirmed id on, in order, and loses no call. |
| `Client.NewHistoryRenumbers` | packages/client/src/client.ts:1356-1364 | A poke of another history settles nothing: the whole queue, in order, renumbers from what that history has confirmed for the client. |
| `Client.SettleCutsRun` | packages/client/src/client.ts:1465-1478 | Confirming up to an id of the run settles exactly the entries up to it, in order, and leaves a run. |
| `Client.AssignCompletesRun` | packages/client/src/client.ts:1442-1453 | Numbering what is pending extends the run over the whole outbox, as renumbering all of it would. |
| `Client.RebaseKeepsRun` | packages/client/src/client.ts:1455-1463 | Renumbering is the identity on the numbered run, so replays keep the ids they were sent under. |
| `Client.PushIsTheRun` | packages/client/src/client.ts:1538-1545 | A push carries the whole run, in id order and without gaps. |
| `SyncClients.SyncClient.OnMessage` | packages/client/src/client.ts:1232-1314 | Whatever the frame, fields, rows, outbox, settlements and sends are those of the client's step; what makes it ask again is `Client.ResyncsIff`. |
| `SyncClients.SyncClient.WriteTables` | packages/client/src/client.ts:1316-1354 | Truncating and writing table by table leaves the tables as absorbing the patch as a whole does. |
| `SyncClients.SyncClient.SettleOutbox` | packages/client/src/client.ts:1465-1498 | Settles exactly the confirmed entries in order, each with its own result, and keeps the rest. |
| `SyncClients.SyncClient.RebaseOutboxIds` | packages/client/src/client.ts:1455-1463 | Numbers the whole outbox from the confirmed id on. |
| `SyncClients.SyncClient.Hydrate` | packages/client/src/client.ts:652-721 | Restores a usable stored state in front of what was queued meanwhile; another schema's changes nothing and is discarded, and only that is. |
| `StartupReplay.ReplayShowsPending` | packages/client/src/client.ts:710-796 | Run again in order over restored rows, the queued mutations make the collections show exactly the rows the server will have once it has executed them on those rows, rejections included. |
| `StartupReplay.ReplayEntries` | packages/client/src/client.ts:717-796 | The loop lays each entry's writes over what the ones before it left, and nothing for a run that throws or meets no collection. |
| `SyncClients.GroupingAgrees` | packages/client/src/client.ts:1316-1354 | Per table, the operations on that table in their order decide each row as the whole patch does. |
| `SyncClients.JoinIsAbsorb` | packages/client/src/client.ts:1332-1354 | Tables written one by one with their own operations join to the absorbed patch. |
| `SyncClients.RegisteredMissNothing` | packages/client/src/client.ts:1342-1354 | Operations on tables nobody registered are dropped, and every row of a registered table ends as the whole patch leaves it. |
| `Rows.AbsorbIsApplyIff` | packages/client/src/client.ts:1316-1343 | With a clear inside a patch, the client's reading (clear first, then the rest) is the patch's meaning exactly if everything put before the last clear is named again after it. |
| `WriteSets.BufferedRefinesDirect` | packages/server/src/engine-core.ts:149-219 | For any mutator program, running through the buffer gives the same reads (lists as the rows they hold), the same end and the same rows in view as running each call directly on the rows. |
| `ListOrder.ListedOrder` | packages/server/src/engine-core.ts:183-197 | A list comes as the stored rows that survive, in their own order, then the buffered rows not among them, in the order they were put. |
| `ListOrder.ListsAlikeIff` | packages/client/src/local-writes.ts:39-51 | Client and server, over the same rows in whatever order and the same writes, list in the same order exactly if the surviving stored rows come in the same order. |
| `ListOrder.ListedIsList` | packages/server/src/engine-core.ts:183-197 | The ordered listing holds the rows the unordered specification of list gives. |
| `WriteSets.ListAgrees` | packages/server/src/engine-core.ts:183-197 | Filtering stored and buffered rows separately, a filtered list is the filter of the full list of rows in view. |
| `WriteSets.LargerBudgetSameRun` | packages/server/src/engine-core.ts:168-219 | A program that ends within a call budget runs alike under any larger one: the budget restricts nothing that ends. |
| `WriteSets.PutDoneIff` | packages/server/src/engine-core.ts:198-208 | Without deferred validation a put is taken exactly if its target is valid, its table parses the row and the parse is within the limit; which of the two errors it throws otherwise. |
| `WriteSets.PutReadsBackTheParse` | packages/server/src/engine-core.ts:42-63 | A get right after a put taken so returns the schema's parse of the row, through the buffer as on the rows themselves. |
| `WriteSets.LastPutIsStored` | packages/server/src/engine-core.ts:230-241 | If the run names the row in no later put or del, the live row after the flush is that parse. |
| `WriteSets.NetRowsAreParses` | packages/server/src/engine-core.ts:232-240 | With validation deferred, each row the flush writes is the schema's parse of the buffered one, within the limit. |
| `WriteSets.ListHoldsIff` | packages/server/src/engine-core.ts:183-197 | A list holds exactly the rows in view whose every named field has the value asked for. |
| `WriteSets.RowKeyInjective` | packages/server/src/engine-core.ts:72-74 | Two checked targets never share a buffer slot. |
| `WriteSets.FlushedIsOverlay` | packages/server/src/engine-core.ts:230-247 | The live rows after a flush are the stored ones without the deleted ones, overlaid by the buffered ones. |
| `WriteSets.ChangesExact` | packages/server/src/engine-core.ts:221-255 | With tracking on, flush lists each written row exactly once, with the stored row before and the row left after, never absent on both sides; as many entries as rows written; replaying the list on the old rows gives the new. |
| `WriteSets.ChangesInTouchOrder` | packages/server/src/engine-core.ts:149-155 | Before-images, hence the list, are in the order rows are first named by any call. |
| `EngineCore.WriteSet.Apply` | packages/server/src/engine-core.ts:149-219 | The buffer object, driven by any program, reads and ends as a direct run does; what a put stores and reads back is `WriteSets.PutReadsBackTheParse`. |
| `EngineCore.WriteSet.Flush` | packages/server/src/engine-core.ts:230-255 | Writes every buffered row at one version, tombstones only rows that live, and reports what it wrote. |
| `EngineCore.WriteSet.List` | packages/server/src/engine-core.ts:183-197 | Merging stored, deleted and buffered rows entry by entry answers as the specification's list does. |
| `EngineCore.RowStore.List` | packages/server/src/engine-core.ts:96-102 | Returns only live rows of the table and at least every one that matches, which is all callers may rely on. |
| `LocalWrites.AnswersAgreeIff` | packages/client/src/local-writes.ts:29-68 | On an attached table a call is answered at the client as at the server exactly when no server-only check (target, table name, row size) refuses it. |
| `LocalWrites.LocalPutReadsBackTheParse` | packages/client/src/local-writes.ts:52-61 | At the client too, what is read back after a put is the schema's parse of the row. |
| `LocalWrites.OptimisticRunAgrees` | packages/client/src/local-writes.ts:14-107 | From the same rows, a program that trips no server-only check reads the same (lists as the rows they hold), ends the same and buffers the same writes on both sides. |
| `LocalWrites.FlushShowsViewIff` | packages/client/src/client.ts:943-954 | After the local flush the collections show what the mutation saw exactly when every new row's own id is the id it was put under. |
| `LocalWrites.OverlayIsTheServersRows` | packages/client/src/client.ts:943-954 | Then the collections show exactly the rows the server's flush of its own run leaves live. |
| `LocalWrites.Appliers.FlushLocalWrites` | packages/client/src/client.ts:943-954 | The flush loop, update or insert by presence and delete if present, is the flush those lemmas speak about. |
| `LocalWrites.LocalWriteSet.List` | packages/client/src/local-writes.ts:39-51 | The client's list merges collection, deletions and buffered rows as specified. |
| `Presence.SocketHub.CloseSocket` | packages/server/src/do.ts:1357-1375 | Close, drop, relay and deliver terminate although each may call the next; beside the socket itself, exactly those sockets end marked that a departure was sent to and that are expired or broken; every open ready socket hears of each departure exactly once. |
| `Presence.SocketHub.Deliver` | packages/server/src/do.ts:1333-1350 | A socket that is open, unexpired and not broken gets the frame and nothing else changes; a marked one gets nothing; any other is closed, and besides it exactly the expired or broken ones that hear of a departure. |
| `Presence.SocketHub.RelayPresence` | packages/server/src/do.ts:1030-1045 | Every ready open socket but the sender's hears the change once, whatever closes on the way; exactly the expired or broken ones reached close. |
| `Presence.SocketHub.HandlePush` | packages/server/src/do.ts:1057-1118 | Everyone ready or the sender alone hears the poke once; before hello nothing but an error is sent; exactly the expired or broken sockets reached close. |
| `Presence.SocketHub.HandleBinary` | packages/server/src/do.ts:643-658 | A binary frame before hello changes nothing; after it, what the extension relays every other ready socket hears once, and exactly the expired or broken sockets reached close. |
| `Presence.SocketHub.DropPresence` | packages/server/src/do.ts:1047-1055 | Removes only the entry this very socket owns; telling the others closes exactly the expired or broken ones. |
| `Presence.SocketHub.Upgrade` | packages/server/src/do.ts:603-618 | After an upgrade every earlier socket of the client is defunct, so at most one per client is open, and its old presence entry is gone. |
| `Presence.SocketHub.WebSocketMessage` | packages/server/src/do.ts:623-680 | A frame from a defunct socket changes nothing; one from an expired socket only closes it; any other leaves a socket that is neither expired nor broken open, and every entry owned by an open socket of its own client. |
| `Presence.SocketHub.HandleHello` | packages/server/src/do.ts:941-980 | Hello writes back the attachment it had read, so a delivery that failed meanwhile is unmarked again unless presence is declared and the second send fails too: the closed-is-defunct seal survives exactly then. A socket that can take frames hears its poke and then, where presence is declared, every entry but its own client's. |
| `Presence.SocketHub.HandlePresence` | packages/server/src/do.ts:991-1028 | A state is taken exactly when presence is declared, the socket ready and the state valid, and then only the sender's entry changes and peers hear it. |
| `Presence.SocketHub.WebSocketClose` | packages/server/src/do.ts:682-692 | The closed socket and its own entry go, no other client's. |
| `Presence.Departs` | packages/server/src/do.ts:1047-1055 | Taking a socket away leaves the others' sockets, ownership and one-open-socket-per-client as they were. |
| `Frames.Utf8ByteLength` | packages/server/src/frames.ts:33-52 | The loop and its ASCII shortcut return the length of the UTF-8 encoding with unpaired surrogates replaced by U+FFFD. |
| `Frames.EncodeDecodes` | packages/server/src/frames.ts:32-33 | That encoding (section 3 of RFC 3629) decodes back to the scalar values it came from. |
| `Frames.PackPatch` | packages/server/src/frames.ts:63-85 | Refuses exactly when one operation alone is over budget; otherwise the parts are the operations in order, greedily filled, the counts summing to the total. |
| `Frames.PartsFit` | packages/server/src/frames.ts:63-85 | Every part's encoded length, commas counted, is within the budget. |
| `Frames.GreedyIsFewest` | packages/server/src/frames.ts:62-85 | No order-preserving split within the budget has fewer parts. |
| `Frames.StoredRowsPack` | packages/server/src/frames.ts:20-28 | No row the engine can store is oversize, whatever needs escaping in its id. |
| `Frames.PokeFrames` | packages/server/src/frames.ts:88-119 | A start, the parts with what remains after each, an end; only the first part confirms. |
| `Frames.CountsDown` | packages/server/src/frames.ts:100-104 | What remains never rises and ends at zero. |
| `Frames.PackedPokeArrives` | packages/client/src/client.ts:1254-1286 | However a patch is packed, receiving the frames does what the poke as a whole does. |
| `Mirror.MirrorHolds` | packages/client/src/idb-store.ts:174-199 | For any interleaving of tabs loading, applying exact pokes of one history from their own cursors and saving outboxes, with no clear that takes the stored version back, what is stored is the server's rows at the stored cursor. |
| `Mirror.OverlapIsExact` | packages/client/src/idb-store.ts:181-191 | Skipping a subsumed update and applying an overlapping one are both exact when the base is at or below the stored version of the same history. |
| `Mirror.PokeIsFaithful` | packages/client/src/client.ts:1389-1403 | What is persisted of an exact poke takes the rows of every version from its base on to those at its end. |
| `Mirror.DeltaOverStaleIff` | packages/client/src/idb-store.ts:181-191 | A delta applied to rows older than its base is right exactly when no row last changed between the two differs. |
| `Mirror.LateClearBreaksMirror` | packages/client/src/idb-store.ts:181-185 | The guard compares cursors only: a clear stored late makes the next delta of a tab that was ahead break the mirror. |
| `Mirror.DatabaseIsMemory` | packages/client/src/store.ts:109-142 | To the client whose store it is, the shared database loads what its own in-memory store would; collecting stale outboxes never touches its own. |
| `Mirror.OutboxesApart` | packages/client/src/idb-store.ts:192-197 | A poke one client stores leaves every other client's outbox and confirmed id. |
| `Mirror.StoredIff` | packages/client/src/idb-store.ts:181-199 | A poke's rows, cursor and schema version are stored exactly if it clears or moves the stored cursor on; the outbox and the confirmed id always are. |
| `Mirror.MemorySyncStore.ApplyPoke` | packages/client/src/store.ts:109-136 | The reference store's poke, row by row, is the specification's. |
| `Mirror.IndexedDBSyncStore.Load` | packages/client/src/idb-store.ts:137-172 | Returns what is stored and drops exactly other clients' outboxes that went stale. |
| `Mirror.IndexedDBSyncStore.ApplyPoke` | packages/client/src/idb-store.ts:174-199 | Rows, cursor and outbox change together, batches included, as the specification says. |
| `Mirror.IndexedDBSyncStore.WriteRows` | packages/client/src/idb-store.ts:55-73 | The batches write the operations in order, each once. |
| `HookGate.DrainIsDelivery` | packages/client/src/collection.ts:62-98 | One operation per row and a clear flag, drained, leave the table every received call delivered in order would. |
| `HookGate.LateStartLosesNothing` | packages/client/src/collection.ts:62-105 | Whenever the collection attaches, it ends as if attached from the first call. |
| `HookGate.TypedNeverRefused` | packages/client/src/collection.ts:246-260 | Typed as insert, update, delete or nothing, no write is ever one the collection refuses (insert of a present row, update or delete of an absent one), and together they do what the operations ask for. |
| `HookGate.Gate.Attach` | packages/client/src/collection.ts:87-100 | Drains as one transaction, clear first, passes readiness on, and is empty afterwards. |
| `HookGate.Gate.Write` | packages/client/src/collection.ts:70-73 | Detached, the last operation per row is kept; attached, it is passed on. |
| `HookGate.Target.Write` | packages/client/src/collection.ts:246-256 | The tracked keys are the rows' keys, and the write is typed by them. |
| `FieldLog.LogIsItsHistory` | packages/yjs/src/server.ts:226-254 | In every reachable state a field's snapshot and tail join to exactly the updates accepted for it since its log last started over, the last number counts them, and every cached doc is what a fresh load would build. |
| `FieldLog.StepKeeps` | packages/yjs/src/server.ts:295-397 | Every step keeps tail numbers consecutive above the snapshot's, tails rooted in a field row, and the cache fresh and within its limit. |
| `FieldLog.CompactIsInvisible` | packages/yjs/src/server.ts:373-397 | Compaction changes no field's doc, no last number and no freeze. |
| `FieldLog.FoldMeasures` | packages/yjs/src/server.ts:383-396 | A fold leaves an empty tail and one snapshot of the whole doc, and the running total is what that encodes to. |
| `FieldLog.ImportMeasures` | packages/yjs/src/server.ts:449-472 | After an import a field holds what was imported for it, and is frozen exactly if that encodes to more than 700,000 bytes; refusals stay. |
| `FieldLog.AppendJoins` | packages/yjs/src/server.ts:333-356 | An accepted update joins its field's doc under the next number and touches no other field. |
| `FieldLog.AcceptedIff` | packages/yjs/src/server.ts:302-327 | An update is taken exactly if the socket was not refused the field, may write, keeps to 200,000 bytes, the field is not frozen and the update parses; which reason a refusal gives, and that exactly refusals are remembered. |
| `FieldLog.CacheDocIsLru` | packages/yjs/src/server.ts:204-212 | The cache keeps the most recently used docs, never more than the limit. |
| `FieldLog.FrozenIffCrossed` | packages/yjs/src/server.ts:323-342 | Without imports, and if no snapshot encodes to more than the sum it replaces, the byte total never exceeds 900,000 and a field is frozen exactly if it ever passed 700,000. |
| `FieldLog.FrozenForGood` | packages/yjs/src/server.ts:310-314 | Whatever happens short of an import or reset, a frozen field stays frozen and accepts nothing. |
| `FieldLog.TookIsPrefix` | packages/yjs/src/server.ts:302-327 | Per socket and field the accepted well-formed updates are a prefix of those sent, all of them while nothing was refused, in every run in which no wake or reset comes while something of that socket's is refused. |
| `FieldLog.ForgettingLetsInIff` | packages/yjs/src/server.ts:302-315 | From a refusal on nothing of the socket's is accepted; once the object has woken whatever else is acceptable is, exactly if the field is not frozen, and after a reset always. |
| `FieldLog.WakeBreaksPrefixIff` | packages/yjs/src/server.ts:400-407 | After a wake that does forget, the accepted updates are still a prefix exactly if the field is frozen or the next update is the very one first refused. |
| `FieldLog.WakeForgetsRefusals` | packages/yjs/src/server.ts:400-407 | Refusals are kept in memory: a wake between a refused update and a later one lets the later one in, past the gap. |
| `FieldLog.FieldServer.LoadDoc` | packages/yjs/src/server.ts:226-254 | From the cache or built afresh, the doc returned is what the log holds. |
| `FieldLog.FieldServer.HandleGet` | packages/yjs/src/server.ts:271-287 | Says writable exactly if an update within the limit would be accepted now, and sends at least what the client lacks. |
| `FieldLog.FieldServer.HandleUpdate` | packages/yjs/src/server.ts:295-371 | Checks in the order refused, authorized, size, frozen, well-formed; then appends, totals, freezes and keeps the cached doc up or evicts it. |
| `FieldLog.FieldServer.CompactField` | packages/yjs/src/server.ts:373-397 | Replaces tail by snapshot with the encoded size as the new total, freeze untouched. |
| `FieldLog.FieldServer.OnAlarm` | packages/yjs/src/server.ts:421-439 | Afterwards no tail is longer than the threshold, and no field's doc, numbers or freeze changed. |
| `FieldLog.FieldServer.OnImport` | packages/yjs/src/server.ts:449-472 | All fields are replaced by the imported snapshots, frozen by their own size. |
| `FieldSync.QuietMeansEqual` | packages/yjs/src/client.ts:184-246 | Any number of clients on sockets that drop at any time, with edits, compactions and wakes in between: a connected client with nothing in flight has all the server has, and if it may write, the two docs are equal, hence any two such clients' docs are. |
| `FieldSync.RoundJoins` | packages/yjs/src/client.ts:202-234 | On a writable field one GET, its STATE and the push-back leave client and server with the join of both docs. |
| `FieldSync.EditSentIff` | packages/yjs/src/client.ts:161-182 | An edit always stays in the doc, and is sent exactly if the field is writable, the connection live and the update within 200,000 bytes; beyond that the field is read-only. |
| `FieldSync.StateTakenIff` | packages/yjs/src/client.ts:202-234 | A STATE is taken in whole; the field is writable from it on exactly if it says so and nothing was refused before, and then pushes back what the server lacks. |
| `FieldSync.StateSaysWritableIff` | packages/yjs/src/server.ts:271-287 | A STATE says writable exactly if an update that fits would be accepted from that socket now. |
| `FieldSync.RefusalCollapses` | packages/yjs/src/client.ts:161-182 | Once rejected by the server or by the local size guard, a field never sends another UPDATE nor becomes writable, across any later frames and edits. |
| `FieldSync.EntryKeeps` | packages/yjs/src/client.ts:215-219 | In every reachable state a rejected field is not writable, a writable one is synced, and a synced one shows a reason exactly while not writable. |
| `FieldSync.ReasonStaysIff` | packages/yjs/src/client.ts:237-245 | The reason a rejected field shows is replaced exactly by a REJECT that gives another one. |
| `FieldSync.ReasonReplaced` | packages/yjs/src/client.ts:161-182 | Such a REJECT does come: for an edit on its way when a later one trips the local size guard. |
| `FieldSync.MoveKeeps` | packages/yjs/src/client.ts:184-246 | Every step keeps the invariant: what a client lacks is on its way down once its GET is answered, what the server lacks of a writable client is on its way up once its STATE is read, and a refusal it has not seen is on its way. |
| `FieldSync.LogOnlyGrows` | packages/yjs/src/server.ts:331-356 | Over any such run the server's doc only grows. |
| `FieldSync.HeldField.OnFrame` | packages/yjs/src/client.ts:184-246 | The frame handler's fields and sends are those of the step relation. |
| `FieldSync.HeldField.SendUpdate` | packages/yjs/src/client.ts:161-182 | Over the limit nothing is sent and the field turns read-only for good. |
| `FieldSync.HeldField.OnLocalUpdate` | packages/yjs/src/client.ts:296-303 | A local edit is always kept, and sent only while writable and live. |
| `Migrations.DefineMigrations` | packages/protocol/src/app.ts:266-307 | Accepts exactly the declarations that cover consecutive versions up to the current one, whatever order and keys they were given in, and returns them in order. |
| `Migrations.CoversIsConsecutive` | packages/protocol/src/app.ts:289-307 | In an acceptable declaration each step is one above the last and the final one is the current version. |
| `Migrations.PathIsTheChainAbove` | packages/protocol/src/app.ts:331-354 | For whatever is accepted, a path exists exactly from the versions the chain reaches back to, and its steps are stored+1 up to the current version, each the declared one. |
| `Migrations.ReplayIsOneByOne` | packages/server/src/do.ts:367-373 | Replaying the chain through one buffer sees and leaves what the steps run one after another do, or throws where they would. |
| `Migrations.OnlyNetRowsValidated` | packages/server/src/engine-core.ts:230-243 | With validation deferred, the flush fails exactly when the current schema has no parse, or only an oversize one, of a row left by the whole chain; otherwise each row it writes is that parse. |
| `Migrations.RolloutStoresParses` | packages/server/src/do.ts:366-395 | Each live row a rollout stamps is the current schema's parse of what the steps, run one by one, leave under its key. |
| `Migrations.RolloutIsOneByOne` | packages/server/src/do.ts:363-408 | Rows written land at one new version no earlier cursor survives; if none was written, rows, version and cursors stay; the rows are those the steps leave run one by one, and a rollout only fails on a step or on a row that does not fit. |

## Left out

- Storage, sockets, clocks and randomness: SQL tables and object stores are maps, a transaction is all or
  nothing, a socket is a FIFO that may be cut; fresh backend ids, socket ids, times and send failures are parameters.
- Schema validators and row sizes: uninterpreted functions from a row to its parse and to its byte size; async validators are not modelled.
- The SQL prefilter: a filtered list is assumed to return a superset of the matching rows, whatever it returns beyond them.
- `WriteSets.BufferedRefinesDirect` and `LocalWrites.OptimisticRunAgrees` compare a `list` as the rows it holds; its order is `ListOrder`'s, over whatever order the stored rows come in, which the SQL query leaves open.
- Mutators that never return: a run that exceeds its call budget counts as a transient crash; `WriteSets.LargerBudgetSameRun` says the budget decides nothing else.
- `structuredClone` and aliasing of row objects: rows are values.
- Numbers in JSON are reals, and rows are compared as parsed values rather than as text.
- Memory-only clients: confirmation timeouts remove entries and may reuse ids; the outbox results are about durable clients.
- Reloads: rows and cursor come from the modelled disk, but the stored outbox is taken to equal the one in memory, although saving is asynchronous.
- Workspace reset within `ExactlyOnce`: excluded as a hypothesis, for the reason stated above, also one taken while no socket is ready; the ledger would have to start over per history.
- Late table registration and the full resync it triggers; detached appliers other than skipping their writes.
- `store.reset()` by one tab is a step of the system (`Wipe`), not an event of `Mirror.MirrorHolds`.
- IndexedDB's operation queue: a client's writes are done in call order; a failed one is the system's step `Unsaved`.
- TanStack's own overlays, hook nesting and `getKey`: a collection is its synced rows; a put's id is taken as its key there, and inserting an existing key through the applier is not modelled.
- Expiry stamps, authorization, admin listing and disconnect, statistics, export and the R2 log: plumbing around the state modelled here. An expired socket is closed like one whose send fails.
- Which sockets are expired or broken, and at which mutations storage fails, is fixed for the length of one handler call and given to it as a parameter.
- A flush of the outbox is a step that may come at any time: the timers and retries that schedule it are not modelled, nor is a `CursorInvalid` error, which the server does not send.
- Hello's check of protocol and schema versions, and what a client does when refused for them.
- Presence throttling, heartbeats, backoff, token fetching and fatal states: timing.
- Schema fingerprints and snapshot-file checks.
- Workspace.WorkspaceDO.ImportSnapshot: the extension payload an import may carry is not part of it; `Protocol` has the import that closes every socket, `FieldLog.FieldServer.OnImport` what becomes of the fields.
- The identifier source: mutators are taken as functions of what they read, their seed and arguments.
- Yjs itself: a doc is the set of operations it holds, an update adds operations or fails to apply, a diff is any set between what is missing and all; how large a doc encodes to is a function of it. A corrupt stored snapshot is not modelled.
- The binary frame codec and base64: easy members.
- Imports and resets in `FieldSync`: the field results there are about runs of one log. `FieldLog` covers both.
- Handles of a field: reference counts, listeners and a field released and held again within one connection.
- Relayed updates a client fails to apply, and STATE diffs it fails to apply: other clients are taken to send updates that apply.
