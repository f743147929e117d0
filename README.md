# P_Interact save/load engine in Dafny

This project models the batched save/load engine of P_Interact, a Unity package that saves game objects to PlayFab. It also models two small state holders that sit next to the engine.

- **Saveables** (`Data.Saveable`). Each saveable carries four status flags (save requested or failed, load requested or failed). Before it schedules a save, it checks its gate and its sanity assertions.
- **Queue managers** (`Data.InteractionTasks`). There is one for saving and one for loading. Each keeps a pending FIFO of saveables with no duplicates.
  - Draining the FIFO pops chunks of at most `maxElementsToSend` items.
  - Each chunk goes to the next slot of a fixed pool of reusable tasks, round-robin, and that task is handed to an external task queue.
- **Tasks** (`Data.SaveableTask`). A task turns its chunk into one request: a key→json map for a save, a key list for a load. It sends the request through the transfer gateway. When the answer arrives, the task reconciles it with its items, fails the items still waiting, and frees its slot.
- **Transfer gateway** (`DataTransfer.PlayfabDataTransfer`). It lets one call through at a time, and only while the player is logged in.
- **Collection saveable** (`SaveableCollections.SaveableCollection`). It keeps a tracker dictionary with one converted entry per element of a reactive collection.
- **Server-time loader** (`Basics.TimeLoader`) and **player display name** (`PlayerNames.PlayerName`).

Remote PlayFab calls are not made. An accepted call is appended to a `requests` log. Its success and error callbacks are methods that the caller of the model invokes with the result.

C# events are multisets of subscribed handlers. Firing an event returns its payload as an `Option`, and the payload is `None` when nobody listens.

A failed Unity assertion is modelled as a thrown exception: the operation stops where it is, earlier effects remain, and the method returns `ok == false`. The same holds for the exceptions the handlers can raise: LINQ `SingleOrDefault` with several matches, and a dictionary key with no entry.

Times are ticks (`int`).

The model keeps three behaviours of the code as written:

- **Nothing ever sets `SaveRequested`.** `RequestSaveSchedule` leaves every flag of the item unchanged. So the save reconciliation's "still waiting" branch only fires for a flag that is set by hand. `Data.SaveReconciled` states what happens in either case.
- **A drain dispatches `count / max + 1` chunks.** When the count is a multiple of `max`, the last chunk is empty (`Sequences.ChunkSizes`, `Sequences.SixInChunksOfThree`).
- **The save "confirmation" is the map that was sent.** The gateway's success event replays the data of its last `UpdateUserData` (`DataTransfer.LastSavedData`). The model keeps a copy of that map; the source keeps a reference to it (see "## Left out").

The external task queue `J_TaskQueue` only records what it is given: the tasks, in order, with the chunk each one carried. No task runs during a drain. With more chunks than pool slots, a slot is therefore set up again before it ran. Each pool task then holds the chunk of the last round on its slot, and the earlier chunk it was handed is gone (`Data.InteractionTasks.DrainedSlotHolds`, `Sequences.ReusedSlotOverwritten`). Running a task is the separate method `Data.SaveableTask.ProcessTask`.

After `CompleteTask` the source sets the task's chunk to null. The model records this as `hasChunk == false`. A later `ProcessTask` or answer handler then raises, and in the model it returns `ok == false`.

## Model

| member | source | states |
|---|---|---|
| Sequences.Take | DataInteraction/P_InteractionTasks.cs:131-132 | a segment holds min(n, queue length) items |
| Sequences.Drop | DataInteraction/P_InteractionTasks.cs:135-136 | the queue keeps its length minus the dequeued count |
| Sequences.ScheduleOnce | DataInteraction/P_InteractionTasks.cs:114-124 | scheduling extends the FIFO by at most the new item, always contains it, and keeps it duplicate-free |
| Sequences.ScheduleAll | DataInteraction/P_InteractionTasks.cs:159-160 | scheduling a trunk keeps the old FIFO as a prefix, contains every trunk item and nothing else new, and keeps no duplicates |
| Sequences.ScheduleIsIdempotent | DataInteraction/P_InteractionTasks.cs:107 | scheduling the same item any number of times leaves exactly one entry for it |
| Sequences.ChunksCoverQueue | DataInteraction/P_InteractionTasks.cs:178-190 | the count/max+1 chunks of a drain, concatenated, are the former FIFO in order, and nothing is left over |
| Sequences.ChunkSizes | DataInteraction/P_InteractionTasks.cs:178 | every chunk but the last is full; the last holds count mod max items and is empty exactly when max divides count |
| Sequences.ChunkAt | DataInteraction/P_InteractionTasks.cs:128-139 | chunk j is the window of at most max items starting at j*max |
| Sequences.ChunksBounded | DataInteraction/P_InteractionTasks.cs:131-132 | no chunk holds more than max items |
| Sequences.ChunksConcat | DataInteraction/P_InteractionTasks.cs:179-185 | the first n chunks followed by what is still pending give back the original FIFO |
| Sequences.SevenInChunksOfThree | DataInteraction/P_InteractionTasks.cs:178 | seven items in chunks of three give three chunks of sizes 3, 3, 1 |
| Sequences.SixInChunksOfThree | DataInteraction/P_InteractionTasks.cs:178 | six items in chunks of three give a third chunk that is empty |
| Sequences.Advance | DataInteraction/P_InteractionTasks.cs:52 | the stored cursor is always a pool index |
| Sequences.RoundRobin | DataInteraction/P_InteractionTasks.cs:185-189 | dispatch j of a drain uses slot (start + j) mod P |
| Sequences.ModSucc | DataInteraction/P_InteractionTasks.cs:189 | advancing the cursor from (start + i) mod P gives (start + i + 1) mod P |
| Sequences.RoundRobinFromZero | DataInteraction/P_InteractionTasks.cs:75 | from a fresh pool, dispatch j uses slot j mod P, so slots cycle with period P |
| Sequences.ChunkCount | DataInteraction/P_InteractionTasks.cs:178 | a drain of count items runs r = count/max + 1 rounds: (r - 1) * max <= count < r * max |
| Sequences.DrainStep | DataInteraction/P_InteractionTasks.cs:179-190 | one more round of a drain pops one more chunk, uses the next round-robin slot and logs both |
| Sequences.HoldingsRecent | DataInteraction/P_InteractionTasks.cs:185-189 | when no more rounds than slots followed round j, the slot of round j still holds what round j set up |
| Sequences.HoldingsUnvisited | DataInteraction/P_InteractionTasks.cs:179-190 | a slot no round reached keeps the setup it had before the drain |
| Sequences.LastVisit | DataInteraction/P_InteractionTasks.cs:179-189 | the last of n rounds that uses the slot of round j: at or after j, within one pool length of the end, and after j when round j + P happened |
| Sequences.HoldingsLatest | DataInteraction/P_InteractionTasks.cs:185-189 | the slot of round j ends holding what the last round on that slot set up |
| Sequences.ReusedSlotOverwritten | DataInteraction/P_InteractionTasks.cs:185-189 | with a single slot, two rounds leave it holding only the second chunk; the first is overwritten |
| Sequences.ZipMap | DataInteraction/Save/P_SaveTask.cs:33-36 | the request map's keys are exactly the chunk's identifiers |
| Sequences.ZipMapDistinct | DataInteraction/Save/P_SaveTask.cs:46-57 | with distinct identifiers, the map has one entry per item, holding that item's payload |
| Sequences.SingleIndex | DataInteraction/Save/P_SaveTask.cs:79-80 | no match exactly when the key is absent, an exception exactly when two items share it, otherwise the one index holding it |
| Basics.TimeLoader.AvoidMultipleLoading | Basics/P_TimeLoader.cs:55-64 | refuses exactly when a request is in flight |
| Basics.TimeLoader.GetCurrentTime | Basics/P_TimeLoader.cs:41-53 | a no-op while loading; otherwise sets CurrentlyLoading and issues one request |
| Basics.TimeLoader.GetTimeOnSuccess | Basics/P_TimeLoader.cs:66-75 | clears loading, sets TimeRetrieved, stores the time and notifies subscribers with it |
| Basics.TimeLoader.GetTimeOnFail | Basics/P_TimeLoader.cs:77-83 | clears loading; TimeRetrieved and the time stay as they were |
| Basics.TimeLoader.Subscribe | Basics/P_TimeLoader.cs:86 | adds one subscription of the handler |
| Basics.TimeLoader.UnSubscribe | Basics/P_TimeLoader.cs:87 | removes one subscription of the handler |
| Basics.TimeLoader.ResetThis | Basics/P_TimeLoader.cs:92 | clears both flags |
| DataTransfer.TargetPlayer | DataInteraction/P_PlayfabDataTransfer.cs:116 | a load names a player exactly when a non-empty id was given |
| DataTransfer.PlayfabDataTransfer.TransferReady | DataInteraction/P_PlayfabDataTransfer.cs:150-169 | false when not logged in (checked first), false when busy, true otherwise |
| DataTransfer.PlayfabDataTransfer.SaveDataToPlayfab | DataInteraction/P_PlayfabDataTransfer.cs:53-80 | accepted exactly when ready; a rejected call changes nothing; an accepted one sets busy, keeps the map and issues one UpdateUserData |
| DataTransfer.PlayfabDataTransfer.SaveOnSuccess | DataInteraction/P_PlayfabDataTransfer.cs:82-87 | clears busy; the save event carries the map of the last save sent |
| DataTransfer.PlayfabDataTransfer.SaveOnError | DataInteraction/P_PlayfabDataTransfer.cs:89-93 | clears busy and fires no event |
| DataTransfer.PlayfabDataTransfer.LoadDataFromPlayfab | DataInteraction/P_PlayfabDataTransfer.cs:102-120 | accepted exactly when ready; a rejected call changes nothing; an accepted one sets busy and issues one GetUserData for the keys |
| DataTransfer.PlayfabDataTransfer.LoadOnSuccess | DataInteraction/P_PlayfabDataTransfer.cs:122-139 | clears busy; rebuilds the value and time maps with exactly the returned keys, then fires the load event with them |
| DataTransfer.PlayfabDataTransfer.LoadOnError | DataInteraction/P_PlayfabDataTransfer.cs:141-145 | clears busy and fires no event |
| DataTransfer.PlayfabDataTransfer.SubscribeToSave | DataInteraction/P_PlayfabDataTransfer.cs:174 | adds one subscription of the handler |
| DataTransfer.PlayfabDataTransfer.UnSubscribeToSave | DataInteraction/P_PlayfabDataTransfer.cs:175 | removes one subscription of the handler |
| DataTransfer.PlayfabDataTransfer.SubscribeToLoad | DataInteraction/P_PlayfabDataTransfer.cs:178 | adds one subscription of the handler |
| DataTransfer.PlayfabDataTransfer.UnSubscribeToLoad | DataInteraction/P_PlayfabDataTransfer.cs:179 | removes one subscription of the handler |
| DataTransfer.PlayfabDataTransfer.ResetThis | DataInteraction/P_PlayfabDataTransfer.cs:184-185 | clears busy |
| Data.SaveReconciled | DataInteraction/Save/P_SaveTask.cs:76-110 | after a save answer no item is still waiting; an item ends failed exactly when its key is missing and it was waiting or had failed; its load flags are untouched |
| Data.LoadReconciled | DataInteraction/Load/P_LoadTask.cs:66-110 | after a load answer no item is still waiting; an item ends failed exactly when its key is missing and it was waiting or had failed; its save flags are untouched |
| Data.ReadyAfterAnswers | DataInteraction/P_Saveable.cs:41-44 | an item answered by both a save and a load, in either order, is ready again |
| Data.RequestMapContents | DataInteraction/Save/P_SaveTask.cs:30-58 | with distinct identifiers, the request has one entry per item, its keys are the items' identifiers, and each holds its item's payload |
| Data.IdentifierSet | DataInteraction/Save/P_SaveTask.cs:51 | the request's keys are the identifiers of the chunk's items |
| Data.Saveable.constructor | DataInteraction/P_Saveable.cs:26-38 | a new saveable has no save queue and all four flags false |
| Data.Saveable.SaveableReady | DataInteraction/P_Saveable.cs:41-44 | ready exactly when neither a save nor a load is requested; a ready item's save gate is open exactly when its conditions hold and it can save |
| Data.Saveable.CheckAllConditions | DataInteraction/P_Saveable.cs:96-125 | true exactly when no save is outstanding and every save condition holds |
| Data.Saveable.RequestSaveSchedule | DataInteraction/P_Saveable.cs:81-94 | a closed gate (saving already, a false condition, CanSave false) returns quietly; otherwise the save queue and "not loading" are asserted and the item is queued once; the item never changes |
| Data.Saveable.RegisterSaveGroup | DataInteraction/P_Saveable.cs:63-72 | the new queue replaces any previous one |
| Data.Saveable.RegisterLoadGroup | DataInteraction/P_Saveable.cs:151 | the base registration of a load queue changes nothing |
| Data.Saveable.SaveConfirmed | DataInteraction/P_Saveable.cs:133-140 | both save flags false, load flags untouched |
| Data.Saveable.SaveError | DataInteraction/P_Saveable.cs:142-146 | SaveRequested false, SaveFailed true |
| Data.Saveable.RequestLoad | DataInteraction/P_Saveable.cs:156 | sets only LoadRequested |
| Data.Saveable.LoadError | DataInteraction/P_Saveable.cs:159-163 | LoadRequested false, LoadFailed true |
| Data.Saveable.LoadConfirmed | DataInteraction/P_Saveable.cs:171-181 | both load flags false, then the payload and time reach LoadThisFromJson |
| Data.Saveable.LoadThisFromJson | DataInteraction/P_Saveable.cs:58 | the concrete saveable receives the payload and its time |
| Data.Saveable.ResetThis | DataInteraction/P_Saveable.cs:188-198 | forgets the save queue and clears all four flags |
| Data.SaveableTask.constructor | DataInteraction/P_SaveableTask.cs:33 | a new task is not running and holds an (empty) chunk |
| Data.SaveableTask.InjectData | DataInteraction/P_SaveableTask.cs:35-39 | sets only the gateway and the task id |
| Data.SaveableTask.SetupSaveTask | DataInteraction/Save/P_SaveTask.cs:23-27 | replaces the privacy flag and the chunk, so the task holds a chunk again |
| Data.SaveableTask.SetupLoadTask | DataInteraction/Load/P_LoadTask.cs:22-26 | replaces the target player id and the chunk, so the task holds a chunk again |
| Data.SaveableTask.ProcessTask | DataInteraction/P_SaveableTask.cs:43-55 | marks the task running first; a completed task (no chunk) or a chunk over MaxRequestAmount fails before sending; otherwise the chunk is sent (a save fails on a repeated identifier) |
| Data.SaveableTask.SendSaveGroup | DataInteraction/Save/P_SaveTask.cs:30-42 | the request map is built from the chunk; then the handler is subscribed and the save issued, whatever the gateway answers |
| Data.SaveableTask.AddElementsToTransporter | DataInteraction/Save/P_SaveTask.cs:46-58 | succeeds exactly when the identifiers are distinct, and then the container is identifier to payload for every item |
| Data.SaveableTask.SendLoadGroup | DataInteraction/Load/P_LoadTask.cs:28-40 | the key list and LoadRequested marks are set, then the handler is subscribed and the load issued, whatever the gateway answers |
| Data.SaveableTask.AddSaveables | DataInteraction/Load/P_LoadTask.cs:31-49 | the key list is the chunk's identifiers in order and every item gains LoadRequested, nothing else |
| Data.SaveableTask.HandleSaveData | DataInteraction/Save/P_SaveTask.cs:61-73 | unsubscribes; a completed task (no chunk) or a returned key shared by two items fails with the task as it was; otherwise every item ends SaveReconciled with its key's presence and the task completes |
| Data.SaveableTask.ConfirmItemsSaved | DataInteraction/Save/P_SaveTask.cs:67 | every item whose identifier was returned is confirmed, the others are untouched; fails exactly when a returned key is shared |
| Data.SaveableTask.ConfirmItemSaved | DataInteraction/Save/P_SaveTask.cs:76-98 | the single item with the key is confirmed, an unknown key changes nothing, a shared key raises |
| Data.SaveableTask.CheckElements | DataInteraction/Save/P_SaveTask.cs:100-110 | every item still waiting for its save gets SaveError |
| Data.SaveableTask.HandleLoadData | DataInteraction/Load/P_LoadTask.cs:52-63 | unsubscribes; a completed task (no chunk) fails with the task as it was; when every returned key has a time, belongs to at most one item and that item was loading, every item ends LoadReconciled, receives its value and time, and the task completes |
| Data.SaveableTask.LoadItems | DataInteraction/Load/P_LoadTask.cs:57 | every item whose key came back is confirmed with its value and time; fails exactly on a missing time, a shared key or an item that was not loading |
| Data.SaveableTask.LoadSingleItem | DataInteraction/Load/P_LoadTask.cs:66-92 | an unknown key changes nothing; the single item holding the key must be loading and is then confirmed |
| Data.SaveableTask.CheckLoadElements | DataInteraction/Load/P_LoadTask.cs:98-110 | every item still waiting for its load gets LoadError |
| Data.SaveableTask.CompleteTask | DataInteraction/P_SaveableTask.cs:61-67 | one more completion, then not running and no chunk held (the source's null) |
| Data.InteractionTasks.constructor | DataInteraction/P_InteractionTasks.cs:19-36 | a new manager is uninitialized with an empty FIFO and no pool |
| Data.InteractionTasks.CurrentTask | DataInteraction/P_InteractionTasks.cs:39-49 | on a built pool, the slot under the cursor, whose id is the cursor |
| Data.InteractionTasks.IsThisScheduled | DataInteraction/P_InteractionTasks.cs:107 | true exactly when scheduling the item would leave the FIFO unchanged |
| Data.InteractionTasks.ScheduleThis | DataInteraction/P_InteractionTasks.cs:114-124 | the FIFO becomes ScheduleOnce of itself, so it stays duplicate-free |
| Data.InteractionTasks.GetArraySegment | DataInteraction/P_InteractionTasks.cs:128-139 | dequeues the first min(max, count) items in order |
| Data.InteractionTasks.InitSane | DataInteraction/P_InteractionTasks.cs:93-102 | the sanity checks pass exactly when the group is non-empty and max is at most MaxRequestAmount, and then no chunk exceeds MaxRequestAmount |
| Data.InteractionTasks.InitiateTasks | DataInteraction/P_InteractionTasks.cs:64-78 | a no-op once initialized; otherwise the group and request size are asserted, the group registered, a fresh idle pool of tasks with empty chunks built, the cursor set to 0 and the manager marked initialized |
| Data.InteractionTasks.SetupTasks | DataInteraction/P_InteractionTasks.cs:81-90 | a fresh pool of idle tasks with ids 0..n-1 wired to the gateway |
| Data.InteractionTasks.SpecificInitialization | DataInteraction/Save/P_SaveGroup.cs:17-22 | a save queue becomes the save queue of every group element, and nothing else of an element changes; a load queue (DataInteraction/Load/P_LoadGroup.cs lines 27-31) calls RegisterLoadGroup on every element, which changes nothing |
| Data.InteractionTasks.SetupCurrentTask | DataInteraction/Save/P_SaveGroup.cs:26-29 | the current task gets (and holds) the next segment of at most max items, with the privacy flag for a save; a load task (DataInteraction/Load/P_LoadGroup.cs lines 33-36) gets the player id instead |
| Data.InteractionTasks.DispatchOne | DataInteraction/P_InteractionTasks.cs:185-189 | the current slot gets the next chunk and the player id while every other slot keeps its setup; it is handed to the task queue, then the cursor advances |
| Data.InteractionTasks.DispatchChunks | DataInteraction/P_InteractionTasks.cs:179-190 | succeeds exactly when every slot it reaches is idle; then n rounds are done, otherwise every round before the first busy slot is done; each slot reached holds the last chunk set up on it |
| Data.InteractionTasks.DrainRounds | DataInteraction/P_InteractionTasks.cs:179-190 | stops at the first busy slot or after n rounds; the rounds done popped their chunks in order, used the round-robin slots, and left each slot holding the last chunk set up on it |
| Data.InteractionTasks.DispatchRound | DataInteraction/P_InteractionTasks.cs:181-189 | brings an idle current slot's drain one round further, in the queue logs and in the slots' setups |
| Data.InteractionTasks.DrainedSlotHolds | DataInteraction/P_InteractionTasks.cs:179-190 | after n rounds the task handed over in round j holds the chunk of the last round on its slot; with no more rounds than slots that is its own chunk |
| Data.SlotsHoldStep | DataInteraction/P_InteractionTasks.cs:185-186 | setting up the current slot with the next chunk and the player id takes the slots' setups from round i to round i + 1 |
| Data.InteractionTasks.ProcessCurrentQueue | DataInteraction/P_InteractionTasks.cs:169-191 | an empty FIFO is a no-op; otherwise initializes lazily and dispatches count/max+1 chunks round-robin; on success the FIFO is empty, the chunks handed out are its former contents in order, each slot holds the last chunk set up on it and unreached slots keep their setup |
| Data.InteractionTasks.ProcessTrunk | DataInteraction/P_InteractionTasks.cs:152-163 | an empty trunk fails before anything happens; otherwise schedules every item once, then drains as ProcessCurrentQueue, slot setups included |
| Data.InteractionTasks.ScheduleEach | DataInteraction/P_InteractionTasks.cs:159-160 | the FIFO becomes ScheduleAll of itself and the trunk |
| Data.InteractionTasks.ForceSaveAll | DataInteraction/P_InteractionTasks.cs:146 | ProcessTrunk of the whole group |
| Data.InteractionTasks.SetIdToLoad | DataInteraction/Load/P_LoadGroup.cs:24 | stores the id later load tasks are given |
| Data.InteractionTasks.ResetThis | DataInteraction/P_InteractionTasks.cs:198-202 | empties the FIFO and clears the initialized flag, which is also all the save queue's override does (DataInteraction/Save/P_SaveGroup.cs lines 35-39); a load queue also sets its id to "" (DataInteraction/Load/P_LoadGroup.cs lines 40-45) |
| SaveableCollections.SaveableCollection.constructor | DataInteraction/P_SaveableCollection.cs:25 | the tracker starts empty and the item is named after the collection |
| SaveableCollections.SaveableCollection.Track | DataInteraction/P_SaveableCollection.cs:79-85 | updating an element gives it its converted entry and leaves every other entry as it was |
| SaveableCollections.SaveableCollection.TrackedContents | DataInteraction/P_SaveableCollection.cs:47-52 | tracking a collection gives each of its elements its converted entry and keeps every other entry |
| SaveableCollections.SaveableCollection.TrackedIdempotent | DataInteraction/P_SaveableCollection.cs:82 | tracking the same elements again changes nothing: entries are overwritten, never duplicated |
| SaveableCollections.SaveableCollection.AddThenRemove | DataInteraction/P_SaveableCollection.cs:56-74 | removing an element that was just added to a tracker without it gives the tracker back |
| SaveableCollections.SaveableCollection.GetDataIdentifier | DataInteraction/P_SaveableCollection.cs:33 | the identifier is the collection's name |
| SaveableCollections.SaveableCollection.SaveThisIntoJson | DataInteraction/P_SaveableCollection.cs:106-111 | the serialised tracker is the payload the item's tasks send |
| SaveableCollections.SaveableCollection.UpdateElementData | DataInteraction/P_SaveableCollection.cs:79-85 | overwrites the element's entry, and asks for a save only when wanted; with no save wanted, the save queue is untouched |
| SaveableCollections.SaveableCollection.TrackCollection | DataInteraction/P_SaveableCollection.cs:47-52 | every element already in the collection gets its entry, and no save is requested |
| SaveableCollections.SaveableCollection.InitiateSaveCommandWith | DataInteraction/P_SaveableCollection.cs:36-44 | tracks the collection, then subscribes the add and remove handlers |
| SaveableCollections.SaveableCollection.RegisterSaveGroup | DataInteraction/P_Saveable.cs:63-72 | registers the save queue, then tracks the collection and subscribes |
| SaveableCollections.SaveableCollection.ElementAddedToCollection | DataInteraction/P_SaveableCollection.cs:56-63 | an already tracked element fails and nothing changes; otherwise it gains its entry and a save is requested |
| SaveableCollections.SaveableCollection.ElementRemovedFromCollection | DataInteraction/P_SaveableCollection.cs:66-74 | an untracked element fails and nothing changes; otherwise only its entry goes and a save is requested |
| SaveableCollections.SaveableCollection.ResetThis | DataInteraction/P_SaveableCollection.cs:133-142 | the base reset, an empty tracker, and both handlers unsubscribed once |
| PlayerNames.DisplayNameValid | Name/P_PlayerName.cs:66-72 | a stored value is a display name exactly when it is not empty, not the device id and not the PlayFab id |
| PlayerNames.ReportedName | Name/P_PlayerName.cs:25-33 | the default exactly when the stored value is not a display name (or is the default), the stored value exactly when it is one (or is the default) |
| PlayerNames.ReportedNameIsDisplayName | Name/P_PlayerName.cs:29 | with a valid default, neither an id nor the empty string is ever reported |
| PlayerNames.ReportedNameIdempotent | Name/P_PlayerName.cs:25-33 | storing the reported name again reports the same name |
| PlayerNames.PlayerName.CurrentValue | Name/P_PlayerName.cs:25-31 | the default when the stored value is not a display name, otherwise the stored value |
| PlayerNames.PlayerName.InjectName | Name/P_PlayerName.cs:38 | stores the given name |
| PlayerNames.PlayerName.SetPlayerName | Name/P_PlayerName.cs:42-51 | issues one name-change request and stores nothing yet |
| PlayerNames.PlayerName.SetNameOnSuccess | Name/P_PlayerName.cs:53-61 | stores the returned name and notifies with the reported, possibly defaulted, name |
| PlayerNames.PlayerName.SetNameOnError | Name/P_PlayerName.cs:76-81 | the stored name stays; subscribers get the error message |
| PlayerNames.PlayerName.SubscribeToNameChange | Name/P_PlayerName.cs:85 | adds one subscription of the handler |
| PlayerNames.PlayerName.UnSubscribeToNameChange | Name/P_PlayerName.cs:86 | removes one subscription of the handler |
| PlayerNames.PlayerName.SubscribeToNameChangeError | Name/P_PlayerName.cs:87 | adds one subscription of the handler |
| PlayerNames.PlayerName.UnSubscribeToNameChangeError | Name/P_PlayerName.cs:88 | removes one subscription of the handler |

## Left out

- Remote PlayFab calls (UpdateUserData, GetUserData, GetTime, UpdateUserTitleDisplayName) are network I/O. Each is a recorded request plus callback methods that take the result as arguments.
- Login and connectivity are outside the model. Whether the player is logged in is the input field `playerLoggedIn`.
- The player profile (Basics/P_PlayfabPlayer.cs) is not part of this model. Its device id and PlayFab id are plain fields of `PlayerNames.PlayerName`.
- Logging, debug-only branches, task names and inspector attributes are left out because they have no behaviour.
- Unity's OnEnable and OnDisable hooks are left out because they are framework plumbing. The `ResetThis` methods they call are explicit methods here.
- JsonUtility is an uninterpreted function `toJson` of the collection saveable. The collection's JSON parsing and its abstract LoadCompleted are the item's LoadThisFromJson log.
- The collection's abstract converter is the pure function `convert`. The concrete `CanSave` override is the field `canSave`.
- The collection overrides of StartTrackingElement and StopTrackingElement are empty in this class, so they are left out.
- The reset of the external reactive collection (DataInteraction/P_SaveableCollection.cs:143-151) is left out. J_ReactiveCollection is unseen library code.
- The add and remove events of the reactive collection are left out for the same reason. The handlers are methods the caller invokes after changing the collection.
- The collection is a sequence and never null, so the null checks at DataInteraction/P_SaveableCollection.cs:38 and 140 cannot fail.
- Saveables are never null. So the null skip of AddElementToTransporter (DataInteraction/Save/P_SaveTask.cs:49) and the null save-condition assertion (DataInteraction/P_Saveable.cs:109) are not modelled.
- Trunks are never null, so the null assertion of ProcessTrunk (DataInteraction/P_InteractionTasks.cs:154) is not modelled.
- The task-queue assertion of SanityChecks (DataInteraction/P_InteractionTasks.cs:97) is not modelled. The task queue is a log and always present.
- Data.Saveable.RegisterSaveGroup: does not call the virtual InitiateSaveCommandWith, because a Dafny module cannot depend on the collection module that depends on it. For a collection this step is SaveableCollections.SaveableCollection.RegisterSaveGroup, which a queue's initialization does not reach.
- SaveableCollections.SaveableCollection.SaveThisIntoJson: the payload is re-serialised whenever the tracker changes, not computed when asked. Valid() keeps the two equal.
- Data.SaveableTask.CompleteTask: counts every completion, whether or not a listener is subscribed to OnComplete.
- A new task's chunk starts empty. The source allocates ten null slots that nothing reads before a setup.
- DataTransfer.PlayfabDataTransfer.SaveOnSuccess: the save event carries a copy of the map as it was sent. The source keeps a reference to the sending task's container (DataInteraction/P_PlayfabDataTransfer.cs:67). A later SendGroup of that task clears and refills the container, so the source's event can carry newer contents.
- The external task queue J_TaskQueue only records what it is given (see above). When tasks run relative to a drain is decided by the caller of the model.
- `maxElementsToSend` and `allocatedTask` are at least 1. A zero would raise a division by zero at DataInteraction/P_InteractionTasks.cs:52 and 178.
- Counts and the cursor are unbounded integers. The cursor is always below the pool size, so the C# `int` cannot overflow.
- The duplicate-key assertion of SaveDataToPlayfab (DataInteraction/P_PlayfabDataTransfer.cs:59) is left out because it cannot fail on a map.
- A load queue's initial null player id is "". Both values mean "the logged-in player".
- The change event of the base reactive string (JReactiveString) is not part of this model. Only the name's own two events are modelled.
- The UI views, the login managers and the constants are left out; of the constants only MaxRequestAmount = 10 is used.
