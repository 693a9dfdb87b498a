# Offline-first to-do app: a Dafny model

The application is a Meteor to-do list that keeps working while the client is offline. The
model covers five parts of it.

- **Offline cache (`PersistentMinimongoStorage`).** Each offline collection keeps three things on
  the client:
  - an in-memory Minimongo collection;
  - a durable key/document store, with the list of keys it tracks;
  - a *control ledger*: ids removed while offline, documents changed while offline (at most
    one per id), and the time of the last client-to-server sync.

  The collection's `insert`, `update` and `remove` are intercepted so that every local change
  also reaches the durable store and the ledger. An observer mirrors server changes into the
  cache. `syncFromClient` replays the ledger through remote functions, and `syncFromServer`
  applies server documents.
- **`OfflineBaseApi`.** Routes `callMethod` to the server, to the cache, or nowhere, depending on
  the connection status. `callOfflineMethod` turns an offline update into a merged replacement.
  `subscribe` replays the ledger first when a sync is due.
- **To-do server rules.** Only an authenticated owner or assignee may update or remove a to-do.
  `concludedAt` is stamped when a task is concluded and cleared when it is reopened. The
  publications show only shared to-dos and the caller's own.
- **User-profile server rules.** Registration refuses a taken username or e-mail. Account status
  toggles. Verification codes expire after 30 minutes and are single-use. Every profile gets the
  base role. Audit fields are added. A profile may be updated only by its owner or an
  administrator, and only an administrator may change roles.
- **To-do screens.** The list screen covers configuration, paging with a one-item peek, the tab
  and search filters, and the payloads for a status change and a new task. The add-task dialog is
  a form with title validation.

The offline cache is modelled twice:

- module `MirrorSpec` defines it as a state machine, one transition function per operation;
- class `Storage.PersistentMinimongoStorage` has one field per piece of state, and each of its
  methods is proved to perform exactly the corresponding transition. Its loops (`clear`, the
  two replays, `syncFromServer`) carry invariants over the processed prefix.

The properties themselves are lemmas in `MirrorProps` about the transition functions, and every
method also keeps the class invariant `Valid()`: the tracked-key list has no duplicates and
every tracked key is in the durable store.

Three behaviours of the code are worth knowing, because they are easy to assume otherwise:

- A local removal appends the id to the removed queue without de-duplication. Removing the
  same document twice queues its id twice (`MirrorProps.RemoveTwiceQueuesTwice`). The
  duplicates disappear together at the next successful replay.
- The removed-id queue is an array. It can hold duplicates and an undefined id.
- A removal drops the id's queued update. Re-inserting a removed id does not take it off the
  removed queue, so the id then sits in both queues (`MirrorProps.RemoveThenInsertQueuesBoth`).

An `_id` of `""` is falsy in every part of the cache. Meteor refuses to insert a document
with an empty `_id`, so `insert` reports an error and changes nothing. An `update` or a
collection `remove` with an empty `_id` selects nothing, exactly like an undefined one.

## Model

| member | source | states |
|---|---|---|
| Documents.Spread | imports/api/offlinebase.ts:196-207 | `{...a, ...b}`: every key of `b` wins, every other key of `a` survives, no other key appears |
| Documents.Stamped | imports/api/offlinebase.ts:76-79 | stamping sets `lastupdate` to now and leaves every other field and the id unchanged |
| ControlLedger.Without | imports/api/offlinebase.ts:289-301 | dropping an id keeps exactly the queued documents with another id and adds nothing |
| ControlLedger.WithoutRemoved | imports/api/offlinebase.ts:317-329 | dropping an id from the removed queue keeps exactly the other entries; the companion lemmas count each entry's occurrences and keep the order |
| ControlLedger.WithoutRemovedOccurrences | imports/api/offlinebase.ts:317-329 | after dropping an id from the removed queue, that id occurs nowhere and every other id occurs exactly as often as before |
| ControlLedger.WithoutRemovedIsSubsequence | imports/api/offlinebase.ts:317-329 | dropping an id from the removed queue keeps the remaining entries in their order |
| ControlLedger.NeedSyncIff | imports/api/offlinebase.ts:341-353 | a sync is needed iff something is queued, no last-sync time is known, or more than 1 296 000 000 ms (15 days) have passed |
| ControlLedger.FreshEmptyLedgerNeedsNoSync | imports/api/offlinebase.ts:341-353 | an empty ledger synced at most 15 days ago needs no sync |
| ControlLedger.WithoutIsSubsequence | imports/api/offlinebase.ts:289-301 | dropping an id keeps the remaining queued documents in their order |
| ControlLedger.WithoutCount | imports/api/offlinebase.ts:289-301 | after dropping an id it occurs nowhere in the queue, and every other id occurs as often as before |
| ControlLedger.WithUpdatedQueuesOnce | imports/api/offlinebase.ts:268-287 | queueing a change puts the document last, its id occurs exactly once, earlier entries keep their order, and other ids are untouched |
| ControlLedger.WithoutKeepsUnique | imports/api/offlinebase.ts:289-301 | dropping an id keeps "at most one queued update per id" |
| ControlLedger.WithUpdatedKeepsUnique | imports/api/offlinebase.ts:268-287 | queueing a change keeps "at most one queued update per id" |
| ControlLedger.AppendRemovedAddsOccurrence | imports/api/offlinebase.ts:303-316 | queueing a removal adds one more occurrence of the id, without de-duplication |
| ControlLedger.RemovedExcept | imports/api/offlinebase.ts:426-454 | the removed queue without a set of ids holds exactly the entries outside that set; the companion lemmas keep order and multiplicity |
| ControlLedger.UpdatedExcept | imports/api/offlinebase.ts:455-489 | the update queue without a set of ids holds exactly the documents whose id is outside that set; the companion lemmas keep order, counts and uniqueness |
| ControlLedger.RemovedExceptIsSubsequence | imports/api/offlinebase.ts:426-454 | the removed queue that survives a replay keeps its entries in their old order |
| ControlLedger.RemovedExceptOccurrences | imports/api/offlinebase.ts:426-454 | a surviving id occurs as often as before; an id in the removed set occurs no more |
| ControlLedger.UpdatedExceptIsSubsequence | imports/api/offlinebase.ts:455-489 | the update queue that survives a replay keeps its documents in their old order |
| ControlLedger.UpdatedExceptCount | imports/api/offlinebase.ts:455-489 | a surviving id is queued as often as before; an id in the removed set is queued no more |
| ControlLedger.UpdatedExceptKeepsUnique | imports/api/offlinebase.ts:455-489 | dropping a set of ids from an update queue with one entry per id leaves one entry per id |
| MirrorSpec.DropKey | imports/api/offlinebase.ts:128-130 | the list filter keeps exactly the keys other than the id and never grows |
| MirrorProps.EmptyInputIsNoOp | imports/api/offlinebase.ts:61-141 | an empty document or modifier changes nothing and never reaches the callback |
| MirrorProps.DropKeyKeepsNoDuplicates | imports/api/offlinebase.ts:128-130 | filtering the key list keeps it free of duplicates |
| MirrorProps.AddKeyKeepsNoDuplicates | imports/api/offlinebase.ts:72-74 | pushing a key only when absent keeps the list free of duplicates and adds exactly that key |
| MirrorProps.LedgerWritesKeepMirror | imports/api/offlinebase.ts:268-329 | the four ledger writers leave the collection, the durable store and the key list alone |
| MirrorProps.InsertKeepsValid | imports/api/offlinebase.ts:61-85 | insert keeps every tracked key stored and the key list free of duplicates |
| MirrorProps.UpdateKeepsValid | imports/api/offlinebase.ts:88-116 | update keeps the invariant, does not change the key list and never loses a stored key |
| MirrorProps.RemoveKeepsValid | imports/api/offlinebase.ts:119-141 | remove keeps the invariant |
| MirrorProps.ClearKeepsValid | imports/api/offlinebase.ts:144-153 | after clear the invariant holds trivially (the key list is empty) |
| MirrorProps.ObserverKeepsValid | imports/api/offlinebase.ts:174-207 | the observer's added, changed and removed handlers keep the invariant |
| MirrorProps.ReplayUpdatedKeepsValid | imports/api/offlinebase.ts:455-489 | replaying queued updates keeps the invariant whatever the server answers |
| MirrorProps.SyncFromServerKeepsValid | imports/api/offlinebase.ts:500-511 | applying server documents keeps the invariant |
| MirrorProps.SyncFromClientKeepsValid | imports/api/offlinebase.ts:491-498 | a full client-to-server sync keeps the invariant |
| MirrorProps.InsertQueuesStampedDoc | imports/api/offlinebase.ts:61-85 | an empty `_id` or a duplicate `_id` fails with nothing changed. Otherwise the unstamped document is cached and stored. A local insert queues the stamped copy as the id's only entry and leaves the removed queue alone; an insert from sync leaves the ledger alone |
| MirrorProps.UpsertedMerges | imports/api/offlinebase.ts:98-102 | an upsert fails iff the modifier names another `_id`. `$set` keeps the old fields it does not name and takes the ones it does; a replacement takes exactly the new fields |
| MirrorProps.UpdateUpserts | imports/api/offlinebase.ts:88-116 | for a non-empty id, a successful update caches and stores the merged document under its id. A local update answers with the stamped copy and queues it as the id's only entry; an update from sync answers with the unstamped document and leaves the ledger alone |
| MirrorProps.UpdateWithoutIdIsSilent | imports/api/offlinebase.ts:98-111 | an update on an undefined or empty id never reports success and touches neither the store, the key list nor the ledger |
| MirrorProps.RemoveEffects | imports/api/offlinebase.ts:119-141 | a remove always drops the cached record under a non-empty id and reports `true`. `removeOnly` touches nothing else. Otherwise exactly the key, the stored copy and the id's queued update go, the last sync time is kept, and a local removal appends the id to the removed queue |
| MirrorProps.RemoveTwiceQueuesTwice | imports/api/offlinebase.ts:128-136 | removing the same document twice locally queues its id twice |
| MirrorProps.RemoveThenInsertQueuesBoth | imports/api/offlinebase.ts:61-141 | after remove then re-insert, the id is both in the removed queue and queued once as an update |
| MirrorProps.MutationsKeepOneUpdatePerId | imports/api/offlinebase.ts:268-287 | insert, update and remove all keep "at most one queued update per id"; the replays, the server documents and the observer handlers keep it too (`MirrorProps.ReplaysKeepOneUpdatePerId`, `MirrorProps.ObserverKeepsLedger`) |
| MirrorProps.ObserverRemovedKeepsStore | imports/api/offlinebase.ts:185-194 | a server-side delete drops only the cached record under a non-empty id: store, key list and ledger are unchanged |
| MirrorProps.ReplayRemovedRetainsFailures | imports/api/offlinebase.ts:426-454 | replaying removals leaves exactly the ids whose remote removal failed, in order. The update queue, the last-sync time and the cache are unchanged |
| MirrorProps.ReplayUpdatedClearsOnlyOnSuccess | imports/api/offlinebase.ts:455-489 | replaying updates takes an id off the queue only when the server answered with a document (or a deletion for it). The removed queue and last-sync time are unchanged |
| MirrorProps.SyncFromClientMarksSync | imports/api/offlinebase.ts:491-498 | a client sync always ends by recording and persisting `lastClientSync = now` |
| MirrorProps.FullySuccessfulSyncClearsNeed | imports/api/offlinebase.ts:491-498 | when every remote removal succeeds and every update comes back as a server document, no sync is needed afterwards |
| MirrorProps.SyncFromServerNeverQueues | imports/api/offlinebase.ts:500-511 | applying server documents never queues anything: the removed queue and last-sync time are unchanged and the update queue only shrinks |
| MirrorProps.ServerDocStepLedger | imports/api/offlinebase.ts:500-511 | one inbound entry drops from the update queue at most its own id, and only when it is a truthy `removedServer` entry without `removeOnly` |
| MirrorProps.SyncFromServerDropsDeleted | imports/api/offlinebase.ts:500-511 | after applying server documents the update queue is the old one, in order, without exactly the ids the server reported deleted |
| MirrorProps.ReplaysKeepOneUpdatePerId | imports/api/offlinebase.ts:426-511 | replaying the update queue, applying server documents and a whole client sync all keep "at most one queued update per id" |
| MirrorProps.ObserverKeepsLedger | imports/api/offlinebase.ts:173-207 | the observer's added, changed and removed handlers never change the ledger or its saved copy |
| MirrorProps.ServerDocStepEffects | imports/api/offlinebase.ts:500-511 | a document with an undefined or empty `_id` is skipped. `removedServer` deletes the cached record. Otherwise the document is merged into the cache and store with the ledger untouched |
| MirrorProps.ServerDocIdempotent | imports/api/offlinebase.ts:500-511 | applying the same server document twice gives the state one application gives |
| MirrorProps.SyncUpsert | imports/api/offlinebase.ts:508 | a sync-originated `$set` upsert merges the document into the cached copy and stores the result, nothing else |
| MirrorProps.ObserverAddedState | imports/api/offlinebase.ts:174-183 | `added` tracks and stores a new id, then caches and stores the merged document |
| MirrorProps.ObserverChangedSameState | imports/api/offlinebase.ts:196-207 | `changed` with an unchanged payload tracks the id, then caches and stores the merged document |
| MirrorProps.AddedThenChangedIsIdempotent | imports/api/offlinebase.ts:174-207 | a document delivered as `added` and then unchanged as `changed` leaves the whole cache as `added` alone did |
| MirrorProps.ObserverAddedFacts | imports/api/offlinebase.ts:174-183 | after `added` the id is tracked, cached and stored as the same document, and merging the payload again changes nothing |
| MirrorProps.ChangedWithMergedDocIsNoOp | imports/api/offlinebase.ts:196-207 | `changed` with a payload already merged into a tracked, stored entry leaves the cache untouched |
| MirrorProps.ShouldRehydrateIff | imports/api/offlinebase.ts:355-386 | rehydration runs iff it is the first call or more than 60 000 ms have passed, and a callback asks or nothing is loaded yet |
| Storage.PersistentMinimongoStorage.constructor | imports/api/offlinebase.ts:45-163 | a new cache has an empty collection and key list, the persisted documents and ledger, no loaded ledger, and satisfies the invariant |
| Storage.PersistentMinimongoStorage.GetControlStoreData | imports/api/offlinebase.ts:249-255 | the loaded ledger, or else empty queues stamped with `lastClientSync = now` |
| Storage.PersistentMinimongoStorage.UpdateControlStoreData | imports/api/offlinebase.ts:257-266 | the record becomes both the in-memory and the persisted ledger |
| Storage.PersistentMinimongoStorage.InitControlStore | imports/api/offlinebase.ts:223-247 | a loaded ledger is kept. Otherwise the persisted queues are loaded, and the last-sync time defaults to now |
| Storage.PersistentMinimongoStorage.AddUpdatedDocs | imports/api/offlinebase.ts:268-287 | performs `MirrorSpec.AddUpdatedDocs` |
| Storage.PersistentMinimongoStorage.DelUpdatedDocs | imports/api/offlinebase.ts:289-301 | performs `MirrorSpec.DelUpdatedDocs` |
| Storage.PersistentMinimongoStorage.AddRemovedDoc | imports/api/offlinebase.ts:303-316 | performs `MirrorSpec.AddRemovedDoc` |
| Storage.PersistentMinimongoStorage.DelRemovedDoc | imports/api/offlinebase.ts:317-329 | performs `MirrorSpec.DelRemovedDoc` |
| Storage.PersistentMinimongoStorage.UpdateSyncHistory | imports/api/offlinebase.ts:331-339 | re-persists the current ledger |
| Storage.PersistentMinimongoStorage.MarkClientSync | imports/api/offlinebase.ts:497 | spreads `lastClientSync = now` over the loaded ledger and persists it |
| Storage.PersistentMinimongoStorage.Insert | imports/api/offlinebase.ts:61-85 | performs `MirrorSpec.Insert` (properties in `MirrorProps.InsertQueuesStampedDoc`) and keeps the invariant |
| Storage.PersistentMinimongoStorage.Update | imports/api/offlinebase.ts:88-116 | performs `MirrorSpec.Update` (see `MirrorProps.UpdateUpserts`) and keeps the invariant |
| Storage.PersistentMinimongoStorage.Remove | imports/api/offlinebase.ts:119-141 | performs `MirrorSpec.Remove` (see `MirrorProps.RemoveEffects`) and keeps the invariant |
| Storage.PersistentMinimongoStorage.Clear | imports/api/offlinebase.ts:144-153 | every tracked key leaves the collection and the store, and the key list empties |
| Storage.PersistentMinimongoStorage.ObserverAdded | imports/api/offlinebase.ts:174-183 | performs `MirrorSpec.ObserverAdded` and keeps the invariant |
| Storage.PersistentMinimongoStorage.ObserverChanged | imports/api/offlinebase.ts:196-207 | performs `MirrorSpec.ObserverChanged` and keeps the invariant |
| Storage.PersistentMinimongoStorage.ObserverRemoved | imports/api/offlinebase.ts:185-194 | performs `MirrorSpec.ObserverRemoved` and keeps the invariant |
| Storage.PersistentMinimongoStorage.InitCachedMinimongo | imports/api/offlinebase.ts:355-386 | answers whether rehydration is due and records the call time, nothing else |
| Storage.PersistentMinimongoStorage.SyncRemovedDocs | imports/api/offlinebase.ts:426-454 | replays the removed queue as it stood when the call began (see `MirrorProps.ReplayRemovedRetainsFailures`) |
| Storage.PersistentMinimongoStorage.SyncUpdatedDocs | imports/api/offlinebase.ts:455-489 | replays the update queue as it stood when the call began (see `MirrorProps.ReplayUpdatedClearsOnlyOnSuccess`) |
| Storage.PersistentMinimongoStorage.ApplyUpdateReply | imports/api/offlinebase.ts:462-487 | handles one server reply to a queued update exactly as `MirrorSpec.UpdateReplyStep` and keeps the invariant |
| Storage.PersistentMinimongoStorage.SyncFromClient | imports/api/offlinebase.ts:491-498 | removals, then updates, then `lastClientSync = now`, keeping the invariant |
| Storage.PersistentMinimongoStorage.SyncFromServer | imports/api/offlinebase.ts:500-511 | applies each server document in order, keeping the invariant |
| OfflineApi.OfflineOpNamed | imports/api/offlinebase.ts:614 | exactly `insert`, `update` and `remove` have an offline path |
| OfflineApi.RouteCall | imports/api/offlinebase.ts:608-622 | connected goes to the server. Waiting goes offline iff the method has an offline path. Anything else is dropped |
| OfflineApi.LocalFind | imports/api/offlinebase.ts:589 | `findOne({_id})` finds the cached document iff the id is defined and cached |
| OfflineApi.OfflineUpdateMergesCachedDoc | imports/api/offlinebase.ts:585-599 | an offline update keeps the cached fields it does not send and takes the ones it does. It stores the result and queues the stamped copy as the id's only pending update |
| OfflineApi.SubscribePlan | imports/api/offlinebase.ts:564-583 | waiting yields a local handle. Otherwise the ledger is replayed first iff a sync is due and the client is connected |
| OfflineApi.OfflineBaseApi.constructor | imports/api/offlinebase.ts:518-528 | the API wraps the given cache |
| OfflineApi.OfflineBaseApi.CallOfflineMethod | imports/api/offlinebase.ts:585-599 | insert and remove go to the cache unchanged; update sends the spread of the previous document and the call as a replacement |
| OfflineApi.OfflineBaseApi.CallMethod | imports/api/offlinebase.ts:608-622 | only an offline-routed call touches the cache, and it does exactly what `callOfflineMethod` does |
| OfflineApi.OfflineBaseApi.Subscribe | imports/api/offlinebase.ts:564-583 | replays the ledger through the remote functions exactly when the plan says so; otherwise the cache is untouched |
| ToDos.Spread | imports/modules/toDos/pages/toDoList/toDoListController.tsx:167-168 | spreading selectors: each field of the later one wins, and a later `$or`/`$and` replaces the earlier one |
| ToDos.AllOfMatches | imports/modules/toDos/api/toDoServerApi.ts:18 | `{$and: parts}` selects exactly what every part selects |
| ToDos.SpreadWithoutClash | imports/modules/toDos/pages/toDoList/toDoListController.tsx:167-168 | a spread of two selectors with disjoint fields, at most one `$or` and no `$and` selects exactly what both select |
| ToDoServer.PublicationShowsOnlySharedOrOwn | imports/modules/toDos/api/toDoServerApi.ts:15-18 | a publication returns exactly what the caller's filter selects among shared to-dos and the caller's own |
| ToDoServer.CompletedInPeriodSelects | imports/modules/toDos/api/toDoServerApi.ts:128-164 | the period query selects concluded to-dos concluded since the start: shared ones for the team; otherwise the ones assigned to the caller, or to `'unknown'` when the call has no user |
| ToDoServer.PeriodFilterMeans | imports/modules/toDos/api/toDoServerApi.ts:138-141 | the period selector holds exactly for concluded to-dos whose conclusion date is at or after the start |
| ToDoServer.CountScopeFilterMeans | imports/modules/toDos/api/toDoServerApi.ts:143-145 | the scope selector holds exactly for shared to-dos (team) or for to-dos assigned to the caller (personal) |
| ToDoServer.BeforeUpdateGuards | imports/modules/toDos/api/toDoServerApi.ts:166-189 | unauthenticated, then missing, then neither owner nor assignee, each with its own error; the update goes ahead iff none applies |
| ToDoServer.AuthorisationIgnoresSubmittedOwnership | imports/modules/toDos/api/toDoServerApi.ts:166-208 | the owner and assignee sent by the client do not affect authorisation; only the stored to-do counts |
| ToDoServer.ConcludedAtTransition | imports/modules/toDos/api/toDoServerApi.ts:182-186 | concluding stamps `concludedAt` now, reopening sets it to null, otherwise it is kept; nothing else changes |
| ToDoServer.RemoveGuardsMatchUpdateGuards | imports/modules/toDos/api/toDoServerApi.ts:191-208 | removal fails exactly when update would, with the same error code, and otherwise passes the document unchanged |
| UserProfileServer.RegistrationRefusesDuplicates | imports/modules/userprofile/api/userProfileServerApi.ts:145-171 | registration is refused iff an account was found, as "username taken" iff the username matches, otherwise as "e-mail taken" |
| UserProfileServer.StatusToggle | imports/modules/userprofile/api/userProfileServerApi.ts:173-197 | active becomes disabled and anything else becomes active; a second toggle flips the new status again; no user, no change |
| UserProfileServer.VerifyCodeOrder | imports/modules/userprofile/api/userProfileServerApi.ts:221-258 | user not found, no code, expired (strictly earlier than now), wrong code, in that order. Success activates the profile and clears code and expiry |
| UserProfileServer.VerifiedCodeCannotBeReused | imports/modules/userprofile/api/userProfileServerApi.ts:240-257 | a code that verified once is refused afterwards as absent |
| UserProfileServer.ResendThenVerify | imports/modules/userprofile/api/userProfileServerApi.ts:260-284 | a re-issued code verifies up to and including 30 minutes later and is refused as expired after that |
| UserProfileServer.NormalizeRoles | imports/modules/userprofile/api/userProfileServerApi.ts:301-305 | the roles always include the base role, keep the given roles in order, and add at most that one |
| UserProfileServer.NormalizeRolesIdempotent | imports/modules/userprofile/api/userProfileServerApi.ts:301-305 | normalising twice is normalising once; roles that already hold the base role are unchanged |
| UserProfileServer.IncludeAuditData | imports/modules/userprofile/api/userProfileServerApi.ts:374-383 | sets `lastupdate`. An insert also sets `createdat` and sets `createdby` to the caller's id. Every other field is kept and no other field is added |
| UserProfileServer.GetUserServer | imports/modules/userprofile/api/userProfileServerApi.ts:24-54 | the signed-in account's profile when there is one, otherwise an anonymous stand-in with a generated non-empty id whose only role is the public one; never nothing |
| UserProfileServer.AnonymousInsertCreatedBy | imports/modules/userprofile/api/userProfileServerApi.ts:374-383 | an anonymous insert records the stand-in's generated id as `createdby`, never an empty or default name |
| UserProfileServer.BeforeUpdateAgreesWithRoles | imports/modules/userprofile/api/userProfileServerApi.ts:475-490 | the hook as written and the corrected hook agree for every caller that has a roles array |
| UserProfileServer.RolelessCallerEscalates | imports/modules/userprofile/api/userProfileServerApi.ts:477-487 | as written, a caller without roles may update another user's profile and keep the roles it submits |
| UserProfileServer.AnonymousCallerIsOrdinary | imports/modules/userprofile/api/userProfileServerApi.ts:475-490 | as written, an anonymous caller may update only the profile whose `_id` is its own generated id, and its submitted roles are dropped |
| UserProfileServer.BeforeUpdateAuthorisation | imports/modules/userprofile/api/userProfileServerApi.ts:475-490 | a falsy `_id` or a non-administrator acting on another profile is refused. A non-administrator's roles are dropped. An administrator's update passes unchanged |
| JsText.Trim | imports/modules/toDos/components/toDoAddModal/toDoAddModalController.tsx:45 | `trim()` returns a contiguous slice with only white space cut from both ends, starting and ending with a non-space |
| JsText.TrimEmptyIffBlank | imports/modules/toDos/components/toDoAddModal/toDoAddModalController.tsx:45 | `!s.trim()` holds iff the string is all white space |
| JsText.TrimIdempotent | imports/modules/toDos/pages/toDoList/toDoListController.tsx:291 | trimming twice is trimming once |
| ToDoList.LimitsAfterLoadMores | imports/modules/toDos/pages/toDoList/toDoListController.tsx:184-189 | each page limit is four plus four per load-more of its own section, and nothing else in the configuration changes |
| ToDoList.ApplySearchText | imports/modules/toDos/pages/toDoList/toDoListController.tsx:285-297 | the search text becomes absent iff the input is blank, otherwise the trimmed non-empty input; nothing else changes |
| ToDoList.CategoryIgnoredByQuery | imports/modules/toDos/pages/toDoList/toDoListController.tsx:299-312 | the chosen category never changes either list query |
| ToDoList.ToggleSection | imports/modules/toDos/pages/toDoList/toDoListController.tsx:84-86 | only the toggled section changes, and an unseen section becomes expanded |
| ToDoList.ToggleTwiceRestores | imports/modules/toDos/pages/toDoList/toDoListController.tsx:84-86 | toggling a known section twice restores the map |
| ToDoList.TabFilterMeans | imports/modules/toDos/pages/toDoList/toDoListController.tsx:154-156 | tab '2' selects shared to-dos assigned to someone else; any other tab selects the caller's assigned or personal to-dos |
| ToDoList.SearchFilterMeans | imports/modules/toDos/pages/toDoList/toDoListController.tsx:158-165 | a search selects to-dos whose title or description matches; no text selects everything |
| ToDoList.StatusFilterMeans | imports/modules/toDos/pages/toDoList/toDoListController.tsx:167-168 | the status key selects exactly the to-dos with that status |
| ToDoList.ClientFilterMeans | imports/modules/toDos/pages/toDoList/toDoListController.tsx:154-168 | the corrected list filter selects exactly the tab's to-dos that the search finds and that have the section's status |
| ToDoList.SpreadHarmlessWithoutClash | imports/modules/toDos/pages/toDoList/toDoListController.tsx:167-168 | without a search, or on tab '2', the filter as written selects exactly what the corrected one selects |
| ToDoList.SearchOverridesTabCondition | imports/modules/toDos/pages/toDoList/toDoListController.tsx:167 | on tab '1' with a search (a case-insensitive substring match), the filter as written lets through a shared task assigned to someone else |
| ToDoList.PagePeek | imports/modules/toDos/pages/toDoList/toDoListController.tsx:170-181 | the page shows the first `limit` matches; "more" holds iff more than `limit` match; nothing shows before the subscriptions are ready |
| ToDoList.LoadMoreExtendsPage | imports/modules/toDos/pages/toDoList/toDoListController.tsx:170-189 | loading more keeps the items shown and appends to them |
| ToDoList.ChangeTaskStatus | imports/modules/toDos/pages/toDoList/toDoListController.tsx:192-199 | sets the status. An untyped task becomes personal. An untyped or personal task without an assignee goes to the caller. Every other field is kept |
| ToDoList.SaveToDo | imports/modules/toDos/pages/toDoList/toDoListController.tsx:234-242 | a new to-do is pending and dated now, has a non-empty owner (the caller or 'unknown') and type defaulting to personal. It is assigned to the caller when personal, otherwise to the given assignee or the caller |
| ToDoList.UntypedTaskKeepsGivenAssignee | imports/modules/toDos/pages/toDoList/toDoListController.tsx:237-238 | a task saved without a type becomes personal yet keeps an assignee other than its creator |
| ToDoList.CreatorMayUpdate | imports/modules/toDos/pages/toDoList/toDoListController.tsx:234-242 | the signed-in creator of a new to-do passes the server's update guards for it |
| ToDoList.StatusChangeStampsConclusion | imports/modules/toDos/pages/toDoList/toDoListController.tsx:192-199 | concluding a pending task as its owner or assignee stamps `concludedAt` on the server, and reopening clears it |
| ToDoAddModal.Payload | imports/modules/toDos/components/toDoAddModal/toDoAddModalController.tsx:60-65 | the payload carries the text as typed, and carries an assignee iff the task is shared |
| ToDoAddModal.AddForm.constructor | imports/modules/toDos/components/toDoAddModal/toDoAddModalController.tsx:37-41 | the form opens empty, personal, without errors |
| ToDoAddModal.AddForm.SetTitle | imports/modules/toDos/components/toDoAddModal/toDoAddModalController.tsx:37 | sets the title only |
| ToDoAddModal.AddForm.SetDescription | imports/modules/toDos/components/toDoAddModal/toDoAddModalController.tsx:38 | sets the description only |
| ToDoAddModal.AddForm.SetKind | imports/modules/toDos/components/toDoAddModal/toDoAddModalController.tsx:39 | sets the type only |
| ToDoAddModal.AddForm.SetAssigneeId | imports/modules/toDos/components/toDoAddModal/toDoAddModalController.tsx:40 | sets the assignee only |
| ToDoAddModal.AddForm.Validate | imports/modules/toDos/components/toDoAddModal/toDoAddModalController.tsx:43-48 | valid iff the title is not blank; the title error is set iff invalid; the fields are untouched |
| ToDoAddModal.AddForm.ResetForm | imports/modules/toDos/components/toDoAddModal/toDoAddModalController.tsx:50-56 | the form returns to its opening state |
| ToDoAddModal.AddForm.HandleSave | imports/modules/toDos/components/toDoAddModal/toDoAddModalController.tsx:58-68 | with a valid title exactly one payload goes out and the form resets; otherwise nothing goes out, only the error is set |
| ToDoAddModal.AddForm.HandleClose | imports/modules/toDos/components/toDoAddModal/toDoAddModalController.tsx:70-73 | closing always resets the form |
| ToDoAddModal.SaveTwice | imports/modules/toDos/components/toDoAddModal/toDoAddModalController.tsx:58-68 | two saves in a row send one payload, then report a missing title |
| ToDoAddModal.DialogTaskAssignee | imports/modules/toDos/components/toDoAddModal/toDoAddModalController.tsx:64 | a task saved from the dialog goes to its creator when personal or shared without an assignee, otherwise to the chosen assignee |

## Left out

- Storage is modelled as synchronous: `idb-keyval`'s asynchronous get/set/del, the `zipson` serialisation, and the order in which promises and callbacks interleave are not modelled. Callbacks run at once, in order.
- Remote calls are parameters. The replies of the remove and sync functions are a function from position to reply, and ids Minimongo would generate are parameters too. `Meteor.call` on the connected path is only a route, and clocks are a `now` parameter.
- Meteor reactivity is not modelled: `ReactiveVar`, `useTracker`, subscription readiness (the `ready` flag is a parameter) and observer dispatch.
- `updateKeys`, `getDocs`, `matchFilter` and the body of the rehydration (reloading the collection from the durable store, setting `inited`) are not modelled. Only its 60-second debounce decision is; `inited` is never set to true in the model.
- `updateDateOnJson`, the sync history items, the `syncnavigate`/stats counters and console output are not modelled.
- An absent `removedDocs` or `updatedDocs` array in a persisted ledger is modelled as an empty one.
- Documents are flat: nested objects, arrays inside documents and floating-point values are not modelled, so lodash's deep merge is the object spread.
- A caller mutating `docObj` in place is modelled as a returned value.
- Query semantics are modelled only for the selectors the code builds: equality, `$ne`, `$gte` on dates, `$or`, `$and`. A regular-expression match is a parameter `like`, and an empty `$or`/`$and` stands for an absent key. Mongo's null-versus-undefined matching is not modelled, nor sort order (query results arrive sorted).
- The period start of `toDoListCompletedInPeriod` (`setMinutes` arithmetic, time zones, daylight saving) is a parameter.
- The base classes' `beforeUpdate`, `beforeRemove` and `beforeInsert` are not part of this model. Neither are database and e-mail side effects, `Accounts` e-mail verification, `afterInsert` and `generateVerificationCode` (the new code is a parameter).
- The public role's value and the anonymous stand-in's generated id are parameters: the role enumeration and the id generator are not part of this model. The generated id is assumed non-empty, as both of its forms are.
- The `options` argument of the cache's `update` is not modelled: the cache always spreads `upsert: true` over it, and no other option is read.
- Minimongo ids that the code leaves to Minimongo (`freshId`) are parameters assumed to be generated, non-empty ids.
- MirrorProps.ObserverKeepsValid: the observer's handlers are modelled only for documents with a non-empty `_id`, because a Minimongo collection cannot hold any other.
- MirrorProps.UpdateUpserts: covers non-empty ids only; an undefined or empty id is covered by `MirrorProps.UpdateWithoutIdIsSilent`.
- OfflineApi.OfflineUpdateMergesCachedDoc: covers non-empty ids only; a cached document always has one.
- Notifications, navigation, the media query for full-screen dialogs, the user options list and the view components are not modelled.

## Findings

| source | as written | input that shows it | evidently intended | confidence | as-written member | corrected member |
|---|---|---|---|---|---|---|
| imports/modules/toDos/pages/toDoList/toDoListController.tsx:167-168 | `{...clientTabFilter, ...clientSearchFilter, status}`: the search's `$or` replaces the tab's `$or` | tab '1' ("my tasks"), search "rep", a pending shared task titled "report" assigned to someone else: it is listed | the list shows tasks that are in the tab AND match the search | medium, not executed | ToDoList.SearchOverridesTabCondition | ToDoList.ClientFilterMeans |
| imports/modules/userprofile/api/userProfileServerApi.ts:477-487 | both the "someone else's profile" test and the "drop roles" test require the caller to have a `roles` array | a signed-in caller `intruder` with no `roles` updates profile `victim` with `roles: ['Administrador']`: it passes unchanged | only the profile's owner or an administrator may update it, and only an administrator may change roles | low, not executed | UserProfileServer.RolelessCallerEscalates | UserProfileServer.BeforeUpdateAuthorisation |
