/**
 * The offline cache object: one instance per collection, its fields updated in place by the
 * intercepted collection methods, the ledger mutators and the sync engine. Every method is
 * proved to take the object from `State()` to what the corresponding MirrorSpec transition
 * says, and to keep `Valid()`.
 */
module Storage {
  import opened Wrappers
  import opened Documents
  import opened ControlLedger
  import MirrorSpec
  import MirrorProps

  class PersistentMinimongoStorage {
    /** The in-memory Minimongo collection (`cachedCollection`), keyed by `_id`. */
    var docs: map<string, Doc>
    /** The durable per-collection key/document store (`customStore`). */
    var store: map<string, Doc>
    /** Tracked keys (`list`). */
    var list: seq<string>
    /** The ledger in memory (`controlStoreData`); None until `initControlStore` has loaded it. */
    var controlStoreData: Option<Ledger>
    /** The persisted `config` entry of the control store. */
    var savedControl: Option<Ledger>
    /** When `initCachedMinimongo` was last called. */
    var lastCallInit: Option<int>
    /** The `inited` flag. */
    var inited: bool

    function State(): MirrorSpec.State
      reads this
    {
      MirrorSpec.State(docs, store, list, controlStoreData, savedControl, lastCallInit, inited)
    }

    ghost predicate Valid()
      reads this
    {
      MirrorSpec.Valid(State())
    }

    /**
     * A fresh cache over the durable store as it was left by an earlier session: the in-memory
     * collection and the key list start empty and the ledger is not loaded yet.
     */
    constructor (persisted: map<string, Doc>, savedConfig: Option<Ledger>)
      ensures State() == MirrorSpec.State(map[], persisted, [], None, savedConfig, None, false)
      ensures Valid()
    {
      docs := map[];
      store := persisted;
      list := [];
      controlStoreData := None;
      savedControl := savedConfig;
      lastCallInit := None;
      inited := false;
    }

    // ------------------------------------------------------------ ledger

    /** `getControlStoreData()`: the loaded ledger, or a fresh default stamped `now`. */
    function GetControlStoreData(now: int): (l: Ledger)
      reads this
      ensures controlStoreData.Some? ==> l == controlStoreData.value
      ensures controlStoreData.None? ==> l.removedDocs == [] && l.updatedDocs == [] && l.lastClientSync == Some(now)
    {
      MirrorSpec.Current(State(), now)
    }

    /** `needSync()` over whatever `getControlStoreData` returns. */
    predicate NeedSync(now: int)
      reads this
    {
      ControlLedger.NeedSync(GetControlStoreData(now), now)
    }

    /** `updateControlStoreData(record)`: write the record through to the control store and keep it. */
    method UpdateControlStoreData(l: Ledger)
      modifies this
      ensures State() == MirrorSpec.Persist(old(State()), l)
      ensures controlStoreData == savedControl == Some(l)
    {
      savedControl := Some(l);
      controlStoreData := Some(l);
    }

    /** `initControlStore()`: keep a loaded ledger, otherwise load the persisted one over the defaults. */
    method InitControlStore(now: int) returns (l: Ledger)
      modifies this
      ensures State() == MirrorSpec.InitControlStore(old(State()), now)
      ensures controlStoreData == Some(l)
      ensures old(controlStoreData).Some? ==> l == old(controlStoreData).value
      ensures old(controlStoreData).None? && old(savedControl).Some? ==>
        l.removedDocs == old(savedControl).value.removedDocs && l.updatedDocs == old(savedControl).value.updatedDocs
      ensures old(controlStoreData).None? ==> l.lastClientSync.Some?
    {
      if controlStoreData.Some? {
        return controlStoreData.value;
      }
      match savedControl {
        case None =>
          l := Default(now);
        case Some(saved) =>
          l := saved.(lastClientSync := if saved.lastClientSync.Some? then saved.lastClientSync else Some(now));
      }
      controlStoreData := Some(l);
    }

    method AddUpdatedDocs(doc: Doc, now: int)
      modifies this
      ensures State() == MirrorSpec.AddUpdatedDocs(old(State()), doc, now)
    {
      var l := GetControlStoreData(now);
      l := l.(updatedDocs := Without(l.updatedDocs, doc.id) + [doc]);
      UpdateControlStoreData(l);
    }

    method DelUpdatedDocs(id: Option<string>, now: int)
      modifies this
      ensures State() == MirrorSpec.DelUpdatedDocs(old(State()), id, now)
    {
      var l := GetControlStoreData(now);
      l := l.(updatedDocs := Without(l.updatedDocs, id));
      UpdateControlStoreData(l);
    }

    method AddRemovedDoc(id: Option<string>, now: int)
      modifies this
      ensures State() == MirrorSpec.AddRemovedDoc(old(State()), id, now)
    {
      var l := GetControlStoreData(now);
      l := l.(removedDocs := l.removedDocs + [id]);
      UpdateControlStoreData(l);
    }

    method DelRemovedDoc(id: Option<string>, now: int)
      modifies this
      ensures State() == MirrorSpec.DelRemovedDoc(old(State()), id, now)
    {
      var l := GetControlStoreData(now);
      l := l.(removedDocs := WithoutRemoved(l.removedDocs, id));
      UpdateControlStoreData(l);
    }

    /** `updateSyncHistory()`: rewrites the ledger as it is (history entries are not modelled). */
    method UpdateSyncHistory(now: int)
      modifies this
      ensures State() == MirrorSpec.TouchHistory(old(State()), now)
    {
      var l := GetControlStoreData(now);
      UpdateControlStoreData(l);
    }

    /** `updateControlStoreData({lastClientSync: now})`: a partial record spread over the loaded one. */
    method MarkClientSync(now: int)
      modifies this
      ensures State() == MirrorSpec.MarkClientSync(old(State()), now)
    {
      var base := if controlStoreData.Some? then controlStoreData.value else Ledger([], [], None);
      UpdateControlStoreData(base.(lastClientSync := Some(now)));
    }

    // ------------------------------------------------------------ intercepted collection methods

    /** Overridden `insert(doc, callback, updateFromSync)`; `freshId` is the id Minimongo would generate. */
    method Insert(doc: Doc, fromSync: bool, now: int, freshId: string) returns (cb: MirrorSpec.Callback<string>)
      requires Valid()
      modifies this
      ensures MirrorSpec.Step(State(), cb) == MirrorSpec.Insert(old(State()), doc, fromSync, now, freshId)
      ensures Valid()
    {
      MirrorProps.InsertKeepsValid(State(), doc, fromSync, now, freshId);
      if IsEmpty(doc) {
        return MirrorSpec.NotCalled;
      }
      if doc.id == Some("") {
        return MirrorSpec.Failed;
      }
      var id := doc.id.GetOr(freshId);
      if id in docs {
        return MirrorSpec.Failed;
      }
      var stored := doc.(id := Some(id));
      docs := docs[id := stored];
      if id !in list {
        list := list + [id];
      }
      store := store[id := stored];
      if !fromSync {
        AddUpdatedDocs(Stamped(stored, now), now);
      }
      cb := MirrorSpec.Succeeded(id);
    }

    /**
     * Overridden `update({_id: selector}, modifier, options, callback, updateFromSync)`. The
     * caller's `options` are left out: the cache spreads `upsert: true` over them, and no other
     * option is modelled.
     */
    method Update(selector: Option<string>, modifier: MirrorSpec.Modifier, fromSync: bool, now: int, freshId: string)
      returns (cb: MirrorSpec.Callback<Doc>)
      requires Valid()
      modifies this
      ensures MirrorSpec.Step(State(), cb) == MirrorSpec.Update(old(State()), selector, modifier, fromSync, now, freshId)
      ensures Valid()
    {
      MirrorProps.UpdateKeepsValid(State(), selector, modifier, fromSync, now, freshId);
      if MirrorSpec.ModifierIsEmpty(modifier) {
        return MirrorSpec.NotCalled;
      }
      var target := if MirrorSpec.TruthyId(selector) then selector.value else freshId;
      var base := if target in docs then Some(docs[target]) else None;
      var upserted := MirrorSpec.Upserted(base, target, modifier);
      if upserted.None? {
        return MirrorSpec.Failed;
      }
      var newDoc := upserted.value;
      docs := docs[target := newDoc];
      if !MirrorSpec.TruthyId(selector) {
        return MirrorSpec.NotCalled;
      }
      store := store[target := newDoc];
      if fromSync {
        return MirrorSpec.Succeeded(newDoc);
      }
      var stamped := Stamped(newDoc, now);
      AddUpdatedDocs(stamped, now);
      cb := MirrorSpec.Succeeded(stamped);
    }

    /** Overridden `remove(doc, callback, removeFromSync)`. */
    method Remove(doc: Doc, fromSync: bool, now: int) returns (cb: MirrorSpec.Callback<bool>)
      requires Valid()
      modifies this
      ensures MirrorSpec.Step(State(), cb) == MirrorSpec.Remove(old(State()), doc, fromSync, now)
      ensures Valid()
    {
      ghost var s0 := State();
      MirrorProps.RemoveKeepsValid(s0, doc, fromSync, now);
      if IsEmpty(doc) {
        return MirrorSpec.NotCalled;
      }
      if MirrorSpec.TruthyId(doc.id) {
        docs := docs - {doc.id.value};
      }
      ghost var s1 := s0.(docs := docs);
      assert State() == s1;
      if !Flag(doc, "removeOnly") {
        list := MirrorSpec.DropKey(list, doc.id);
        if doc.id.Some? {
          store := store - {doc.id.value};
        }
        ghost var s2 := s1.(list := list, store := store);
        assert State() == s2;
        DelUpdatedDocs(doc.id, now);
        assert State() == MirrorSpec.DelUpdatedDocs(s2, doc.id, now);
        if !fromSync {
          AddRemovedDoc(doc.id, now);
        }
      }
      cb := MirrorSpec.Succeeded(true);
    }

    /** `clear()`: delete every tracked key from the store and the collection, then empty the list. */
    method Clear()
      modifies this
      ensures State() == MirrorSpec.Clear(old(State()))
      ensures Valid()
    {
      var keys := list;
      var i := 0;
      while i < |keys|
        invariant 0 <= i <= |keys|
        invariant docs == old(docs) - MirrorSpec.KeySet(keys[..i])
        invariant store == old(store) - MirrorSpec.KeySet(keys[..i])
        invariant list == keys
        invariant controlStoreData == old(controlStoreData) && savedControl == old(savedControl)
        invariant lastCallInit == old(lastCallInit) && inited == old(inited)
      {
        assert MirrorSpec.KeySet(keys[..i + 1]) == MirrorSpec.KeySet(keys[..i]) + {keys[i]} by {
          assert keys[..i + 1] == keys[..i] + [keys[i]];
        }
        store := store - {keys[i]};
        docs := docs - {keys[i]};
        i := i + 1;
      }
      assert keys[..i] == keys;
      list := [];
      MirrorProps.ClearKeepsValid(old(State()));
    }

    // ------------------------------------------------------------ observer of the server collection

    method ObserverAdded(doc: Doc, now: int)
      requires Valid() && MirrorSpec.TruthyId(doc.id)
      modifies this
      ensures State() == MirrorSpec.ObserverAdded(old(State()), doc, now)
      ensures Valid()
    {
      MirrorProps.ObserverKeepsValid(State(), doc, doc, now);
      var id := doc.id.value;
      if id !in list {
        list := list + [id];
        store := store[id := doc];
      }
      MirrorProps.AddKeyKeepsNoDuplicates(old(list), id);
      assert State() == if id in old(list) then old(State()) else old(State()).(list := old(list) + [id], store := old(store)[id := doc]);
      var _ := Update(doc.id, MirrorSpec.SetFields(doc), true, now, id);
    }

    method ObserverChanged(newDoc: Doc, oldDoc: Doc, now: int)
      requires Valid() && MirrorSpec.TruthyId(Spread(oldDoc, newDoc).id)
      modifies this
      ensures State() == MirrorSpec.ObserverChanged(old(State()), newDoc, oldDoc, now)
      ensures Valid()
    {
      MirrorProps.ObserverKeepsValid(State(), newDoc, oldDoc, now);
      var doc := Spread(oldDoc, newDoc);
      var id := doc.id.value;
      list := MirrorSpec.AddKey(list, id);
      store := store[id := doc];
      MirrorProps.AddKeyKeepsNoDuplicates(old(list), id);
      assert State() == old(State()).(list := MirrorSpec.AddKey(old(list), id), store := old(store)[id := doc]);
      var _ := Update(doc.id, MirrorSpec.SetFields(doc), true, now, id);
    }

    method ObserverRemoved(doc: Doc, now: int)
      requires Valid()
      modifies this
      ensures State() == MirrorSpec.ObserverRemoved(old(State()), doc, now)
      ensures Valid()
    {
      var _ := Remove(Doc(doc.id, map["removeOnly" := Bool(true)]), false, now);
    }

    // ------------------------------------------------------------ rehydration debounce

    /**
     * `initCachedMinimongo(callback?)`: decides whether to rehydrate (the rehydration itself is
     * not part of this model) and records the call time.
     */
    method InitCachedMinimongo(now: int, hasCallback: bool) returns (rehydrate: bool)
      modifies this
      ensures rehydrate == MirrorSpec.ShouldRehydrate(old(lastCallInit), now, hasCallback, inited)
      ensures State() == old(State()).(lastCallInit := Some(now))
    {
      rehydrate := MirrorSpec.ShouldRehydrate(lastCallInit, now, hasCallback, inited);
      lastCallInit := Some(now);
    }

    // ------------------------------------------------------------ sync engine

    /**
     * `syncRemovedDocs(removeDocFunc)`: one remote removal per queued id, over the ledger as it
     * is when the replay starts; `replies(i)` is what the call for the i-th id answered.
     */
    method SyncRemovedDocs(replies: nat -> MirrorSpec.Reply, now: int)
      requires Valid()
      modifies this
      ensures State() == MirrorSpec.ReplayRemoved(old(State()), old(GetControlStoreData(now)).removedDocs, replies, now)
      ensures Valid()
    {
      var snapshot := GetControlStoreData(now).removedDocs;
      var i := 0;
      while i < |snapshot|
        invariant 0 <= i <= |snapshot|
        invariant State() == MirrorSpec.ReplayRemoved(old(State()), snapshot[..i], replies, now)
      {
        assert snapshot[..i + 1][..i] == snapshot[..i];
        if replies(i).Error? {
          UpdateSyncHistory(now);
        } else {
          DelRemovedDoc(snapshot[i], now);
        }
        i := i + 1;
      }
      assert snapshot[..i] == snapshot;
      MirrorProps.ReplayRemovedRetainsFailures(old(State()), snapshot, replies, now);
    }

    /**
     * The callback `syncUpdatedDocs` passes for the queued document `doc`: an error only rewrites
     * the ledger; a server deletion removes the document locally; a server copy replaces the
     * queued update and is mirrored without being queued again.
     */
    method ApplyUpdateReply(doc: Doc, reply: MirrorSpec.Reply, freshId: string, now: int)
      requires Valid()
      modifies this
      ensures State() == MirrorSpec.UpdateReplyStep(old(State()), doc, reply, freshId, now)
      ensures Valid()
    {
      match reply {
        case Error =>
          UpdateSyncHistory(now);
        case Done(None) =>
        case Done(Some(serverDoc)) =>
          if Flag(serverDoc, "removedServer") {
            var _ := Remove(serverDoc, true, now);
          } else {
            var server := serverDoc.(fields := serverDoc.fields - {"updatedServer"});
            DelUpdatedDocs(doc.id, now);
            var _ := Update(server.id, MirrorSpec.SetFields(server), true, now, freshId);
          }
      }
    }

    /**
     * `syncUpdatedDocs(updateDocFunc)`: one remote update per queued document, over the ledger
     * as it is when the replay starts; `freshIds(i)` is the id an upsert without `_id` would get.
     */
    method SyncUpdatedDocs(replies: nat -> MirrorSpec.Reply, freshIds: nat -> string, now: int)
      requires Valid()
      modifies this
      ensures State() == MirrorSpec.ReplayUpdated(old(State()), old(GetControlStoreData(now)).updatedDocs, replies, freshIds, now)
      ensures Valid()
    {
      var snapshot := GetControlStoreData(now).updatedDocs;
      var i := 0;
      while i < |snapshot|
        invariant 0 <= i <= |snapshot|
        invariant State() == MirrorSpec.ReplayUpdated(old(State()), snapshot[..i], replies, freshIds, now)
        invariant Valid()
      {
        assert snapshot[..i + 1][..i] == snapshot[..i];
        ApplyUpdateReply(snapshot[i], replies(i), freshIds(i), now);
        i := i + 1;
      }
      assert snapshot[..i] == snapshot;
    }

    /** `syncFromClient(removeFunction?, updateFunction?)`. */
    method SyncFromClient(removeReplies: Option<nat -> MirrorSpec.Reply>, updateReplies: Option<nat -> MirrorSpec.Reply>,
                          freshIds: nat -> string, now: int)
      requires Valid()
      modifies this
      ensures State() == MirrorSpec.SyncFromClient(old(State()), removeReplies, updateReplies, freshIds, now)
      ensures Valid()
    {
      if removeReplies.Some? {
        SyncRemovedDocs(removeReplies.value, now);
      }
      if updateReplies.Some? {
        SyncUpdatedDocs(updateReplies.value, freshIds, now);
      }
      MarkClientSync(now);
    }

    /** `syncFromServer(serverDocs)`. */
    method SyncFromServer(serverDocs: seq<Doc>, now: int)
      requires Valid()
      modifies this
      ensures State() == MirrorSpec.SyncFromServer(old(State()), serverDocs, now)
      ensures Valid()
    {
      var i := 0;
      while i < |serverDocs|
        invariant 0 <= i <= |serverDocs|
        invariant State() == MirrorSpec.SyncFromServer(old(State()), serverDocs[..i], now)
        invariant Valid()
      {
        assert serverDocs[..i + 1][..i] == serverDocs[..i];
        var doc := serverDocs[i];
        if MirrorSpec.TruthyId(doc.id) {
          if Flag(doc, "removedServer") {
            var _ := Remove(doc, true, now);
          } else {
            var _ := Update(doc.id, MirrorSpec.SetFields(doc), true, now, doc.id.value);
          }
        }
        i := i + 1;
      }
      assert serverDocs[..i] == serverDocs;
    }
  }
}
