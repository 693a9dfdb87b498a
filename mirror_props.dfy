/** What the offline cache guarantees, stated and proved over the operations of MirrorSpec. */
module MirrorProps {
  import opened Wrappers
  import opened Documents
  import opened ControlLedger
  import opened MirrorSpec

  // ---------------------------------------------------------------- empty input

  /** An empty document or modifier returns at once: no state change and no callback. */
  lemma EmptyInputIsNoOp(s: State, doc: Doc, m: Modifier, sel: Option<string>, fromSync: bool, now: int, freshId: string)
    ensures IsEmpty(doc) ==> Insert(s, doc, fromSync, now, freshId) == Step(s, NotCalled)
    ensures IsEmpty(doc) ==> Remove(s, doc, fromSync, now) == Step(s, NotCalled)
    ensures ModifierIsEmpty(m) ==> Update(s, sel, m, fromSync, now, freshId) == Step(s, NotCalled)
  {
  }

  // ---------------------------------------------------------------- tracked-key list

  lemma {:induction false} DropKeyKeepsNoDuplicates(list: seq<string>, id: Option<string>)
    requires NoDuplicates(list)
    ensures NoDuplicates(DropKey(list, id))
  {
    if list != [] {
      assert NoDuplicates(list[1..]) by {
        forall i, j | 0 <= i < j < |list| - 1 ensures list[1..][i] != list[1..][j] {
          assert list[1..][i] == list[i + 1] && list[1..][j] == list[j + 1];
        }
      }
      DropKeyKeepsNoDuplicates(list[1..], id);
      if Some(list[0]) != id {
        var t := DropKey(list[1..], id);
        assert list[0] !in list[1..];
        assert list[0] !in t;
        var r := [list[0]] + t;
        forall i, j | 0 <= i < j < |r| ensures r[i] != r[j] {
          if i == 0 { assert r[j] == t[j - 1] && r[j] in t; } else { assert r[i] == t[i - 1] && r[j] == t[j - 1]; }
        }
      }
    }
  }

  lemma AddKeyKeepsNoDuplicates(list: seq<string>, id: string)
    requires NoDuplicates(list)
    ensures NoDuplicates(AddKey(list, id)) && id in AddKey(list, id)
    ensures forall k :: k in AddKey(list, id) <==> k in list || k == id
  {
    if id !in list {
      var r := list + [id];
      forall i, j | 0 <= i < j < |r| ensures r[i] != r[j] {
        if j == |r| - 1 { assert r[i] == list[i] && r[i] in list; } else { assert r[i] == list[i] && r[j] == list[j]; }
      }
    }
  }

  /** Ledger writes never touch the collection, the store or the tracked keys. */
  lemma LedgerWritesKeepMirror(s: State, doc: Doc, id: Option<string>, now: int)
    ensures var r := AddUpdatedDocs(s, doc, now); r.docs == s.docs && r.store == s.store && r.list == s.list
    ensures var r := DelUpdatedDocs(s, id, now); r.docs == s.docs && r.store == s.store && r.list == s.list
    ensures var r := AddRemovedDoc(s, id, now); r.docs == s.docs && r.store == s.store && r.list == s.list
    ensures var r := DelRemovedDoc(s, id, now); r.docs == s.docs && r.store == s.store && r.list == s.list
  {
  }

  /** Queuing an update persists the ledger and leaves the document last and alone for its id. */
  lemma AddUpdatedQueuesLast(s: State, doc: Doc, now: int)
    ensures var r := AddUpdatedDocs(s, doc, now); var q := Current(r, now).updatedDocs;
      && r.saved == r.control
      && |q| > 0 && q[|q| - 1] == doc && CountId(q, doc.id) == 1
      && Current(r, now).removedDocs == Current(s, now).removedDocs
  {
    WithUpdatedQueuesOnce(Current(s, now).updatedDocs, doc);
  }

  /** Insert pushes an id only when it is absent and persists what it tracks. */
  lemma InsertKeepsValid(s: State, doc: Doc, fromSync: bool, now: int, freshId: string)
    requires Valid(s)
    ensures Valid(Insert(s, doc, fromSync, now, freshId).state)
  {
    if !IsEmpty(doc) && doc.id != Some("") {
      AddKeyKeepsNoDuplicates(s.list, doc.id.GetOr(freshId));
    }
  }

  /** Update never changes the tracked list and only adds to the store. */
  lemma UpdateKeepsValid(s: State, sel: Option<string>, m: Modifier, fromSync: bool, now: int, freshId: string)
    requires Valid(s)
    ensures var r := Update(s, sel, m, fromSync, now, freshId).state;
      Valid(r) && r.list == s.list && s.store.Keys <= r.store.Keys
  {
  }

  lemma RemoveKeepsValid(s: State, doc: Doc, fromSync: bool, now: int)
    requires Valid(s)
    ensures Valid(Remove(s, doc, fromSync, now).state)
  {
    if !IsEmpty(doc) && !Flag(doc, "removeOnly") {
      DropKeyKeepsNoDuplicates(s.list, doc.id);
    }
  }

  lemma ClearKeepsValid(s: State)
    ensures Valid(Clear(s))
  {
  }

  /** The observer's added/changed handlers push an id only when it is not yet tracked. */
  lemma ObserverKeepsValid(s: State, doc: Doc, oldDoc: Doc, now: int)
    requires Valid(s)
    ensures TruthyId(doc.id) ==> Valid(ObserverAdded(s, doc, now))
    ensures TruthyId(Spread(oldDoc, doc).id) ==> Valid(ObserverChanged(s, doc, oldDoc, now))
    ensures Valid(ObserverRemoved(s, doc, now))
  {
    if TruthyId(doc.id) {
      var id := doc.id.value;
      var s1 := if id in s.list then s else s.(list := s.list + [id], store := s.store[id := doc]);
      AddKeyKeepsNoDuplicates(s.list, id);
      assert s1.list == AddKey(s.list, id);
      UpdateKeepsValid(s1, doc.id, SetFields(doc), true, now, id);
    }
    var merged := Spread(oldDoc, doc);
    if TruthyId(merged.id) {
      var id := merged.id.value;
      AddKeyKeepsNoDuplicates(s.list, id);
      var s1 := s.(list := AddKey(s.list, id), store := s.store[id := merged]);
      UpdateKeepsValid(s1, merged.id, SetFields(merged), true, now, id);
    }
    RemoveKeepsValid(s, Doc(doc.id, map["removeOnly" := Bool(true)]), false, now);
  }

  lemma {:induction false} ReplayUpdatedKeepsValid(s: State, docs: seq<Doc>, replies: nat -> Reply, freshIds: nat -> string, now: int)
    requires Valid(s)
    ensures Valid(ReplayUpdated(s, docs, replies, freshIds, now))
    decreases |docs|
  {
    if docs != [] {
      var i := |docs| - 1;
      var prev := ReplayUpdated(s, docs[..i], replies, freshIds, now);
      ReplayUpdatedKeepsValid(s, docs[..i], replies, freshIds, now);
      match replies(i)
      case Error =>
      case Done(None) =>
      case Done(Some(sd)) =>
        if Flag(sd, "removedServer") {
          RemoveKeepsValid(prev, sd, true, now);
        } else {
          var server := sd.(fields := sd.fields - {"updatedServer"});
          UpdateKeepsValid(DelUpdatedDocs(prev, docs[i].id, now), server.id, SetFields(server), true, now, freshIds(i));
        }
    }
  }

  lemma {:induction false} SyncFromServerKeepsValid(s: State, docs: seq<Doc>, now: int)
    requires Valid(s)
    ensures Valid(SyncFromServer(s, docs, now))
    decreases |docs|
  {
    if docs != [] {
      var prev := SyncFromServer(s, docs[..|docs| - 1], now);
      SyncFromServerKeepsValid(s, docs[..|docs| - 1], now);
      var d := docs[|docs| - 1];
      if TruthyId(d.id) {
        if Flag(d, "removedServer") { RemoveKeepsValid(prev, d, true, now); }
        else { UpdateKeepsValid(prev, d.id, SetFields(d), true, now, d.id.value); }
      }
    }
  }

  /** A whole client sync keeps the tracked list duplicate-free and persisted. */
  lemma SyncFromClientKeepsValid(s: State, rr: Option<nat -> Reply>, ur: Option<nat -> Reply>, freshIds: nat -> string, now: int)
    requires Valid(s)
    ensures Valid(SyncFromClient(s, rr, ur, freshIds, now))
  {
    var s1 := if rr.Some? then ReplayRemoved(s, Current(s, now).removedDocs, rr.value, now) else s;
    if rr.Some? { ReplayRemovedRetainsFailures(s, Current(s, now).removedDocs, rr.value, now); }
    if ur.Some? { ReplayUpdatedKeepsValid(s1, Current(s1, now).updatedDocs, ur.value, freshIds, now); }
  }

  // ---------------------------------------------------------------- ledger effects of the mutations

  /**
   * A local insert persists the document as given (with its id) and queues it, stamped with
   * `lastupdate = now`, as the one and last queued entry for its id; a sync-originated insert
   * leaves the ledger as it was. A document whose id is already in the collection, or whose
   * `_id` is the empty string, fails and changes nothing.
   */
  lemma InsertQueuesStampedDoc(s: State, doc: Doc, fromSync: bool, now: int, freshId: string)
    requires !IsEmpty(doc)
    ensures var id := doc.id.GetOr(freshId); var r := Insert(s, doc, fromSync, now, freshId);
      if doc.id == Some("") || id in s.docs then r == Step(s, Failed)
      else
        && r.callback == Succeeded(id)
        && r.state.docs == s.docs[id := doc.(id := Some(id))]
        && r.state.store == s.store[id := doc.(id := Some(id))]
        && id in r.state.list
        && (fromSync ==> r.state.control == s.control && r.state.saved == s.saved)
        && (!fromSync ==>
             var q := Current(r.state, now).updatedDocs;
             && r.state.saved == r.state.control
             && |q| > 0 && q[|q| - 1] == Stamped(doc.(id := Some(id)), now)
             && q[|q| - 1].fields["lastupdate"] == Date(now)
             && CountId(q, Some(id)) == 1
             && Current(r.state, now).removedDocs == Current(s, now).removedDocs)
  {
    var id := doc.id.GetOr(freshId);
    if doc.id != Some("") && id !in s.docs && !fromSync {
      var stored := doc.(id := Some(id));
      var s1 := s.(docs := s.docs[id := stored], list := AddKey(s.list, id), store := s.store[id := stored]);
      AddUpdatedQueuesLast(s1, Stamped(stored, now), now);
    }
  }

  /**
   * Minimongo's modifier semantics: `$set` keeps every stored field it does not name and
   * overrides those it names; a replacement keeps only its own fields; either one fails when it
   * names an `_id` other than the target's.
   */
  lemma UpsertedMerges(base: Option<Doc>, target: string, m: Modifier)
    ensures var r := Upserted(base, target, m);
      && (r.None? <==> (m.SetFields? && m.fields.id.Some? && m.fields.id != Some(target))
                       || (m.Replace? && m.doc.id.Some? && m.doc.id != Some(target)))
      && (r.Some? ==> r.value.id == Some(target))
      && (r.Some? && m.SetFields? ==>
            && (forall k :: k in m.fields.fields ==> k in r.value.fields && r.value.fields[k] == m.fields.fields[k])
            && (base.Some? ==> forall k :: k in base.value.fields && k !in m.fields.fields ==>
                  k in r.value.fields && r.value.fields[k] == base.value.fields[k])
            && (forall k :: k in r.value.fields ==> k in m.fields.fields || (base.Some? && k in base.value.fields)))
      && (r.Some? && m.Replace? ==> r.value.fields == m.doc.fields)
  {
  }

  /**
   * Update always upserts: after a non-empty modifier on a truthy id that does not fail,
   * the upserted document is in the collection and the store; a sync-originated update leaves
   * the ledger alone and reports the document, a local one queues the stamped document it
   * reports to its callback as the only queued entry for the id. (A falsy id is the case of
   * `UpdateWithoutIdIsSilent`.)
   */
  lemma UpdateUpserts(s: State, id: string, m: Modifier, fromSync: bool, now: int, freshId: string)
    requires id != ""
    requires !ModifierIsEmpty(m)
    requires Upserted(if id in s.docs then Some(s.docs[id]) else None, id, m).Some?
    ensures var nd := Upserted(if id in s.docs then Some(s.docs[id]) else None, id, m).value;
      var r := Update(s, Some(id), m, fromSync, now, freshId);
      && r.state.docs == s.docs[id := nd] && r.state.store == s.store[id := nd]
      && r.state.list == s.list
      && (fromSync ==> r.state.control == s.control && r.state.saved == s.saved && r.callback == Succeeded(nd))
      && (!fromSync ==>
            var q := Current(r.state, now).updatedDocs;
            && r.callback == Succeeded(Stamped(nd, now))
            && |q| > 0 && q[|q| - 1] == Stamped(nd, now) && CountId(q, Some(id)) == 1)
  {
    var nd := Upserted(if id in s.docs then Some(s.docs[id]) else None, id, m).value;
    var s2 := s.(docs := s.docs[id := nd], store := s.store[id := nd]);
    UpdateOnId(s, id, m, fromSync, now, freshId);
    if !fromSync {
      AddUpdatedQueuesLast(s2, Stamped(nd, now), now);
      LedgerWritesKeepMirror(s2, Stamped(nd, now), None, now);
    }
  }

  /** The steps `update` takes on a cached or new id once the upsert succeeded. */
  lemma UpdateOnId(s: State, id: string, m: Modifier, fromSync: bool, now: int, freshId: string)
    requires id != ""
    requires !ModifierIsEmpty(m)
    requires Upserted(if id in s.docs then Some(s.docs[id]) else None, id, m).Some?
    ensures var nd := Upserted(if id in s.docs then Some(s.docs[id]) else None, id, m).value;
      var s2 := s.(docs := s.docs[id := nd], store := s.store[id := nd]);
      Update(s, Some(id), m, fromSync, now, freshId) ==
        if fromSync then Step(s2, Succeeded(nd)) else Step(AddUpdatedDocs(s2, Stamped(nd, now), now), Succeeded(Stamped(nd, now)))
  {
  }

  /**
   * With an undefined or empty selector id the upsert goes under the generated id, the callback
   * never fires and the store, list and ledger stay.
   */
  lemma UpdateWithoutIdIsSilent(s: State, sel: Option<string>, m: Modifier, fromSync: bool, now: int, freshId: string)
    requires sel.None? || sel == Some("")
    ensures var r := Update(s, sel, m, fromSync, now, freshId);
      !r.callback.Succeeded? && r.state.store == s.store && r.state.list == s.list
      && r.state.control == s.control && r.state.saved == s.saved
  {
  }

  /**
   * Remove always drops the in-memory record. Only without `removeOnly` does it also drop the
   * tracked key, the stored copy and any queued update for the id, and only when it is also
   * local does it append the id to `removedDocs`.
   */
  lemma RemoveEffects(s: State, doc: Doc, fromSync: bool, now: int)
    requires !IsEmpty(doc)
    ensures var r := Remove(s, doc, fromSync, now);
      && r.callback == Succeeded(true)
      && r.state.docs == (if TruthyId(doc.id) then s.docs - {doc.id.value} else s.docs)
      && (Flag(doc, "removeOnly") ==>
            r.state.list == s.list && r.state.store == s.store && r.state.control == s.control && r.state.saved == s.saved)
      && (!Flag(doc, "removeOnly") ==>
            && r.state.list == DropKey(s.list, doc.id)
            && r.state.store == (if doc.id.Some? then s.store - {doc.id.value} else s.store)
            && Current(r.state, now).updatedDocs == Without(Current(s, now).updatedDocs, doc.id)
            && Current(r.state, now).lastClientSync == Current(s, now).lastClientSync
            && CountId(Current(r.state, now).updatedDocs, doc.id) == 0
            && (fromSync ==> Current(r.state, now).removedDocs == Current(s, now).removedDocs)
            && (!fromSync ==> Current(r.state, now).removedDocs == Current(s, now).removedDocs + [doc.id]))
  {
    WithoutCount(Current(s, now).updatedDocs, doc.id);
  }

  /**
   * The pending-removal queue is not de-duplicated: removing the same document twice, locally,
   * queues its id twice.
   */
  lemma RemoveTwiceQueuesTwice(s: State, doc: Doc, now: int)
    requires !IsEmpty(doc) && !Flag(doc, "removeOnly")
    ensures var r := Remove(Remove(s, doc, false, now).state, doc, false, now).state;
      Occurrences(Current(r, now).removedDocs, doc.id) == Occurrences(Current(s, now).removedDocs, doc.id) + 2
  {
    var s1 := Remove(s, doc, false, now).state;
    RemoveEffects(s, doc, false, now);
    RemoveEffects(s1, doc, false, now);
    AppendRemovedAddsOccurrence(Current(s, now).removedDocs, doc.id);
    AppendRemovedAddsOccurrence(Current(s1, now).removedDocs, doc.id);
  }

  /**
   * The two queues are kept apart in one direction only: a local insert after a local remove
   * of the same id leaves the id both pending removal and pending update.
   */
  lemma RemoveThenInsertQueuesBoth(s: State, id: string, fields: map<string, Value>, now: int, freshId: string)
    requires id != "" && "removeOnly" !in fields
    ensures var doc := Doc(Some(id), fields);
      var s1 := Remove(s, doc, false, now).state;
      var r := Insert(s1, doc, false, now, freshId);
      && r.callback == Succeeded(id)
      && Some(id) in Current(r.state, now).removedDocs
      && CountId(Current(r.state, now).updatedDocs, Some(id)) == 1
  {
    var doc := Doc(Some(id), fields);
    var s1 := Remove(s, doc, false, now).state;
    RemoveEffects(s, doc, false, now);
    InsertQueuesStampedDoc(s1, doc, false, now, freshId);
  }

  lemma InsertKeepsOneUpdatePerId(s: State, doc: Doc, fromSync: bool, now: int, freshId: string)
    requires UniqueIds(Current(s, now).updatedDocs)
    ensures UniqueIds(Current(Insert(s, doc, fromSync, now, freshId).state, now).updatedDocs)
  {
    if !IsEmpty(doc) {
      var id := doc.id.GetOr(freshId);
      WithUpdatedKeepsUnique(Current(s, now).updatedDocs, Stamped(doc.(id := Some(id)), now));
    }
  }

  lemma UpdateKeepsOneUpdatePerId(s: State, sel: Option<string>, m: Modifier, fromSync: bool, now: int, freshId: string)
    requires UniqueIds(Current(s, now).updatedDocs)
    ensures UniqueIds(Current(Update(s, sel, m, fromSync, now, freshId).state, now).updatedDocs)
  {
    if !ModifierIsEmpty(m) {
      var target := sel.GetOr(freshId);
      var nd := Upserted(if target in s.docs then Some(s.docs[target]) else None, target, m);
      if nd.Some? { WithUpdatedKeepsUnique(Current(s, now).updatedDocs, Stamped(nd.value, now)); }
    }
  }

  lemma RemoveKeepsOneUpdatePerId(s: State, doc: Doc, fromSync: bool, now: int)
    requires UniqueIds(Current(s, now).updatedDocs)
    ensures UniqueIds(Current(Remove(s, doc, fromSync, now).state, now).updatedDocs)
  {
    WithoutKeepsUnique(Current(s, now).updatedDocs, doc.id);
  }

  /** Every mutation keeps "at most one queued update per id". */
  lemma MutationsKeepOneUpdatePerId(s: State, doc: Doc, sel: Option<string>, m: Modifier, fromSync: bool, now: int, freshId: string)
    requires UniqueIds(Current(s, now).updatedDocs)
    ensures UniqueIds(Current(Insert(s, doc, fromSync, now, freshId).state, now).updatedDocs)
    ensures UniqueIds(Current(Update(s, sel, m, fromSync, now, freshId).state, now).updatedDocs)
    ensures UniqueIds(Current(Remove(s, doc, fromSync, now).state, now).updatedDocs)
  {
    InsertKeepsOneUpdatePerId(s, doc, fromSync, now, freshId);
    UpdateKeepsOneUpdatePerId(s, sel, m, fromSync, now, freshId);
    RemoveKeepsOneUpdatePerId(s, doc, fromSync, now);
  }

  /** The observer's removed handler mirrors a server delete without touching store, list or ledger. */
  lemma ObserverRemovedKeepsStore(s: State, doc: Doc, now: int)
    ensures var r := ObserverRemoved(s, doc, now);
      && r.store == s.store && r.list == s.list && r.control == s.control && r.saved == s.saved
      && r.docs == (if TruthyId(doc.id) then s.docs - {doc.id.value} else s.docs)
  {
  }

  // ---------------------------------------------------------------- outbound replay

  /** Ids whose remote removal succeeded. */
  function SucceededIds(ids: seq<Option<string>>, replies: nat -> Reply): set<Option<string>> {
    set i | 0 <= i < |ids| && replies(i).Done? :: ids[i]
  }

  /** One removal callback: a success drops its id from the queue, an error only rewrites the ledger. */
  lemma RemoveReplyStep(prev: State, id: Option<string>, reply: Reply, now: int, queue: seq<Option<string>>, gone: set<Option<string>>)
    requires Current(prev, now).removedDocs == RemovedExcept(queue, gone)
    ensures var r := if reply.Error? then TouchHistory(prev, now) else DelRemovedDoc(prev, id, now);
      && Current(r, now).removedDocs == RemovedExcept(queue, gone + (if reply.Done? then {id} else {}))
      && Current(r, now).updatedDocs == Current(prev, now).updatedDocs
      && Current(r, now).lastClientSync == Current(prev, now).lastClientSync
      && r.docs == prev.docs && r.store == prev.store && r.list == prev.list
  {
    RemovedExceptStep(queue, gone, id);
    assert gone + {} == gone;
  }

  lemma SucceededIdsSnoc(ids: seq<Option<string>>, replies: nat -> Reply)
    requires ids != []
    ensures var i := |ids| - 1;
      SucceededIds(ids, replies) == SucceededIds(ids[..i], replies) + (if replies(i).Done? then {ids[i]} else {})
  {
    var i := |ids| - 1;
    var prefix := ids[..i];
    forall x ensures x in SucceededIds(ids, replies) <==> x in SucceededIds(prefix, replies) + (if replies(i).Done? then {ids[i]} else {}) {
      if x in SucceededIds(ids, replies) {
        var j :| 0 <= j < |ids| && replies(j).Done? && ids[j] == x;
        if j < i { assert prefix[j] == x; }
      }
      if x in SucceededIds(prefix, replies) {
        var j :| 0 <= j < |prefix| && replies(j).Done? && prefix[j] == x;
        assert ids[j] == x;
      }
    }
  }

  /**
   * Retry by omission for removals: after the replay the queue holds, in their order, exactly
   * the entries whose id no remote removal succeeded for; nothing else in the ledger moves.
   */
  lemma {:induction false} ReplayRemovedRetainsFailures(s: State, ids: seq<Option<string>>, replies: nat -> Reply, now: int)
    ensures var r := ReplayRemoved(s, ids, replies, now);
      && Current(r, now).removedDocs == RemovedExcept(Current(s, now).removedDocs, SucceededIds(ids, replies))
      && Current(r, now).updatedDocs == Current(s, now).updatedDocs
      && Current(r, now).lastClientSync == Current(s, now).lastClientSync
      && r.docs == s.docs && r.store == s.store && r.list == s.list
    decreases |ids|
  {
    if ids == [] {
      assert SucceededIds(ids, replies) == {};
      RemovedExceptStep(Current(s, now).removedDocs, {}, None);
    } else {
      var i := |ids| - 1;
      ReplayRemovedRetainsFailures(s, ids[..i], replies, now);
      var prev := ReplayRemoved(s, ids[..i], replies, now);
      RemoveReplyStep(prev, ids[i], replies(i), now, Current(s, now).removedDocs, SucceededIds(ids[..i], replies));
      SucceededIdsSnoc(ids, replies);
    }
  }

  /** The ids a successful update callback clears: its own on a normal result, the server doc's on a server-side delete. */
  function ClearedBy(doc: Doc, reply: Reply): set<Option<string>> {
    match reply
    case Error => {}
    case Done(None) => {}
    case Done(Some(sd)) =>
      if Flag(sd, "removedServer") then (if Flag(sd, "removeOnly") then {} else {sd.id})
      else {doc.id}
  }

  function Cleared(docs: seq<Doc>, replies: nat -> Reply): set<Option<string>>
    decreases |docs|
  {
    if docs == [] then {} else Cleared(docs[..|docs| - 1], replies) + ClearedBy(docs[|docs| - 1], replies(|docs| - 1))
  }

  /** A sync-originated update never writes the ledger. */
  lemma SyncUpdateKeepsLedger(s: State, sel: Option<string>, m: Modifier, now: int, freshId: string)
    ensures var r := Update(s, sel, m, true, now, freshId).state;
      r.control == s.control && r.saved == s.saved
  {
  }

  /** A sync-originated remove only drops the id's queued update from the ledger. */
  lemma SyncRemoveLedger(s: State, doc: Doc, now: int)
    ensures var l := Current(s, now);
      Current(Remove(s, doc, true, now).state, now) ==
        if IsEmpty(doc) || Flag(doc, "removeOnly") then l else l.(updatedDocs := Without(l.updatedDocs, doc.id))
  {
    if !IsEmpty(doc) && !Flag(doc, "removeOnly") && s.control.None? {
      assert Without([], doc.id) == [];
    }
  }

  /** One update callback clears exactly the ids `ClearedBy` names and touches nothing else in the ledger. */
  lemma UpdateReplyStepClears(prev: State, doc: Doc, reply: Reply, freshId: string, now: int, queue: seq<Doc>, gone: set<Option<string>>)
    requires Current(prev, now).updatedDocs == UpdatedExcept(queue, gone)
    ensures var r := UpdateReplyStep(prev, doc, reply, freshId, now);
      && Current(r, now).updatedDocs == UpdatedExcept(queue, gone + ClearedBy(doc, reply))
      && Current(r, now).removedDocs == Current(prev, now).removedDocs
      && Current(r, now).lastClientSync == Current(prev, now).lastClientSync
  {
    assert gone + {} == gone;
    match reply
    case Error =>
    case Done(None) =>
    case Done(Some(sd)) =>
      if Flag(sd, "removedServer") {
        SyncRemoveLedger(prev, sd, now);
        assert !IsEmpty(sd);
        if !Flag(sd, "removeOnly") {
          UpdatedExceptStep(queue, gone, sd.id);
        }
      } else {
        var server := sd.(fields := sd.fields - {"updatedServer"});
        var s1 := DelUpdatedDocs(prev, doc.id, now);
        SyncUpdateKeepsLedger(s1, server.id, SetFields(server), now, freshId);
        assert UpdateReplyStep(prev, doc, reply, freshId, now) == Update(s1, server.id, SetFields(server), true, now, freshId).state;
        UpdatedExceptStep(queue, gone, doc.id);
      }
  }

  /**
   * Retry by omission for updates: after the replay the queue holds, in their order, exactly
   * the entries whose id no successful callback cleared (an error, or a success without a
   * server document, clears nothing); the replay never queues anything and leaves
   * `removedDocs` and the sync time alone.
   */
  lemma {:induction false} ReplayUpdatedClearsOnlyOnSuccess(s: State, docs: seq<Doc>, replies: nat -> Reply, freshIds: nat -> string, now: int)
    ensures var r := ReplayUpdated(s, docs, replies, freshIds, now);
      && Current(r, now).updatedDocs == UpdatedExcept(Current(s, now).updatedDocs, Cleared(docs, replies))
      && Current(r, now).removedDocs == Current(s, now).removedDocs
      && Current(r, now).lastClientSync == Current(s, now).lastClientSync
    decreases |docs|
  {
    if docs == [] {
      UpdatedExceptStep(Current(s, now).updatedDocs, {}, None);
    } else {
      var i := |docs| - 1;
      ReplayUpdatedClearsOnlyOnSuccess(s, docs[..i], replies, freshIds, now);
      UpdateReplyStepClears(ReplayUpdated(s, docs[..i], replies, freshIds, now), docs[i], replies(i), freshIds(i), now,
                            Current(s, now).updatedDocs, Cleared(docs[..i], replies));
    }
  }

  /** `syncFromClient` records `lastClientSync = now` whatever the remote calls answered. */
  lemma SyncFromClientMarksSync(s: State, rr: Option<nat -> Reply>, ur: Option<nat -> Reply>, freshIds: nat -> string, now: int)
    ensures var r := SyncFromClient(s, rr, ur, freshIds, now);
      r.control.Some? && r.control.value.lastClientSync == Some(now) && r.saved == r.control
  {
  }

  /**
   * A client sync in which every removal succeeds and every update returns a server document
   * that was not deleted upstream empties both queues, so no further sync is needed.
   */
  lemma FullySuccessfulSyncClearsNeed(s: State, rr: nat -> Reply, ur: nat -> Reply, freshIds: nat -> string, now: int)
    requires forall i: nat :: rr(i).Done?
    requires forall i: nat :: ur(i).Done? && ur(i).serverDoc.Some? && !Flag(ur(i).serverDoc.value, "removedServer")
    ensures !NeedSync(Current(SyncFromClient(s, Some(rr), Some(ur), freshIds, now), now), now)
  {
    var ids := Current(s, now).removedDocs;
    var s1 := ReplayRemoved(s, ids, rr, now);
    ReplayRemovedRetainsFailures(s, ids, rr, now);
    forall x | x in ids ensures x in SucceededIds(ids, rr) {
      var j :| 0 <= j < |ids| && ids[j] == x;
      assert rr(j).Done?;
    }
    RemovedExceptAll(ids, SucceededIds(ids, rr));
    var docs := Current(s1, now).updatedDocs;
    var s2 := ReplayUpdated(s1, docs, ur, freshIds, now);
    ReplayUpdatedClearsOnlyOnSuccess(s1, docs, ur, freshIds, now);
    AllIdsCleared(docs, ur);
    UpdatedExceptAll(docs, Cleared(docs, ur));
    NeedSyncIff(Current(SyncFromClient(s, Some(rr), Some(ur), freshIds, now), now), now);
  }

  lemma {:induction false} AllIdsCleared(docs: seq<Doc>, ur: nat -> Reply)
    requires forall i: nat :: ur(i).Done? && ur(i).serverDoc.Some? && !Flag(ur(i).serverDoc.value, "removedServer")
    ensures forall d :: d in docs ==> d.id in Cleared(docs, ur)
    decreases |docs|
  {
    if docs != [] {
      var i := |docs| - 1;
      AllIdsCleared(docs[..i], ur);
      assert ClearedBy(docs[i], ur(i)) == {docs[i].id};
      forall d | d in docs ensures d.id in Cleared(docs, ur) {
        var j :| 0 <= j < |docs| && docs[j] == d;
        if j < i { assert d in docs[..i]; }
      }
    }
  }

  // ---------------------------------------------------------------- inbound replay

  /** Inbound replay never queues anything: removals stay, updates only leave. */
  lemma {:induction false} SyncFromServerNeverQueues(s: State, docs: seq<Doc>, now: int)
    ensures var r := SyncFromServer(s, docs, now);
      && Current(r, now).removedDocs == Current(s, now).removedDocs
      && Current(r, now).lastClientSync == Current(s, now).lastClientSync
      && forall d :: d in Current(r, now).updatedDocs ==> d in Current(s, now).updatedDocs
    decreases |docs|
  {
    if docs != [] {
      SyncFromServerNeverQueues(s, docs[..|docs| - 1], now);
    }
  }


  /** The id a server document deletes from the update queue: a truthy `removedServer` entry without `removeOnly`. */
  function DeletedBy(doc: Doc): set<Option<string>> {
    if TruthyId(doc.id) && Flag(doc, "removedServer") && !Flag(doc, "removeOnly") then {doc.id} else {}
  }

  function ServerDeleted(docs: seq<Doc>): set<Option<string>>
    decreases |docs|
  {
    if docs == [] then {} else ServerDeleted(docs[..|docs| - 1]) + DeletedBy(docs[|docs| - 1])
  }

  /** One inbound entry drops at most its own id's queued update. */
  lemma ServerDocStepLedger(prev: State, doc: Doc, now: int, queue: seq<Doc>, gone: set<Option<string>>)
    requires Current(prev, now).updatedDocs == UpdatedExcept(queue, gone)
    ensures Current(ServerDocStep(prev, doc, now), now).updatedDocs == UpdatedExcept(queue, gone + DeletedBy(doc))
  {
    assert gone + {} == gone;
    if TruthyId(doc.id) {
      if Flag(doc, "removedServer") {
        SyncRemoveLedger(prev, doc, now);
        if !Flag(doc, "removeOnly") {
          UpdatedExceptStep(queue, gone, doc.id);
        }
      } else {
        SyncUpdateKeepsLedger(prev, doc.id, SetFields(doc), now, doc.id.value);
      }
    }
  }

  /**
   * After `syncFromServer` the update queue is the old one, in its order, without the entries
   * whose id the server reported deleted.
   */
  lemma {:induction false} SyncFromServerDropsDeleted(s: State, docs: seq<Doc>, now: int)
    ensures Current(SyncFromServer(s, docs, now), now).updatedDocs == UpdatedExcept(Current(s, now).updatedDocs, ServerDeleted(docs))
    decreases |docs|
  {
    if docs == [] {
      UpdatedExceptStep(Current(s, now).updatedDocs, {}, None);
    } else {
      var i := |docs| - 1;
      SyncFromServerDropsDeleted(s, docs[..i], now);
      ServerDocStepLedger(SyncFromServer(s, docs[..i], now), docs[i], now, Current(s, now).updatedDocs, ServerDeleted(docs[..i]));
    }
  }

  /** Both replays and the whole client sync keep "at most one queued update per id". */
  lemma ReplaysKeepOneUpdatePerId(s: State, docs: seq<Doc>, replies: nat -> Reply, freshIds: nat -> string,
                                  serverDocs: seq<Doc>, rr: Option<nat -> Reply>, ur: Option<nat -> Reply>, now: int)
    requires UniqueIds(Current(s, now).updatedDocs)
    ensures UniqueIds(Current(ReplayUpdated(s, docs, replies, freshIds, now), now).updatedDocs)
    ensures UniqueIds(Current(SyncFromServer(s, serverDocs, now), now).updatedDocs)
    ensures UniqueIds(Current(SyncFromClient(s, rr, ur, freshIds, now), now).updatedDocs)
  {
    ReplayUpdatedClearsOnlyOnSuccess(s, docs, replies, freshIds, now);
    UpdatedExceptKeepsUnique(Current(s, now).updatedDocs, Cleared(docs, replies));
    SyncFromServerDropsDeleted(s, serverDocs, now);
    UpdatedExceptKeepsUnique(Current(s, now).updatedDocs, ServerDeleted(serverDocs));
    var s1 := if rr.Some? then ReplayRemoved(s, Current(s, now).removedDocs, rr.value, now) else s;
    if rr.Some? { ReplayRemovedRetainsFailures(s, Current(s, now).removedDocs, rr.value, now); }
    var s2 := if ur.Some? then ReplayUpdated(s1, Current(s1, now).updatedDocs, ur.value, freshIds, now) else s1;
    if ur.Some? {
      ReplayUpdatedClearsOnlyOnSuccess(s1, Current(s1, now).updatedDocs, ur.value, freshIds, now);
      UpdatedExceptKeepsUnique(Current(s1, now).updatedDocs, Cleared(Current(s1, now).updatedDocs, ur.value));
    }
    assert Current(SyncFromClient(s, rr, ur, freshIds, now), now).updatedDocs == (if s2.control.Some? then Current(s2, now).updatedDocs else []);
  }

  /** The observer's handlers never write the ledger, so they cannot break "one queued update per id". */
  lemma ObserverKeepsLedger(s: State, doc: Doc, oldDoc: Doc, now: int)
    ensures TruthyId(doc.id) ==> ObserverAdded(s, doc, now).control == s.control && ObserverAdded(s, doc, now).saved == s.saved
    ensures TruthyId(Spread(oldDoc, doc).id) ==>
      ObserverChanged(s, doc, oldDoc, now).control == s.control && ObserverChanged(s, doc, oldDoc, now).saved == s.saved
    ensures ObserverRemoved(s, doc, now).control == s.control && ObserverRemoved(s, doc, now).saved == s.saved
  {
    if TruthyId(doc.id) { ObserverAddedKeepsLedger(s, doc, now); }
    if TruthyId(Spread(oldDoc, doc).id) { ObserverChangedKeepsLedger(s, doc, oldDoc, now); }
    ObserverRemovedKeepsStore(s, doc, now);
  }

  lemma ObserverAddedKeepsLedger(s: State, doc: Doc, now: int)
    requires TruthyId(doc.id)
    ensures ObserverAdded(s, doc, now).control == s.control && ObserverAdded(s, doc, now).saved == s.saved
  {
    var id := doc.id.value;
    var s1 := if id in s.list then s else s.(list := s.list + [id], store := s.store[id := doc]);
    SyncUpdateKeepsLedger(s1, doc.id, SetFields(doc), now, id);
  }

  lemma ObserverChangedKeepsLedger(s: State, doc: Doc, oldDoc: Doc, now: int)
    requires TruthyId(Spread(oldDoc, doc).id)
    ensures ObserverChanged(s, doc, oldDoc, now).control == s.control && ObserverChanged(s, doc, oldDoc, now).saved == s.saved
  {
    var merged := Spread(oldDoc, doc);
    var id := merged.id.value;
    var s1 := s.(list := AddKey(s.list, id), store := s.store[id := merged]);
    SyncUpdateKeepsLedger(s1, merged.id, SetFields(merged), now, id);
  }

  /**
   * Inbound entries: one without a truthy `_id` is skipped; a `removedServer` entry is a sync-originated
   * remove; any other is a sync-originated `$set` upsert, so the mirrored document carries
   * every field the server sent.
   */
  lemma ServerDocStepEffects(s: State, doc: Doc, now: int)
    ensures !TruthyId(doc.id) ==> ServerDocStep(s, doc, now) == s
    ensures TruthyId(doc.id) && Flag(doc, "removedServer") ==>
      ServerDocStep(s, doc, now) == Remove(s, doc, true, now).state && doc.id.value !in ServerDocStep(s, doc, now).docs
    ensures TruthyId(doc.id) && !Flag(doc, "removedServer") ==>
      var r := ServerDocStep(s, doc, now);
      && doc.id.value in r.docs && r.store[doc.id.value] == r.docs[doc.id.value]
      && (forall k :: k in doc.fields ==> r.docs[doc.id.value].fields[k] == doc.fields[k])
      && r.control == s.control
  {
    if TruthyId(doc.id) && !Flag(doc, "removedServer") {
      var id := doc.id.value;
      var base := if id in s.docs then Some(s.docs[id]) else None;
      UpsertedMerges(base, id, SetFields(doc));
      UpdateUpserts(s, id, SetFields(doc), true, now, id);
    }
  }

  lemma {:induction false} DropKeyIdempotent(list: seq<string>, id: Option<string>)
    ensures DropKey(DropKey(list, id), id) == DropKey(list, id)
  {
    if list != [] {
      DropKeyIdempotent(list[1..], id);
      if Some(list[0]) != id {
        assert DropKey(list, id)[1..] == DropKey(list[1..], id);
      }
    }
  }

  lemma {:induction false} WithoutIdempotent(docs: seq<Doc>, id: Option<string>)
    ensures Without(Without(docs, id), id) == Without(docs, id)
  {
    if docs != [] {
      WithoutIdempotent(docs[1..], id);
      if docs[0].id != id {
        assert Without(docs, id)[1..] == Without(docs[1..], id);
      }
    }
  }

  /** Replaying the same server document twice leaves the same state as replaying it once. */
  lemma ServerDocIdempotent(s: State, doc: Doc, now: int)
    ensures ServerDocStep(ServerDocStep(s, doc, now), doc, now) == ServerDocStep(s, doc, now)
  {
    if TruthyId(doc.id) {
      if Flag(doc, "removedServer") {
        ServerRemoveIdempotent(s, doc, now);
      } else {
        ServerUpsertIdempotent(s, doc, now);
      }
    }
  }

  lemma ServerRemoveIdempotent(s: State, doc: Doc, now: int)
    requires TruthyId(doc.id) && Flag(doc, "removedServer")
    ensures Remove(Remove(s, doc, true, now).state, doc, true, now).state == Remove(s, doc, true, now).state
  {
    var id := doc.id.value;
    if !Flag(doc, "removeOnly") {
      var l := Current(s, now);
      var l1 := l.(updatedDocs := Without(l.updatedDocs, doc.id));
      var s1 := s.(docs := s.docs - {id}, list := DropKey(s.list, doc.id), store := s.store - {id}, control := Some(l1), saved := Some(l1));
      assert Remove(s, doc, true, now).state == s1;
      DropKeyIdempotent(s.list, doc.id);
      WithoutIdempotent(l.updatedDocs, doc.id);
      assert s1.docs - {id} == s1.docs && s1.store - {id} == s1.store;
      assert Remove(s1, doc, true, now).state == s1;
    } else {
      assert Remove(s, doc, true, now).state == s.(docs := s.docs - {id});
    }
  }

  lemma ServerUpsertIdempotent(s: State, doc: Doc, now: int)
    requires TruthyId(doc.id) && !Flag(doc, "removedServer")
    ensures var id := doc.id.value;
      Update(Update(s, doc.id, SetFields(doc), true, now, id).state, doc.id, SetFields(doc), true, now, id).state
      == Update(s, doc.id, SetFields(doc), true, now, id).state
  {
    var id := doc.id.value;
    var nd := Doc(Some(id), (if id in s.docs then s.docs[id].fields else map[]) + doc.fields);
    SyncUpsert(s, doc, now);
    var s1 := s.(docs := s.docs[id := nd], store := s.store[id := nd]);
    SyncUpsert(s1, doc, now);
    MergeTwice(if id in s.docs then s.docs[id].fields else map[], doc.fields);
    assert s1.docs[id] == nd;
  }

  /** Merging the same fields a second time changes nothing. */
  lemma MergeTwice(base: map<string, Value>, fields: map<string, Value>)
    ensures (base + fields) + fields == base + fields
  {
  }

  /** A sync-originated `$set` upsert of a document on its own id merges it into the cached copy and stores the result. */
  lemma SyncUpsert(s: State, doc: Doc, now: int)
    requires TruthyId(doc.id)
    ensures var id := doc.id.value;
      var nd := Doc(Some(id), (if id in s.docs then s.docs[id].fields else map[]) + doc.fields);
      Update(s, doc.id, SetFields(doc), true, now, id).state == s.(docs := s.docs[id := nd], store := s.store[id := nd])
  {
  }

  /** The merged document a sync-originated upsert of `doc` stores. */
  function MergedOnSync(s: State, doc: Doc): Doc
    requires TruthyId(doc.id)
  {
    Doc(doc.id, (if doc.id.value in s.docs then s.docs[doc.id.value].fields else map[]) + doc.fields)
  }

  lemma ObserverAddedState(s: State, doc: Doc, now: int)
    requires TruthyId(doc.id)
    ensures var id := doc.id.value;
      var s1 := if id in s.list then s else s.(list := s.list + [id], store := s.store[id := doc]);
      ObserverAdded(s, doc, now) == s1.(docs := s1.docs[id := MergedOnSync(s1, doc)], store := s1.store[id := MergedOnSync(s1, doc)])
  {
    var id := doc.id.value;
    var s1 := if id in s.list then s else s.(list := s.list + [id], store := s.store[id := doc]);
    SyncUpsert(s1, doc, now);
  }

  lemma ObserverChangedSameState(s: State, doc: Doc, now: int)
    requires TruthyId(doc.id)
    ensures var id := doc.id.value;
      var s1 := s.(list := AddKey(s.list, id), store := s.store[id := doc]);
      ObserverChanged(s, doc, doc, now) == s1.(docs := s1.docs[id := MergedOnSync(s1, doc)], store := s1.store[id := MergedOnSync(s1, doc)])
  {
    assert Spread(doc, doc) == doc;
    var id := doc.id.value;
    var s1 := s.(list := AddKey(s.list, id), store := s.store[id := doc]);
    SyncUpsert(s1, doc, now);
  }

  /** After `added` the id is tracked, cached and stored identically, with the document merged in. */
  lemma ObserverAddedFacts(s: State, doc: Doc, now: int)
    requires TruthyId(doc.id)
    ensures var a := ObserverAdded(s, doc, now); var id := doc.id.value;
      && id in a.list && id in a.docs && id in a.store && a.store[id] == a.docs[id]
      && a.docs[id].id == doc.id && a.docs[id].fields + doc.fields == a.docs[id].fields
  {
    var id := doc.id.value;
    ObserverAddedState(s, doc, now);
    var s1 := if id in s.list then s else s.(list := s.list + [id], store := s.store[id := doc]);
    MergeTwice(if id in s1.docs then s1.docs[id].fields else map[], doc.fields);
  }

  /**
   * A server document that arrives as `added` and then again, unchanged, as `changed` leaves the
   * whole cache as the `added` alone left it.
   */
  lemma AddedThenChangedIsIdempotent(s: State, doc: Doc, now: int)
    requires TruthyId(doc.id)
    ensures ObserverChanged(ObserverAdded(s, doc, now), doc, doc, now) == ObserverAdded(s, doc, now)
  {
    ObserverAddedFacts(s, doc, now);
    ChangedWithMergedDocIsNoOp(ObserverAdded(s, doc, now), doc, now);
  }

  /** `changed` with a document already merged into a tracked, stored entry changes nothing. */
  lemma ChangedWithMergedDocIsNoOp(a: State, doc: Doc, now: int)
    requires TruthyId(doc.id)
    requires var id := doc.id.value;
      && id in a.list && id in a.docs && id in a.store && a.store[id] == a.docs[id]
      && a.docs[id].id == doc.id && a.docs[id].fields + doc.fields == a.docs[id].fields
    ensures ObserverChanged(a, doc, doc, now) == a
  {
    var id := doc.id.value;
    ObserverChangedSameState(a, doc, now);
    assert AddKey(a.list, id) == a.list;
    var s2 := a.(store := a.store[id := doc]);
    assert MergedOnSync(s2, doc) == a.docs[id];
    assert a.docs[id := a.docs[id]] == a.docs;
    assert a.store[id := doc][id := a.docs[id]] == a.store;
  }

  // ---------------------------------------------------------------- rehydration debounce

  /** Rehydration runs on the first call, or more than 60 000 ms after the previous call, if a callback asks or nothing is loaded yet. */
  lemma ShouldRehydrateIff(lastCallInit: Option<int>, now: int, hasCallback: bool, inited: bool)
    ensures ShouldRehydrate(lastCallInit, now, hasCallback, inited) <==>
      (lastCallInit.None? || now - lastCallInit.value > 60000) && (hasCallback || !inited)
  {
    if lastCallInit.Some? {
      var elapsed := (now - lastCallInit.value) as real;
      assert elapsed / 1000.0 > 60.0 <==> elapsed > 60000.0;
    }
  }
}
