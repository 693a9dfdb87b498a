/**
 * The offline cache of one collection as a state machine: the in-memory collection, the durable
 * key/document store, the tracked-key list, the ledger in memory and the ledger as last
 * persisted. Each function is one operation of `PersistentMinimongoStorage` with storage made
 * synchronous; the class in module Storage is proved to follow these functions step by step.
 */
module MirrorSpec {
  import opened Wrappers
  import opened Documents
  import opened ControlLedger

  datatype State = State(
    docs: map<string, Doc>,     // in-memory collection, by `_id`
    store: map<string, Doc>,    // durable per-collection store, by key
    list: seq<string>,          // tracked-key list
    control: Option<Ledger>,    // `controlStoreData`, None until loaded or first written
    saved: Option<Ledger>,      // the control record as last persisted under 'config'
    lastCallInit: Option<int>,  // time of the last `initCachedMinimongo` call
    inited: bool)               // the "initialized" flag

  /** What happened to the operation's callback: not invoked, `callback(null, value)`, or `callback(e)`. */
  datatype Callback<T> = NotCalled | Succeeded(value: T) | Failed

  datatype Step<T> = Step(state: State, callback: Callback<T>)

  /** A Minimongo modifier: `{$set: fields}`, or a whole replacement document. */
  datatype Modifier = SetFields(fields: Doc) | Replace(doc: Doc)

  /** What an injected remote function passed to its callback: an error, or a result. */
  datatype Reply = Error | Done(serverDoc: Option<Doc>)

  predicate NoDuplicates(list: seq<string>) {
    forall i, j :: 0 <= i < j < |list| ==> list[i] != list[j]
  }

  /** The tracked-key list has no duplicate and every tracked key is in the durable store. */
  predicate Valid(s: State) {
    NoDuplicates(s.list) && forall k :: k in s.list ==> k in s.store
  }

  // ---------------------------------------------------------------- ledger access

  /** `getControlStoreData()`: the loaded record, or a fresh default whose last sync is now. */
  function Current(s: State, now: int): Ledger {
    if s.control.Some? then s.control.value else Default(now)
  }

  /** `updateControlStoreData(record)` with a complete record: persist it and keep it in memory. */
  function Persist(s: State, l: Ledger): State {
    s.(control := Some(l), saved := Some(l))
  }

  function AddUpdatedDocs(s: State, doc: Doc, now: int): State {
    var l := Current(s, now);
    Persist(s, l.(updatedDocs := WithUpdated(l.updatedDocs, doc)))
  }

  function DelUpdatedDocs(s: State, id: Option<string>, now: int): State {
    var l := Current(s, now);
    Persist(s, l.(updatedDocs := Without(l.updatedDocs, id)))
  }

  function AddRemovedDoc(s: State, id: Option<string>, now: int): State {
    var l := Current(s, now);
    Persist(s, l.(removedDocs := l.removedDocs + [id]))
  }

  function DelRemovedDoc(s: State, id: Option<string>, now: int): State {
    var l := Current(s, now);
    Persist(s, l.(removedDocs := WithoutRemoved(l.removedDocs, id)))
  }

  /** `updateSyncHistory()`: the history itself is not modelled; the record is persisted as it is. */
  function TouchHistory(s: State, now: int): State {
    Persist(s, Current(s, now))
  }

  /** `updateControlStoreData({lastClientSync: now})`: spread over the loaded record, or over nothing. */
  function MarkClientSync(s: State, now: int): State {
    var base := if s.control.Some? then s.control.value else Ledger([], [], None);
    Persist(s, base.(lastClientSync := Some(now)))
  }

  /** The asynchronous load of `initControlStore`: defaults overridden by the persisted record. */
  function InitControlStore(s: State, now: int): State {
    if s.control.Some? then s
    else
      var loaded := match s.saved
        case None => Default(now)
        case Some(l) => l.(lastClientSync := if l.lastClientSync.Some? then l.lastClientSync else Some(now));
      s.(control := Some(loaded))
  }

  /**
   * A truthy `_id`: defined and not the empty string. Meteor refuses to insert a document whose
   * `_id` is present but falsy, and rewrites a selector with a falsy `_id` into one on a freshly
   * generated id, which matches nothing.
   */
  predicate TruthyId(id: Option<string>) {
    id.Some? && id.value != ""
  }

  // ---------------------------------------------------------------- tracked keys

  /** Push `id` unless it is already tracked. */
  function AddKey(list: seq<string>, id: string): seq<string> {
    if id in list then list else list + [id]
  }

  /** `list.filter(key => key !== id)`; an undefined id matches no key. */
  function DropKey(list: seq<string>, id: Option<string>): (r: seq<string>)
    ensures forall k :: k in r <==> k in list && Some(k) != id
    ensures |r| <= |list|
  {
    if list == [] then []
    else if Some(list[0]) != id then [list[0]] + DropKey(list[1..], id)
    else DropKey(list[1..], id)
  }

  // ---------------------------------------------------------------- intercepted mutations

  /**
   * Overridden `insert(doc, callback, updateFromSync)`. `freshId` is the id Minimongo would
   * generate for a document without `_id`. The document is persisted before it is stamped, so
   * only the ledger's copy carries the new `lastupdate`. An empty-string `_id` makes Meteor's
   * insert throw, which the callback reports.
   */
  function Insert(s: State, doc: Doc, fromSync: bool, now: int, freshId: string): Step<string> {
    if IsEmpty(doc) then Step(s, NotCalled)
    else if doc.id == Some("") then Step(s, Failed)
    else
      var id := doc.id.GetOr(freshId);
      if id in s.docs then Step(s, Failed)   // Minimongo refuses a duplicate _id
      else
        var stored := doc.(id := Some(id));
        var s1 := s.(docs := s.docs[id := stored], list := AddKey(s.list, id), store := s.store[id := stored]);
        if fromSync then Step(s1, Succeeded(id))
        else Step(AddUpdatedDocs(s1, Stamped(stored, now), now), Succeeded(id))
  }

  /** `Object.keys(modifier).length === 0`; a `$set` modifier always has its one key. */
  predicate ModifierIsEmpty(m: Modifier) {
    m.Replace? && IsEmpty(m.doc)
  }

  /**
   * Minimongo's upsert on `{_id: target}`: None when it throws because the modifier would
   * change `_id`.
   */
  function Upserted(base: Option<Doc>, target: string, m: Modifier): Option<Doc> {
    match m
    case SetFields(f) =>
      if f.id.Some? && f.id != Some(target) then None
      else Some(Doc(Some(target), (if base.Some? then base.value.fields else map[]) + f.fields))
    case Replace(r) =>
      if r.id.Some? && r.id != Some(target) then None
      else Some(Doc(Some(target), r.fields))
  }

  /**
   * Overridden `update({_id: selector}, modifier, options, callback, updateFromSync)`, always
   * with `upsert: true`. An undefined or empty selector id makes Meteor upsert under a generated
   * id (`freshId`) that the following `findOne` cannot find, so nothing else happens.
   */
  function Update(s: State, selector: Option<string>, m: Modifier, fromSync: bool, now: int, freshId: string): Step<Doc> {
    if ModifierIsEmpty(m) then Step(s, NotCalled)
    else
      var target := if TruthyId(selector) then selector.value else freshId;
      var base := if target in s.docs then Some(s.docs[target]) else None;
      match Upserted(base, target, m)
      case None => Step(s, Failed)
      case Some(newDoc) =>
        var s1 := s.(docs := s.docs[target := newDoc]);
        if !TruthyId(selector) then Step(s1, NotCalled)
        else
          var s2 := s1.(store := s1.store[target := newDoc]);
          if fromSync then Step(s2, Succeeded(newDoc))
          else
            var stamped := Stamped(newDoc, now);
            Step(AddUpdatedDocs(s2, stamped, now), Succeeded(stamped))
  }

  /**
   * Overridden `remove(doc, callback, removeFromSync)`. The in-memory record always goes (a
   * falsy `_id` selects nothing); without `removeOnly` the key, the stored copy and any queued
   * update go too, and only a local removal queues the id for upstream deletion.
   */
  function Remove(s: State, doc: Doc, fromSync: bool, now: int): Step<bool> {
    if IsEmpty(doc) then Step(s, NotCalled)
    else
      var s1 := s.(docs := if TruthyId(doc.id) then s.docs - {doc.id.value} else s.docs);
      if Flag(doc, "removeOnly") then Step(s1, Succeeded(true))
      else
        var s2 := s1.(list := DropKey(s1.list, doc.id),
                      store := if doc.id.Some? then s1.store - {doc.id.value} else s1.store);
        var s3 := DelUpdatedDocs(s2, doc.id, now);
        var s4 := if fromSync then s3 else AddRemovedDoc(s3, doc.id, now);
        Step(s4, Succeeded(true))
  }

  /** The keys of a tracked-key list, as a set. */
  function KeySet(list: seq<string>): set<string> {
    set k | k in list
  }

  /** `clear()`: every tracked key leaves the store and the in-memory collection; the list empties. */
  function Clear(s: State): State {
    s.(docs := s.docs - KeySet(s.list), store := s.store - KeySet(s.list), list := [])
  }

  // ---------------------------------------------------------------- observer of the server collection

  /**
   * `added(doc)`: track and persist a new id, then mirror it as a sync-originated `$set` upsert.
   * Documents of the server collection carry the truthy `_id` Meteor's insert demanded.
   */
  function ObserverAdded(s: State, doc: Doc, now: int): State
    requires TruthyId(doc.id)
  {
    var id := doc.id.value;
    var s1 := if id in s.list then s else s.(list := s.list + [id], store := s.store[id := doc]);
    Update(s1, doc.id, SetFields(doc), true, now, id).state
  }

  /** `changed(newDoc, oldDoc)`: merge, persist, track if new, mirror as a sync-originated upsert. */
  function ObserverChanged(s: State, newDoc: Doc, oldDoc: Doc, now: int): State
    requires TruthyId(Spread(oldDoc, newDoc).id)
  {
    var doc := Spread(oldDoc, newDoc);
    var id := doc.id.value;
    var s1 := s.(list := AddKey(s.list, id), store := s.store[id := doc]);
    Update(s1, doc.id, SetFields(doc), true, now, id).state
  }

  /** `removed(doc)`: `remove({_id, removeOnly: true})`, which drops only the in-memory record. */
  function ObserverRemoved(s: State, doc: Doc, now: int): State {
    Remove(s, Doc(doc.id, map["removeOnly" := Bool(true)]), false, now).state
  }

  // ---------------------------------------------------------------- sync engine

  /** Outbound replay of removals over `ids`; `replies(i)` is what the remote call for `ids[i]` answered. */
  function ReplayRemoved(s: State, ids: seq<Option<string>>, replies: nat -> Reply, now: int): State
    decreases |ids|
  {
    if ids == [] then s
    else
      var i := |ids| - 1;
      var prev := ReplayRemoved(s, ids[..i], replies, now);
      if replies(i).Error? then TouchHistory(prev, now) else DelRemovedDoc(prev, ids[i], now)
  }

  /** One callback of `syncUpdatedDocs` for the queued document `doc`. */
  function UpdateReplyStep(s: State, doc: Doc, reply: Reply, freshId: string, now: int): State {
    match reply
    case Error => TouchHistory(s, now)
    case Done(None) => s
    case Done(Some(sd)) =>
      if Flag(sd, "removedServer") then Remove(s, sd, true, now).state
      else
        var server := sd.(fields := sd.fields - {"updatedServer"});
        var s1 := DelUpdatedDocs(s, doc.id, now);
        Update(s1, server.id, SetFields(server), true, now, freshId).state
  }

  /** Outbound replay of queued updates over `docs`, in order. */
  function ReplayUpdated(s: State, docs: seq<Doc>, replies: nat -> Reply, freshIds: nat -> string, now: int): State
    decreases |docs|
  {
    if docs == [] then s
    else
      var i := |docs| - 1;
      UpdateReplyStep(ReplayUpdated(s, docs[..i], replies, freshIds, now), docs[i], replies(i), freshIds(i), now)
  }

  /**
   * `syncFromClient(removeFunction?, updateFunction?)`: replay removals, then updates (each over
   * the ledger as it is when that replay starts), then record `lastClientSync = now`.
   */
  function SyncFromClient(s: State, removeReplies: Option<nat -> Reply>, updateReplies: Option<nat -> Reply>,
                          freshIds: nat -> string, now: int): State
  {
    var s1 := if removeReplies.Some? then ReplayRemoved(s, Current(s, now).removedDocs, removeReplies.value, now) else s;
    var s2 := if updateReplies.Some? then ReplayUpdated(s1, Current(s1, now).updatedDocs, updateReplies.value, freshIds, now) else s1;
    MarkClientSync(s2, now)
  }

  /** One entry of `syncFromServer`; an undefined or empty `_id` is falsy and skipped. */
  function ServerDocStep(s: State, doc: Doc, now: int): State {
    if !TruthyId(doc.id) then s
    else if Flag(doc, "removedServer") then Remove(s, doc, true, now).state
    else Update(s, doc.id, SetFields(doc), true, now, doc.id.value).state
  }

  /** `syncFromServer(serverDocs)`: inbound replay, in order. */
  function SyncFromServer(s: State, docs: seq<Doc>, now: int): State
    decreases |docs|
  {
    if docs == [] then s
    else ServerDocStep(SyncFromServer(s, docs[..|docs| - 1], now), docs[|docs| - 1], now)
  }

  // ---------------------------------------------------------------- rehydration debounce

  /** Rehydrate when more than 60 s (real-valued) passed since the last call, or on the first call. */
  predicate ShouldRehydrate(lastCallInit: Option<int>, now: int, hasCallback: bool, inited: bool) {
    var seconds := if lastCallInit.Some? then (now - lastCallInit.value) as real / 1000.0 else 61.0;
    seconds > 60.0 && (hasCallback || !inited)
  }
}
