/**
 * The `OfflineBaseApi` facade over the offline cache: how `callMethod` routes a call by
 * connectivity, how `callOfflineMethod` turns an offline update into a merged replacement, and
 * when `subscribe` replays the ledger first.
 */
module OfflineApi {
  import opened Wrappers
  import opened Documents
  import opened ControlLedger
  import MirrorSpec
  import MirrorProps
  import Storage

  /** The three collection methods that have an offline path. */
  datatype OfflineOp = InsertOp | UpdateOp | RemoveOp

  /** What `callMethod` does with a call. */
  datatype Route =
    | Remote              // `Meteor.call` on the server method
    | Offline(op: OfflineOp)  // `callOfflineMethod` against the cache
    | NotOffline          // waiting, but the method has no offline path: only a console message
    | Dropped             // disconnected and not waiting: nothing at all happens

  function OpName(op: OfflineOp): string {
    match op
    case InsertOp => "insert"
    case UpdateOp => "update"
    case RemoveOp => "remove"
  }

  function OfflineOpNamed(name: string): (r: Option<OfflineOp>)
    ensures r.Some? <==> name in {"insert", "update", "remove"}
    ensures r.Some? ==> OpName(r.value) == name
  {
    if name == "insert" then Some(InsertOp)
    else if name == "update" then Some(UpdateOp)
    else if name == "remove" then Some(RemoveOp)
    else None
  }

  /** `callMethod(name, ...)`'s decision, from `Meteor.status()`. */
  function RouteCall(name: string, connected: bool, status: string): (r: Route)
    ensures r == Remote <==> connected
    ensures r.Offline? <==> !connected && status == "waiting" && name in {"insert", "update", "remove"}
    ensures r.Offline? ==> OpName(r.op) == name
    ensures r == Dropped <==> !connected && status != "waiting"
  {
    if connected then Remote
    else if status == "waiting" then
      match OfflineOpNamed(name)
      case Some(op) => Offline(op)
      case None => NotOffline
    else Dropped
  }

  /** `persistentCollectionInstance.findOne({_id})`; an undefined id finds nothing. */
  function LocalFind(docs: map<string, Doc>, id: Option<string>): (r: Option<Doc>)
    ensures r.Some? <==> id.Some? && id.value in docs
    ensures r.Some? ==> r.value == docs[id.value]
  {
    if id.Some? && id.value in docs then Some(docs[id.value]) else None
  }

  /** The callback an offline call reaches, by operation. */
  datatype CallResult =
    | Inserted(inserted: MirrorSpec.Callback<string>)
    | Updated(updated: MirrorSpec.Callback<Doc>)
    | Removed(removed: MirrorSpec.Callback<bool>)

  /**
   * `callOfflineMethod(name, docObj)`: insert and remove go straight to the cache; update reads
   * the previous document (from the server's client mirror when connected, else from the cache)
   * and sends `{...oldDoc, ...docObj}` as a replacement for `{_id: docObj._id}`.
   */
  function OfflineCall(s: MirrorSpec.State, op: OfflineOp, docObj: Doc, connected: bool, serverCopy: Option<Doc>,
                       now: int, freshId: string): (CallResult, MirrorSpec.State)
  {
    match op
    case InsertOp =>
      var st := MirrorSpec.Insert(s, docObj, false, now, freshId);
      (Inserted(st.callback), st.state)
    case RemoveOp =>
      var st := MirrorSpec.Remove(s, docObj, false, now);
      (Removed(st.callback), st.state)
    case UpdateOp =>
      var oldDoc := if connected then serverCopy else LocalFind(s.docs, docObj.id);
      var merged := Spread(oldDoc.GetOr(EmptyDoc), docObj);
      var st := MirrorSpec.Update(s, docObj.id, MirrorSpec.Replace(merged), false, now, freshId);
      (Updated(st.callback), st.state)
  }

  /**
   * An offline update of a cached document keeps every field the caller did not send, takes
   * every field it did send, stores the result and queues it, stamped, as the id's only
   * pending update. (Cached ids are truthy: generated ids are never empty, and an empty `_id`
   * selects nothing, as `MirrorProps.UpdateWithoutIdIsSilent` states.)
   */
  lemma OfflineUpdateMergesCachedDoc(s: MirrorSpec.State, id: string, fields: map<string, Value>, now: int, freshId: string)
    requires id in s.docs && id != ""
    ensures var r := OfflineCall(s, UpdateOp, Doc(Some(id), fields), false, None, now, freshId);
      var nd := r.1.docs[id];
      && id in r.1.docs && r.1.store[id] == nd
      && (forall k :: k in fields ==> k in nd.fields && nd.fields[k] == fields[k])
      && (forall k :: k in s.docs[id].fields && k !in fields ==> k in nd.fields && nd.fields[k] == s.docs[id].fields[k])
      && (forall k :: k in nd.fields ==> k in fields || k in s.docs[id].fields)
      && r.0 == Updated(MirrorSpec.Succeeded(Stamped(nd, now)))
      && var q := MirrorSpec.Current(r.1, now).updatedDocs;
         |q| > 0 && q[|q| - 1] == Stamped(nd, now) && CountId(q, Some(id)) == 1
  {
    var docObj := Doc(Some(id), fields);
    var merged := Spread(s.docs[id], docObj);
    MirrorProps.UpsertedMerges(Some(s.docs[id]), id, MirrorSpec.Replace(merged));
    MirrorProps.UpdateUpserts(s, id, MirrorSpec.Replace(merged), false, now, freshId);
  }

  /** What `subscribe` does on the client. */
  datatype SubscribeAction = LocalHandle | ServerSubscription(syncFirst: bool)

  /**
   * `subscribe`: while waiting for a connection the caller gets a handle whose readiness is
   * the cache's; otherwise it subscribes, replaying the ledger first only when a sync is due
   * and the client is connected.
   */
  function SubscribePlan(status: string, connected: bool, needSync: bool): (a: SubscribeAction)
    ensures a == LocalHandle <==> status == "waiting"
    ensures a.ServerSubscription? ==> (a.syncFirst <==> needSync && connected)
  {
    if status != "waiting" then ServerSubscription(needSync && connected) else LocalHandle
  }

  class OfflineBaseApi {
    /** The cache behind `persistentCollectionInstance`. */
    var minimongoStorage: Storage.PersistentMinimongoStorage

    ghost predicate Valid()
      reads this, minimongoStorage
    {
      minimongoStorage.Valid()
    }

    constructor (storage: Storage.PersistentMinimongoStorage)
      ensures minimongoStorage == storage
    {
      minimongoStorage := storage;
    }

    /** `callOfflineMethod(name, docObj, callback)`. */
    method CallOfflineMethod(op: OfflineOp, docObj: Doc, connected: bool, serverCopy: Option<Doc>, now: int, freshId: string)
      returns (result: CallResult)
      requires Valid()
      modifies minimongoStorage
      ensures (result, minimongoStorage.State()) == OfflineCall(old(minimongoStorage.State()), op, docObj, connected, serverCopy, now, freshId)
      ensures Valid()
    {
      var storage := minimongoStorage;
      match op {
        case InsertOp =>
          var cb := storage.Insert(docObj, false, now, freshId);
          result := Inserted(cb);
        case RemoveOp =>
          var cb := storage.Remove(docObj, false, now);
          result := Removed(cb);
        case UpdateOp =>
          var oldDoc := if connected then serverCopy else LocalFind(storage.docs, docObj.id);
          var merged := Spread(oldDoc.GetOr(EmptyDoc), docObj);
          var cb := storage.Update(docObj.id, MirrorSpec.Replace(merged), false, now, freshId);
          result := Updated(cb);
      }
    }

    /**
     * `callMethod(name, docObj, callback)`: a connected call goes to the server and leaves the
     * cache alone; a waiting one with an offline path runs against the cache.
     */
    method CallMethod(name: string, docObj: Doc, connected: bool, status: string, serverCopy: Option<Doc>, now: int, freshId: string)
      returns (route: Route, result: Option<CallResult>)
      requires Valid()
      modifies minimongoStorage
      ensures route == RouteCall(name, connected, status)
      ensures route.Offline? ==>
        result.Some? && (result.value, minimongoStorage.State()) == OfflineCall(old(minimongoStorage.State()), route.op, docObj, connected, serverCopy, now, freshId)
      ensures !route.Offline? ==> result.None? && minimongoStorage.State() == old(minimongoStorage.State())
      ensures Valid()
    {
      route := RouteCall(name, connected, status);
      result := None;
      if route.Offline? {
        var r := CallOfflineMethod(route.op, docObj, connected, serverCopy, now, freshId);
        result := Some(r);
      }
    }

    /**
     * `subscribe()` on the client: when a sync is due and possible, replay the ledger through
     * the server's remove and sync methods (whose answers are `removeReplies` and
     * `updateReplies`) before subscribing.
     */
    method Subscribe(status: string, connected: bool, removeReplies: nat -> MirrorSpec.Reply, updateReplies: nat -> MirrorSpec.Reply,
                     freshIds: nat -> string, now: int) returns (action: SubscribeAction)
      requires Valid()
      modifies minimongoStorage
      ensures action == SubscribePlan(status, connected, old(minimongoStorage.NeedSync(now)))
      ensures action == ServerSubscription(true) ==>
        minimongoStorage.State() == MirrorSpec.SyncFromClient(old(minimongoStorage.State()), Some(removeReplies), Some(updateReplies), freshIds, now)
      ensures action != ServerSubscription(true) ==> minimongoStorage.State() == old(minimongoStorage.State())
      ensures Valid()
    {
      action := SubscribePlan(status, connected, minimongoStorage.NeedSync(now));
      if action == ServerSubscription(true) {
        minimongoStorage.SyncFromClient(Some(removeReplies), Some(updateReplies), freshIds, now);
      }
    }
  }
}
