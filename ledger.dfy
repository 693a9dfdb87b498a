/**
 * The control-store ledger of one cached collection: ids removed locally and not yet removed
 * upstream, documents changed locally and not yet uploaded, and the time of the last
 * client-to-server sync.
 */
module ControlLedger {
  import opened Wrappers
  import opened Documents

  /** Milliseconds in a day: `1000 * 3600 * 24`. */
  const MsPerDay: int := 1000 * 3600 * 24
  /** A ledger whose last client sync is older than this many days needs a sync. */
  const StaleAfterDays: int := 15

  /**
   * `removedDocs` holds `doc._id` exactly as it was pushed, so an id-less removal leaves a
   * `None` (JavaScript `undefined`) entry. An absent array is modelled as an empty one.
   */
  datatype Ledger = Ledger(removedDocs: seq<Option<string>>, updatedDocs: seq<Doc>, lastClientSync: Option<int>)

  /** The record `getControlStoreData` makes up while nothing has been loaded yet. */
  function Default(now: int): Ledger {
    Ledger([], [], Some(now))
  }

  /** `docs.filter(d => d._id !== id)`. */
  function Without(docs: seq<Doc>, id: Option<string>): (r: seq<Doc>)
    ensures |r| <= |docs|
    ensures forall d :: d in r ==> d in docs && d.id != id
    ensures forall d :: d in docs && d.id != id ==> d in r
  {
    if docs == [] then []
    else if docs[0].id != id then [docs[0]] + Without(docs[1..], id)
    else Without(docs[1..], id)
  }

  /** `updatedDocs` after `addUpdatedDocsIntoControlStoreData(doc)`: filter by id, then push. */
  function WithUpdated(docs: seq<Doc>, doc: Doc): seq<Doc> {
    Without(docs, doc.id) + [doc]
  }

  /** `removedDocs.filter(d => d !== id)`. */
  function WithoutRemoved(ids: seq<Option<string>>, id: Option<string>): (r: seq<Option<string>>)
    ensures forall x :: x in r <==> x in ids && x != id
  {
    if ids == [] then []
    else if ids[0] != id then [ids[0]] + WithoutRemoved(ids[1..], id)
    else WithoutRemoved(ids[1..], id)
  }

  /** How many queued documents carry `id`. */
  function CountId(docs: seq<Doc>, id: Option<string>): nat {
    if docs == [] then 0 else (if docs[0].id == id then 1 else 0) + CountId(docs[1..], id)
  }

  /** How many times `id` occurs in a removed-id list. */
  function Occurrences(ids: seq<Option<string>>, id: Option<string>): nat {
    if ids == [] then 0 else (if ids[0] == id then 1 else 0) + Occurrences(ids[1..], id)
  }

  /** At most one queued update per id. */
  predicate UniqueIds(docs: seq<Doc>) {
    forall i, j :: 0 <= i < j < |docs| ==> docs[i].id != docs[j].id
  }

  /** `a` is `b` with some elements left out, the rest in their original order. */
  predicate IsSubsequence<T(==)>(a: seq<T>, b: seq<T>) {
    if a == [] then true
    else if b == [] then false
    else if a[0] == b[0] then IsSubsequence(a[1..], b[1..])
    else IsSubsequence(a, b[1..])
  }

  /**
   * `needSync()`: something is queued, the last sync time is unset, or more than fifteen
   * days (real-valued division, as in JavaScript) have passed since it.
   */
  predicate NeedSync(l: Ledger, now: int) {
    || |l.removedDocs| > 0
    || |l.updatedDocs| > 0
    || l.lastClientSync.None?
    || (now - l.lastClientSync.value) as real / MsPerDay as real > StaleAfterDays as real
  }

  /** The staleness test is the integer comparison "more than 15 * 86 400 000 ms". */
  lemma NeedSyncIff(l: Ledger, now: int)
    ensures NeedSync(l, now) <==>
      (|l.removedDocs| > 0 || |l.updatedDocs| > 0 || l.lastClientSync.None?
       || now - l.lastClientSync.value > 1296000000)
  {
    if l.lastClientSync.Some? {
      var elapsed := (now - l.lastClientSync.value) as real;
      assert elapsed / 86400000.0 > 15.0 <==> elapsed > 1296000000.0;
    }
  }

  /** An empty ledger synced within the last fifteen days does not need a sync. */
  lemma FreshEmptyLedgerNeedsNoSync(last: int, now: int)
    requires last <= now <= last + StaleAfterDays * MsPerDay
    ensures !NeedSync(Ledger([], [], Some(last)), now)
  {
    NeedSyncIff(Ledger([], [], Some(last)), now);
  }

  /** Filtering keeps order: the result is a subsequence of the input. */
  lemma {:induction false} WithoutIsSubsequence(docs: seq<Doc>, id: Option<string>)
    ensures IsSubsequence(Without(docs, id), docs)
  {
    if docs != [] {
      WithoutIsSubsequence(docs[1..], id);
      if docs[0].id != id {
        assert Without(docs, id) == [docs[0]] + Without(docs[1..], id);
        assert (Without(docs, id))[1..] == Without(docs[1..], id);
      } else {
        var r := Without(docs[1..], id);
        if r != [] {
          SubsequenceOfTail(r, docs);
        }
      }
    }
  }

  /** A subsequence of the tail is a subsequence of the whole. */
  lemma {:induction false} SubsequenceOfTail<T>(a: seq<T>, b: seq<T>)
    requires b != [] && IsSubsequence(a, b[1..])
    ensures IsSubsequence(a, b)
    decreases |b|, 0
  {
    if a != [] && a[0] == b[0] {
      SubsequenceDropHead(a, b[1..]);
    }
  }

  /** If `a` is a subsequence of `b`, so is `a` without its first element. */
  lemma {:induction false} SubsequenceDropHead<T>(a: seq<T>, b: seq<T>)
    requires a != [] && IsSubsequence(a, b)
    ensures IsSubsequence(a[1..], b)
    decreases |b|, 1
  {
    if a[0] == b[0] {
      SubsequenceOfTail(a[1..], b);
    } else {
      SubsequenceDropHead(a, b[1..]);
      SubsequenceOfTail(a[1..], b);
    }
  }

  /** Every element of a subsequence is an element of the whole. */
  lemma {:induction false} SubsequenceMembers<T>(a: seq<T>, b: seq<T>)
    requires IsSubsequence(a, b)
    ensures forall x :: x in a ==> x in b
    decreases |b|
  {
    if a != [] {
      if a[0] == b[0] {
        SubsequenceMembers(a[1..], b[1..]);
        forall x | x in a ensures x in b {
          if x != a[0] { assert x in a[1..]; assert x in b[1..]; }
        }
      } else {
        SubsequenceMembers(a, b[1..]);
        forall x | x in a ensures x in b { assert x in b[1..]; }
      }
    }
  }

  /** A subsequence of a queue with one update per id has one update per id. */
  lemma {:induction false} SubsequenceKeepsUnique(a: seq<Doc>, b: seq<Doc>)
    requires IsSubsequence(a, b) && UniqueIds(b)
    ensures UniqueIds(a)
    decreases |b|
  {
    if a != [] {
      assert UniqueIds(b[1..]) by {
        forall i, j | 0 <= i < j < |b| - 1 ensures b[1..][i].id != b[1..][j].id {
          assert b[1..][i] == b[i + 1] && b[1..][j] == b[j + 1];
        }
      }
      if a[0] == b[0] {
        SubsequenceKeepsUnique(a[1..], b[1..]);
        SubsequenceMembers(a[1..], b[1..]);
        forall i, j | 0 <= i < j < |a| ensures a[i].id != a[j].id {
          if i == 0 {
            assert a[j] == a[1..][j - 1] && a[j] in b[1..];
            var k :| 0 <= k < |b[1..]| && b[1..][k] == a[j];
            assert b[k + 1] == a[j];
          } else {
            assert a[i] == a[1..][i - 1] && a[j] == a[1..][j - 1];
          }
        }
      } else {
        SubsequenceKeepsUnique(a, b[1..]);
      }
    }
  }

  /** No entry of the filtered list carries the filtered id. */
  lemma {:induction false} WithoutCount(docs: seq<Doc>, id: Option<string>)
    ensures CountId(Without(docs, id), id) == 0
    ensures forall other :: other != id ==> CountId(Without(docs, id), other) == CountId(docs, other)
  {
    if docs != [] {
      WithoutCount(docs[1..], id);
      if docs[0].id != id {
        assert Without(docs, id) == [docs[0]] + Without(docs[1..], id);
        assert (Without(docs, id))[1..] == Without(docs[1..], id);
      }
    }
  }

  /** Counting over a concatenation. */
  lemma {:induction false} CountIdAppend(a: seq<Doc>, b: seq<Doc>, id: Option<string>)
    ensures CountId(a + b, id) == CountId(a, id) + CountId(b, id)
  {
    if a != [] {
      assert (a + b)[1..] == a[1..] + b;
      CountIdAppend(a[1..], b, id);
    } else {
      assert a + b == b;
    }
  }

  /**
   * `addUpdatedDocsIntoControlStoreData(doc)`: afterwards exactly one queued entry has
   * `doc._id` and it is the last one, holding `doc` itself; entries with other ids are kept,
   * in their original order, with their counts unchanged.
   */
  lemma WithUpdatedQueuesOnce(docs: seq<Doc>, doc: Doc)
    ensures var r := WithUpdated(docs, doc);
      && |r| > 0 && r[|r| - 1] == doc
      && CountId(r, doc.id) == 1
      && IsSubsequence(r[..|r| - 1], docs)
      && (forall other :: other != doc.id ==> CountId(r, other) == CountId(docs, other))
      && (forall d: Doc :: d.id != doc.id ==> (d in r <==> d in docs))
  {
    var w := Without(docs, doc.id);
    var r := w + [doc];
    WithoutCount(docs, doc.id);
    CountIdAppend(w, [doc], doc.id);
    assert [doc][1..] == [];
    forall other | other != doc.id
      ensures CountId(r, other) == CountId(docs, other)
    {
      CountIdAppend(w, [doc], other);
    }
    assert r[..|r| - 1] == w;
    WithoutIsSubsequence(docs, doc.id);
  }

  /** Distinct ids stay distinct under filtering. */
  lemma WithoutKeepsUnique(docs: seq<Doc>, id: Option<string>)
    requires UniqueIds(docs)
    ensures UniqueIds(Without(docs, id))
  {
    WithoutIsSubsequence(docs, id);
    SubsequenceKeepsUnique(Without(docs, id), docs);
  }

  /** Queuing an update keeps "at most one queued update per id". */
  lemma WithUpdatedKeepsUnique(docs: seq<Doc>, doc: Doc)
    requires UniqueIds(docs)
    ensures UniqueIds(WithUpdated(docs, doc))
  {
    var w := Without(docs, doc.id);
    WithoutKeepsUnique(docs, doc.id);
    var r := w + [doc];
    forall i, j | 0 <= i < j < |r|
      ensures r[i].id != r[j].id
    {
      if j == |r| - 1 {
        assert r[i] == w[i] && r[i] in w;
      } else {
        assert r[i] == w[i] && r[j] == w[j];
      }
    }
  }

  /** `removedDocs.push(id)` does not de-duplicate: every removal adds one occurrence. */
  lemma {:induction false} AppendRemovedAddsOccurrence(ids: seq<Option<string>>, id: Option<string>)
    ensures Occurrences(ids + [id], id) == Occurrences(ids, id) + 1
  {
    if ids == [] {
      assert [] + [id] == [id];
      assert [id][1..] == [];
    } else {
      assert (ids + [id])[1..] == ids[1..] + [id];
      AppendRemovedAddsOccurrence(ids[1..], id);
    }
  }

  /** `removedDocs.filter(d => d !== id)` drops every occurrence of `id` and keeps every other one. */
  lemma {:induction false} WithoutRemovedOccurrences(ids: seq<Option<string>>, id: Option<string>, x: Option<string>)
    ensures Occurrences(WithoutRemoved(ids, id), x) == if x == id then 0 else Occurrences(ids, x)
  {
    if ids != [] {
      WithoutRemovedOccurrences(ids[1..], id, x);
      if ids[0] != id {
        assert WithoutRemoved(ids, id)[1..] == WithoutRemoved(ids[1..], id);
      }
    }
  }

  /** The removal filter keeps order: the result is a subsequence of the queue. */
  lemma {:induction false} WithoutRemovedIsSubsequence(ids: seq<Option<string>>, id: Option<string>)
    ensures IsSubsequence(WithoutRemoved(ids, id), ids)
  {
    if ids != [] {
      WithoutRemovedIsSubsequence(ids[1..], id);
      if ids[0] != id {
        assert WithoutRemoved(ids, id)[1..] == WithoutRemoved(ids[1..], id);
      } else if WithoutRemoved(ids[1..], id) != [] {
        SubsequenceOfTail(WithoutRemoved(ids[1..], id), ids);
      }
    }
  }

  /** The pending removals left once every id in `gone` has been dropped, order kept. */
  function RemovedExcept(ids: seq<Option<string>>, gone: set<Option<string>>): (r: seq<Option<string>>)
    ensures forall x :: x in r <==> x in ids && x !in gone
  {
    if ids == [] then []
    else if ids[0] !in gone then [ids[0]] + RemovedExcept(ids[1..], gone)
    else RemovedExcept(ids[1..], gone)
  }

  /** The queued updates left once every id in `gone` has been dropped, order kept. */
  function UpdatedExcept(docs: seq<Doc>, gone: set<Option<string>>): (r: seq<Doc>)
    ensures forall d :: d in r <==> d in docs && d.id !in gone
  {
    if docs == [] then []
    else if docs[0].id !in gone then [docs[0]] + UpdatedExcept(docs[1..], gone)
    else UpdatedExcept(docs[1..], gone)
  }

  /** Dropping one more id from a filtered removal queue is filtering by the larger set. */
  lemma {:induction false} RemovedExceptStep(ids: seq<Option<string>>, gone: set<Option<string>>, id: Option<string>)
    ensures WithoutRemoved(RemovedExcept(ids, gone), id) == RemovedExcept(ids, gone + {id})
    ensures RemovedExcept(ids, {}) == ids
  {
    if ids != [] {
      RemovedExceptStep(ids[1..], gone, id);
      assert ids == [ids[0]] + ids[1..];
    }
  }

  lemma {:induction false} UpdatedExceptStep(docs: seq<Doc>, gone: set<Option<string>>, id: Option<string>)
    ensures Without(UpdatedExcept(docs, gone), id) == UpdatedExcept(docs, gone + {id})
    ensures UpdatedExcept(docs, {}) == docs
  {
    if docs != [] {
      UpdatedExceptStep(docs[1..], gone, id);
      assert docs == [docs[0]] + docs[1..];
    }
  }

  /** Filtering out every id a queue holds empties it. */
  lemma {:induction false} RemovedExceptAll(ids: seq<Option<string>>, gone: set<Option<string>>)
    requires forall x :: x in ids ==> x in gone
    ensures RemovedExcept(ids, gone) == []
  {
    if ids != [] {
      assert ids[0] in ids;
      RemovedExceptAll(ids[1..], gone);
    }
  }

  lemma {:induction false} UpdatedExceptAll(docs: seq<Doc>, gone: set<Option<string>>)
    requires forall d :: d in docs ==> d.id in gone
    ensures UpdatedExcept(docs, gone) == []
  {
    if docs != [] {
      assert docs[0] in docs;
      UpdatedExceptAll(docs[1..], gone);
    }
  }

  /** The replayed removal queue keeps its surviving entries in their original order. */
  lemma {:induction false} RemovedExceptIsSubsequence(ids: seq<Option<string>>, gone: set<Option<string>>)
    ensures IsSubsequence(RemovedExcept(ids, gone), ids)
  {
    if ids != [] {
      RemovedExceptIsSubsequence(ids[1..], gone);
      if ids[0] !in gone {
        assert RemovedExcept(ids, gone)[1..] == RemovedExcept(ids[1..], gone);
      } else if RemovedExcept(ids[1..], gone) != [] {
        SubsequenceOfTail(RemovedExcept(ids[1..], gone), ids);
      }
    }
  }

  /** Every occurrence of a dropped id goes, every occurrence of any other id stays. */
  lemma {:induction false} RemovedExceptOccurrences(ids: seq<Option<string>>, gone: set<Option<string>>, x: Option<string>)
    ensures Occurrences(RemovedExcept(ids, gone), x) == if x in gone then 0 else Occurrences(ids, x)
  {
    if ids != [] {
      RemovedExceptOccurrences(ids[1..], gone, x);
      if ids[0] !in gone {
        assert RemovedExcept(ids, gone)[1..] == RemovedExcept(ids[1..], gone);
      }
    }
  }

  /** The replayed update queue keeps its surviving entries in their original order. */
  lemma {:induction false} UpdatedExceptIsSubsequence(docs: seq<Doc>, gone: set<Option<string>>)
    ensures IsSubsequence(UpdatedExcept(docs, gone), docs)
  {
    if docs != [] {
      UpdatedExceptIsSubsequence(docs[1..], gone);
      if docs[0].id !in gone {
        assert UpdatedExcept(docs, gone)[1..] == UpdatedExcept(docs[1..], gone);
      } else if UpdatedExcept(docs[1..], gone) != [] {
        SubsequenceOfTail(UpdatedExcept(docs[1..], gone), docs);
      }
    }
  }

  /** Every queued update of a dropped id goes, every queued update of any other id stays. */
  lemma {:induction false} UpdatedExceptCount(docs: seq<Doc>, gone: set<Option<string>>, x: Option<string>)
    ensures CountId(UpdatedExcept(docs, gone), x) == if x in gone then 0 else CountId(docs, x)
  {
    if docs != [] {
      UpdatedExceptCount(docs[1..], gone, x);
      if docs[0].id !in gone {
        assert UpdatedExcept(docs, gone)[1..] == UpdatedExcept(docs[1..], gone);
      }
    }
  }

  /** Filtering the update queue by ids keeps "at most one queued update per id". */
  lemma UpdatedExceptKeepsUnique(docs: seq<Doc>, gone: set<Option<string>>)
    requires UniqueIds(docs)
    ensures UniqueIds(UpdatedExcept(docs, gone))
  {
    UpdatedExceptIsSubsequence(docs, gone);
    SubsequenceKeepsUnique(UpdatedExcept(docs, gone), docs);
  }
}
