/**
 * What the three repository services need from the search engine, with a collection
 * abstracted as a finite map from document key to document: capped searches and the
 * max-aggregation that seeds each service's id counter.
 */
module DocStore {
  import opened Options

  /** `MAX_RETURNED_RESULTS`, the `size` of every search the services send. */
  const MAX_RETURNED_RESULTS: nat := 1000

  /** Errors the store client throws; `get` and `delete` of an absent key throw "not found". */
  datatype ServiceError = DocumentMissing(id: int)

  function Min(a: int, b: int): int {
    if a <= b then a else b
  }

  /** A non-empty set has a member (what a loop that picks from a set relies on). */
  lemma HasMember(s: set<int>)
    requires s != {}
    ensures exists x :: x in s
  {
    if forall x :: x !in s {
    }
  }

  /** Keys of the stored documents that a query selects. */
  ghost function Selected<R>(store: map<int, R>, matches: R -> bool): set<int> {
    set k | k in store && matches(store[k])
  }

  /**
   * What a search with `size: MAX_RETURNED_RESULTS` answers: the `_source` of matching
   * documents, each at most once (`keys` names the document behind each hit), as many as
   * match but no more than MAX_RETURNED_RESULTS, and all of them when that many or fewer match.
   * The order of the hits is the engine's and is left open.
   */
  ghost predicate IsSearchResult<R>(store: map<int, R>, matches: R -> bool, hits: seq<R>, keys: seq<int>) {
    && |keys| == |hits|
    && |hits| == Min(|Selected(store, matches)|, MAX_RETURNED_RESULTS)
    && (forall i :: 0 <= i < |hits| ==> keys[i] in store && store[keys[i]] == hits[i] && matches(hits[i]))
    && (forall i, j :: 0 <= i < j < |keys| ==> keys[i] != keys[j])
    && (|Selected(store, matches)| <= MAX_RETURNED_RESULTS ==>
          forall k :: k in Selected(store, matches) ==> k in keys)
  }

  /** The engine answering a query: it visits the documents in some order and keeps the matches. */
  method Search<R(==)>(store: map<int, R>, matches: R -> bool) returns (hits: seq<R>, ghost keys: seq<int>)
    ensures IsSearchResult(store, matches, hits, keys)
    ensures |hits| <= MAX_RETURNED_RESULTS
    ensures forall i :: 0 <= i < |hits| ==> hits[i] in store.Values && matches(hits[i])
  {
    hits, keys := [], [];
    var remaining := store.Keys;
    ghost var found: set<int> := {};
    while remaining != {}
      invariant remaining <= store.Keys
      invariant found !! remaining && found <= store.Keys
      invariant forall k :: k in store && k !in remaining ==> (k in found <==> matches(store[k]))
      invariant |keys| == |hits|
      invariant forall i :: 0 <= i < |hits| ==> keys[i] in found && store[keys[i]] == hits[i]
      invariant forall i, j :: 0 <= i < j < |keys| ==> keys[i] != keys[j]
      invariant |hits| == Min(|found|, MAX_RETURNED_RESULTS)
      invariant |found| <= MAX_RETURNED_RESULTS ==> forall k :: k in found ==> k in keys
      decreases remaining
    {
      HasMember(remaining);
      var k :| k in remaining;
      if matches(store[k]) {
        if |hits| < MAX_RETURNED_RESULTS {
          hits, keys := hits + [store[k]], keys + [k];
        }
        found := found + {k};
      }
      remaining := remaining - {k};
    }
    forall k
      ensures k in found <==> k in Selected(store, matches)
    {
      assert k !in remaining;
    }
    assert found == Selected(store, matches);
  }

  /** The engine's `max` aggregation over the `id` field: null (None) on an empty collection. */
  method MaxAggregation(ids: set<int>) returns (value: Option<int>)
    ensures value.None? <==> ids == {}
    ensures value.Some? ==> value.value in ids && forall i :: i in ids ==> i <= value.value
  {
    value := None;
    var remaining := ids;
    while remaining != {}
      invariant remaining <= ids
      invariant value.None? <==> remaining == ids
      invariant value.Some? ==> value.value in ids
      invariant forall i :: i in ids && i !in remaining ==> value.Some? && i <= value.value
      decreases remaining
    {
      HasMember(remaining);
      var i :| i in remaining;
      if value.None? || value.value < i {
        value := Some(i);
      }
      remaining := remaining - {i};
    }
  }

  /** `(maxIdAgg?.value || 0) + 1`: both null and 0 read as 0. */
  function CounterFrom(value: Option<int>): (counter: int)
    ensures value.None? || value.value == 0 ==> counter == 1
    ensures value.Some? && value.value != 0 ==> counter == value.value + 1
    ensures value.Some? && value.value >= 0 ==> counter > value.value
  {
    (if value.None? || value.value == 0 then 0 else value.value) + 1
  }

  /** A counter seeded from the ids `ids`: one more than the largest, or 1 when there are none. */
  ghost predicate IsSeededFrom(ids: set<int>, counter: int) {
    && (ids == {} ==> counter == 1)
    && (ids != {} ==> counter - 1 in ids)
    && forall i :: i in ids ==> i < counter
  }

  /** The seeding the services perform at start-up gives the counter its documented value. */
  method SeedCounter(ids: set<int>) returns (counter: int)
    ensures IsSeededFrom(ids, counter)
  {
    var value := MaxAggregation(ids);
    counter := CounterFrom(value);
  }

  /** The `id` fields of the stored documents, as the aggregation sees them. */
  function IdFields<R>(store: map<int, R>, idOf: R -> int): set<int> {
    set k | k in store :: idOf(store[k])
  }

  /** When every document's `id` field equals its key, a seeded counter is above every key. */
  lemma SeededCounterAboveKeys<R>(store: map<int, R>, idOf: R -> int, counter: int)
    requires forall k :: k in store ==> idOf(store[k]) == k
    requires IsSeededFrom(IdFields(store, idOf), counter)
    ensures forall k :: k in store ==> k < counter
  {
    forall k | k in store
      ensures k < counter
    {
      assert idOf(store[k]) in IdFields(store, idOf);
    }
  }
}
