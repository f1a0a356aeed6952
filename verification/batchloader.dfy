/** The batch function `createBatchLoader` hands to DataLoader
    (graphql-gateway/src/dataloaders.js): read every key's cache entry, ask
    the backend once for the keys that missed, answer each key positionally
    and write the found items back. Redis and the backend are inputs; the
    writes are an output, and whether they later succeed does not feed back
    into the results. */
module BatchLoader {
  import opened Base
  import opened Store

  /** What the `mget` call delivered. */
  datatype CacheRead = Snapshot(store: Redis) | ReadFailed

  /** The backend's answer to the single batched request. */
  datatype Response = Response(items: Option<seq<Entity>>, data: Option<seq<Entity>>)
  datatype Backend = Replied(response: Response) | Rejected

  /** One `setex(key, ttl, JSON.stringify(value))`. */
  datatype Write = Write(key: string, ttl: int, value: Value)

  datatype BatchOutcome = BatchOutcome(results: seq<Value>, request: Option<seq<string>>, writes: seq<Write>)

  /** `parseInt(process.env.DATALOADER_CACHE_TTL) || 60`: `NaN` and `0` are
      false, so both give the default; `parsed` is `None` for `NaN`. */
  function CacheTtl(parsed: Option<int>): (ttl: int)
    ensures parsed.Some? && parsed.value != 0 ==> ttl == parsed.value
    ensures parsed.None? || parsed.value == 0 ==> ttl == 60
    ensures ttl != 0
  {
    match parsed
    case Some(n) => if n != 0 then n else 60
    case None => 60
  }

  // ------------------------------------------------------- reading the cache

  /** A present, truthy entry: the empty string counts as a miss. */
  predicate Hit(store: Redis, key: string) {
    key in store && store[key] != Blank
  }

  /** `JSON.parse` of a hit throws on garbled text. */
  predicate Unparsable(store: Redis, key: string) {
    key in store && store[key] == Garbled
  }

  /** The cache phase shared by the cache-aside loaders: for each cache key the
      parsed hit or `None` for a miss, or `None` overall when parsing a hit
      throws (which abandons the whole batch). */
  function Probe(store: Redis, cacheKeys: seq<string>): (p: Option<seq<Option<Value>>>)
    ensures p.None? <==> exists i :: 0 <= i < |cacheKeys| && Unparsable(store, cacheKeys[i])
    ensures p.Some? ==> |p.value| == |cacheKeys|
    ensures p.Some? ==> forall i :: 0 <= i < |cacheKeys| ==>
      (p.value[i].Some? <==> Hit(store, cacheKeys[i])) &&
      (p.value[i].Some? ==> store[cacheKeys[i]] == Json(p.value[i].value))
  {
    if exists i :: 0 <= i < |cacheKeys| && Unparsable(store, cacheKeys[i]) then None
    else Some(seq(|cacheKeys|, i requires 0 <= i < |cacheKeys| =>
      if Hit(store, cacheKeys[i]) then Some(store[cacheKeys[i]].value) else None))
  }

  /** The positions that missed, in increasing order: the `index` fields of
      `uncachedKeys`. */
  function MissIndices(hits: seq<Option<Value>>): (ix: seq<nat>)
    ensures forall j :: 0 <= j < |ix| ==> ix[j] < |hits| && hits[ix[j]].None?
    ensures forall i :: 0 <= i < |hits| && hits[i].None? ==> i in ix
    ensures forall j, j' :: 0 <= j < j' < |ix| ==> ix[j] < ix[j']
    decreases |hits|
  {
    if |hits| == 0 then []
    else
      var rest := MissIndices(hits[..|hits| - 1]);
      if hits[|hits| - 1].None? then rest + [|hits| - 1] else rest
  }

  /** The keys at the given positions: the `key` fields of `uncachedKeys`. */
  function Pick(keys: seq<string>, ix: seq<nat>): (r: seq<string>)
    requires forall j :: 0 <= j < |ix| ==> ix[j] < |keys|
    ensures |r| == |ix| && forall j :: 0 <= j < |ix| ==> r[j] == keys[ix[j]]
  {
    seq(|ix|, j requires 0 <= j < |ix| => keys[ix[j]])
  }

  /** The keys that missed, in their original order. */
  function Misses(keys: seq<string>, hits: seq<Option<Value>>): (r: seq<string>)
    requires |hits| == |keys|
  {
    Pick(keys, MissIndices(hits))
  }

  /** A key is requested exactly when it missed at some position. */
  lemma MissesAreTheMissedKeys(keys: seq<string>, hits: seq<Option<Value>>, k: string)
    requires |hits| == |keys|
    ensures k in Misses(keys, hits) <==> exists i :: 0 <= i < |keys| && keys[i] == k && hits[i].None?
  {
    var ix := MissIndices(hits);
    var r := Misses(keys, hits);
    if k in r {
      var j :| 0 <= j < |r| && r[j] == k;
      assert keys[ix[j]] == k && hits[ix[j]].None?;
    }
    if exists i :: 0 <= i < |keys| && keys[i] == k && hits[i].None? {
      var i :| 0 <= i < |keys| && keys[i] == k && hits[i].None?;
      var j :| 0 <= j < |ix| && ix[j] == i;
      assert r[j] == k;
    }
  }

  // -------------------------------------------------- answering the misses

  /** `grpcResponse.items || grpcResponse.data || []`: an empty array is truthy,
      so a present `items` list wins even when it is empty. */
  function Fetched(r: Response): (items: seq<Entity>)
    ensures r.items.Some? ==> items == r.items.value
    ensures r.items.None? && r.data.Some? ==> items == r.data.value
    ensures r.items.None? && r.data.None? ==> items == []
  {
    if r.items.Some? then r.items.value else r.data.GetOr([])
  }

  /** The `dataMap` built by `forEach(item => dataMap.set(item[keyField], item))`.
      An item without the field is filed under `undefined`, which no string key
      reaches, so it is dropped here. */
  function IndexBy(items: seq<Entity>, keyField: string): map<string, Entity>
    decreases |items|
  {
    if |items| == 0 then map[]
    else
      var m := IndexBy(items[..|items| - 1], keyField);
      var last := items[|items| - 1];
      match Field(last, keyField)
      case Some(k) => m[k := last]
      case None => m
  }

  /** `j` is the last position whose item has `key` in `keyField`. */
  predicate LastWithKey(items: seq<Entity>, keyField: string, key: string, j: int) {
    && 0 <= j < |items|
    && Field(items[j], keyField) == Some(key)
    && forall j' :: j < j' < |items| ==> Field(items[j'], keyField) != Some(key)
  }

  /** The map finds a key exactly when some item carries it. */
  lemma {:induction false} IndexByHasKey(items: seq<Entity>, keyField: string, key: string)
    ensures key in IndexBy(items, keyField) <==> exists j :: 0 <= j < |items| && Field(items[j], keyField) == Some(key)
    decreases |items|
  {
    if |items| > 0 {
      var init := items[..|items| - 1];
      var n := |items| - 1;
      IndexByHasKey(init, keyField, key);
      if exists j :: 0 <= j < |init| && Field(init[j], keyField) == Some(key) {
        var j :| 0 <= j < |init| && Field(init[j], keyField) == Some(key);
        assert items[j] == init[j];
      }
      if exists j :: 0 <= j < |items| && Field(items[j], keyField) == Some(key) {
        var j :| 0 <= j < |items| && Field(items[j], keyField) == Some(key);
        if j < n {
          assert init[j] == items[j];
        }
      }
    }
  }

  /** ... and then yields the last such item: with duplicate ids the later item wins. */
  lemma {:induction false} IndexByLastWins(items: seq<Entity>, keyField: string, key: string, j: int)
    requires LastWithKey(items, keyField, key, j)
    ensures key in IndexBy(items, keyField) && IndexBy(items, keyField)[key] == items[j]
    decreases |items|
  {
    var init := items[..|items| - 1];
    var n := |items| - 1;
    if j < n {
      assert Field(items[n], keyField) != Some(key);
      assert init[j] == items[j];
      assert forall j' :: j < j' < |init| ==> init[j'] == items[j'];
      IndexByLastWins(init, keyField, key, j);
    }
  }

  /** Both halves together: the map is "last item with that key". */
  lemma IndexByFindsLast(items: seq<Entity>, keyField: string, key: string)
    ensures key in IndexBy(items, keyField) <==> exists j :: 0 <= j < |items| && Field(items[j], keyField) == Some(key)
    ensures forall j :: LastWithKey(items, keyField, key, j) ==> IndexBy(items, keyField)[key] == items[j]
  {
    IndexByHasKey(items, keyField, key);
    forall j | LastWithKey(items, keyField, key, j)
      ensures IndexBy(items, keyField)[key] == items[j]
    {
      IndexByLastWins(items, keyField, key, j);
    }
  }

  /** What a missed key resolves to: `dataMap.get(key) || null`. */
  function Resolve(index: map<string, Entity>, key: string): Value {
    if key in index then Record(index[key]) else Null
  }

  /** The `setex` calls for the missed keys that were found, in request order. */
  function FoundWrites(service: string, methodName: string, ttl: int, missed: seq<string>, index: map<string, Entity>): (ws: seq<Write>)
    ensures forall w :: w in ws <==> exists k :: k in missed && k in index && w == Write(CacheKey(service, methodName, k), ttl, Record(index[k]))
    ensures |ws| <= |missed|
    decreases |missed|
  {
    if |missed| == 0 then []
    else
      var rest := FoundWrites(service, methodName, ttl, missed[1..], index);
      var k := missed[0];
      assert forall x :: x in missed <==> x == k || x in missed[1..];
      if k in index then [Write(CacheKey(service, methodName, k), ttl, Record(index[k]))] + rest else rest
  }

  /** Hits keep their cached value; misses take what the index resolves. */
  function Merge(keys: seq<string>, hits: seq<Option<Value>>, index: map<string, Entity>): (results: seq<Value>)
    requires |hits| == |keys|
    ensures |results| == |keys|
    ensures forall i :: 0 <= i < |keys| && hits[i].Some? ==> results[i] == hits[i].value
    ensures forall i :: 0 <= i < |keys| && hits[i].None? ==> results[i] == Resolve(index, keys[i])
  {
    seq(|keys|, i requires 0 <= i < |keys| => if hits[i].Some? then hits[i].value else Resolve(index, keys[i]))
  }

  function AllNull(keys: seq<string>): (results: seq<Value>)
    ensures |results| == |keys| && forall i :: 0 <= i < |results| ==> results[i] == Null
  {
    seq(|keys|, _ => Null)
  }

  /** `keys.map(key => getCacheKey(service, methodName, key))`. */
  function CacheKeys(service: string, methodName: string, keys: seq<string>): (cks: seq<string>)
    ensures |cks| == |keys| && forall i :: 0 <= i < |keys| ==> cks[i] == CacheKey(service, methodName, keys[i])
  {
    seq(|keys|, i requires 0 <= i < |keys| => CacheKey(service, methodName, keys[i]))
  }

  /** `ix` lists, in increasing order, exactly the positions whose cache entry missed. */
  predicate MissPositions(store: Redis, cacheKeys: seq<string>, ix: seq<nat>) {
    && (forall j :: 0 <= j < |ix| ==> ix[j] < |cacheKeys|)
    && (forall j, j' :: 0 <= j < j' < |ix| ==> ix[j] < ix[j'])
    && (forall i :: 0 <= i < |cacheKeys| ==> (i in ix <==> !Hit(store, cacheKeys[i])))
  }

  /** The batch function of `createBatchLoader(service, methodName, keyField)`.
      Every failure it meets — the cache read, parsing a cached entry, the
      backend call — lands in the same `catch` and answers `null` for every key. */
  function BatchLoad(service: string, methodName: string, keyField: string, ttl: int,
                     keys: seq<string>, read: CacheRead, backend: Backend): (o: BatchOutcome)
    ensures |o.results| == |keys|
  {
    var cacheKeys := CacheKeys(service, methodName, keys);
    match read
    case ReadFailed => BatchOutcome(AllNull(keys), None, [])
    case Snapshot(store) =>
      match Probe(store, cacheKeys)
      case None => BatchOutcome(AllNull(keys), None, [])
      case Some(hits) =>
        var missed := Misses(keys, hits);
        if |missed| == 0 then BatchOutcome(Merge(keys, hits, map[]), None, [])
        else match backend
          case Rejected => BatchOutcome(AllNull(keys), Some(missed), [])
          case Replied(response) =>
            var index := IndexBy(Fetched(response), keyField);
            BatchOutcome(Merge(keys, hits, index), Some(missed), FoundWrites(service, methodName, ttl, missed, index))
  }

  /** Without a failure, every position holding a truthy cached value carries
      that value, and every other position the last fetched item whose
      `keyField` is its key, or `null`. */
  lemma BatchAnswersPositionally(service: string, methodName: string, keyField: string, ttl: int,
                                 keys: seq<string>, store: Redis, response: Response, i: int)
    requires 0 <= i < |keys|
    requires forall k :: 0 <= k < |keys| ==> !Unparsable(store, CacheKey(service, methodName, keys[k]))
    ensures Hit(store, CacheKey(service, methodName, keys[i])) ==>
      BatchLoad(service, methodName, keyField, ttl, keys, Snapshot(store), Replied(response)).results[i]
        == store[CacheKey(service, methodName, keys[i])].value
    ensures !Hit(store, CacheKey(service, methodName, keys[i])) ==>
      ((BatchLoad(service, methodName, keyField, ttl, keys, Snapshot(store), Replied(response)).results[i] == Null)
        <==> (forall j :: 0 <= j < |Fetched(response)| ==> Field(Fetched(response)[j], keyField) != Some(keys[i])))
    ensures forall j :: !Hit(store, CacheKey(service, methodName, keys[i])) && LastWithKey(Fetched(response), keyField, keys[i], j) ==>
      BatchLoad(service, methodName, keyField, ttl, keys, Snapshot(store), Replied(response)).results[i] == Record(Fetched(response)[j])
  {
    var cacheKeys := CacheKeys(service, methodName, keys);
    var hits := Probe(store, cacheKeys).value;
    var index := IndexBy(Fetched(response), keyField);
    IndexByFindsLast(Fetched(response), keyField, keys[i]);
    if hits[i].None? {
      MissesAreTheMissedKeys(keys, hits, keys[i]);
    }
  }

  /** A key set whose cache entries all parse gets past the cache phase. */
  lemma ProbeSucceeds(service: string, methodName: string, keys: seq<string>, store: Redis)
    requires forall k :: 0 <= k < |keys| ==> !Unparsable(store, CacheKey(service, methodName, keys[k]))
    ensures Probe(store, CacheKeys(service, methodName, keys)).Some?
    ensures MissPositions(store, CacheKeys(service, methodName, keys), MissIndices(Probe(store, CacheKeys(service, methodName, keys)).value))
  {
    var cacheKeys := CacheKeys(service, methodName, keys);
    var hits := Probe(store, cacheKeys).value;
    var ix := MissIndices(hits);
    forall i | 0 <= i < |cacheKeys|
      ensures i in ix <==> !Hit(store, cacheKeys[i])
    {
      if i in ix {
        var j :| 0 <= j < |ix| && ix[j] == i;
      }
    }
  }

  /** The backend is asked at most once, exactly when some key missed, for the
      missed keys in their original order. */
  lemma BatchRequestsMisses(service: string, methodName: string, keyField: string, ttl: int,
                            keys: seq<string>, store: Redis, backend: Backend)
    requires forall k :: 0 <= k < |keys| ==> !Unparsable(store, CacheKey(service, methodName, keys[k]))
    ensures BatchLoad(service, methodName, keyField, ttl, keys, Snapshot(store), backend).request.Some?
      <==> exists i :: 0 <= i < |keys| && !Hit(store, CacheKey(service, methodName, keys[i]))
    ensures BatchLoad(service, methodName, keyField, ttl, keys, Snapshot(store), backend).request.Some? ==>
      exists ix: seq<nat> | MissPositions(store, CacheKeys(service, methodName, keys), ix) ::
        BatchLoad(service, methodName, keyField, ttl, keys, Snapshot(store), backend).request.value == Pick(keys, ix)
  {
    var cacheKeys := CacheKeys(service, methodName, keys);
    ProbeSucceeds(service, methodName, keys, store);
    var hits := Probe(store, cacheKeys).value;
    var ix := MissIndices(hits);
    var o := BatchLoad(service, methodName, keyField, ttl, keys, Snapshot(store), backend);
    assert o.request == if |ix| == 0 then None else Some(Pick(keys, ix));
    if exists i :: 0 <= i < |keys| && !Hit(store, CacheKey(service, methodName, keys[i])) {
      var i :| 0 <= i < |keys| && !Hit(store, CacheKey(service, methodName, keys[i]));
      assert i in ix;
    }
    if |ix| > 0 {
      assert !Hit(store, cacheKeys[ix[0]]);
    }
  }

  /** Only found items are written back, each under its own cache key with the
      configured TTL and the value returned for it; a failed batch writes nothing. */
  lemma BatchWritesFoundItems(service: string, methodName: string, keyField: string, ttl: int,
                              keys: seq<string>, read: CacheRead, backend: Backend, w: Write)
    requires w in BatchLoad(service, methodName, keyField, ttl, keys, read, backend).writes
    ensures read.Snapshot? && backend.Replied?
    ensures w.ttl == ttl && w.value.Record?
    ensures exists i :: (0 <= i < |keys| && w.key == CacheKey(service, methodName, keys[i])
      && !Hit(read.store, w.key) && BatchLoad(service, methodName, keyField, ttl, keys, read, backend).results[i] == w.value)
  {
    var o := BatchLoad(service, methodName, keyField, ttl, keys, read, backend);
    var cacheKeys := CacheKeys(service, methodName, keys);
    var hits := Probe(read.store, cacheKeys).value;
    var missed := Misses(keys, hits);
    var index := IndexBy(Fetched(backend.response), keyField);
    var k :| k in missed && k in index && w == Write(CacheKey(service, methodName, k), ttl, Record(index[k]));
    MissesAreTheMissedKeys(keys, hits, k);
    var i :| 0 <= i < |keys| && keys[i] == k && hits[i].None?;
    assert o.results[i] == Resolve(index, k);
  }

  /** A failing cache read gives `null` for every key, even those the cache
      holds, and the backend is never asked. */
  lemma ReadFailureNullsEverything(service: string, methodName: string, keyField: string, ttl: int,
                                   keys: seq<string>, backend: Backend)
    ensures BatchLoad(service, methodName, keyField, ttl, keys, ReadFailed, backend) == BatchOutcome(AllNull(keys), None, [])
  {
  }

  /** A rejected backend call discards the cache hits of the same batch too. */
  lemma BackendFailureNullsEverything(service: string, methodName: string, keyField: string, ttl: int,
                                      keys: seq<string>, store: Redis, i: int)
    requires 0 <= i < |keys|
    requires forall k :: 0 <= k < |keys| ==> !Unparsable(store, CacheKey(service, methodName, keys[k]))
    requires !Hit(store, CacheKey(service, methodName, keys[i]))
    ensures BatchLoad(service, methodName, keyField, ttl, keys, Snapshot(store), Rejected).results == AllNull(keys)
    ensures BatchLoad(service, methodName, keyField, ttl, keys, Snapshot(store), Rejected).writes == []
  {
    BatchRequestsMisses(service, methodName, keyField, ttl, keys, store, Rejected);
  }
}
