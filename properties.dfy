/** What the two handlers promise, one request at a time and over a history
    of requests served one after another. */
module HandlerProperties {
  import opened Wrappers
  import opened Stores
  import opened Handlers

  // ---------------------------------------------------------------------
  // The read path
  // ---------------------------------------------------------------------

  /** An address the filter has never seen is refused before the cache or the
      durable store is asked anything. */
  lemma GetShortCircuitsOnFilterMiss(headers: HeaderMap, s: Stores, faults: GetFaults, codec: Codec)
    requires AddressOf(headers) !in s.filter
    ensures GetDataHandler(headers, s, faults, codec).reply == Failure(CuckooFilterLookupFailed)
    ensures GetDataHandler(headers, s, faults, codec).calls == [FilterContains(AddressOf(headers))]
  {
  }

  /** A cache hit is the answer, whatever the durable store holds, and the
      durable store is not asked. */
  lemma GetCacheHitWins(headers: HeaderMap, s: Stores, faults: GetFaults, codec: Codec)
    requires AddressOf(headers) in s.filter && AddressOf(headers) in s.cache && !faults.cacheGet
    ensures GetDataHandler(headers, s, faults, codec).reply == Success(codec.deserialize(s.cache[AddressOf(headers)]))
    ensures DbGet(AddressOf(headers)) !in GetDataHandler(headers, s, faults, codec).calls
  {
  }

  /** A cache answering Ok(None) yields the empty string as a success; the
      durable store is not asked, even when it holds the address. */
  lemma GetCacheEmptyIsEmptySuccess(headers: HeaderMap, s: Stores, faults: GetFaults, codec: Codec)
    requires AddressOf(headers) in s.filter && AddressOf(headers) !in s.cache && !faults.cacheGet
    ensures GetDataHandler(headers, s, faults, codec).reply == Success("")
    ensures DbGet(AddressOf(headers)) !in GetDataHandler(headers, s, faults, codec).calls
  {
  }

  /** After a failed cache call the durable store decides the reply: its
      value when it has one, a panic when it answers Ok(None), and
      DBInsertionFailed when its own call fails. */
  lemma GetFallsBackToDb(headers: HeaderMap, s: Stores, faults: GetFaults, codec: Codec)
    requires AddressOf(headers) in s.filter && faults.cacheGet
    ensures var a := AddressOf(headers);
      GetDataHandler(headers, s, faults, codec).calls == [FilterContains(a), CacheGet(a), DbGet(a)]
    ensures var out := GetDataHandler(headers, s, faults, codec);
      && (faults.dbGet ==> out.reply == Failure(DBInsertionFailed))
      && (!faults.dbGet && AddressOf(headers) in s.db ==>
            out.reply == Success(codec.deserialize(codec.readBack(s.db[AddressOf(headers)]))))
      && (!faults.dbGet && AddressOf(headers) !in s.db ==> out.reply == Panic)
  {
  }

  /** The only error code the read path produces besides the filter's is
      DBInsertionFailed, and only after both the cache and the durable store
      calls failed. */
  lemma GetErrorCodes(headers: HeaderMap, s: Stores, faults: GetFaults, codec: Codec)
    ensures var out := GetDataHandler(headers, s, faults, codec);
      out.reply.Failure? ==>
        || out.reply.error == CuckooFilterLookupFailed
        || (out.reply.error == DBInsertionFailed && faults.cacheGet && faults.dbGet)
  {
  }

  /** The read path makes no write call on any store: every call it makes is
      a filter lookup, a cache get or a durable-store get. */
  lemma GetMakesOnlyReadCalls(headers: HeaderMap, s: Stores, faults: GetFaults, codec: Codec)
    ensures var out := GetDataHandler(headers, s, faults, codec);
      forall i :: 0 <= i < |out.calls| ==>
        out.calls[i].FilterContains? || out.calls[i].CacheGet? || out.calls[i].DbGet?
  {
  }

  // ---------------------------------------------------------------------
  // The write path, one request
  // ---------------------------------------------------------------------

  /** A failed cache write ends the request: no store changes, and neither
      expiry, the durable store nor the filter is called. */
  lemma SetCacheFailureChangesNothing(s: Stores, p: SetRequestData, cacheTtl: nat, faults: SetFaults, codec: Codec)
    requires faults.cacheSet
    ensures var out := WritePipeline(s, p, cacheTtl, faults, codec);
      && out.stores == s
      && out.reply == Failure(CacheInsertionFailed)
      && out.calls == [CacheSet(p.address, codec.serialize(p.data))]
  {
  }

  /** Whether the expiry call fails makes no difference to anything. */
  lemma SetExpiryFailureIgnored(s: Stores, p: SetRequestData, cacheTtl: nat, faults: SetFaults, codec: Codec)
    ensures WritePipeline(s, p, cacheTtl, faults.(expire := true), codec)
         == WritePipeline(s, p, cacheTtl, faults.(expire := false), codec)
  {
  }

  /** Data that is not JSON is refused after the cache entry is written; the
      durable store and the filter are untouched. */
  lemma SetParseFailureKeepsCacheEntry(s: Stores, p: SetRequestData, cacheTtl: nat, faults: SetFaults, codec: Codec)
    requires !faults.cacheSet && codec.parseJson(p.data).None?
    ensures var out := WritePipeline(s, p, cacheTtl, faults, codec);
      && out.reply == Failure(DataSerializationFailed)
      && out.stores == s.(cache := s.cache[p.address := codec.serialize(p.data)])
      && |out.calls| == 2
  {
  }

  /** A failed durable-store write leaves the cache entry in place and the
      filter as it was. */
  lemma SetDbFailureKeepsCacheEntry(s: Stores, p: SetRequestData, cacheTtl: nat, faults: SetFaults, codec: Codec)
    requires !faults.cacheSet && codec.parseJson(p.data).Some? && faults.dbSet
    ensures var out := WritePipeline(s, p, cacheTtl, faults, codec);
      && out.reply == Failure(DBInsertionFailed)
      && out.stores == s.(cache := s.cache[p.address := codec.serialize(p.data)])
      && FilterAdd(p.address) !in out.calls
  {
  }

  /** A failed filter insertion is reported although the cache and the
      durable store already hold the new record. */
  lemma SetFilterFailureAfterCommit(s: Stores, p: SetRequestData, cacheTtl: nat, faults: SetFaults, codec: Codec)
    requires !faults.cacheSet && codec.parseJson(p.data).Some? && !faults.dbSet && faults.filterAdd
    ensures var out := WritePipeline(s, p, cacheTtl, faults, codec);
      && out.reply == Failure(CuckooFilterInsertionFailed)
      && out.stores.cache == s.cache[p.address := codec.serialize(p.data)]
      && out.stores.db == s.db[p.address := codec.parseJson(p.data).value]
      && out.stores.filter == s.filter
  {
  }

  /** A set_data request succeeds exactly when the cache write, the parse,
      the durable-store write and the filter insertion all succeed, and then
      all three stores hold the new record. */
  lemma SetSuccessCommitsAll(s: Stores, p: SetRequestData, cacheTtl: nat, faults: SetFaults, codec: Codec)
    ensures var out := WritePipeline(s, p, cacheTtl, faults, codec);
      out.reply.Success? <==> !faults.cacheSet && codec.parseJson(p.data).Some? && !faults.dbSet && !faults.filterAdd
    ensures var out := WritePipeline(s, p, cacheTtl, faults, codec);
      out.reply.Success? ==>
        && out.reply == Success(p.address)
        && out.stores == Stores(s.cache[p.address := codec.serialize(p.data)],
                                s.db[p.address := codec.parseJson(p.data).value],
                                s.filter + {p.address})
  {
  }

  /** The filter gains an address only after the durable store holds that
      address's parsed data. */
  lemma SetFilterOnlyAfterDbCommit(s: Stores, p: SetRequestData, cacheTtl: nat, faults: SetFaults, codec: Codec)
    ensures var out := WritePipeline(s, p, cacheTtl, faults, codec);
      p.address in out.stores.filter - s.filter ==>
        && codec.parseJson(p.data).Some?
        && p.address in out.stores.db
        && out.stores.db[p.address] == codec.parseJson(p.data).value
        && DbSet(p.address, codec.parseJson(p.data).value) in out.calls
  {
  }

  /** Repeating a set_data request that succeeded changes no store, whichever
      calls of the repeat fail; if none fails it succeeds again. */
  lemma SetIdempotent(s: Stores, p: SetRequestData, ttl1: nat, ttl2: nat, f1: SetFaults, f2: SetFaults, codec: Codec)
    requires WritePipeline(s, p, ttl1, f1, codec).reply.Success?
    ensures var once := WritePipeline(s, p, ttl1, f1, codec).stores;
      WritePipeline(once, p, ttl2, f2, codec).stores == once
    ensures var once := WritePipeline(s, p, ttl1, f1, codec).stores;
      !f2.cacheSet && !f2.dbSet && !f2.filterAdd ==>
        WritePipeline(once, p, ttl2, f2, codec).reply == Success(p.address)
  {
  }

  /** After a successful set_data, a get_data for the same address whose cache
      call succeeds returns the data written, provided deserialization undoes
      serialization; the durable store is not asked. */
  lemma SetThenGetReadsBack(s: Stores, p: SetRequestData, cacheTtl: nat, sf: SetFaults,
                            headers: HeaderMap, gf: GetFaults, codec: Codec)
    requires WritePipeline(s, p, cacheTtl, sf, codec).reply.Success?
    requires AddressOf(headers) == p.address && !gf.cacheGet
    requires codec.deserialize(codec.serialize(p.data)) == p.data
    ensures var out := GetDataHandler(headers, WritePipeline(s, p, cacheTtl, sf, codec).stores, gf, codec);
      out.reply == Success(p.data) && DbGet(p.address) !in out.calls
  {
  }

  /** After a successful set_data, a get_data whose cache call fails reads the
      durable store's copy and never panics. */
  lemma SetThenGetFromDb(s: Stores, p: SetRequestData, cacheTtl: nat, sf: SetFaults,
                         headers: HeaderMap, codec: Codec)
    requires WritePipeline(s, p, cacheTtl, sf, codec).reply.Success?
    requires AddressOf(headers) == p.address
    ensures var out := GetDataHandler(headers, WritePipeline(s, p, cacheTtl, sf, codec).stores, GetFaults(true, false), codec);
      out.reply == Success(codec.deserialize(codec.readBack(codec.parseJson(p.data).value)))
  {
  }

  /** When only the filter insertion fails on a new address, a following
      get_data is refused by the filter although cache and durable store hold
      the record. */
  lemma FilterFailureHidesWrite(s: Stores, p: SetRequestData, cacheTtl: nat, sf: SetFaults,
                                headers: HeaderMap, gf: GetFaults, codec: Codec)
    requires WritePipeline(s, p, cacheTtl, sf, codec).reply == Failure(CuckooFilterInsertionFailed)
    requires p.address !in s.filter && AddressOf(headers) == p.address
    ensures var after := WritePipeline(s, p, cacheTtl, sf, codec).stores;
      && p.address in after.cache && p.address in after.db
      && GetDataHandler(headers, after, gf, codec).reply == Failure(CuckooFilterLookupFailed)
  {
  }

  // ---------------------------------------------------------------------
  // Histories of requests
  // ---------------------------------------------------------------------

  /** One request to the service */
  datatype Request =
    | Get(headers: HeaderMap, getFaults: GetFaults)
    | Set(payload: SetRequestData, cacheTtl: nat, setFaults: SetFaults)

  /** The stores after one request. A get_data leaves them as they were: it
      makes no write call (GetMakesOnlyReadCalls), so there is no cache
      repopulation. */
  function Step(s: Stores, r: Request, codec: Codec): Stores
  {
    match r
    case Get(_, _) => s
    case Set(p, ttl, f) => WritePipeline(s, p, ttl, f, codec).stores
  }

  /** The stores after the requests rs, served one after another */
  function Run(s: Stores, rs: seq<Request>, codec: Codec): Stores
    decreases |rs|
  {
    if rs == [] then s else Run(Step(s, rs[0], codec), rs[1..], codec)
  }

  /** The set_data requests of rs, in order */
  function Writes(rs: seq<Request>): (ws: seq<Request>)
    ensures |ws| <= |rs|
    ensures forall i :: 0 <= i < |ws| ==> ws[i].Set?
  {
    if rs == [] then []
    else if rs[0].Set? then [rs[0]] + Writes(rs[1..])
    else Writes(rs[1..])
  }

  /** Every address in the filter is held by the durable store */
  predicate FilterBacked(s: Stores)
  {
    s.filter <= s.db.Keys
  }

  /** A set_data request never adds an address to the filter that the
      durable store does not hold. */
  lemma SetKeepsFilterBacked(s: Stores, p: SetRequestData, cacheTtl: nat, faults: SetFaults, codec: Codec)
    requires FilterBacked(s)
    ensures FilterBacked(WritePipeline(s, p, cacheTtl, faults, codec).stores)
  {
  }

  /** Any history of requests keeps the filter backed by the durable store. */
  lemma {:induction false} RunKeepsFilterBacked(s: Stores, rs: seq<Request>, codec: Codec)
    requires FilterBacked(s)
    ensures FilterBacked(Run(s, rs, codec))
    decreases |rs|
  {
    if rs != [] {
      if rs[0].Set? {
        SetKeepsFilterBacked(s, rs[0].payload, rs[0].cacheTtl, rs[0].setFaults, codec);
      }
      RunKeepsFilterBacked(Step(s, rs[0], codec), rs[1..], codec);
    }
  }

  /** No history removes an address from the filter or from the durable store. */
  lemma {:induction false} RunOnlyGrows(s: Stores, rs: seq<Request>, codec: Codec)
    ensures s.filter <= Run(s, rs, codec).filter
    ensures s.db.Keys <= Run(s, rs, codec).db.Keys
    decreases |rs|
  {
    if rs != [] {
      RunOnlyGrows(Step(s, rs[0], codec), rs[1..], codec);
    }
  }

  /** get_data requests have no effect on the stores: a history ends where
      its set_data requests alone end (there is no cache repopulation). */
  lemma {:induction false} GetsDoNotChangeStores(s: Stores, rs: seq<Request>, codec: Codec)
    ensures Run(s, rs, codec) == Run(s, Writes(rs), codec)
    decreases |rs|
  {
    if rs != [] {
      GetsDoNotChangeStores(Step(s, rs[0], codec), rs[1..], codec);
      if rs[0].Set? {
        assert Writes(rs) == [rs[0]] + Writes(rs[1..]);
        assert ([rs[0]] + Writes(rs[1..]))[1..] == Writes(rs[1..]);
      }
    }
  }

  /** Starting from empty stores, no history leads to a get_data that panics:
      the durable-store Ok(None) the handler unwraps needs an address that
      passed the filter but is missing from the durable store. */
  lemma ReachableGetNeverPanics(rs: seq<Request>, headers: HeaderMap, faults: GetFaults, codec: Codec)
    ensures GetDataHandler(headers, Run(Empty(), rs, codec), faults, codec).reply != Panic
  {
    RunKeepsFilterBacked(Empty(), rs, codec);
  }

  /** Outside the histories above a panic is reachable: an address in the
      filter but not in the durable store, read while the cache call fails. */
  lemma GetPanicsOnDbMiss(headers: HeaderMap, s: Stores, codec: Codec)
    requires AddressOf(headers) in s.filter && AddressOf(headers) !in s.db
    ensures GetDataHandler(headers, s, GetFaults(true, false), codec).reply == Panic
    ensures !FilterBacked(s)
  {
  }
  // ---------------------------------------------------------------------
  // Two concrete requests
  // ---------------------------------------------------------------------

  /** Writing {"a":1} under addr1 with every call succeeding stores it in all
      three stores and replies with the address; a following get_data with
      header "address: addr1" answers the data from the cache. */
  lemma ScenarioSetThenGet(s: Stores, codec: Codec, json: Json)
    requires codec.parseJson("{\"a\":1}") == Some(json)
    requires codec.deserialize(codec.serialize("{\"a\":1}")) == "{\"a\":1}"
    ensures var out := WritePipeline(s, SetRequestData("addr1", "{\"a\":1}"), 60, SetFaults(false, false, false, false), codec);
      && out.reply == Success("addr1")
      && out.stores.cache["addr1"] == codec.serialize("{\"a\":1}")
      && out.stores.db["addr1"] == json
      && "addr1" in out.stores.filter
      && GetDataHandler(map["address" := [97, 100, 100, 114, 49]], out.stores, GetFaults(false, false), codec).reply
         == Success("{\"a\":1}")
  {
    assert AddressOf(map["address" := [97, 100, 100, 114, 49]]) == "addr1";
  }

  /** A get_data with header "address: unknown" on stores whose filter lacks
      that address is refused by the filter. */
  lemma ScenarioUnknownAddress(s: Stores, faults: GetFaults, codec: Codec)
    requires "unknown" !in s.filter
    ensures GetDataHandler(map["address" := [117, 110, 107, 110, 111, 119, 110]], s, faults, codec).reply
         == Failure(CuckooFilterLookupFailed)
  {
    assert AddressOf(map["address" := [117, 110, 107, 110, 111, 119, 110]]) == "unknown";
  }
}
