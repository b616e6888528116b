/** The request handlers of the data service: the read path (filter, then
    cache, then durable store) and the write path (cache, expiry, JSON parse,
    durable store, filter). The read path only looks at the stores and is a
    function of them; the write path changes the three shared handles one
    call at a time and is a method, proved against the function
    WritePipeline that gives its effect on the stores' contents. */
module Handlers {
  import opened Wrappers
  import opened Stores

  // ---------------------------------------------------------------------
  // Requests and replies
  // ---------------------------------------------------------------------

  /** One byte of an HTTP header value */
  newtype Byte = b: int | 0 <= b < 256

  /** A request's headers by lower-case name, each with its first value */
  type HeaderMap = map<string, seq<Byte>>

  /** The body of a set_data request */
  datatype SetRequestData = SetRequestData(address: Address, data: string)

  /** The error codes the handlers reply with */
  datatype ApiErrorType =
    | CuckooFilterLookupFailed
    | CuckooFilterInsertionFailed
    | CacheInsertionFailed
    | DBInsertionFailed
    | DataSerializationFailed

  /** What a request ends in: a success reply with its embedded payload, an
      error reply, or a panic of the handler task */
  datatype Reply = Success(payload: string) | Failure(error: ApiErrorType) | Panic

  /** A call the handlers make on one of the stores, in the order made */
  datatype Call =
    | FilterContains(key: Address)
    | CacheGet(key: Address)
    | DbGet(key: Address)
    | CacheSet(key: Address, blob: Blob)
    | CacheExpire(key: Address, ttl: nat)
    | DbSet(key: Address, json: Json)
    | FilterAdd(key: Address)

  /** Which store calls of a get_data request fail */
  datatype GetFaults = GetFaults(cacheGet: bool, dbGet: bool)

  /** Which store calls of a set_data request fail */
  datatype SetFaults = SetFaults(cacheSet: bool, expire: bool, dbSet: bool, filterAdd: bool)

  datatype GetOutcome = GetOutcome(reply: Reply, calls: seq<Call>)

  datatype SetOutcome = SetOutcome(stores: Stores, reply: Reply, calls: seq<Call>)

  // ---------------------------------------------------------------------
  // The address header
  // ---------------------------------------------------------------------

  /** The bytes HeaderValue::to_str accepts: tab and printable ASCII */
  predicate IsVisibleAscii(b: Byte)
  {
    b == 9 || 32 <= b < 127
  }

  /** HeaderValue::to_str: the value as text, or None when a byte is not visible ASCII */
  function HeaderText(v: seq<Byte>): (r: Option<string>)
    ensures r.Some? <==> forall i :: 0 <= i < |v| ==> IsVisibleAscii(v[i])
    ensures r.Some? ==> |r.value| == |v| && forall i :: 0 <= i < |v| ==> r.value[i] as int == v[i] as int
  {
    if v == [] then Some("")
    else if !IsVisibleAscii(v[0]) then None
    else match HeaderText(v[1..])
      case None => None
      case Some(rest) => Some([v[0] as int as char] + rest)
  }

  /** The address a get_data request asks for: the text of its "address"
      header, or the empty address when that header is missing or is not text */
  function AddressOf(headers: HeaderMap): (a: Address)
    ensures a != "" ==>
      && "address" in headers
      && |a| == |headers["address"]|
      && forall i :: 0 <= i < |a| ==> a[i] as int == headers["address"][i] as int
    ensures "address" in headers && (forall i :: 0 <= i < |headers["address"]| ==> IsVisibleAscii(headers["address"][i])) ==>
      && |a| == |headers["address"]|
      && forall i :: 0 <= i < |a| ==> a[i] as int == headers["address"][i] as int
    ensures "address" !in headers || (exists i :: 0 <= i < |headers["address"]| && !IsVisibleAscii(headers["address"][i])) ==>
      a == ""
  {
    if "address" in headers then
      match HeaderText(headers["address"])
      case Some(text) => text
      case None => ""
    else ""
  }

  // ---------------------------------------------------------------------
  // get_data
  // ---------------------------------------------------------------------

  /** get_data_handler: the filter answers first and a negative answer ends the
      request; then the cache is read, and only a failed cache call falls back
      to the durable store. An Ok(None) from the durable store panics on unwrap,
      and a failed durable-store lookup replies DBInsertionFailed. */
  function GetDataHandler(headers: HeaderMap, s: Stores, faults: GetFaults, codec: Codec): (out: GetOutcome)
    ensures out.calls <= [FilterContains(AddressOf(headers)), CacheGet(AddressOf(headers)), DbGet(AddressOf(headers))]
    ensures |out.calls| >= 1
    ensures out.reply == Failure(CuckooFilterLookupFailed) <==> AddressOf(headers) !in s.filter
    ensures DbGet(AddressOf(headers)) in out.calls <==> AddressOf(headers) in s.filter && faults.cacheGet
    ensures out.reply == Panic ==> AddressOf(headers) !in s.db
  {
    var address := AddressOf(headers);
    if address !in s.filter then
      GetOutcome(Failure(CuckooFilterLookupFailed), [FilterContains(address)])
    else
      var afterCache := [FilterContains(address), CacheGet(address)];
      match Lookup(s.cache, address, faults.cacheGet)
      case Ok(value) =>
        var finalData := if value.Some? then codec.deserialize(value.value) else "";
        GetOutcome(Success(finalData), afterCache)
      case Err =>
        var afterDb := afterCache + [DbGet(address)];
        match Lookup(s.db, address, faults.dbGet)
        case Ok(value) =>
          if value.None? then GetOutcome(Panic, afterDb)
          else GetOutcome(Success(codec.deserialize(codec.readBack(value.value))), afterDb)
        case Err => GetOutcome(Failure(DBInsertionFailed), afterDb)
  }

  // ---------------------------------------------------------------------
  // set_data
  // ---------------------------------------------------------------------

  /** The position of a write-path call in the pipeline; -1 for read-path calls */
  function Stage(c: Call): int
  {
    match c
    case CacheSet(_, _) => 0
    case CacheExpire(_, _) => 1
    case DbSet(_, _) => 2
    case FilterAdd(_) => 3
    case _ => -1
  }

  /** The effect of set_data_handler on the stores, its reply and its calls.
      The steps run in a fixed order and the first failure ends the request;
      nothing done before it is undone, and a failed expiry is ignored. */
  function WritePipeline(s: Stores, p: SetRequestData, cacheTtl: nat, faults: SetFaults, codec: Codec): (out: SetOutcome)
    ensures 1 <= |out.calls| <= 4
    ensures forall i :: 0 <= i < |out.calls| ==> Stage(out.calls[i]) == i && out.calls[i].key == p.address
    ensures SameExcept(s, out.stores, p.address)
    ensures s.cache.Keys <= out.stores.cache.Keys && s.db.Keys <= out.stores.db.Keys && s.filter <= out.stores.filter
    ensures out.reply.Success? <==> |out.calls| == 4 && !faults.filterAdd
    ensures out.reply.Success? ==> out.reply.payload == p.address
    ensures out.reply != Panic
  {
    var blob := codec.serialize(p.data);
    var afterCache := [CacheSet(p.address, blob)];
    if faults.cacheSet then
      SetOutcome(s, Failure(CacheInsertionFailed), afterCache)
    else
      var cached := s.(cache := s.cache[p.address := blob]);
      var afterExpire := afterCache + [CacheExpire(p.address, cacheTtl)];
      match codec.parseJson(p.data)
      case None => SetOutcome(cached, Failure(DataSerializationFailed), afterExpire)
      case Some(json) =>
        var afterDb := afterExpire + [DbSet(p.address, json)];
        if faults.dbSet then
          SetOutcome(cached, Failure(DBInsertionFailed), afterDb)
        else
          var stored := cached.(db := cached.db[p.address := json]);
          var afterFilter := afterDb + [FilterAdd(p.address)];
          if faults.filterAdd then
            SetOutcome(stored, Failure(CuckooFilterInsertionFailed), afterFilter)
          else
            SetOutcome(stored.(filter := stored.filter + {p.address}), Success(p.address), afterFilter)
  }

  /** set_data_handler: writes the serialized data to the cache, sets its
      expiry, parses the data as JSON, writes the parsed value to the durable
      store and adds the address to the filter, each step on the shared
      handle and each gated by the success of the one before. */
  method SetDataHandler(payload: SetRequestData, db: DurableStore, cache: CacheStore, filter: CuckooFilter,
                        cacheTtl: nat, faults: SetFaults, codec: Codec)
    returns (reply: Reply, ghost calls: seq<Call>)
    modifies db, cache, filter
    ensures Snapshot(cache, db, filter) == WritePipeline(old(Snapshot(cache, db, filter)), payload, cacheTtl, faults, codec).stores
    ensures reply == WritePipeline(old(Snapshot(cache, db, filter)), payload, cacheTtl, faults, codec).reply
    ensures calls == WritePipeline(old(Snapshot(cache, db, filter)), payload, cacheTtl, faults, codec).calls
  {
    var blob := codec.serialize(payload.data);
    var cacheOk := cache.SetData(payload.address, blob, faults.cacheSet);
    calls := [CacheSet(payload.address, blob)];
    if !cacheOk {
      return Failure(CacheInsertionFailed), calls;
    }

    // best effort: the outcome of the expiry call is dropped
    var _ := cache.ExpireEntry(payload.address, cacheTtl, faults.expire);
    calls := calls + [CacheExpire(payload.address, cacheTtl)];

    var parsed := codec.parseJson(payload.data);
    if parsed.None? {
      return Failure(DataSerializationFailed), calls;
    }
    var data := parsed.value;

    var dbOk := db.SetData(payload.address, data, faults.dbSet);
    calls := calls + [DbSet(payload.address, data)];
    if !dbOk {
      return Failure(DBInsertionFailed), calls;
    }

    var filterOk := filter.Add(payload.address, faults.filterAdd);
    calls := calls + [FilterAdd(payload.address)];
    if !filterOk {
      return Failure(CuckooFilterInsertionFailed), calls;
    }
    reply := Success(payload.address);
  }
}
