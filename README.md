# Data service request handlers, in Dafny

This project models the two request handlers of the data service in
`src/api/handlers.rs`. They coordinate three stores: a cuckoo filter of known
addresses, a cache, and a durable key-value store.

- `get_data_handler` (the read path) takes the `address` header. The filter is
  asked first, and an unknown address is refused with
  `CuckooFilterLookupFailed`. Otherwise the cache is read. Only a failed cache
  call falls back to the durable store.
- `set_data_handler` (the write path) runs five steps in order: cache write,
  best-effort expiry, JSON parse, durable-store write, filter insertion. Every
  failure except the expiry's ends the request with its own error code, and
  nothing done before it is undone.

Modules:

- `Wrappers` (wrappers.dfy): `Option` and `Result`.
- `Stores` (stores.dfy): the stores' contents as a value (`Stores`), the three
  shared handles as classes (`CacheStore`, `DurableStore`, `CuckooFilter`) with
  the calls the write path makes on them, and `Codec`, the foreign serde
  functions kept uninterpreted.
- `Handlers` (handlers.dfy): the read path as the function `GetDataHandler`.
  The write path as the method `SetDataHandler`, which changes the three
  handles in place, proved against the function `WritePipeline`. Each handler
  also returns the sequence of store calls it made, so the order of side effects
  can be stated.
- `HandlerProperties` (properties.dfy): lemmas about single requests, and about
  histories of requests served one after another (`Run`).

Failures of the external calls are boolean flags passed in per request
(`GetFaults`, `SetFaults`). A store call that does not fail behaves as a map:
`get_data` on a missing key answers `Ok(None)`.

Behaviour kept as the code has it:

- When the cache call fails and the durable store answers `Ok(None)`, the
  handler unwraps `None` (handlers.rs:63). The model replies `Panic` there.
  `ReachableGetNeverPanics` shows this cannot happen for stores built only by
  these handlers from empty stores. The reason is that the filter gains an
  address only after the durable store holds it. `GetPanicsOnDbMiss` shows the
  panic for any state whose filter holds an address the durable store lacks,
  read while the cache call fails.
- A failed durable-store lookup replies `DBInsertionFailed` (handlers.rs:69),
  the same code as a failed durable-store write, although a store lookup
  failure is documented as an error of its own; the model follows the code.
- A payload that is not JSON is refused after the cache entry has been written
  (handlers.rs:99 before 113), although the documented behaviour is to refuse
  it before any store is changed; the model follows the code.
- A cache answer `Ok(None)` is a success with the empty string. It does not
  fall back to the durable store.
- The read path never writes back into the cache after reading the durable
  store: it makes only read calls (`GetMakesOnlyReadCalls`).

## Model

| member | source | states |
|---|---|---|
| `Handlers.HeaderText` | src/api/handlers.rs:32 | the header value is text exactly when every byte is tab or printable ASCII, and then the text has the same characters as the bytes |
| `Handlers.AddressOf` | src/api/handlers.rs:30-33 | the address is the `address` header's text; it is empty when the header is missing or holds a byte that is not visible ASCII |
| `Stores.Lookup` | src/api/handlers.rs:41-58 | a store `get_data` call (the cache's at line 41, the durable store's at line 58) is an error exactly when the call fails; otherwise it is `Some` of the stored value when the store holds the key and `None` when it does not |
| `Handlers.GetDataHandler` | src/api/handlers.rs:20-73 | store calls are a prefix of filter, cache, durable store in that order; `CuckooFilterLookupFailed` exactly when the filter lacks the address; the durable store is asked exactly when the filter passes and the cache call fails; a panic only when the durable store lacks the address |
| `Handlers.WritePipeline` | src/api/handlers.rs:83-142 | the calls made are a prefix of cache write, expiry, durable write, filter add, all on the request's address; no store changes at any other address; no store loses a key; success exactly when all four calls were made and the filter add did not fail, with the address as payload; never a panic |
| `Handlers.SetDataHandler` | src/api/handlers.rs:83-142 | changing the three shared handles step by step with early returns yields exactly the stores, reply and calls of `WritePipeline` |
| `Stores.CacheStore.SetData` | src/api/handlers.rs:96-100 | the cache write reports success exactly when it does not fail, and only then stores the serialized data under the address |
| `Stores.CacheStore.ExpireEntry` | src/api/handlers.rs:106-110 | the expiry call reports success exactly when it does not fail and changes no cache entry |
| `Stores.DurableStore.SetData` | src/api/handlers.rs:120 | the durable write reports success exactly when it does not fail, and only then stores the parsed value under the address |
| `Stores.CuckooFilter.Add` | src/api/handlers.rs:129 | the filter insertion reports success exactly when it does not fail, and only then adds the address |
| `HandlerProperties.GetShortCircuitsOnFilterMiss` | src/api/handlers.rs:36-38 | an address absent from the filter is refused with `CuckooFilterLookupFailed`, and the filter is the only store called |
| `HandlerProperties.GetCacheHitWins` | src/api/handlers.rs:41-55 | a cache hit returns the deserialized cached value, whatever the durable store holds, and the durable store is not called |
| `HandlerProperties.GetCacheEmptyIsEmptySuccess` | src/api/handlers.rs:44-50 | a cache answer `Ok(None)` gives success with the empty string and no durable-store call |
| `HandlerProperties.GetFallsBackToDb` | src/api/handlers.rs:56-71 | after a failed cache call the durable store is called; its value is returned deserialized, its failure gives `DBInsertionFailed`, its `Ok(None)` panics |
| `HandlerProperties.GetErrorCodes` | src/api/handlers.rs:36-72 | the read path's only error codes are `CuckooFilterLookupFailed` and `DBInsertionFailed`, the latter only when both the cache and the durable-store calls failed |
| `HandlerProperties.SetCacheFailureChangesNothing` | src/api/handlers.rs:96-100 | a failed cache write leaves every store unchanged, replies `CacheInsertionFailed` and makes no further call |
| `HandlerProperties.SetExpiryFailureIgnored` | src/api/handlers.rs:106-110 | whether the expiry call fails changes neither the stores, the reply nor the calls made |
| `HandlerProperties.SetParseFailureKeepsCacheEntry` | src/api/handlers.rs:113-118 | data that is not JSON replies `DataSerializationFailed` with only the cache entry written |
| `HandlerProperties.SetDbFailureKeepsCacheEntry` | src/api/handlers.rs:120-132 | a failed durable write replies `DBInsertionFailed`, keeps the cache entry, leaves durable store and filter unchanged and makes no filter call |
| `HandlerProperties.SetFilterFailureAfterCommit` | src/api/handlers.rs:128-141 | a failed filter add replies `CuckooFilterInsertionFailed` with cache and durable store already holding the record and the filter unchanged |
| `HandlerProperties.SetSuccessCommitsAll` | src/api/handlers.rs:96-139 | `set_data` succeeds exactly when cache write, parse, durable write and filter add all succeed; then the reply carries the address and the three stores hold the serialized data, the parsed value and the address |
| `HandlerProperties.SetFilterOnlyAfterDbCommit` | src/api/handlers.rs:120-129 | an address newly in the filter has its parsed data in the durable store, written by a durable-store call of the same request |
| `HandlerProperties.SetIdempotent` | src/api/handlers.rs:96-139 | repeating a successful `set_data` changes no store whichever calls of the repeat fail, and succeeds again when none of them fails |
| `HandlerProperties.SetThenGetReadsBack` | src/api/handlers.rs:41-55 | after a successful `set_data`, a `get_data` of the same address with a working cache returns the data written (given that deserialization undoes serialization) without calling the durable store |
| `HandlerProperties.SetThenGetFromDb` | src/api/handlers.rs:56-68 | after a successful `set_data`, a `get_data` whose cache call fails returns the durable store's copy of the parsed data |
| `HandlerProperties.FilterFailureHidesWrite` | src/api/handlers.rs:135-140 | when only the filter add fails for a new address, cache and durable store hold it but a following `get_data` is refused by the filter |
| `HandlerProperties.SetKeepsFilterBacked` | src/api/handlers.rs:120-129 | one `set_data` keeps every filter member held by the durable store |
| `HandlerProperties.RunKeepsFilterBacked` | src/api/handlers.rs:120-129 | every history of requests keeps every filter member held by the durable store |
| `HandlerProperties.RunOnlyGrows` | src/api/handlers.rs:99-129 | no history removes an address from the filter or from the durable store |
| `HandlerProperties.GetMakesOnlyReadCalls` | src/api/handlers.rs:36-72 | every call the read path makes is a filter lookup, a cache get or a durable-store get, derived from `GetDataHandler`'s ensures that its calls are a prefix of filter, cache, durable store; it makes no write call, so there is no cache repopulation |
| `HandlerProperties.GetsDoNotChangeStores` | src/api/handlers.rs:36-72 | a history ends where its `set_data` requests alone end; this rests on `Step` leaving the stores as they were for a `get_data`, which `GetMakesOnlyReadCalls` justifies |
| `HandlerProperties.ReachableGetNeverPanics` | src/api/handlers.rs:58-63 | from empty stores, no history of requests leads to a `get_data` that panics on the durable store's `Ok(None)` |
| `HandlerProperties.GetPanicsOnDbMiss` | src/api/handlers.rs:56-63 | an address in the filter but not in the durable store, read while the cache call fails, panics |
| `HandlerProperties.ScenarioSetThenGet` | src/api/handlers.rs:30-55 | writing `{"a":1}` under `addr1` with no failure stores it in all three stores and replies `addr1`; a following read with header `address: addr1` returns `{"a":1}` from the cache |
| `HandlerProperties.ScenarioUnknownAddress` | src/api/handlers.rs:30-38 | reading with header `address: unknown` when the filter lacks it replies `CuckooFilterLookupFailed` |

## Left out

- The HTTP route wiring in src/api/routes.rs: signature verification, CORS, the body size limit and JSON body extraction. It holds no coordination logic.
- Locks, `async`/`.await` and the interleaving of concurrent requests. Each request is one sequential transition, and a history serves requests one after another.
- The reply envelope (`CallResponse`, `JsonReply`, `json_serialize_embed`) and its messages. A reply is only its payload or its error code.
- Cuckoo filter hashing and false positives. The filter is the exact set of added addresses. With false positives the panic at handlers.rs:63 becomes reachable again.
- Cache expiry over time. `expire_entry` changes nothing observable, and no entry ever lapses.
- The internals of `serialize_data`, `deserialize_data` and `serde_json::from_str`. They are uninterpreted functions in `Codec`, and a panic inside them is not modelled.
- How the durable store renders a stored JSON value back into text on `get_data`. This is the uninterpreted `Codec.readBack`.
- The error values of the store calls. The handlers never inspect them.
- A store call that fails is taken to change nothing in that store, including a failed filter add on a full filter.
- A cache that reports a missing key as an error rather than `Ok(None)` is covered only through the cache fault flag; a fault-free cache answers `Ok(None)`.
- The model's `HeaderMap` keeps one value per lower-case header name, while http's `HeaderMap` is a multimap. `HeaderMap::get` returns the first value of a name, which is the one the model keeps.
- `cache_ttl` is a `usize` in the source and a `nat` here. Its bound plays no part in the handlers.
