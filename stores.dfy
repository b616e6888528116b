/** The three collaborators the request handlers coordinate: a cuckoo filter
    that answers "was this address ever added?", a cache, and the durable
    key-value store. Each is seen only through the calls the handlers make on
    it; whether a call fails is decided by the environment and passed in as a
    flag. */
module Stores {
  import opened Wrappers

  /** The key of every record: the request's address, compared case-sensitively */
  type Address = string

  /** A record in the serialized text form the cache holds */
  type Blob = string

  /** A parsed JSON value, as the durable store holds it; its structure is not modelled */
  type Json(==)

  /** The foreign conversions the handlers call, kept uninterpreted:
      serialize is serialize_data, deserialize is deserialize_data::<String>,
      parseJson is serde_json::from_str::<Value> (None when the text is not JSON),
      and readBack is the serialized form in which the durable store's get_data
      hands back a stored JSON value. */
  datatype Codec = Codec(
    serialize: string -> Blob,
    deserialize: Blob -> string,
    parseJson: string -> Option<Json>,
    readBack: Json -> Blob)

  /** The contents of the three stores at one moment */
  datatype Stores = Stores(cache: map<Address, Blob>, db: map<Address, Json>, filter: set<Address>)

  /** Every store empty, as on a fresh deployment */
  function Empty(): Stores
  {
    Stores(map[], map[], {})
  }

  /** A get_data call on a key-value store holding m: an error when the call
      fails, otherwise the value under key, or None when there is none. */
  function Lookup<T>(m: map<Address, T>, key: Address, fails: bool): (r: Result<Option<T>>)
    ensures r.Err? <==> fails
    ensures r.Ok? ==> (r.value.Some? <==> key in m)
    ensures r.Ok? && r.value.Some? ==> r.value.value == m[key]
  {
    if fails then Err
    else if key in m then Ok(Some(m[key]))
    else Ok(None)
  }

  /** Stores s and t agree on every address other than key */
  predicate SameExcept(s: Stores, t: Stores, key: Address)
  {
    && s.cache - {key} == t.cache - {key}
    && s.db - {key} == t.db - {key}
    && s.filter - {key} == t.filter - {key}
  }

  /** The cache handle shared by all requests */
  class CacheStore {
    var entries: map<Address, Blob>

    constructor ()
      ensures entries == map[]
    {
      entries := map[];
    }

    /** set_data: stores value under key, or changes nothing when the call fails */
    method SetData(key: Address, value: Blob, fails: bool) returns (ok: bool)
      modifies this
      ensures ok == !fails
      ensures entries == if ok then old(entries)[key := value] else old(entries)
    {
      ok := !fails;
      if ok {
        entries := entries[key := value];
      }
    }

    /** expire_entry: sets the time to live of key. The lapse of time is not
        modelled, so a successful call changes no entry either. */
    method ExpireEntry(key: Address, ttl: nat, fails: bool) returns (ok: bool)
      ensures ok == !fails
    {
      ok := !fails;
    }
  }

  /** The durable key-value store handle shared by all requests */
  class DurableStore {
    var entries: map<Address, Json>

    constructor ()
      ensures entries == map[]
    {
      entries := map[];
    }

    /** set_data: stores value under key, or changes nothing when the call fails */
    method SetData(key: Address, value: Json, fails: bool) returns (ok: bool)
      modifies this
      ensures ok == !fails
      ensures entries == if ok then old(entries)[key := value] else old(entries)
    {
      ok := !fails;
      if ok {
        entries := entries[key := value];
      }
    }
  }

  /** The cuckoo filter handle, seen as the exact set of added addresses:
      it has no false negatives after add, and its false positives are not modelled */
  class CuckooFilter {
    var members: set<Address>

    constructor ()
      ensures members == {}
    {
      members := {};
    }

    /** add: inserts key, or changes nothing when the call fails (a full filter) */
    method Add(key: Address, fails: bool) returns (ok: bool)
      modifies this
      ensures ok == !fails
      ensures members == if ok then old(members) + {key} else old(members)
    {
      ok := !fails;
      if ok {
        members := members + {key};
      }
    }
  }

  /** What the three handles hold right now */
  function Snapshot(cache: CacheStore, db: DurableStore, filter: CuckooFilter): Stores
    reads cache, db, filter
  {
    Stores(cache.entries, db.entries, filter.members)
  }
}
