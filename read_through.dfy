/** The read-through pattern that src/collections.js, src/products.js and src/search.js each spell
    out: read the cached entry, return its data while it is valid, otherwise send one request,
    take the data out of the response, hand it to setCache and return it. */
module ReadThrough {
  import opened Wrappers
  import opened JsValue
  import opened Storage
  import opened Gateway
  import opened Cache

  /** What one call of an accessor does: its result, the requests it sent in order, and the
      storage it leaves behind. */
  datatype Effect = Effect(result: Result<Value>, sent: seq<Request>, items: Items)

  /** An accessor over partition p: `const entry = cache.<p>[key]; if (isCacheValid(entry)) return
      entry.data; ... setCache(cache.<p>, key, data); return data;`. A throw anywhere propagates. */
  function PartitionSpec(items: Items, env: Env, p: Partition, key: string, req: Request,
                         extract: Value -> Result<Value>): Effect
  {
    match Prop(PartitionContents(items, p), key)
    case Err(e) => Effect(Err(e), [], items)
    case Ok(entry) =>
      if IsCacheValid(entry, env.now, env.ttl) then Effect(Ok(Get(entry, "data")), [], items)
      else
        match extract(env.gw(req))
        case Err(e) => Effect(Err(e), [req], items)
        case Ok(data) =>
          var (w, after) := SetCacheOutcome(items, GetterStoreKey(items, p), key, data, env.now);
          Effect(if w.Err? then Err(w.error) else Ok(data), [req], after)
  }

  method PartitionAccessor(ls: LocalStorage, env: Env, p: Partition, key: string, req: Request,
                           extract: Value -> Result<Value>) returns (r: Result<Value>, sent: seq<Request>)
    modifies ls
    ensures Effect(r, sent, ls.items) == PartitionSpec(old(ls.items), env, p, key, req, extract)
  {
    var store := ReadPartition(ls, p);
    var entry := Prop(RefValue(store), key);
    if entry.Err? {
      return Err(entry.error), [];
    }
    if IsCacheValid(entry.value, env.now, env.ttl) {
      return Ok(Get(entry.value, "data")), [];
    }
    sent := [req];
    var data := extract(env.gw(req));
    if data.Err? {
      return Err(data.error), sent;
    }
    var again := ReadPartition(ls, p);
    var w := SetCache(ls, Val(again), key, data.value, env.now);
    r := if w.Err? then Err(w.error) else data;
  }

  /** A valid entry answers without a request and without touching storage. */
  lemma PartitionHit(items: Items, env: Env, p: Partition, key: string, req: Request,
                     extract: Value -> Result<Value>, entry: Value)
    requires Prop(PartitionContents(items, p), key) == Ok(entry)
    requires IsCacheValid(entry, env.now, env.ttl)
    ensures var e := PartitionSpec(items, env, p, key, req, extract);
      e.sent == [] && e.items == items && e.result == Ok(Get(entry, "data"))
  {
  }

  /** Otherwise exactly one request goes out, and the result is the data taken from its answer. */
  lemma PartitionMiss(items: Items, env: Env, p: Partition, key: string, req: Request,
                      extract: Value -> Result<Value>, entry: Value)
    requires Prop(PartitionContents(items, p), key) == Ok(entry)
    requires !IsCacheValid(entry, env.now, env.ttl)
    ensures var e := PartitionSpec(items, env, p, key, req, extract);
      e.sent == [req] && (e.result.Ok? ==> extract(env.gw(req)) == e.result)
  {
  }

  /** The write-back is lost whenever the partition holds an object (as it always does once
      anything was read from it) and the key is not the collections-list key: storage is unchanged,
      so the same call made again right away misses again and sends the same request. */
  lemma PartitionWriteLost(items: Items, env: Env, p: Partition, key: string, req: Request,
                           extract: Value -> Result<Value>)
    requires PartitionContents(items, p).Obj? && key != "collectionsList"
    requires var c := PartitionContents(items, p); key !in c.fields || !IsCacheValid(c.fields[key], env.now, env.ttl)
    ensures var e := PartitionSpec(items, env, p, key, req, extract);
      e.items == items && e.sent == [req]
      && PartitionSpec(e.items, env, p, key, req, extract) == e
  {
    var c := PartitionContents(items, p);
    if key !in c.fields {
      assert !IsCacheValid(Undefined, env.now, env.ttl);
    }
  }
}
