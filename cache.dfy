/** The localStorage-backed response cache (src/cache.js). Four partitions keyed by lookup argument
    (`productById`, `productByHandle`, `collections`, `search`) each live as one JSON object under
    their own storage key; the collections list is one entry under a fifth key. Every read of a
    partition re-reads and re-parses storage, so it yields a NEW object each time; that is why a
    partition object handed back to `setCache` is never recognised, which the model keeps. */
module Cache {
  import opened Wrappers
  import opened JsValue
  import opened Storage

  datatype Partition = ProductById | ProductByHandle | Collections | Search

  /** The five names of CACHE_KEYS. */
  datatype StoreName = Part(p: Partition) | CollectionsList

  /** The property name of each store in CACHE_KEYS, which is also the getter's name on `cache`. */
  function NameOf(n: StoreName): string {
    match n
    case Part(ProductById) => "productById"
    case Part(ProductByHandle) => "productByHandle"
    case Part(Collections) => "collections"
    case Part(Search) => "search"
    case CollectionsList => "collectionsList"
  }

  /** `CACHE_KEYS[n]`: the localStorage key of each store. */
  function StorageKey(n: StoreName): (k: string)
    ensures k == "shopify-cache-" + NameOf(n)
  {
    match n
    case Part(ProductById) => "shopify-cache-productById"
    case Part(ProductByHandle) => "shopify-cache-productByHandle"
    case Part(Collections) => "shopify-cache-collections"
    case Part(Search) => "shopify-cache-search"
    case CollectionsList => "shopify-cache-collectionsList"
  }

  /** The stores in the order `Object.values(CACHE_KEYS)` lists them. */
  const Stores: seq<StoreName> :=
    [Part(ProductById), Part(ProductByHandle), Part(Collections), Part(Search), CollectionsList]

  /** Every storage key the cache owns. */
  function CacheStorageKeys(): set<string> {
    set i | 0 <= i < |Stores| :: StorageKey(Stores[i])
  }

  /** The store a CACHE_KEYS property name designates, if any. */
  function StoreNamed(name: string): (r: Option<StoreName>)
    ensures forall n :: r == Some(n) <==> NameOf(n) == name
  {
    if name == "productById" then Some(Part(ProductById))
    else if name == "productByHandle" then Some(Part(ProductByHandle))
    else if name == "collections" then Some(Part(Collections))
    else if name == "search" then Some(Part(Search))
    else if name == "collectionsList" then Some(CollectionsList)
    else None
  }

  /** `getFromLocalStorage(key)`: a missing or empty cell reads as `{}`, and so does a cell whose
      text does not parse; otherwise the parsed value. */
  function FromLocalStorage(items: Items, key: string): (v: Value)
    ensures key in items && items[key].Json? ==> v == items[key].v
    ensures key !in items || items[key].Text? ==> v == Obj(map[])
  {
    if key in items && CellTruthy(items[key]) then
      match ParseCell(items[key])
      case Ok(v) => v
      case Err(_) => Obj(map[])
    else Obj(map[])
  }

  /** The `collectionsList` getter: as FromLocalStorage, but with null in place of `{}`. */
  function CollectionsListEntry(items: Items): (v: Value)
    ensures var key := StorageKey(CollectionsList);
      if key in items && items[key].Json? then v == items[key].v else v == Null
  {
    var key := StorageKey(CollectionsList);
    if key in items && CellTruthy(items[key]) then
      match ParseCell(items[key])
      case Ok(v) => v
      case Err(_) => Null
    else Null
  }

  /** What the getter of partition p currently reads. */
  function PartitionContents(items: Items, p: Partition): Value {
    FromLocalStorage(items, StorageKey(Part(p)))
  }

  /** A heap object built by JSON.parse. Two reads of storage never give the same one. */
  class JsObject {
    const value: Value

    constructor (v: Value)
      ensures value == v
    {
      value := v;
    }
  }

  /** A JavaScript value as `===` sees it: primitives by value, arrays and objects by identity. */
  datatype JsRef = Prim(v: Value) | Ref(obj: JsObject)

  /** The first argument of getCache/setCache: the `cache` object itself, or any other value. */
  datatype StoreArg = CacheRoot | Val(r: JsRef)

  /** Reading the getter of partition p: an array or object comes back as a freshly allocated
      object, anything else as a primitive. */
  method ReadPartition(ls: LocalStorage, p: Partition) returns (r: JsRef)
    ensures r.Ref? <==> PartitionContents(ls.items, p).Arr? || PartitionContents(ls.items, p).Obj?
    ensures r.Prim? ==> r.v == PartitionContents(ls.items, p)
    ensures r.Ref? ==> fresh(r.obj) && r.obj.value == PartitionContents(ls.items, p)
  {
    var v := PartitionContents(ls.items, p);
    if v.Arr? || v.Obj? {
      var o := new JsObject(v);
      r := Ref(o);
    } else {
      r := Prim(v);
    }
  }

  /** Whether `store === cache[p]` can hold: only a primitive equal to a primitive content can. */
  predicate SameAsPartition(items: Items, store: StoreArg, p: Partition) {
    var c := PartitionContents(items, p);
    store.Val? && store.r.Prim? && !(c.Arr? || c.Obj?) && store.r.v == c
  }

  /** What `getStoreKey(store)` answers: the first partition whose getter returns a value
      identical to store, or null. No object can ever match, since every getter call builds a new
      one. */
  function StoreKeyFor(items: Items, store: StoreArg): (k: Option<Partition>)
    ensures k == None <==> forall p :: !SameAsPartition(items, store, p)
    ensures k.Some? ==> SameAsPartition(items, store, k.value)
    ensures store == CacheRoot || (store.Val? && store.r.Ref?) ==> k == None
  {
    if SameAsPartition(items, store, ProductById) then Some(ProductById)
    else if SameAsPartition(items, store, ProductByHandle) then Some(ProductByHandle)
    else if SameAsPartition(items, store, Collections) then Some(Collections)
    else if SameAsPartition(items, store, Search) then Some(Search)
    else None
  }

  /** `getStoreKey(store)`: four getter reads and four identity tests, in source order. */
  method GetStoreKey(ls: LocalStorage, store: StoreArg) returns (k: Option<Partition>)
    ensures k == StoreKeyFor(ls.items, store)
  {
    var byId := ReadPartition(ls, ProductById);
    var byHandle := ReadPartition(ls, ProductByHandle);
    var collections := ReadPartition(ls, Collections);
    var search := ReadPartition(ls, Search);
    k := if store == Val(byId) then Some(ProductById)
      else if store == Val(byHandle) then Some(ProductByHandle)
      else if store == Val(collections) then Some(Collections)
      else if store == Val(search) then Some(Search)
      else None;
  }

  /** `entry && Date.now() - entry.timestamp < CACHE_TTL`, as a truth value. A timestamp that is
      not a number compares as NaN, which is never less than anything. */
  predicate IsCacheValid(entry: Value, now: int, ttl: int) {
    Truthy(entry) &&
    match NumberOf(Get(entry, "timestamp"))
    case Some(t) => now - t < ttl
    case None => false
  }

  /** `{ data, timestamp: Date.now() }`. */
  function NewEntry(data: Value, now: int): (e: Value)
    ensures Prop(e, "data") == Ok(data) && Prop(e, "timestamp") == Ok(Num(now))
  {
    Obj(map["data" := data, "timestamp" := Num(now)])
  }

  /** An entry is valid exactly while less than ttl milliseconds have passed since it was made,
      and what comes back through storage still holds the data JSON can carry. */
  lemma EntryValidity(data: Value, made: int, now: int, ttl: int)
    ensures IsCacheValid(Normalize(NewEntry(data, made)), now, ttl) <==> now - made < ttl
    ensures !data.Undefined? ==> Prop(Normalize(NewEntry(data, made)), "data") == Ok(Normalize(data))
    ensures data.Undefined? ==> Prop(Normalize(NewEntry(data, made)), "data") == Ok(Undefined)
  {
    var e := NewEntry(data, made);
    assert "timestamp" in e.fields && !e.fields["timestamp"].Undefined?;
    assert Normalize(e).fields["timestamp"] == Num(made);
  }

  /** An entry without a numeric timestamp, or a falsy one, is never valid. */
  lemma InvalidWithoutTimestamp(entry: Value, now: int, ttl: int)
    requires !Truthy(entry) || NumberOf(Get(entry, "timestamp")).None?
    ensures !IsCacheValid(entry, now, ttl)
  {
  }

  /** The strict-mode assignment `target[key] = v`, observed as JSON.stringify will see the result.
      Objects gain or replace the field; arrays take an element index (padding with holes) or a
      new length; other named properties on an array are not part of its JSON form. Assigning on
      a primitive throws. */
  function AssignProperty(target: Value, key: string, v: Value): (r: Result<Value>)
    ensures r.Ok? <==> target.Obj? || (target.Arr? && (key == "length" ==> match NumberOf(v) case Some(n) => n >= 0 case None => false))
    ensures target.Obj? ==>
      r.Ok? && Prop(r.value, key) == Ok(v) && forall k :: k != key ==> Prop(r.value, k) == Prop(target, k)
    ensures target.Arr? && IndexKey(key).Some? ==>
      r.Ok? && Prop(r.value, key) == Ok(v) && r.value.Arr?
      && |r.value.items| == if IndexKey(key).value < |target.items| then |target.items| else IndexKey(key).value + 1
    ensures r.Err? && !target.Arr? ==> r.error.TypeError?
  {
    match target
    case Obj(m) => Ok(Obj(m[key := v]))
    case Arr(xs) =>
      if key == "length" then
        (match NumberOf(v)
         case Some(n) =>
           if n < 0 then Err(RangeError("Invalid array length"))
           else if n <= |xs| then Ok(Arr(xs[..n]))
           else Ok(Arr(xs + seq(n - |xs|, _ => Undefined)))
         case None => Err(RangeError("Invalid array length")))
      else
        (match IndexKey(key)
         case Some(i) =>
           if i < |xs| then Ok(Arr(xs[i := v]))
           else Ok(Arr(xs + seq(i - |xs|, _ => Undefined) + [v]))
         case None => Ok(target))
    case Undefined => Err(TypeError("Cannot set properties of undefined (setting '" + key + "')"))
    case Null => Err(TypeError("Cannot set properties of null (setting '" + key + "')"))
    case _ => Err(TypeError("Cannot create property '" + key + "' on " + ToStr(target)))
  }

  /** Lines 100-103 of setCache: re-read partition p, assign the entry under key, write it back. */
  method WritePartitionEntry(ls: LocalStorage, p: Partition, key: string, entry: Value) returns (r: Result<()>)
    modifies ls
    ensures var a := AssignProperty(old(PartitionContents(ls.items, p)), key, entry);
      r.Err? <==> a.Err?
    ensures var a := AssignProperty(old(PartitionContents(ls.items, p)), key, entry);
      if a.Ok? then ls.items == old(ls.items)[StorageKey(Part(p)) := JsonCell(a.value)]
      else ls.items == old(ls.items) && r == Err(a.error)
  {
    var storeData := PartitionContents(ls.items, p);
    var updated := AssignProperty(storeData, key, entry);
    if updated.Err? {
      return Err(updated.error);
    }
    ls.SetItem(StorageKey(Part(p)), JsonCell(updated.value));
    r := Ok(());
  }

  /** The outcome of setCache and the storage after it, given getStoreKey's answer k. */
  function SetCacheOutcome(items: Items, k: Option<Partition>, key: string, data: Value, now: int): (Result<()>, Items) {
    if key == "collectionsList" then (Ok(()), items[StorageKey(CollectionsList) := JsonCell(NewEntry(data, now))])
    else
      match k
      case None => (Ok(()), items)
      case Some(p) =>
        match AssignProperty(PartitionContents(items, p), key, NewEntry(data, now))
        case Ok(v) => (Ok(()), items[StorageKey(Part(p)) := JsonCell(v)])
        case Err(e) => (Err(e), items)
  }

  /** Outside the collections-list key, setCache never changes storage: getStoreKey recognises no
      object, and assigning into the primitive it may recognise throws. */
  lemma SetCacheKeepsPartitions(items: Items, store: StoreArg, key: string, data: Value, now: int)
    requires key != "collectionsList"
    ensures SetCacheOutcome(items, StoreKeyFor(items, store), key, data, now).1 == items
    ensures SetCacheOutcome(items, StoreKeyFor(items, store), key, data, now).0.Err?
      <==> StoreKeyFor(items, store).Some?
  {
  }

  /** `setCache(store, key, data)` at time now. The collections list is written straight to its key.
      Any other key goes to the partition getStoreKey recognises; an unrecognised store (every
      object, including the partition objects the callers pass) makes the write a no-op. */
  method SetCache(ls: LocalStorage, store: StoreArg, key: string, data: Value, now: int) returns (r: Result<()>)
    modifies ls
    ensures (r, ls.items) == SetCacheOutcome(old(ls.items), StoreKeyFor(old(ls.items), store), key, data, now)
  {
    var entry := NewEntry(data, now);
    if key == "collectionsList" {
      ls.SetItem(StorageKey(CollectionsList), JsonCell(entry));
      return Ok(());
    }
    var storeKey := GetStoreKey(ls, store);
    if storeKey == None {
      return Ok(());
    }
    r := WritePartitionEntry(ls, storeKey.value, key, entry);
  }

  /** getStoreKey's answer for the object a getter of partition p has just returned. */
  function GetterStoreKey(items: Items, p: Partition): (k: Option<Partition>)
    ensures PartitionContents(items, p).Arr? || PartitionContents(items, p).Obj? ==> k == None
  {
    var c := PartitionContents(items, p);
    if c.Arr? || c.Obj? then None else StoreKeyFor(items, Val(Prim(c)))
  }

  /** The value behind a getter result. */
  function RefValue(r: JsRef): Value {
    match r
    case Prim(v) => v
    case Ref(o) => o.value
  }

  /** The storage key getCache falls back to: `CACHE_KEYS[getStoreKey(store)]`, which for null is
      the property "null" of CACHE_KEYS, that is undefined, read by getItem as the key "undefined". */
  function FallbackKey(items: Items, store: StoreArg): string {
    KeyOf(StoreKeyFor(items, store))
  }

  function KeyOf(k: Option<Partition>): string {
    match k
    case Some(p) => StorageKey(Part(p))
    case None => "undefined"
  }

  /** A property of the `cache` object itself: the four partition getters and the list getter. */
  function RootProperty(items: Items, key: string): Value {
    match StoreNamed(key)
    case Some(Part(p)) => PartitionContents(items, p)
    case Some(CollectionsList) => CollectionsListEntry(items)
    case None => Undefined
  }

  /** What `getCache(store, key)` returns or throws. A plain object (`constructor === Object`) is
      looked up directly; null throws on `.constructor`; anything else goes back to storage. */
  function GetCacheSpec(items: Items, store: StoreArg, key: string): (r: Result<Value>)
    ensures key == "collectionsList" ==> r == Ok(CollectionsListEntry(items))
    ensures key != "collectionsList" && store.Val? && store.r.Ref? && store.r.obj.value.Obj? ==>
      r == Prop(store.r.obj.value, key)
    ensures key != "collectionsList" && store.Val? && store.r.Ref? && !store.r.obj.value.Obj? ==>
      r == Prop(FromLocalStorage(items, "undefined"), key)
  {
    if key == "collectionsList" then Ok(CollectionsListEntry(items))
    else
      match store
      case CacheRoot => Ok(RootProperty(items, key))
      case Val(Ref(o)) =>
        if o.value.Obj? then Prop(o.value, key) else Prop(FromLocalStorage(items, FallbackKey(items, store)), key)
      case Val(Prim(v)) =>
        if v.Null? then Err(TypeError("Cannot read properties of null (reading 'constructor')"))
        else Prop(FromLocalStorage(items, FallbackKey(items, store)), key)
  }

  /** `getCache(store, key)`, with the getter reads of getStoreKey performed for real. */
  method GetCache(ls: LocalStorage, store: StoreArg, key: string) returns (r: Result<Value>)
    ensures r == GetCacheSpec(ls.items, store, key)
  {
    if key == "collectionsList" {
      return Ok(CollectionsListEntry(ls.items));
    }
    match store {
      case CacheRoot =>
        r := Ok(RootProperty(ls.items, key));
      case Val(Ref(o)) =>
        if o.value.Obj? {
          r := Prop(o.value, key);
        } else {
          var k := GetStoreKey(ls, store);
          r := Prop(FromLocalStorage(ls.items, KeyOf(k)), key);
        }
      case Val(Prim(v)) =>
        if v.Null? {
          r := Err(TypeError("Cannot read properties of null (reading 'constructor')"));
        } else {
          var k := GetStoreKey(ls, store);
          r := Prop(FromLocalStorage(ls.items, KeyOf(k)), key);
        }
    }
  }

  /** The collections list reads back, through any store argument, as the entry last written to it
      once it has gone through JSON. */
  lemma CollectionsListRoundTrip(items: Items, store: StoreArg, data: Value, now: int)
    ensures GetCacheSpec(items[StorageKey(CollectionsList) := JsonCell(NewEntry(data, now))], store, "collectionsList")
      == Ok(Normalize(NewEntry(data, now)))
  {
  }

  /** The keys `clearCache(storeType)` removes: every cache key for a falsy argument, the one key of
      a known store name, nothing for any other name. */
  function ClearedKeys(storeType: Value): (ks: set<string>)
    ensures ks <= CacheStorageKeys()
    ensures !Truthy(storeType) ==> ks == CacheStorageKeys()
    ensures Truthy(storeType) ==>
      (ks == {} <==> forall n :: NameOf(n) != ToStr(storeType))
    ensures forall n :: Truthy(storeType) && NameOf(n) == ToStr(storeType) ==> ks == {StorageKey(n)}
  {
    if Truthy(storeType) then
      match StoreNamed(ToStr(storeType))
      case Some(n) => assert StorageKey(n) == StorageKey(Stores[IndexOfStore(n)]); {StorageKey(n)}
      case None => {}
    else CacheStorageKeys()
  }

  function IndexOfStore(n: StoreName): (i: nat)
    ensures i < |Stores| && Stores[i] == n
  {
    match n
    case Part(ProductById) => 0
    case Part(ProductByHandle) => 1
    case Part(Collections) => 2
    case Part(Search) => 3
    case CollectionsList => 4
  }

  /** `clearCache(storeType)`. */
  method ClearCache(ls: LocalStorage, storeType: Value)
    modifies ls
    ensures ls.items == old(ls.items) - ClearedKeys(storeType)
  {
    if Truthy(storeType) && StoreNamed(ToStr(storeType)).Some? {
      ls.RemoveItem(StorageKey(StoreNamed(ToStr(storeType)).value));
    } else if !Truthy(storeType) {
      for i := 0 to |Stores|
        invariant ls.items == old(ls.items) - set j | 0 <= j < i :: StorageKey(Stores[j])
      {
        ls.RemoveItem(StorageKey(Stores[i]));
      }
    }
  }

  /** After clearing, a cleared partition reads as empty and nothing outside the cache's keys moved. */
  lemma ClearedPartitionIsEmpty(items: Items, storeType: Value, p: Partition)
    requires StorageKey(Part(p)) in ClearedKeys(storeType)
    ensures PartitionContents(items - ClearedKeys(storeType), p) == Obj(map[])
    ensures forall k :: k in items && k !in CacheStorageKeys() ==> (items - ClearedKeys(storeType))[k] == items[k]
  {
  }
}
