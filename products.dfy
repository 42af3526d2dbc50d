/** src/products.js: one product by id or by handle, each cached in its own partition. */
module Products {
  import opened Wrappers
  import opened JsValue
  import opened Storage
  import opened Gateway
  import opened Cache
  import opened ReadThrough

  /** `const { product } = answer`. */
  function ProductField(answer: Value): Result<Value> {
    Prop(answer, "product")
  }

  /** `const { productByHandle } = answer`. */
  function ProductByHandleField(answer: Value): Result<Value> {
    Prop(answer, "productByHandle")
  }

  method FetchProductById(ls: LocalStorage, env: Env, id: string) returns (r: Result<Value>, sent: seq<Request>)
    modifies ls
    ensures Effect(r, sent, ls.items) == PartitionSpec(old(ls.items), env, ProductById, id, GetProductById(id), ProductField)
  {
    r, sent := PartitionAccessor(ls, env, ProductById, id, GetProductById(id), ProductField);
  }

  method FetchProductByHandle(ls: LocalStorage, env: Env, handle: string) returns (r: Result<Value>, sent: seq<Request>)
    modifies ls
    ensures Effect(r, sent, ls.items) ==
      PartitionSpec(old(ls.items), env, ProductByHandle, handle, GetProductByHandle(handle), ProductByHandleField)
  {
    r, sent := PartitionAccessor(ls, env, ProductByHandle, handle, GetProductByHandle(handle), ProductByHandleField);
  }

  /** A valid entry for id is answered with its data and no request. */
  lemma ProductByIdHit(items: Items, env: Env, id: string, entry: Value)
    requires Prop(PartitionContents(items, ProductById), id) == Ok(entry)
    requires IsCacheValid(entry, env.now, env.ttl)
    ensures PartitionSpec(items, env, ProductById, id, GetProductById(id), ProductField)
      == Effect(Ok(Get(entry, "data")), [], items)
  {
    PartitionHit(items, env, ProductById, id, GetProductById(id), ProductField, entry);
  }

  /** Otherwise one request with `{ id }` goes out and its `product` is returned, null included. */
  lemma ProductByIdMiss(items: Items, env: Env, id: string, entry: Value, product: Value)
    requires PartitionContents(items, ProductById).Obj?
    requires Prop(PartitionContents(items, ProductById), id) == Ok(entry)
    requires !IsCacheValid(entry, env.now, env.ttl)
    requires env.gw(GetProductById(id)) == Obj(map["product" := product])
    ensures var e := PartitionSpec(items, env, ProductById, id, GetProductById(id), ProductField);
      e.sent == [GetProductById(id)] && (id != "collectionsList" ==> e == Effect(Ok(product), [GetProductById(id)], items))
  {
    PartitionMiss(items, env, ProductById, id, GetProductById(id), ProductField, entry);
  }

  lemma ProductByHandleHit(items: Items, env: Env, handle: string, entry: Value)
    requires Prop(PartitionContents(items, ProductByHandle), handle) == Ok(entry)
    requires IsCacheValid(entry, env.now, env.ttl)
    ensures PartitionSpec(items, env, ProductByHandle, handle, GetProductByHandle(handle), ProductByHandleField)
      == Effect(Ok(Get(entry, "data")), [], items)
  {
    PartitionHit(items, env, ProductByHandle, handle, GetProductByHandle(handle), ProductByHandleField, entry);
  }

  lemma ProductByHandleMiss(items: Items, env: Env, handle: string, entry: Value, product: Value)
    requires PartitionContents(items, ProductByHandle).Obj?
    requires Prop(PartitionContents(items, ProductByHandle), handle) == Ok(entry)
    requires !IsCacheValid(entry, env.now, env.ttl)
    requires env.gw(GetProductByHandle(handle)) == Obj(map["productByHandle" := product])
    ensures var e := PartitionSpec(items, env, ProductByHandle, handle, GetProductByHandle(handle), ProductByHandleField);
      e.sent == [GetProductByHandle(handle)]
      && (handle != "collectionsList" ==> e == Effect(Ok(product), [GetProductByHandle(handle)], items))
  {
    PartitionMiss(items, env, ProductByHandle, handle, GetProductByHandle(handle), ProductByHandleField, entry);
  }
}
