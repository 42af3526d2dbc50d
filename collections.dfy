/** src/collections.js: the collections list (cached as the singleton entry) and the products of
    one collection (cached in the `collections` partition under the collection's name). */
module Collections {
  import opened Wrappers
  import opened JsValue
  import opened Storage
  import opened Gateway
  import opened Cache
  import opened ReadThrough
  import Utils

  /** `const { collections } = answer; collections.edges.map((e) => e.node)`. */
  function CollectionNodes(answer: Value): Result<Value> {
    FieldNodes(answer, "collections")
  }

  /** `collections.edges[0]?.node.products.edges || []`, mapped to nodes: only the first
      collection counts, and no collection at all gives the empty list. */
  function FirstCollectionProducts(answer: Value): (r: Result<Value>)
    ensures r.Ok? ==> r.value.Arr?
  {
    var collections :- Prop(answer, "collections");
    var edges :- Prop(collections, "edges");
    var first :- Prop(edges, "0");
    var productEdges :-
      if Nullish(first) then Ok(Undefined)
      else
        var products :- Prop(Get(first, "node"), "products");
        Prop(products, "edges");
    NodesOf(if Truthy(productEdges) then productEdges else Arr([]))
  }

  /** What fetchCollections does: a valid singleton entry answers without a request; otherwise one
      GET_COLLECTIONS request, whose nodes are written under the singleton key and returned. */
  function FetchCollectionsSpec(items: Items, env: Env): Effect {
    var entry := CollectionsListEntry(items);
    if IsCacheValid(entry, env.now, env.ttl) then Effect(Ok(Get(entry, "data")), [], items)
    else
      match CollectionNodes(env.gw(GetCollections))
      case Err(e) => Effect(Err(e), [GetCollections], items)
      case Ok(data) =>
        Effect(Ok(data), [GetCollections], items[StorageKey(CollectionsList) := JsonCell(NewEntry(data, env.now))])
  }

  method FetchCollections(ls: LocalStorage, env: Env) returns (r: Result<Value>, sent: seq<Request>)
    modifies ls
    ensures Effect(r, sent, ls.items) == FetchCollectionsSpec(old(ls.items), env)
  {
    var entry := CollectionsListEntry(ls.items);
    if IsCacheValid(entry, env.now, env.ttl) {
      return Ok(Get(entry, "data")), [];
    }
    sent := [GetCollections];
    var data := CollectionNodes(env.gw(GetCollections));
    if data.Err? {
      return Err(data.error), sent;
    }
    var _ := SetCache(ls, CacheRoot, "collectionsList", data.value, env.now);
    r := data;
  }

  /** After a miss that succeeded, the very next call (with a positive TTL, before it runs out) is a
      hit: no request, and the same list back as JSON carries it. */
  lemma FetchCollectionsTwice(items: Items, env: Env, later: int)
    requires FetchCollectionsSpec(items, env).sent != [] && FetchCollectionsSpec(items, env).result.Ok?
    requires env.now <= later < env.now + env.ttl
    ensures var first := FetchCollectionsSpec(items, env);
      var second := FetchCollectionsSpec(first.items, env.(now := later));
      second.sent == [] && second.items == first.items && second.result == Ok(Normalize(first.result.value))
  {
    var first := FetchCollectionsSpec(items, env);
    var data := first.result.value;
    assert !data.Undefined?;
    EntryValidity(data, env.now, later, env.ttl);
  }

  /** A hit answers the stored data and sends nothing. */
  lemma FetchCollectionsHit(items: Items, env: Env)
    requires IsCacheValid(CollectionsListEntry(items), env.now, env.ttl)
    ensures FetchCollectionsSpec(items, env) == Effect(Ok(Get(CollectionsListEntry(items), "data")), [], items)
  {
  }

  /** A miss sends exactly one request and returns the nodes of its collections connection, in
      order; the same list is what is written. */
  lemma FetchCollectionsMiss(items: Items, env: Env, nodes: seq<Value>)
    requires !IsCacheValid(CollectionsListEntry(items), env.now, env.ttl)
    requires env.gw(GetCollections) == Obj(map["collections" := Connection(nodes)])
    ensures FetchCollectionsSpec(items, env) ==
      Effect(Ok(Arr(nodes)), [GetCollections], items[StorageKey(CollectionsList) := JsonCell(NewEntry(Arr(nodes), env.now))])
  {
    FieldNodesOfConnection("collections", nodes);
  }

  /** A gateway failure (the error envelope) makes fetchCollections throw on `.edges`. */
  lemma FetchCollectionsOnFailure(items: Items, env: Env, message: string)
    requires !IsCacheValid(CollectionsListEntry(items), env.now, env.ttl)
    requires env.gw(GetCollections) == Utils.HandleApiError(message)
    ensures FetchCollectionsSpec(items, env).result.Err?
    ensures FetchCollectionsSpec(items, env).result.error.TypeError?
    ensures FetchCollectionsSpec(items, env).items == items
  {
    assert Prop(env.gw(GetCollections), "collections") == Ok(Undefined);
  }

  /** The request fetchProductsByCollection sends for the collection called name. */
  function ProductsRequest(name: string): (q: Request)
    ensures q.GetProductsByCollection? && q.collectionTitle == "title:" + name
  {
    GetProductsByCollection("title:" + name)
  }

  /** `fetchProductsByCollection(name)`: the read-through over the `collections` partition. */
  method FetchProductsByCollection(ls: LocalStorage, env: Env, name: string) returns (r: Result<Value>, sent: seq<Request>)
    modifies ls
    ensures Effect(r, sent, ls.items) ==
      PartitionSpec(old(ls.items), env, Collections, name, ProductsRequest(name), FirstCollectionProducts)
  {
    r, sent := PartitionAccessor(ls, env, Collections, name, ProductsRequest(name), FirstCollectionProducts);
  }

  /** The products of the first collection in the answer are the ones used; later collections are
      ignored. */
  lemma FirstCollectionOnly(products: seq<Value>, others: seq<Value>)
    ensures var first := Obj(map["products" := Connection(products)]);
      FirstCollectionProducts(Obj(map["collections" := Connection([first] + others)])) == Ok(Arr(products))
  {
    var first := Obj(map["products" := Connection(products)]);
    var edges := Connection([first] + others).fields["edges"];
    assert Prop(edges, "0") == Ok(Obj(map["node" := first]));
    NodesOfConnection(products);
  }

  /** No matching collection gives the empty list. */
  lemma NoCollectionGivesEmpty()
    ensures FirstCollectionProducts(Obj(map["collections" := Connection([])])) == Ok(Arr([]))
  {
    assert Prop(Connection([]).fields["edges"], "0") == Ok(Undefined);
  }

  /** On a miss, the one request names the collection as `title:<name>`, and what is returned is
      what the answer yields. */
  lemma ProductsByCollectionMiss(items: Items, env: Env, name: string, entry: Value)
    requires Prop(PartitionContents(items, Collections), name) == Ok(entry)
    requires !IsCacheValid(entry, env.now, env.ttl)
    ensures var e := PartitionSpec(items, env, Collections, name, ProductsRequest(name), FirstCollectionProducts);
      e.sent == [GetProductsByCollection("title:" + name)]
      && (e.result.Ok? ==> e.result == FirstCollectionProducts(env.gw(GetProductsByCollection("title:" + name))))
  {
    PartitionMiss(items, env, Collections, name, ProductsRequest(name), FirstCollectionProducts, entry);
  }

  /** A collection literally named "collectionsList" is written over the collections-list entry, since
      setCache routes that key to the singleton whatever the store. */
  lemma CollectionNamedCollectionsList(items: Items, env: Env, entry: Value, data: Value)
    requires PartitionContents(items, Collections).Obj?
    requires Prop(PartitionContents(items, Collections), "collectionsList") == Ok(entry)
    requires !IsCacheValid(entry, env.now, env.ttl)
    requires FirstCollectionProducts(env.gw(ProductsRequest("collectionsList"))) == Ok(data)
    ensures PartitionSpec(items, env, Collections, "collectionsList", ProductsRequest("collectionsList"), FirstCollectionProducts).items
      == items[StorageKey(CollectionsList) := JsonCell(NewEntry(data, env.now))]
  {
  }
}
