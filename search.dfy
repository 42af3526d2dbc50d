/** src/search.js: product search, cached in the `search` partition under the search term. */
module Search {
  import opened Wrappers
  import opened JsValue
  import opened Storage
  import Gateway
  import opened Cache
  import opened ReadThrough

  /** `const { products } = answer; products.edges.map((e) => e.node)`. */
  function ProductNodes(answer: Value): Result<Value> {
    Gateway.FieldNodes(answer, "products")
  }

  method SearchProducts(ls: LocalStorage, env: Gateway.Env, term: string) returns (r: Result<Value>, sent: seq<Gateway.Request>)
    modifies ls
    ensures Effect(r, sent, ls.items) ==
      PartitionSpec(old(ls.items), env, Search, term, Gateway.SearchProducts(term), ProductNodes)
  {
    r, sent := PartitionAccessor(ls, env, Search, term, Gateway.SearchProducts(term), ProductNodes);
  }

  lemma SearchHit(items: Items, env: Gateway.Env, term: string, entry: Value)
    requires Prop(PartitionContents(items, Search), term) == Ok(entry)
    requires IsCacheValid(entry, env.now, env.ttl)
    ensures PartitionSpec(items, env, Search, term, Gateway.SearchProducts(term), ProductNodes)
      == Effect(Ok(Get(entry, "data")), [], items)
  {
    PartitionHit(items, env, Search, term, Gateway.SearchProducts(term), ProductNodes, entry);
  }

  /** On a miss exactly one request with `{ q: term }` goes out, and the answer's product nodes come
      back in order, as many as there are edges. */
  lemma SearchMiss(items: Items, env: Gateway.Env, term: string, entry: Value, nodes: seq<Value>)
    requires PartitionContents(items, Search).Obj?
    requires Prop(PartitionContents(items, Search), term) == Ok(entry)
    requires !IsCacheValid(entry, env.now, env.ttl)
    requires env.gw(Gateway.SearchProducts(term)) == Obj(map["products" := Gateway.Connection(nodes)])
    ensures var e := PartitionSpec(items, env, Search, term, Gateway.SearchProducts(term), ProductNodes);
      e.sent == [Gateway.SearchProducts(term)] && e.result == Ok(Arr(nodes))
      && (term != "collectionsList" ==> e.items == items)
  {
    Gateway.FieldNodesOfConnection("products", nodes);
  }
}
