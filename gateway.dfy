/** The remote GraphQL gateway, seen from the library. `request(query, variables)` never throws: a
    transport or GraphQL failure comes back as the error envelope of `handleApiError`. The gateway is
    therefore a total function from requests to values, passed in together with the clock and the
    cache's time-to-live. */
module Gateway {
  import opened Wrappers
  import opened JsValue
  import Storage

  /** One call of `request`, by query and with its variables. */
  datatype Request =
    | GetCollections                                   // GET_COLLECTIONS, no variables
    | GetProductsByCollection(collectionTitle: string) // { collectionTitle }
    | GetProductById(id: string)                        // { id }
    | GetProductByHandle(handle: string)                // { handle }
    | SearchProducts(q: string)                         // { q }
    | GetCartVariants(ids: seq<string>)                 // { ids }
    | CreateCart(input: Value)                          // { input }
    | GetCart(cartId: Storage.Stored)                   // { id }: the text stored under shopifyCartId

  /** What the outside world supplies: the time `Date.now()` reads, the configured CACHE_TTL in
      milliseconds, and the gateway's answers. */
  datatype Env = Env(now: int, ttl: int, gw: Request -> Value)

  /** `edges.map((e) => e.node)`: edges must be an array, and reading `node` of a null or undefined
      edge throws. */
  function NodesOf(edges: Value): (r: Result<Value>)
    ensures r.Ok? ==> edges.Arr? && r.value.Arr? && |r.value.items| == |edges.items|
    ensures r.Ok? ==> forall i :: 0 <= i < |edges.items| ==> Prop(edges.items[i], "node") == Ok(r.value.items[i])
    ensures edges.Arr? && (forall i :: 0 <= i < |edges.items| ==> !Nullish(edges.items[i])) ==> r.Ok?
  {
    if !edges.Arr? then Err(TypeError("edges.map is not a function"))
    else
      var nodes :- NodesOfSeq(edges.items);
      Ok(Arr(nodes))
  }

  function NodesOfSeq(es: seq<Value>): (r: Result<seq<Value>>)
    ensures r.Ok? ==> |r.value| == |es| && forall i :: 0 <= i < |es| ==> Prop(es[i], "node") == Ok(r.value[i])
    ensures (forall i :: 0 <= i < |es| ==> !Nullish(es[i])) ==> r.Ok?
    decreases |es|
  {
    if es == [] then Ok([])
    else
      var n :- Prop(es[0], "node");
      var rest :- NodesOfSeq(es[1..]);
      assert forall i :: 1 <= i < |es| ==> es[i] == es[1..][i - 1];
      Ok([n] + rest)
  }

  /** A GraphQL connection `{ edges: [{ node: n0 }, { node: n1 }, ...] }` over the given nodes. */
  function Connection(nodes: seq<Value>): Value {
    Obj(map["edges" := Arr(seq(|nodes|, i requires 0 <= i < |nodes| => Obj(map["node" := nodes[i]])))])
  }

  /** `const { field } = response; field.edges.map((e) => e.node)`. */
  function FieldNodes(response: Value, field: string): (r: Result<Value>)
    ensures r.Ok? ==> r.value.Arr?
  {
    var connection :- Prop(response, field);
    var edges :- Prop(connection, "edges");
    NodesOf(edges)
  }

  /** A connection answers its own nodes, in order and all of them. */
  lemma {:induction false} NodesOfConnection(nodes: seq<Value>)
    ensures NodesOf(Connection(nodes).fields["edges"]) == Ok(Arr(nodes))
  {
    var edges := Connection(nodes).fields["edges"];
    var r := NodesOf(edges);
    assert forall i :: 0 <= i < |nodes| ==> !Nullish(edges.items[i]);
    assert r.Ok?;
    forall i | 0 <= i < |nodes|
      ensures r.value.items[i] == nodes[i]
    {
      assert Prop(edges.items[i], "node") == Ok(nodes[i]);
    }
    assert r.value.items == nodes;
  }

  lemma FieldNodesOfConnection(field: string, nodes: seq<Value>)
    ensures FieldNodes(Obj(map[field := Connection(nodes)]), field) == Ok(Arr(nodes))
  {
    NodesOfConnection(nodes);
  }
}
