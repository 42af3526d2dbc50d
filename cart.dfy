/** src/cart.js: the shopping cart, an ordered list of `{ variantId, quantity }` lines held in
    module state and mirrored to localStorage under `shopifyCart` after every change. */
module Cart {
  import opened Wrappers
  import opened JsValue
  import opened Storage
  import opened Gateway

  const CartKey := "shopifyCart"
  const CartIdKey := "shopifyCartId"

  datatype Line = Line(variantId: string, quantity: int)

  /** The line as a JavaScript object, the form JSON.stringify writes. */
  function EncodeLine(l: Line): Value {
    Obj(map["variantId" := Str(l.variantId), "quantity" := Num(l.quantity)])
  }

  function DecodeLine(v: Value): Option<Line> {
    if v.Obj? && v.fields.Keys == {"variantId", "quantity"} && v.fields["variantId"].Str? && v.fields["quantity"].Num?
    then Some(Line(v.fields["variantId"].s, v.fields["quantity"].n))
    else None
  }

  function EncodeLines(lines: seq<Line>): Value {
    Arr(seq(|lines|, i requires 0 <= i < |lines| => EncodeLine(lines[i])))
  }

  /** A stored cart that is exactly a list of lines. */
  function DecodeLines(v: Value): Option<seq<Line>> {
    if v.Arr? && forall i :: 0 <= i < |v.items| ==> DecodeLine(v.items[i]).Some? then
      Some(seq(|v.items|, i requires 0 <= i < |v.items| && DecodeLine(v.items[i]).Some? => DecodeLine(v.items[i]).value))
    else None
  }

  /** Lines survive the trip through storage, in both directions. */
  lemma DecodeEncode(lines: seq<Line>)
    ensures DecodeLines(EncodeLines(lines)) == Some(lines)
  {
    var v := EncodeLines(lines);
    forall i | 0 <= i < |lines| ensures DecodeLine(v.items[i]) == Some(lines[i]) {
      assert v.items[i] == EncodeLine(lines[i]);
    }
    assert DecodeLines(v).Some?;
    var d := DecodeLines(v).value;
    assert |d| == |lines|;
    forall i | 0 <= i < |lines| ensures d[i] == lines[i] {
      assert d[i] == DecodeLine(v.items[i]).value;
    }
    assert d == lines;
  }

  lemma EncodeDecode(v: Value)
    requires DecodeLines(v).Some?
    ensures EncodeLines(DecodeLines(v).value) == v
  {
    var lines := DecodeLines(v).value;
    forall i | 0 <= i < |v.items| ensures EncodeLine(lines[i]) == v.items[i] {
      var f := v.items[i].fields;
      assert EncodeLine(lines[i]).fields == f;
    }
    assert EncodeLines(lines).items == v.items;
  }

  /** An encoded cart contains no undefined, so JSON.stringify writes it as it is. */
  lemma EncodedCartCell(lines: seq<Line>)
    ensures JsonCell(EncodeLines(lines)) == Json(EncodeLines(lines))
  {
    var v := EncodeLines(lines);
    forall i | 0 <= i < |lines| ensures JsonClean(v.items[i]) {
      assert v.items[i] == EncodeLine(lines[i]);
    }
    assert JsonClean(v);
    NormalizeKeepsClean(v);
  }

  /** No two lines share a variantId. */
  predicate Unique(lines: seq<Line>) {
    forall i, j :: 0 <= i < j < |lines| ==> lines[i].variantId != lines[j].variantId
  }

  /** `cart.find((i) => i.variantId === id)`, as the index of the first match. */
  function FindIndex(lines: seq<Line>, id: string): (r: Option<nat>)
    ensures r.Some? ==>
      r.value < |lines| && lines[r.value].variantId == id && forall j :: 0 <= j < r.value ==> lines[j].variantId != id
    ensures r.None? ==> forall j :: 0 <= j < |lines| ==> lines[j].variantId != id
    decreases |lines|
  {
    if lines == [] then None
    else if lines[0].variantId == id then Some(0)
    else
      match FindIndex(lines[1..], id)
      case Some(i) => Some(i + 1)
      case None => None
  }

  /** The lines after `addToCart(id, q)`. */
  function AddLine(lines: seq<Line>, id: string, q: int): seq<Line> {
    match FindIndex(lines, id)
    case Some(i) => lines[i := Line(id, lines[i].quantity + q)]
    case None => lines + [Line(id, q)]
  }

  /** The lines after `removeFromCart(id)`: `cart.filter((i) => i.variantId !== id)`. */
  function RemoveLines(lines: seq<Line>, id: string): (r: seq<Line>)
    ensures |r| <= |lines|
    decreases |lines|
  {
    if lines == [] then []
    else (if lines[0].variantId == id then [] else [lines[0]]) + RemoveLines(lines[1..], id)
  }

  /** The lines after `updateCartItem(id, q)`. */
  function UpdateLine(lines: seq<Line>, id: string, q: int): seq<Line> {
    match FindIndex(lines, id)
    case Some(i) => lines[i := Line(id, q)]
    case None => lines
  }

  /** `cart.reduce((sum, item) => sum + item.quantity, 0)`. */
  function Count(lines: seq<Line>): int
    decreases |lines|
  {
    if lines == [] then 0 else lines[0].quantity + Count(lines[1..])
  }

  /** `cart.map((i) => i.variantId)`. */
  function Ids(lines: seq<Line>): (ids: seq<string>)
    ensures |ids| == |lines| && forall i :: 0 <= i < |lines| ==> ids[i] == lines[i].variantId
  {
    seq(|lines|, i requires 0 <= i < |lines| => lines[i].variantId)
  }

  /** Adding a variant already in the cart bumps that one line and leaves the list's length and
      every other line as they were. */
  lemma AddExisting(lines: seq<Line>, id: string, q: int, i: nat)
    requires i < |lines| && lines[i].variantId == id && Unique(lines)
    ensures var r := AddLine(lines, id, q);
      |r| == |lines| && r[i] == Line(id, lines[i].quantity + q)
      && forall j :: 0 <= j < |lines| && j != i ==> r[j] == lines[j]
  {
    assert FindIndex(lines, id) == Some(i);
  }

  /** Adding a new variant appends one line at the end. */
  lemma AddNew(lines: seq<Line>, id: string, q: int)
    requires forall j :: 0 <= j < |lines| ==> lines[j].variantId != id
    ensures AddLine(lines, id, q) == lines + [Line(id, q)]
  {
  }

  lemma AddKeepsUnique(lines: seq<Line>, id: string, q: int)
    requires Unique(lines)
    ensures Unique(AddLine(lines, id, q))
  {
  }

  lemma UpdateKeepsUnique(lines: seq<Line>, id: string, q: int)
    requires Unique(lines)
    ensures Unique(UpdateLine(lines, id, q))
  {
  }

  /** What survives the filter: exactly the lines with another variantId. */
  lemma {:induction false} RemoveLinesMembers(lines: seq<Line>, id: string)
    ensures forall l :: l in RemoveLines(lines, id) <==> l in lines && l.variantId != id
    decreases |lines|
  {
    if lines != [] {
      RemoveLinesMembers(lines[1..], id);
      assert lines == [lines[0]] + lines[1..];
    }
  }

  lemma {:induction false} RemoveKeepsUnique(lines: seq<Line>, id: string)
    requires Unique(lines)
    ensures Unique(RemoveLines(lines, id))
    decreases |lines|
  {
    if lines != [] {
      RemoveKeepsUnique(lines[1..], id);
      RemoveLinesMembers(lines[1..], id);
      var rest := RemoveLines(lines[1..], id);
      forall l | l in rest ensures l.variantId != lines[0].variantId {
        assert l in lines[1..];
      }
    }
  }

  /** The filter distributes over concatenation, which is to say it keeps the survivors' order. */
  lemma {:induction false} RemoveConcat(a: seq<Line>, b: seq<Line>, id: string)
    ensures RemoveLines(a + b, id) == RemoveLines(a, id) + RemoveLines(b, id)
    decreases |a|
  {
    if a == [] {
      assert a + b == b;
    } else {
      assert (a + b)[0] == a[0];
      assert (a + b)[1..] == a[1..] + b;
      RemoveConcat(a[1..], b, id);
    }
  }

  lemma {:induction false} RemoveAbsent(lines: seq<Line>, id: string)
    requires forall j :: 0 <= j < |lines| ==> lines[j].variantId != id
    ensures RemoveLines(lines, id) == lines
    decreases |lines|
  {
    if lines != [] {
      RemoveAbsent(lines[1..], id);
    }
  }

  /** In a cart without duplicates, removing a present variant drops exactly its line and keeps
      the others in order. */
  lemma RemoveExisting(lines: seq<Line>, id: string, i: nat)
    requires Unique(lines) && i < |lines| && lines[i].variantId == id
    ensures RemoveLines(lines, id) == lines[..i] + lines[i + 1..]
  {
    var pre, post := lines[..i], lines[i + 1..];
    assert lines == (pre + [lines[i]]) + post;
    forall j | 0 <= j < |pre| ensures pre[j].variantId != id {
      assert pre[j] == lines[j];
    }
    forall j | 0 <= j < |post| ensures post[j].variantId != id {
      assert post[j] == lines[i + 1 + j];
    }
    RemoveAbsent(pre, id);
    RemoveAbsent(post, id);
    RemoveConcat(pre + [lines[i]], post, id);
    RemoveConcat(pre, [lines[i]], id);
    assert RemoveLines([lines[i]], id) == [] by {
      assert [lines[i]][1..] == [];
    }
    assert pre + [] == pre;
  }

  /** Updating a variant in the cart sets that one line's quantity to q, whatever q is (zero and
      below included: the line is kept, not removed), and leaves every other line as it was. */
  lemma UpdateExisting(lines: seq<Line>, id: string, q: int, i: nat)
    requires Unique(lines) && i < |lines| && lines[i].variantId == id
    ensures UpdateLine(lines, id, q) == lines[i := Line(id, q)]
    ensures var r := UpdateLine(lines, id, q);
      |r| == |lines| && r[i] == Line(id, q) && forall j :: 0 <= j < |lines| && j != i ==> r[j] == lines[j]
  {
    assert FindIndex(lines, id) == Some(i);
  }

  /** Updating a variant that is not in the cart changes nothing. */
  lemma UpdateAbsent(lines: seq<Line>, id: string, q: int)
    requires forall j :: 0 <= j < |lines| ==> lines[j].variantId != id
    ensures UpdateLine(lines, id, q) == lines
  {
  }

  lemma UpdateToZeroIsNotRemove()
    ensures UpdateLine([Line("a", 1)], "a", 0) == [Line("a", 0)]
    ensures RemoveLines([Line("a", 1)], "a") == []
  {
    assert FindIndex([Line("a", 1)], "a") == Some(0);
  }

  lemma {:induction false} CountUpdate(lines: seq<Line>, i: nat, l: Line)
    requires i < |lines|
    ensures Count(lines[i := l]) == Count(lines) - lines[i].quantity + l.quantity
    decreases i
  {
    if i > 0 {
      assert lines[i := l][1..] == lines[1..][i - 1 := l];
      CountUpdate(lines[1..], i - 1, l);
    } else {
      assert lines[i := l][1..] == lines[1..];
    }
  }

  lemma {:induction false} CountConcat(a: seq<Line>, b: seq<Line>)
    ensures Count(a + b) == Count(a) + Count(b)
    decreases |a|
  {
    if a == [] {
      assert a + b == b;
    } else {
      assert (a + b)[0] == a[0];
      assert (a + b)[1..] == a[1..] + b;
      CountConcat(a[1..], b);
    }
  }

  /** addToCart(id, q) raises the count by q, whether or not id was already there. */
  lemma CountAfterAdd(lines: seq<Line>, id: string, q: int)
    ensures Count(AddLine(lines, id, q)) == Count(lines) + q
  {
    match FindIndex(lines, id)
    case Some(i) =>
      CountUpdate(lines, i, Line(id, lines[i].quantity + q));
    case None =>
      CountConcat(lines, [Line(id, q)]);
      assert Count([Line(id, q)]) == q;
  }

  /** Removing a present variant from a cart without duplicates lowers the count by its quantity. */
  lemma CountAfterRemove(lines: seq<Line>, id: string, i: nat)
    requires Unique(lines) && i < |lines| && lines[i].variantId == id
    ensures Count(RemoveLines(lines, id)) == Count(lines) - lines[i].quantity
  {
    RemoveExisting(lines, id, i);
    var pre, post := lines[..i], lines[i + 1..];
    assert lines == pre + [lines[i]] + post;
    CountConcat(pre + [lines[i]], post);
    CountConcat(pre, [lines[i]]);
    assert Count([lines[i]]) == lines[i].quantity;
    CountConcat(pre, post);
  }

  /** A stored cart the module can start from: none, empty text, or a list of lines. */
  predicate Loadable(items: Items) {
    CartKey !in items || items[CartKey] == Text("") || (items[CartKey].Json? && DecodeLines(items[CartKey].v).Some?)
  }

  /** `JSON.parse(localStorage.getItem('shopifyCart') || '[]')`. */
  function StoredLines(items: Items): seq<Line>
    requires Loadable(items)
  {
    if CartKey in items && items[CartKey].Json? then DecodeLines(items[CartKey].v).value else []
  }

  /** One hydrated line: `{ variantId: n.id, quantity: <the cart's quantity for n.id>, price:
      n.price.amount, product: { id, title, handle, image } }`, each read in source order, where image
      is the first image's url or ''. */
  function HydratedLine(lines: seq<Line>, n: Value): (r: Result<Value>)
    ensures r.Err? ==> r.error.TypeError?
  {
    var id :- Prop(n, "id");
    var found := if id.Str? then FindIndex(lines, id.s) else None;
    var quantity :-
      if found.Some? then Ok(Num(lines[found.value].quantity))
      else Err(TypeError("Cannot read properties of undefined (reading 'quantity')"));
    var amount :- Prop(Get(n, "price"), "amount");
    var product := Get(n, "product");
    var productId :- Prop(product, "id");
    var title := Get(product, "title");
    var handle := Get(product, "handle");
    var images :- Prop(Get(product, "images"), "edges");
    var first :- Prop(images, "0");
    var url :- if Nullish(first) then Ok(Undefined) else Prop(Get(first, "node"), "url");
    Ok(Obj(map[
      "variantId" := id,
      "quantity" := quantity,
      "price" := amount,
      "product" := Obj(map["id" := productId, "title" := title, "handle" := handle,
                           "image" := if Truthy(url) then url else Str("")])]))
  }

  /** `nodes.map(...)`: every node hydrated in order, the first failure thrown. */
  function HydrateNodes(lines: seq<Line>, nodes: seq<Value>): (r: Result<seq<Value>>)
    ensures r.Ok? ==> |r.value| == |nodes| && forall i :: 0 <= i < |nodes| ==> HydratedLine(lines, nodes[i]) == Ok(r.value[i])
    ensures (forall i :: 0 <= i < |nodes| ==> HydratedLine(lines, nodes[i]).Ok?) ==> r.Ok?
    decreases |nodes|
  {
    if nodes == [] then Ok([])
    else
      var h :- HydratedLine(lines, nodes[0]);
      var rest :- HydrateNodes(lines, nodes[1..]);
      assert forall i :: 1 <= i < |nodes| ==> nodes[i] == nodes[1..][i - 1];
      Ok([h] + rest)
  }

  /** What hydrateCart returns or throws for the given gateway answer to its request. */
  function HydrateAnswer(lines: seq<Line>, answer: Value): Result<Value> {
    var nodes :- Prop(answer, "nodes");
    if Nullish(nodes) then Err(TypeError("Cannot read properties of " + ToStr(nodes) + " (reading 'map')"))
    else if !nodes.Arr? then Err(TypeError("nodes.map is not a function"))
    else
      var hydrated :- HydrateNodes(lines, nodes.items);
      Ok(Arr(hydrated))
  }

  /** The module state of cart.js over the shared storage object. */
  class CartState {
    var lines: seq<Line>
    const storage: LocalStorage

    /** Storage holds the serialisation of the in-memory list. */
    predicate Mirrored()
      reads this, storage
    {
      CartKey in storage.items && storage.items[CartKey] == Json(EncodeLines(lines))
    }

    /** Module load: the cart is read back from storage. */
    constructor Load(storage: LocalStorage)
      requires Loadable(storage.items)
      ensures this.storage == storage && lines == StoredLines(storage.items)
    {
      this.storage := storage;
      lines := StoredLines(storage.items);
    }

    /** `sync()`. */
    method Sync()
      modifies storage
      ensures storage.items == old(storage.items)[CartKey := Json(EncodeLines(lines))]
      ensures Mirrored()
    {
      EncodedCartCell(lines);
      storage.SetItem(CartKey, JsonCell(EncodeLines(lines)));
    }

    /** `addToCart(variantId, qty)`; an omitted qty (None) is 1. */
    method AddToCart(variantId: string, qty: Option<int>)
      modifies this, storage
      ensures lines == AddLine(old(lines), variantId, if qty.None? then 1 else qty.value)
      ensures storage.items == old(storage.items)[CartKey := Json(EncodeLines(lines))]
      ensures old(Unique(lines)) ==> Unique(lines)
    {
      if Unique(lines) { MutatorsKeepUnique(lines, variantId, if qty.None? then 1 else qty.value); }
      var q := if qty.None? then 1 else qty.value;
      var item := FindIndex(lines, variantId);
      if item.Some? {
        lines := lines[item.value := lines[item.value].(quantity := lines[item.value].quantity + q)];
      } else {
        lines := lines + [Line(variantId, q)];
      }
      Sync();
    }

    method RemoveFromCart(variantId: string)
      modifies this, storage
      ensures lines == RemoveLines(old(lines), variantId)
      ensures storage.items == old(storage.items)[CartKey := Json(EncodeLines(lines))]
      ensures old(Unique(lines)) ==> Unique(lines)
    {
      if Unique(lines) { MutatorsKeepUnique(lines, variantId, 0); }
      lines := RemoveLines(lines, variantId);
      Sync();
    }

    method UpdateCartItem(variantId: string, qty: int)
      modifies this, storage
      ensures lines == UpdateLine(old(lines), variantId, qty)
      ensures storage.items == old(storage.items)[CartKey := Json(EncodeLines(lines))]
      ensures old(Unique(lines)) ==> Unique(lines)
    {
      if Unique(lines) { MutatorsKeepUnique(lines, variantId, qty); }
      var item := FindIndex(lines, variantId);
      if item.Some? {
        lines := lines[item.value := lines[item.value].(quantity := qty)];
      }
      Sync();
    }

    method ClearCart()
      modifies this, storage
      ensures lines == []
      ensures storage.items == old(storage.items)[CartKey := Json(EncodeLines([]))]
      ensures old(Unique(lines)) ==> Unique(lines)
    {
      lines := [];
      Sync();
    }

    /** `getCart()`: a new array holding the same lines. */
    function GetCart(): (r: Value)
      reads this
      ensures r.Arr? && DecodeLines(r) == Some(lines)
    {
      DecodeEncode(lines);
      EncodeLines(lines)
    }

    /** `getCartCount()`. */
    function GetCartCount(): (n: int)
      reads this
      ensures lines == [] ==> n == 0
    {
      Count(lines)
    }

    /** `hydrateCart()`: an empty cart answers [] without a request; otherwise one request for all
        the cart's variant ids, in cart order. */
    method HydrateCart(gw: Request -> Value) returns (r: Result<Value>, sent: seq<Request>)
      ensures lines == [] ==> r == Ok(Arr([])) && sent == []
      ensures lines != [] ==> sent == [GetCartVariants(Ids(lines))] && r == HydrateAnswer(lines, gw(sent[0]))
    {
      if |lines| == 0 {
        return Ok(Arr([])), [];
      }
      var ids := Ids(lines);
      sent := [GetCartVariants(ids)];
      r := HydrateAnswer(lines, gw(GetCartVariants(ids)));
    }
  }

  /** Every mutator keeps the variantIds unique. */
  lemma MutatorsKeepUnique(lines: seq<Line>, id: string, q: int)
    requires Unique(lines)
    ensures Unique(AddLine(lines, id, q)) && Unique(RemoveLines(lines, id)) && Unique(UpdateLine(lines, id, q))
    ensures Unique([])
  {
    AddKeepsUnique(lines, id, q);
    RemoveKeepsUnique(lines, id);
    UpdateKeepsUnique(lines, id, q);
  }

  /** A node whose id is the variant of cart line i gets that line's quantity, when the cart has
      no duplicates. */
  lemma HydratedQuantity(lines: seq<Line>, n: Value, i: nat)
    requires Unique(lines) && i < |lines|
    requires Prop(n, "id") == Ok(Str(lines[i].variantId))
    requires HydratedLine(lines, n).Ok?
    ensures Prop(HydratedLine(lines, n).value, "quantity") == Ok(Num(lines[i].quantity))
    ensures Prop(HydratedLine(lines, n).value, "variantId") == Ok(Str(lines[i].variantId))
  {
    assert FindIndex(lines, lines[i].variantId) == Some(i);
  }

  /** A product without image edges gets the image ''. */
  lemma HydratedWithoutImage(lines: seq<Line>, n: Value)
    requires HydratedLine(lines, n).Ok?
    requires !Nullish(n) && !Nullish(Get(n, "product")) && !Nullish(Get(Get(n, "product"), "images"))
    requires Get(Get(Get(n, "product"), "images"), "edges") == Arr([])
    ensures var product := Get(HydratedLine(lines, n).value, "product");
      !Nullish(product) && Get(product, "image") == Str("")
  {
  }

  /** A node for a variant that is not in the cart throws, and so does a null node. */
  lemma HydrateUnknownVariant(lines: seq<Line>, n: Value)
    requires Nullish(n) || (Prop(n, "id").Ok? && Prop(n, "id").value.Str? && FindIndex(lines, Prop(n, "id").value.s).None?)
    ensures HydratedLine(lines, n).Err?
  {
  }
}
