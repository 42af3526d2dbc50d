/** The declarative loader of src/declarative.js: templates are collected by id, and every
    `data-shopify` container is filled in turn — its template looked up, a loading state shown, its
    data fetched through the accessors by the rules its `data-*` attributes set, and the result
    rendered; a container that fails shows its error and the next one is processed. */
module Declarative {
  import opened Wrappers
  import opened JsValue
  import opened JsBuiltins
  import opened Storage
  import opened Gateway
  import Cache
  import opened ReadThrough
  import Collections
  import Products
  import Search
  import Cart
  import opened Template

  const LoadingHtml := "<div class=\"shopify-loading\">Loading...</div>"

  /** `renderError(container, message)`. */
  function ErrorHtml(message: string): string {
    "<div class=\"shopify-error\">Error: " + message + "</div>"
  }

  /** A container's `data-*` attributes, by their dataset names. */
  type Dataset = map<string, string>

  /** `container.dataset.<name>`: the attribute's text, or undefined. */
  function Attr(ds: Dataset, name: string): (v: Value)
    ensures v.Str? || v.Undefined?
    ensures v.Str? <==> name in ds
    ensures name in ds ==> v.s == ds[name]
  {
    if name in ds then Str(ds[name]) else Undefined
  }

  /** `parseInt(container.dataset.limit) || 10`: NaN and 0 both give 10. */
  function LimitOf(ds: Dataset): (n: int)
    ensures n != 0
    ensures "limit" !in ds ==> n == 10
  {
    match ParseInt(ToStr(Attr(ds, "limit")))
    case Some(k) => if k != 0 then k else 10
    case None => 10
  }

  /** A numeral for a positive count is that count; "0" gives the default. */
  lemma LimitOfNumeral(ds: Dataset, n: nat)
    requires "limit" in ds && ds["limit"] == NatToString(n)
    ensures LimitOf(ds) == if n == 0 then 10 else n
  {
    ParseIntOfNatToString(n);
  }

  /** `value.slice(0, limit)` on what an accessor returned (an array in practice; a string also has
      `slice`). */
  function SliceValue(v: Value, limit: int): (r: Result<Value>)
    ensures v.Arr? ==> r == Ok(Arr(Slice(v.items, 0, limit)))
    ensures !v.Arr? && !v.Str? ==> r.Err? && r.error.TypeError?
  {
    match v
    case Arr(xs) => Ok(Arr(Slice(xs, 0, limit)))
    case Str(s) => Ok(Str(Slice(s, 0, limit)))
    case Undefined => Err(TypeError("Cannot read properties of undefined (reading 'slice')"))
    case Null => Err(TypeError("Cannot read properties of null (reading 'slice')"))
    case _ => Err(TypeError("slice is not a function"))
  }

  /** What a `fetch*` method yields: the data object handed to `render`, the requests sent and the
      storage afterwards. */
  datatype Fetched = Fetched(result: Result<map<string, Value>>, sent: seq<Request>, items: Items)

  /** `{ [key]: data, ...extra }` around an accessor's effect. */
  function Wrapped(e: Effect, key: string, extra: map<string, Value>): Fetched {
    match e.result
    case Ok(data) => Fetched(Ok(extra[key := data]), e.sent, e.items)
    case Err(err) => Fetched(Err(err), e.sent, e.items)
  }

  /** Like Wrapped, with the accessor's data cut to `slice(0, limit)`. */
  function Limited(e: Effect, key: string, limit: int, extra: map<string, Value>): Fetched {
    match e.result
    case Ok(data) =>
      (match SliceValue(data, limit)
       case Ok(cut) => Fetched(Ok(extra[key := cut]), e.sent, e.items)
       case Err(err) => Fetched(Err(err), e.sent, e.items))
    case Err(err) => Fetched(Err(err), e.sent, e.items)
  }

  function ProductsEffect(items: Items, env: Env, name: string): Effect {
    PartitionSpec(items, env, Cache.Collections, name, Collections.ProductsRequest(name), Collections.FirstCollectionProducts)
  }

  /** A non-empty handle wins over the id. */
  function ProductEffect(items: Items, env: Env, ds: Dataset): Effect
    requires Truthy(Attr(ds, "handle")) || Truthy(Attr(ds, "id"))
  {
    if Truthy(Attr(ds, "handle")) then
      PartitionSpec(items, env, Cache.ProductByHandle, ds["handle"], GetProductByHandle(ds["handle"]), Products.ProductByHandleField)
    else PartitionSpec(items, env, Cache.ProductById, ds["id"], GetProductById(ds["id"]), Products.ProductField)
  }

  function SearchEffect(items: Items, env: Env, query: string): Effect {
    PartitionSpec(items, env, Cache.Search, query, Gateway.SearchProducts(query), Search.ProductNodes)
  }

  /** The `switch (type)` of processContainer with the five fetch methods; `cart` is the value
      getCart returns. */
  function FetchSpec(items: Items, env: Env, ds: Dataset, cart: Value): Fetched {
    var kind := Attr(ds, "shopify");
    if kind == Str("products") then
      var collection := Attr(ds, "collection");
      if !Truthy(collection) then Fetched(Err(Error("data-collection is required for products")), [], items)
      else Limited(ProductsEffect(items, env, collection.s), "products", LimitOf(ds), map["collection" := collection])
    else if kind == Str("product") then
      var handle, id := Attr(ds, "handle"), Attr(ds, "id");
      if !Truthy(handle) && !Truthy(id) then Fetched(Err(Error("data-handle or data-id is required for product")), [], items)
      else Wrapped(ProductEffect(items, env, ds), "product", map[])
    else if kind == Str("collections") then Wrapped(Collections.FetchCollectionsSpec(items, env), "collections", map[])
    else if kind == Str("search") then
      var query := Attr(ds, "query");
      if !Truthy(query) then Fetched(Err(Error("data-query is required for search")), [], items)
      else Limited(SearchEffect(items, env, query.s), "results", LimitOf(ds), map["query" := query])
    else if kind == Str("cart") then Fetched(Ok(map["cart" := cart]), [], items)
    else Fetched(Err(Error("Unknown shopify type: " + ToStr(kind))), [], items)
  }

  function Field(data: map<string, Value>, key: string): Value {
    if key in data then data[key] else Undefined
  }

  /** `render`: the first truthy one of products, collections, results, product and cart picks the
      renderer; without any the template is the output. */
  function Render(template: string, data: map<string, Value>, fmt: Value -> string): Result<string> {
    if Truthy(Field(data, "products")) then RenderList(template, Field(data, "products"), fmt)
    else if Truthy(Field(data, "collections")) then RenderList(template, Field(data, "collections"), fmt)
    else if Truthy(Field(data, "results")) then RenderList(template, Field(data, "results"), fmt)
    else if Truthy(Field(data, "product")) then RenderSingle(template, Field(data, "product"), fmt)
    else if Truthy(Field(data, "cart")) then RenderCart(template, Field(data, "cart"), fmt)
    else Ok(template)
  }

  /** The keys render tries, in its order. */
  const RenderOrder := ["products", "collections", "results", "product", "cart"]

  /** The first of keys whose value in data is truthy. */
  function FirstTruthy(data: map<string, Value>, keys: seq<string>): (r: Option<string>)
    ensures r.Some? ==> r.value in keys && Truthy(Field(data, r.value))
    ensures r.None? ==> forall i :: 0 <= i < |keys| ==> !Truthy(Field(data, keys[i]))
    decreases |keys|
  {
    if keys == [] then None
    else if Truthy(Field(data, keys[0])) then Some(keys[0])
    else FirstTruthy(data, keys[1..])
  }

  /** render runs the renderer of the first truthy key: a list for products, collections and
      results, the single renderer for product, the cart renderer for cart; with none, the template. */
  lemma RenderDispatch(template: string, data: map<string, Value>, fmt: Value -> string)
    ensures match FirstTruthy(data, RenderOrder)
      case None => Render(template, data, fmt) == Ok(template)
      case Some(k) =>
        if k == "product" then Render(template, data, fmt) == RenderSingle(template, data[k], fmt)
        else if k == "cart" then Render(template, data, fmt) == RenderCart(template, data[k], fmt)
        else Render(template, data, fmt) == RenderList(template, data[k], fmt)
  {
    RenderOrderFirst(data);
  }

  /** FirstTruthy over RenderOrder, spelled out key by key. */
  lemma RenderOrderFirst(data: map<string, Value>)
    ensures FirstTruthy(data, RenderOrder) ==
      if Truthy(Field(data, "products")) then Some("products")
      else if Truthy(Field(data, "collections")) then Some("collections")
      else if Truthy(Field(data, "results")) then Some("results")
      else if Truthy(Field(data, "product")) then Some("product")
      else if Truthy(Field(data, "cart")) then Some("cart")
      else None
  {
    var ks := RenderOrder;
    assert ks[1..] == ["collections", "results", "product", "cart"];
    assert ks[1..][1..] == ["results", "product", "cart"];
    assert ks[1..][1..][1..] == ["product", "cart"];
    assert ks[1..][1..][1..][1..] == ["cart"];
    assert ks[1..][1..][1..][1..][1..] == [];
  }

  /** A container after processContainer: whether it threw, its content, the requests and storage. */
  datatype Processed = Processed(result: Result<()>, html: string, sent: seq<Request>, items: Items)

  /** `templateId && this.templateCache.has(templateId)`. */
  predicate HasTemplate(templates: map<string, string>, ds: Dataset) {
    "template" in ds && ds["template"] != "" && ds["template"] in templates
  }

  function ProcessSpec(templates: map<string, string>, items: Items, env: Env, ds: Dataset, html: string,
                       cart: Value, fmt: Value -> string): Processed
  {
    if !HasTemplate(templates, ds) then
      Processed(Err(Error(NotFoundMessage(ds))), html, [], items)
    else Finish(FetchSpec(items, env, ds, cart), templates[ds["template"]], fmt)
  }

  /** The message of processContainer for a missing template. */
  function NotFoundMessage(ds: Dataset): string {
    "Template \"" + ToStr(Attr(ds, "template")) + "\" not found"
  }

  /** After the loading state: a fetch or render failure leaves the loading markup in place. */
  function Finish(f: Fetched, template: string, fmt: Value -> string): Processed {
    match f.result
    case Err(err) => Processed(Err(err), LoadingHtml, f.sent, f.items)
    case Ok(data) =>
      match Render(template, data, fmt)
      case Ok(out) => Processed(Ok(()), out, f.sent, f.items)
      case Err(err) => Processed(Err(err), LoadingHtml, f.sent, f.items)
  }

  /** The content after the catch of processContainers. */
  function Shown(p: Processed): string {
    if p.result.Err? then ErrorHtml(p.result.error.message) else p.html
  }

  datatype Batch = Batch(htmls: seq<string>, sent: seq<Request>, items: Items)

  /** processContainers over the first n of the containers with datasets dss and contents htmls, in
      document order; each container sees the storage the ones before it left. */
  function BatchPrefix(templates: map<string, string>, items: Items, env: Env, dss: seq<Dataset>, htmls: seq<string>,
                       n: nat, cart: Value, fmt: Value -> string): (b: Batch)
    requires n <= |dss| == |htmls|
    ensures |b.htmls| == n
    decreases n
  {
    if n == 0 then Batch([], [], items)
    else
      var before := BatchPrefix(templates, items, env, dss, htmls, n - 1, cart, fmt);
      var p := ProcessSpec(templates, before.items, env, dss[n - 1], htmls[n - 1], cart, fmt);
      Batch(before.htmls + [Shown(p)], before.sent + p.sent, p.items)
  }

  /** processContainers over all the containers. */
  function BatchSpec(templates: map<string, string>, items: Items, env: Env, dss: seq<Dataset>, htmls: seq<string>,
                     cart: Value, fmt: Value -> string): (b: Batch)
    requires |dss| == |htmls|
    ensures |b.htmls| == |dss|
  {
    BatchPrefix(templates, items, env, dss, htmls, |dss|, cart, fmt)
  }

  /** `loadTemplates`: later templates with the same id replace earlier ones. */
  function Loaded(cache: map<string, string>, templates: seq<(string, string)>): map<string, string>
    decreases |templates|
  {
    if templates == [] then cache
    else
      var n := |templates| - 1;
      Loaded(cache, templates[..n])[templates[n].0 := templates[n].1]
  }

  /** After loading, an id maps to the markup of its last template, and ids without a template keep
      what they had. */
  lemma {:induction false} LoadedLastWins(cache: map<string, string>, templates: seq<(string, string)>, id: string)
    ensures (exists i :: 0 <= i < |templates| && templates[i].0 == id) || id in cache
      <==> id in Loaded(cache, templates)
    ensures forall i :: (0 <= i < |templates| && templates[i].0 == id
      && forall j :: i < j < |templates| ==> templates[j].0 != id) ==> Loaded(cache, templates)[id] == templates[i].1
    ensures (forall i :: 0 <= i < |templates| ==> templates[i].0 != id) && id in cache ==> Loaded(cache, templates)[id] == cache[id]
    decreases |templates|
  {
    if templates != [] {
      var n := |templates| - 1;
      var front := templates[..n];
      LoadedLastWins(cache, front, id);
      assert forall i :: 0 <= i < n ==> front[i] == templates[i];
      if templates[n].0 != id {
        if exists i :: 0 <= i < |templates| && templates[i].0 == id {
          var i :| 0 <= i < |templates| && templates[i].0 == id;
          assert front[i].0 == id;
        }
      }
    }
  }

  /** The dataset attribute is missing or empty, which makes `!container.dataset.<name>` true. */
  predicate Blank(ds: Dataset, name: string) {
    name !in ds || ds[name] == ""
  }

  /** The template check comes first: a container whose template id is missing, empty or unknown
      throws before the loading state is shown, whatever its type, sends nothing and leaves the
      storage alone. */
  lemma MissingTemplateThrowsFirst(templates: map<string, string>, items: Items, env: Env, ds: Dataset,
                                   html: string, cart: Value, fmt: Value -> string)
    requires Blank(ds, "template") || ds["template"] !in templates
    ensures var p := ProcessSpec(templates, items, env, ds, html, cart, fmt);
      p.result.Err? && p.html == html && p.sent == [] && p.items == items
      && Shown(p) == ErrorHtml("Template \"" + ToStr(Attr(ds, "template")) + "\" not found")
    ensures "template" !in ds ==>
      Shown(ProcessSpec(templates, items, env, ds, html, cart, fmt)) == ErrorHtml("Template \"undefined\" not found")
  {
    TemplateNotFound(templates, items, env, ds, html, cart, fmt);
    if "template" !in ds {
      assert NotFoundMessage(ds) == "Template \"undefined\" not found";
    }
  }

  lemma TemplateNotFound(templates: map<string, string>, items: Items, env: Env, ds: Dataset,
                         html: string, cart: Value, fmt: Value -> string)
    requires !HasTemplate(templates, ds)
    ensures ProcessSpec(templates, items, env, ds, html, cart, fmt) == Processed(Err(Error(NotFoundMessage(ds))), html, [], items)
  {
  }

  /** A type outside the five is reported after the loading state, with nothing fetched; a container
      without `data-shopify` reports the type `undefined`. */
  lemma UnknownTypeAfterLoading(templates: map<string, string>, items: Items, env: Env, ds: Dataset,
                                html: string, cart: Value, fmt: Value -> string)
    requires HasTemplate(templates, ds)
    requires "shopify" in ds ==> ds["shopify"] !in {"products", "product", "collections", "search", "cart"}
    ensures var p := ProcessSpec(templates, items, env, ds, html, cart, fmt);
      p.html == LoadingHtml && p.sent == [] && p.items == items
      && Shown(p) == ErrorHtml("Unknown shopify type: " + ToStr(Attr(ds, "shopify")))
    ensures "shopify" !in ds ==>
      Shown(ProcessSpec(templates, items, env, ds, html, cart, fmt)) == ErrorHtml("Unknown shopify type: undefined")
  {
  }

  /** The attributes each type needs: without them the container shows the library's message and
      nothing is requested. */
  lemma RequiredAttributes(templates: map<string, string>, items: Items, env: Env, ds: Dataset,
                           html: string, cart: Value, fmt: Value -> string)
    requires HasTemplate(templates, ds) && "shopify" in ds
    ensures var p := ProcessSpec(templates, items, env, ds, html, cart, fmt);
      ds["shopify"] == "products" && Blank(ds, "collection") ==>
        Shown(p) == ErrorHtml("data-collection is required for products") && p.sent == [] && p.items == items
    ensures var p := ProcessSpec(templates, items, env, ds, html, cart, fmt);
      ds["shopify"] == "product" && Blank(ds, "handle") && Blank(ds, "id") ==>
        Shown(p) == ErrorHtml("data-handle or data-id is required for product") && p.sent == [] && p.items == items
    ensures var p := ProcessSpec(templates, items, env, ds, html, cart, fmt);
      ds["shopify"] == "search" && Blank(ds, "query") ==>
        Shown(p) == ErrorHtml("data-query is required for search") && p.sent == [] && p.items == items
  {
    if ds["shopify"] == "products" && Blank(ds, "collection") {
      ProductsNeedCollection(items, env, ds, cart);
      FetchFailsEarly(templates, items, env, ds, html, cart, fmt);
    } else if ds["shopify"] == "product" && Blank(ds, "handle") && Blank(ds, "id") {
      ProductNeedsHandleOrId(items, env, ds, cart);
      FetchFailsEarly(templates, items, env, ds, html, cart, fmt);
    } else if ds["shopify"] == "search" && Blank(ds, "query") {
      SearchNeedsQuery(items, env, ds, cart);
      FetchFailsEarly(templates, items, env, ds, html, cart, fmt);
    }
  }

  /** The attribute checks of the fetch methods, one by one. */
  lemma ProductsNeedCollection(items: Items, env: Env, ds: Dataset, cart: Value)
    requires "shopify" in ds && ds["shopify"] == "products" && Blank(ds, "collection")
    ensures FetchSpec(items, env, ds, cart) == Fetched(Err(Error("data-collection is required for products")), [], items)
  {
  }

  lemma ProductNeedsHandleOrId(items: Items, env: Env, ds: Dataset, cart: Value)
    requires "shopify" in ds && ds["shopify"] == "product" && Blank(ds, "handle") && Blank(ds, "id")
    ensures FetchSpec(items, env, ds, cart) == Fetched(Err(Error("data-handle or data-id is required for product")), [], items)
  {
  }

  lemma SearchNeedsQuery(items: Items, env: Env, ds: Dataset, cart: Value)
    requires "shopify" in ds && ds["shopify"] == "search" && Blank(ds, "query")
    ensures FetchSpec(items, env, ds, cart) == Fetched(Err(Error("data-query is required for search")), [], items)
  {
  }

  /** A fetch that throws before sending anything shows its message, and the storage is untouched. */
  lemma FetchFailsEarly(templates: map<string, string>, items: Items, env: Env, ds: Dataset,
                        html: string, cart: Value, fmt: Value -> string)
    requires HasTemplate(templates, ds)
    requires var f := FetchSpec(items, env, ds, cart); f.result.Err? && f.sent == [] && f.items == items
    ensures var p := ProcessSpec(templates, items, env, ds, html, cart, fmt);
      Shown(p) == ErrorHtml(FetchSpec(items, env, ds, cart).result.error.message) && p.sent == [] && p.items == items
  {
  }

  /** A product container with a handle looks the product up by handle and ignores its id; with only
      an id it looks it up by id. */
  lemma HandleOverId(items: Items, env: Env, ds: Dataset, cart: Value)
    requires "shopify" in ds && ds["shopify"] == "product"
    ensures !Blank(ds, "handle") ==> FetchSpec(items, env, ds, cart) == FetchSpec(items, env, ds - {"id"}, cart)
    ensures !Blank(ds, "handle") ==>
      FetchSpec(items, env, ds, cart)
        == Wrapped(PartitionSpec(items, env, Cache.ProductByHandle, ds["handle"], GetProductByHandle(ds["handle"]),
                                 Products.ProductByHandleField), "product", map[])
    ensures Blank(ds, "handle") && !Blank(ds, "id") ==>
      FetchSpec(items, env, ds, cart)
        == Wrapped(PartitionSpec(items, env, Cache.ProductById, ds["id"], GetProductById(ds["id"]),
                                 Products.ProductField), "product", map[])
  {
    ProductFetch(items, env, ds, cart);
    if !Blank(ds, "handle") {
      var dt := ds - {"id"};
      ProductFetch(items, env, dt, cart);
    }
  }

  /** A product container with a handle or an id fetches the one product the accessor returns. */
  lemma ProductFetch(items: Items, env: Env, ds: Dataset, cart: Value)
    requires "shopify" in ds && ds["shopify"] == "product"
    ensures !Blank(ds, "handle") || !Blank(ds, "id") ==>
      FetchSpec(items, env, ds, cart) == Wrapped(ProductEffect(items, env, ds), "product", map[])
  {
  }

  /** With a positive limit, a list the accessor returns is cut to its first `limit` elements and put
      under `key` beside the extra fields; the requests and storage are the accessor's. */
  lemma LimitedKeepsFirst(e: Effect, key: string, limit: int, extra: map<string, Value>, xs: seq<Value>)
    requires e.result == Ok(Arr(xs)) && limit > 0
    ensures Limited(e, key, limit, extra)
      == Fetched(Ok(extra[key := Arr(xs[..if limit < |xs| then limit else |xs|])]), e.sent, e.items)
  {
    SlicePrefix(xs, limit);
  }

  /** A products container gets at most `data-limit` of its collection's products (ten without the
      attribute), beside the collection name. */
  lemma ProductsAreCut(items: Items, env: Env, ds: Dataset, cart: Value, xs: seq<Value>)
    requires "shopify" in ds && ds["shopify"] == "products" && !Blank(ds, "collection")
    requires ProductsEffect(items, env, ds["collection"]).result == Ok(Arr(xs))
    requires LimitOf(ds) > 0
    ensures var e := ProductsEffect(items, env, ds["collection"]);
      var n := if LimitOf(ds) < |xs| then LimitOf(ds) else |xs|;
      FetchSpec(items, env, ds, cart)
        == Fetched(Ok(map["collection" := Str(ds["collection"]), "products" := Arr(xs[..n])]), e.sent, e.items)
    ensures "limit" !in ds ==>
      FetchSpec(items, env, ds, cart).result
        == Ok(map["collection" := Str(ds["collection"]), "products" := Arr(xs[..if 10 < |xs| then 10 else |xs|])])
  {
    LimitedKeepsFirst(ProductsEffect(items, env, ds["collection"]), "products", LimitOf(ds),
                      map["collection" := Str(ds["collection"])], xs);
  }

  /** A search container gets at most `data-limit` of the results (ten without the attribute),
      beside the query. */
  lemma SearchResultsAreCut(items: Items, env: Env, ds: Dataset, cart: Value, xs: seq<Value>)
    requires "shopify" in ds && ds["shopify"] == "search" && !Blank(ds, "query")
    requires SearchEffect(items, env, ds["query"]).result == Ok(Arr(xs))
    requires LimitOf(ds) > 0
    ensures var e := SearchEffect(items, env, ds["query"]);
      var n := if LimitOf(ds) < |xs| then LimitOf(ds) else |xs|;
      FetchSpec(items, env, ds, cart)
        == Fetched(Ok(map["query" := Str(ds["query"]), "results" := Arr(xs[..n])]), e.sent, e.items)
  {
    LimitedKeepsFirst(SearchEffect(items, env, ds["query"]), "results", LimitOf(ds),
                      map["query" := Str(ds["query"])], xs);
  }

  /** Data with nothing truthy under the five keys leaves the template as it is. */
  lemma RenderWithoutData(template: string, data: map<string, Value>, fmt: Value -> string)
    requires forall k :: k in data ==> !Truthy(data[k])
    ensures Render(template, data, fmt) == Ok(template)
  {
    assert !Truthy(Field(data, "products")) && !Truthy(Field(data, "collections")) && !Truthy(Field(data, "results"));
    assert !Truthy(Field(data, "product")) && !Truthy(Field(data, "cart"));
  }

  /** A product the store does not know (the accessor answers null) is no error: the container shows
      its template with every placeholder still in it. */
  lemma UnknownProductShowsTemplate(templates: map<string, string>, items: Items, env: Env, ds: Dataset,
                                    html: string, cart: Value, fmt: Value -> string)
    requires HasTemplate(templates, ds) && "shopify" in ds && ds["shopify"] == "product"
    requires !Blank(ds, "handle") || !Blank(ds, "id")
    requires ProductEffect(items, env, ds).result == Ok(Null)
    ensures var p := ProcessSpec(templates, items, env, ds, html, cart, fmt);
      p.result == Ok(()) && Shown(p) == templates[ds["template"]]
  {
    var data := map["product" := Null];
    RenderWithoutData(templates[ds["template"]], data, fmt);
  }

  /** Since getCart hands renderCart an array, a cart container always shows the empty-cart
      message, whatever its template and the cart's lines. */
  lemma CartContainerShowsEmpty(templates: map<string, string>, items: Items, env: Env, ds: Dataset,
                                html: string, lines: seq<Value>, fmt: Value -> string)
    requires HasTemplate(templates, ds) && "shopify" in ds && ds["shopify"] == "cart"
    ensures var p := ProcessSpec(templates, items, env, ds, html, Arr(lines), fmt);
      p.result == Ok(()) && Shown(p) == EmptyCart && p.sent == [] && p.items == items
  {
    ArrayCartIsEmpty(templates[ds["template"]], lines, fmt);
  }

  /** Processing more containers only appends to what the earlier ones showed and sent. */
  lemma {:induction false} BatchPrefixGrows(templates: map<string, string>, items: Items, env: Env,
                                            dss: seq<Dataset>, htmls: seq<string>, m: nat, n: nat,
                                            cart: Value, fmt: Value -> string)
    requires m <= n <= |dss| == |htmls|
    ensures var a := BatchPrefix(templates, items, env, dss, htmls, m, cart, fmt);
      var b := BatchPrefix(templates, items, env, dss, htmls, n, cart, fmt);
      a.htmls == b.htmls[..m] && a.sent <= b.sent
    decreases n
  {
    if m < n {
      BatchPrefixGrows(templates, items, env, dss, htmls, m, n - 1, cart, fmt);
      var a := BatchPrefix(templates, items, env, dss, htmls, m, cart, fmt);
      var c := BatchPrefix(templates, items, env, dss, htmls, n - 1, cart, fmt);
      var b := BatchPrefix(templates, items, env, dss, htmls, n, cart, fmt);
      assert b.htmls[..n - 1] == c.htmls;
      assert b.htmls[..m] == c.htmls[..m];
    }
  }

  /** Every container ends up showing its own outcome, computed on the storage the containers
      before it left: one that throws shows its error and does not stop the ones after it. */
  lemma EachContainerShown(templates: map<string, string>, items: Items, env: Env, dss: seq<Dataset>,
                           htmls: seq<string>, j: nat, cart: Value, fmt: Value -> string)
    requires |dss| == |htmls| && j < |dss|
    ensures var before := BatchPrefix(templates, items, env, dss, htmls, j, cart, fmt);
      BatchSpec(templates, items, env, dss, htmls, cart, fmt).htmls[j]
        == Shown(ProcessSpec(templates, before.items, env, dss[j], htmls[j], cart, fmt))
  {
    BatchPrefixGrows(templates, items, env, dss, htmls, j + 1, |dss|, cart, fmt);
    BatchPrefixLast(templates, items, env, dss, htmls, j + 1, cart, fmt);
    var a := BatchPrefix(templates, items, env, dss, htmls, j + 1, cart, fmt);
    var b := BatchSpec(templates, items, env, dss, htmls, cart, fmt);
    assert b.htmls[j] == b.htmls[..j + 1][j];
  }

  /** The last container of a prefix shows its own outcome. */
  lemma BatchPrefixLast(templates: map<string, string>, items: Items, env: Env, dss: seq<Dataset>,
                        htmls: seq<string>, n: nat, cart: Value, fmt: Value -> string)
    requires 0 < n <= |dss| == |htmls|
    ensures var before := BatchPrefix(templates, items, env, dss, htmls, n - 1, cart, fmt);
      BatchPrefix(templates, items, env, dss, htmls, n, cart, fmt).htmls[n - 1]
        == Shown(ProcessSpec(templates, before.items, env, dss[n - 1], htmls[n - 1], cart, fmt))
  {
  }

  /** A DOM element with `data-shopify`: its dataset, and the markup inside it. */
  datatype Element = Element(dataset: Dataset, innerHTML: string)

  /** The page's `data-shopify` elements in document order, whose content processing rewrites. */
  class Page {
    var containers: seq<Element>

    constructor (containers: seq<Element>)
      ensures this.containers == containers
    {
      this.containers := containers;
    }
  }

  function Datasets(es: seq<Element>): (r: seq<Dataset>)
    ensures |r| == |es| && forall i :: 0 <= i < |es| ==> r[i] == es[i].dataset
  {
    seq(|es|, i requires 0 <= i < |es| => es[i].dataset)
  }

  function Contents(es: seq<Element>): (r: seq<string>)
    ensures |r| == |es| && forall i :: 0 <= i < |es| ==> r[i] == es[i].innerHTML
  {
    seq(|es|, i requires 0 <= i < |es| => es[i].innerHTML)
  }

  lemma ContentsAre(es: seq<Element>, hs: seq<string>)
    requires |es| == |hs| && forall j :: 0 <= j < |es| ==> es[j].innerHTML == hs[j]
    ensures Contents(es) == hs
  {
  }

  lemma DatasetsAre(es: seq<Element>, dss: seq<Dataset>)
    requires |es| == |dss| && forall j :: 0 <= j < |es| ==> es[j].dataset == dss[j]
    ensures Datasets(es) == dss
  {
  }

  /** `ShopifyDeclarativeLoader`: the template cache, over the page's storage and cart. */
  class Loader {
    var templateCache: map<string, string>
    const storage: LocalStorage
    const cart: Cart.CartState

    constructor (storage: LocalStorage, cart: Cart.CartState)
      ensures templateCache == map[] && this.storage == storage && this.cart == cart
    {
      templateCache := map[];
      this.storage := storage;
      this.cart := cart;
    }

    /** `loadTemplates()` over the page's `template[id]` elements, as (id, innerHTML) pairs. */
    method LoadTemplates(templates: seq<(string, string)>)
      modifies this
      ensures templateCache == Loaded(old(templateCache), templates)
    {
      var i := 0;
      while i < |templates|
        invariant 0 <= i <= |templates|
        invariant templateCache == Loaded(old(templateCache), templates[..i])
      {
        assert templates[..i + 1][..i] == templates[..i];
        templateCache := templateCache[templates[i].0 := templates[i].1];
        i := i + 1;
      }
      assert templates[..i] == templates;
    }

    /** The five fetch methods behind the `switch (type)`. */
    method Fetch(ds: Dataset, env: Env) returns (r: Result<map<string, Value>>, sent: seq<Request>)
      modifies storage
      ensures Fetched(r, sent, storage.items) == FetchSpec(old(storage.items), env, ds, cart.GetCart())
    {
      var kind := Attr(ds, "shopify");
      var e: Effect;
      if kind == Str("products") {
        var collection := Attr(ds, "collection");
        var limit := LimitOf(ds);
        if !Truthy(collection) {
          return Err(Error("data-collection is required for products")), [];
        }
        var res, s := Collections.FetchProductsByCollection(storage, env, collection.s);
        var f := Limited(Effect(res, s, storage.items), "products", limit, map["collection" := collection]);
        r, sent := f.result, f.sent;
      } else if kind == Str("product") {
        var handle, id := Attr(ds, "handle"), Attr(ds, "id");
        if !Truthy(handle) && !Truthy(id) {
          return Err(Error("data-handle or data-id is required for product")), [];
        }
        var res, s;
        if Truthy(handle) {
          res, s := Products.FetchProductByHandle(storage, env, ds["handle"]);
        } else {
          res, s := Products.FetchProductById(storage, env, ds["id"]);
        }
        var f := Wrapped(Effect(res, s, storage.items), "product", map[]);
        r, sent := f.result, f.sent;
      } else if kind == Str("collections") {
        var res, s := Collections.FetchCollections(storage, env);
        var f := Wrapped(Effect(res, s, storage.items), "collections", map[]);
        r, sent := f.result, f.sent;
      } else if kind == Str("search") {
        var query := Attr(ds, "query");
        var limit := LimitOf(ds);
        if !Truthy(query) {
          return Err(Error("data-query is required for search")), [];
        }
        var res, s := Search.SearchProducts(storage, env, query.s);
        var f := Limited(Effect(res, s, storage.items), "results", limit, map["query" := query]);
        r, sent := f.result, f.sent;
      } else if kind == Str("cart") {
        r, sent := Ok(map["cart" := cart.GetCart()]), [];
      } else {
        r, sent := Err(Error("Unknown shopify type: " + ToStr(kind))), [];
      }
    }

    /** `processContainer(container)` on the i-th element: the template check comes before the
        loading state; the rendered markup replaces it. */
    method ProcessContainer(page: Page, i: nat, env: Env, fmt: Value -> string) returns (r: Result<()>, sent: seq<Request>)
      requires i < |page.containers|
      modifies page, storage
      ensures var e := old(page.containers[i]);
        var p := ProcessSpec(templateCache, old(storage.items), env, e.dataset, e.innerHTML, cart.GetCart(), fmt);
        page.containers == old(page.containers)[i := Element(e.dataset, p.html)]
        && r == p.result && sent == p.sent && storage.items == p.items
    {
      var ds := page.containers[i].dataset;
      if !HasTemplate(templateCache, ds) {
        return Err(Error(NotFoundMessage(ds))), [];
      }
      page.containers := page.containers[i := Element(ds, LoadingHtml)];
      var data;
      data, sent := Fetch(ds, env);
      if data.Err? {
        return Err(data.error), sent;
      }
      var out := Render(templateCache[ds["template"]], data.value, fmt);
      if out.Err? {
        return Err(out.error), sent;
      }
      page.containers := page.containers[i := Element(ds, out.value)];
      r := Ok(());
    }

    /** One turn of the processContainers loop: processContainer inside its try/catch. */
    method ProcessCaught(page: Page, i: nat, env: Env, fmt: Value -> string) returns (sent: seq<Request>)
      requires i < |page.containers|
      modifies page, storage
      ensures var e := old(page.containers[i]);
        var p := ProcessSpec(templateCache, old(storage.items), env, e.dataset, e.innerHTML, cart.GetCart(), fmt);
        page.containers == old(page.containers)[i := Element(e.dataset, Shown(p))]
        && sent == p.sent && storage.items == p.items
    {
      var r;
      r, sent := ProcessContainer(page, i, env, fmt);
      if r.Err? {
        page.containers := page.containers[i := Element(page.containers[i].dataset, ErrorHtml(r.error.message))];
      }
    }

    /** The i-th turn of the processContainers loop, after the containers before it. */
    method Turn(page: Page, i: nat, env: Env, fmt: Value -> string, ghost items0: Items, ghost dss: seq<Dataset>,
                ghost htmls0: seq<string>, ghost shown: seq<string>, sent0: seq<Request>)
      returns (sent: seq<Request>, ghost shown': seq<string>)
      requires i < |page.containers| == |dss| == |htmls0| && |shown| == i
      requires page.containers[i] == Element(dss[i], htmls0[i])
      requires Batch(shown, sent0, storage.items) == BatchPrefix(templateCache, items0, env, dss, htmls0, i, cart.GetCart(), fmt)
      modifies page, storage
      ensures |page.containers| == old(|page.containers|)
      ensures page.containers == old(page.containers)[i := Element(dss[i], page.containers[i].innerHTML)]
      ensures shown' == shown + [page.containers[i].innerHTML]
      ensures Batch(shown', sent, storage.items) == BatchPrefix(templateCache, items0, env, dss, htmls0, i + 1, cart.GetCart(), fmt)
    {
      ghost var p := ProcessSpec(templateCache, storage.items, env, dss[i], htmls0[i], cart.GetCart(), fmt);
      var s := ProcessCaught(page, i, env, fmt);
      sent := sent0 + s;
      shown' := shown + [Shown(p)];
    }

    /** `processContainers()`: each container in document order, a failure shown in that container
        as `Error: <message>` and the loop carried on. */
    method ProcessContainers(page: Page, env: Env, fmt: Value -> string) returns (sent: seq<Request>)
      modifies page, storage
      ensures var b := BatchSpec(templateCache, old(storage.items), env, Datasets(old(page.containers)),
                                 Contents(old(page.containers)), cart.GetCart(), fmt);
        Datasets(page.containers) == Datasets(old(page.containers))
        && Contents(page.containers) == b.htmls && sent == b.sent && storage.items == b.items
    {
      ghost var items0 := storage.items;
      ghost var dss := Datasets(page.containers);
      ghost var htmls0 := Contents(page.containers);
      ghost var shown: seq<string> := [];
      sent := [];
      var i := 0;
      while i < |page.containers|
        invariant 0 <= i <= |page.containers| == |dss| && |shown| == i
        invariant Batch(shown, sent, storage.items)
          == BatchPrefix(templateCache, items0, env, dss, htmls0, i, cart.GetCart(), fmt)
        invariant forall j :: 0 <= j < |page.containers| ==> page.containers[j].dataset == dss[j]
        invariant forall j :: 0 <= j < i ==> page.containers[j].innerHTML == shown[j]
        invariant forall j :: i <= j < |page.containers| ==> page.containers[j].innerHTML == htmls0[j]
      {
        sent, shown := Turn(page, i, env, fmt, items0, dss, htmls0, shown, sent);
        i := i + 1;
      }
      ContentsAre(page.containers, shown);
      DatasetsAre(page.containers, dss);
    }

    /** `init()`: templates first, then the containers. */
    method Init(templates: seq<(string, string)>, page: Page, env: Env, fmt: Value -> string)
      returns (sent: seq<Request>)
      modifies this, page, storage
      ensures templateCache == Loaded(old(templateCache), templates)
      ensures var b := BatchSpec(templateCache, old(storage.items), env, Datasets(old(page.containers)),
                                 Contents(old(page.containers)), cart.GetCart(), fmt);
        Datasets(page.containers) == Datasets(old(page.containers))
        && Contents(page.containers) == b.htmls && sent == b.sent && storage.items == b.items
    {
      LoadTemplates(templates);
      sent := ProcessContainers(page, env, fmt);
    }
  }
}
