/** `getNestedProperty(obj, path)` of src/declarative.js: a path of dot-separated keys resolved one
    key at a time, where `price`, `image` and `variantId` on an object try the shapes Shopify answers
    in, in a fixed order, and anything that is not an object resolves to null. Price formatting
    (`parseFloat(x).toFixed(2)`) is the parameter `fmt`. */
module Lookup {
  import opened Wrappers
  import opened JsValue

  const NoImage := "https://placehold.co/600x400?text=No+Image"

  /** `path.split('.')`. */
  function Split(path: string): (keys: seq<string>)
    ensures |keys| >= 1
    decreases |path|
  {
    if path == [] then [""]
    else
      var rest := Split(path[1..]);
      if path[0] == '.' then [""] + rest else [[path[0]] + rest[0]] + rest[1..]
  }

  predicate IsKey(path: string) {
    forall i :: 0 <= i < |path| ==> path[i] != '.'
  }

  /** A path without a dot is a single key. */
  lemma {:induction false} SplitKey(path: string)
    requires IsKey(path)
    ensures Split(path) == [path]
    decreases |path|
  {
    if path != [] {
      SplitKey(path[1..]);
      assert [path[0]] + path[1..] == path;
    }
  }

  /** `current.variants.edges.length > 0` style test on a value already known to be truthy at the
      first step: the property is truthy and its length is a positive number. */
  predicate NonEmptyAt(v: Value, key: string)
    requires !Nullish(v)
  {
    var p := Get(v, key);
    Truthy(p) && LengthPositive(p)
  }

  /** `edges[0].node.<field>`, which throws when the first edge or its node is null or undefined. */
  function FirstNodeField(edges: Value, field: string): Result<Value>
    requires !Nullish(edges)
  {
    var node :- Prop(Get(edges, "0"), "node");
    Prop(node, field)
  }

  /** The raw price the `price` chain finds on an object, null when no shape fits. */
  function PriceCandidate(current: Value): Result<Value>
    requires !Nullish(current)
  {
    var range := Get(current, "priceRange");
    if Truthy(range) && Truthy(Get(range, "minVariantPrice")) then
      Ok(Get(Get(range, "minVariantPrice"), "amount"))
    else
      var variants := Get(current, "variants");
      if Truthy(variants) && NonEmptyAt(variants, "edges") then
        var price :- FirstNodeField(Get(variants, "edges"), "price");
        Prop(price, "amount")
      else if Truthy(variants) && LengthPositive(variants) then
        var price :- Prop(Get(variants, "0"), "price");
        if Truthy(price) then Ok(Get(price, "amount")) else Ok(Null)
      else Ok(Null)
  }

  /** The `price` key: the formatted candidate, or '0.00' when there is none or it is '0.0'. */
  function PriceOf(current: Value, fmt: Value -> string): (r: Result<Value>)
    requires !Nullish(current)
    ensures r.Ok? ==> r.value.Str?
    ensures PriceCandidate(current).Ok? ==> r.Ok?
  {
    var price :- PriceCandidate(current);
    if Truthy(price) && price != Str("0.0") then Ok(Str(fmt(price))) else Ok(Str("0.00"))
  }

  /** The `image` key: image.url, then the first image edge's url, then the first entry of an
      images array (its url, or the entry itself), then the placeholder. */
  function ImageOf(current: Value): Result<Value>
    requires !Nullish(current)
  {
    var image := Get(current, "image");
    var images := Get(current, "images");
    if Truthy(image) && Truthy(Get(image, "url")) then Ok(Get(image, "url"))
    else if Truthy(images) && NonEmptyAt(images, "edges") then FirstNodeField(Get(images, "edges"), "url")
    else if Truthy(images) && images.Arr? && |images.items| > 0 then
      var url :- Prop(images.items[0], "url");
      Ok(if Truthy(url) then url else images.items[0])
    else
      // The debug test `!current.title || current.title.includes('Debug')` runs before the
      // placeholder is returned; only strings and arrays have `includes`.
      var title := Get(current, "title");
      if Truthy(title) && !(title.Str? || title.Arr?) then Err(TypeError("current.title.includes is not a function"))
      else Ok(Str(NoImage))
  }

  /** The `variantId` key: the first variant edge's id, then the first variant's id, then the
      object's own `variantId`. */
  function VariantIdOf(current: Value): Result<Value>
    requires !Nullish(current)
  {
    var variants := Get(current, "variants");
    if Truthy(variants) && NonEmptyAt(variants, "edges") then FirstNodeField(Get(variants, "edges"), "id")
    else if Truthy(variants) && LengthPositive(variants) then Prop(Get(variants, "0"), "id")
    else Ok(Get(current, "variantId"))
  }

  /** One step of the reduce. */
  function Step(current: Value, key: string, fmt: Value -> string): (r: Result<Value>)
    ensures !(Truthy(current) && IsObjectType(current)) ==> r == Ok(Null)
  {
    if Truthy(current) && IsObjectType(current) then
      if key == "price" then PriceOf(current, fmt)
      else if key == "image" then ImageOf(current)
      else if key == "variantId" then VariantIdOf(current)
      else Ok(Get(current, key))
    else Ok(Null)
  }

  function Resolve(current: Value, keys: seq<string>, fmt: Value -> string): Result<Value>
    decreases |keys|
  {
    if keys == [] then Ok(current)
    else
      var next :- Step(current, keys[0], fmt);
      Resolve(next, keys[1..], fmt)
  }

  function GetNestedProperty(obj: Value, path: string, fmt: Value -> string): Result<Value> {
    Resolve(obj, Split(path), fmt)
  }

  /** A lookup on anything but an array or object (null, undefined, a number, a string...) yields null,
      whatever the path. */
  lemma {:induction false} ResolveOnNonObject(current: Value, keys: seq<string>, fmt: Value -> string)
    requires !(Truthy(current) && IsObjectType(current)) && keys != []
    ensures Resolve(current, keys, fmt) == Ok(Null)
    decreases |keys|
  {
    if |keys| > 1 {
      ResolveOnNonObject(Null, keys[1..], fmt);
    }
  }

  lemma LookupOnNonObject(obj: Value, path: string, fmt: Value -> string)
    requires !(Truthy(obj) && IsObjectType(obj))
    ensures GetNestedProperty(obj, path, fmt) == Ok(Null)
  {
    ResolveOnNonObject(obj, Split(path), fmt);
  }

  /** A single word is a single key. */
  lemma WordLookup(obj: Value, key: string, fmt: Value -> string)
    requires IsKey(key)
    ensures GetNestedProperty(obj, key, fmt) == Step(obj, key, fmt)
  {
    SplitKey(key);
    ResolveOne(obj, key, fmt);
  }

  lemma ResolveOne(obj: Value, key: string, fmt: Value -> string)
    ensures Resolve(obj, [key], fmt) == Step(obj, key, fmt)
  {
    var keys := [key];
    assert keys[0] == key && keys[1..] == [];
    var s := Step(obj, key, fmt);
    if s.Ok? {
      assert Resolve(s.value, [], fmt) == Ok(s.value);
    } else {
      assert s == Err(s.error);
    }
  }

  /** An ordinary field of an object is read as it is. */
  lemma PlainFieldLookup(fields: map<string, Value>, key: string, fmt: Value -> string)
    requires key != "price" && key != "image" && key != "variantId"
    requires IsKey(key)
    ensures GetNestedProperty(Obj(fields), key, fmt) == Ok(if key in fields then fields[key] else Undefined)
  {
    WordLookup(Obj(fields), key, fmt);
  }

  /** `price` prefers priceRange.minVariantPrice.amount, whatever variants hold. */
  lemma PricePrefersRange(current: Value, amount: Value, fmt: Value -> string)
    requires current.Obj? && "priceRange" in current.fields
    requires current.fields["priceRange"] == Obj(map["minVariantPrice" := Obj(map["amount" := amount])])
    ensures PriceOf(current, fmt) == Ok(Str(if Truthy(amount) && amount != Str("0.0") then fmt(amount) else "0.00"))
  {
  }

  /** Without a price range, the first variant edge's price is next. */
  lemma PriceFromVariantEdges(current: Value, amount: Value, rest: seq<Value>, fmt: Value -> string)
    requires current.Obj? && "priceRange" !in current.fields && "variants" in current.fields
    requires current.fields["variants"] == Obj(map["edges" :=
      Arr([Obj(map["node" := Obj(map["price" := Obj(map["amount" := amount])])])] + rest)])
    ensures PriceOf(current, fmt) == Ok(Str(if Truthy(amount) && amount != Str("0.0") then fmt(amount) else "0.00"))
  {
    var edges := current.fields["variants"].fields["edges"];
    assert Get(edges, "0") == edges.items[0];
  }

  /** Then a plain variants array. */
  lemma PriceFromVariantArray(current: Value, amount: Value, rest: seq<Value>, fmt: Value -> string)
    requires current.Obj? && "priceRange" !in current.fields && "variants" in current.fields
    requires current.fields["variants"] == Arr([Obj(map["price" := Obj(map["amount" := amount])])] + rest)
    ensures PriceOf(current, fmt) == Ok(Str(if Truthy(amount) && amount != Str("0.0") then fmt(amount) else "0.00"))
  {
    var variants := current.fields["variants"];
    assert Get(variants, "0") == variants.items[0];
  }

  /** With none of the three shapes the price is '0.00'. */
  lemma PriceDefault(current: Value, fmt: Value -> string)
    requires current.Obj? && "priceRange" !in current.fields && "variants" !in current.fields
    ensures PriceOf(current, fmt) == Ok(Str("0.00"))
  {
  }

  /** `image` prefers image.url. */
  lemma ImagePrefersImageUrl(current: Value, url: Value)
    requires current.Obj? && "image" in current.fields && current.fields["image"] == Obj(map["url" := url])
    requires Truthy(url)
    ensures ImageOf(current) == Ok(url)
  {
  }

  /** Then the first image edge's url. */
  lemma ImageFromEdges(current: Value, url: Value, rest: seq<Value>)
    requires current.Obj? && "image" !in current.fields && "images" in current.fields
    requires current.fields["images"] == Obj(map["edges" := Arr([Obj(map["node" := Obj(map["url" := url])])] + rest)])
    ensures ImageOf(current) == Ok(url)
  {
    var edges := current.fields["images"].fields["edges"];
    assert Get(edges, "0") == edges.items[0];
  }

  /** A plain array of URL strings gives its first entry. */
  lemma ImageFromUrlArray(current: Value, url: string, rest: seq<Value>)
    requires current.Obj? && "image" !in current.fields && "images" in current.fields
    requires current.fields["images"] == Arr([Str(url)] + rest)
    ensures ImageOf(current) == Ok(Str(url))
  {
    var images := current.fields["images"];
    assert images.items[0] == Str(url);
  }

  /** No image at all gives the placeholder, as long as the title is a string or missing. */
  lemma ImagePlaceholder(current: Value)
    requires current.Obj? && "image" !in current.fields && "images" !in current.fields
    requires "title" !in current.fields || current.fields["title"].Str?
    ensures ImageOf(current) == Ok(Str(NoImage))
  {
  }

  /** `variantId` prefers the first variant edge's id, then the first variant's id, then the plain field. */
  lemma VariantIdOrder(current: Value, id: Value, rest: seq<Value>)
    requires current.Obj? && "variants" in current.fields
    ensures current.fields["variants"] == Obj(map["edges" := Arr([Obj(map["node" := Obj(map["id" := id])])] + rest)])
      ==> VariantIdOf(current) == Ok(id)
    ensures current.fields["variants"] == Arr([Obj(map["id" := id])] + rest) ==> VariantIdOf(current) == Ok(id)
    ensures current.fields["variants"] == Arr([]) ==> VariantIdOf(current) == Ok(Get(current, "variantId"))
  {
    var variants := current.fields["variants"];
    if variants.Obj? && "edges" in variants.fields && variants.fields["edges"].Arr? && |variants.fields["edges"].items| > 0 {
      assert Get(variants.fields["edges"], "0") == variants.fields["edges"].items[0];
    }
    if variants.Arr? && |variants.items| > 0 {
      assert Get(variants, "0") == variants.items[0];
    }
  }
}
