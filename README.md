# A verified model of the Shopify headless storefront library

The library renders a Shopify store in plain HTML pages. A page holds `<template id=…>` elements and
`data-shopify` containers. The declarative loader fills each container in document order:

1. it looks up the container's template;
2. it shows a loading state;
3. it fetches the data named by the container's `data-*` attributes through the accessors;
4. it renders the template with that data.

The accessors for collections, products and search are all read-through caches. Each partition is kept
in localStorage as JSON, and every entry carries a timestamp and a time-to-live. The cart is a list of
`{ variantId, quantity }` lines, mirrored to localStorage after every change. Checkout turns the stored
cart into a Shopify cart and sends the browser to its checkout URL.

The model is Dafny, one module per source file. The modules for shared functionality are:

- `JsValue` and `JsBuiltins`: JavaScript values, truthiness, property reads, `String()`, the JSON round
  trip, `parseInt` and `slice`.
- `Storage`: localStorage as a class holding a map.
- `Gateway`: the GraphQL gateway, as a function from requests to answers, plus the clock and the TTL.
- `ReadThrough`: the read-through pattern the three accessor files each spell out.
- `Lookup`: `getNestedProperty`.
- `Template`: the two-pass template engine.

The other modules follow their files: `Cache`, `Collections`, `Products`, `Search`, `Cart`, `Checkout`,
`Pagination`, `Utils` and `Declarative`. What changes in place is modelled as classes with `modifies`
clauses:

- the storage object;
- the cart's module state;
- the browser window (address and alerts);
- the page's containers;
- the loader's template cache.

Each such method is proved equal to a specification function of the old state. The properties the
source promises are then proved as lemmas about those functions.

Some behaviour of the source is modelled as written, because the code does it even where the comments
suggest otherwise:

- A partition write-back is lost whenever the partition already holds an object (`PartitionWriteLost`).
  `getStoreKey` compares the object the caller passes with a freshly parsed object, using `===`, so the
  comparison always fails.
- A collection literally named `collectionsList` overwrites the collections-list entry
  (`CollectionNamedCollectionsList`).
- A cart container always shows the empty-cart message (`ArrayCartIsEmpty`, `CartContainerShowsEmpty`).
  `getCart` returns an array, and an array has no `lines`.
- The scalar pass empties `{{this}}` holes inside `{{#each}}` blocks before the block pass sees them
  (`EachOverStringsLosesThis`).
- `updateCartItem` with a quantity of zero or less keeps the line (`UpdateExisting`, `UpdateToZeroIsNotRemove`).
- A product the store does not know renders its template with the placeholders left in
  (`UnknownProductShowsTemplate`).

## Model

| member | source | states |
|---|---|---|
| JsValue.Prop | src/declarative.js:256-343 | a property read throws (TypeError) exactly on null and undefined; on an object it is the field or undefined |
| JsValue.NormalizeIsClean | src/cache.js:24-30 | what JSON.stringify and JSON.parse give back holds no undefined |
| JsValue.NormalizeKeepsClean | src/cache.js:24-30 | a value without undefined survives the JSON round trip unchanged |
| JsValue.NormalizeIdempotent | src/cache.js:13-30 | a second JSON round trip changes nothing |
| JsBuiltins.TrimStart | src/declarative.js:91 | the result is a suffix of the input and does not start with white space |
| JsBuiltins.DigitPrefix | src/declarative.js:91 | the longest digit prefix: all digits, and followed by a non-digit or the end |
| JsBuiltins.ParseIntOfNatToString | src/declarative.js:91 | parseInt reads a canonical unsigned numeral as its value |
| JsBuiltins.ParseIntOfIntToString | src/declarative.js:91 | parseInt reads back every integer that String() prints, negative ones included |
| JsBuiltins.RelativeIndex | src/declarative.js:103 | a slice bound counts negative arguments from the end and is clamped to 0..length |
| JsBuiltins.SlicePrefix | src/declarative.js:103 | slice(0, n) with n ≥ 0 is the first min(n, length) elements |
| JsBuiltins.SliceNegativeEnd | src/declarative.js:141 | slice(0, n) with n < 0 drops the last -n elements |
| Storage.JsonCell | src/cache.js:24-30 | JSON.stringify of a defined value stores a JSON-clean value; undefined is stored as the text "undefined" |
| Storage.LocalStorage.SetItem | src/cart.js:7 | setItem changes exactly the one key |
| Storage.LocalStorage.RemoveItem | src/cache.js:124 | removeItem removes exactly the one key |
| Gateway.NodesOf | src/search.js:10 | edges.map(e => e.node) succeeds on an array without null edges, keeps the length, and gives edge i's node at position i |
| Gateway.NodesOfSeq | src/collections.js:12 | as NodesOf, over the edge sequence |
| Gateway.FieldNodes | src/collections.js:11-12 | a connection field's nodes, when they can be read, form an array |
| Gateway.NodesOfConnection | src/collections.js:12 | a connection yields all its nodes, in order |
| Gateway.FieldNodesOfConnection | src/search.js:9-10 | the named connection field of an answer yields all its nodes, in order |
| Cache.StorageKey | src/cache.js:4-10 | each store's key is "shopify-cache-" followed by its name |
| Cache.StoreNamed | src/cache.js:123 | a name designates a store exactly when it is that store's CACHE_KEYS name |
| Cache.FromLocalStorage | src/cache.js:13-21 | a JSON cell reads as its value; a missing, empty or unparsable cell reads as {} |
| Cache.CollectionsListEntry | src/cache.js:56-64 | the collections-list getter reads its JSON cell, and otherwise null |
| Cache.JsObject.constructor | src/cache.js:16 | JSON.parse builds a new object holding the value |
| Cache.ReadPartition | src/cache.js:40-54 | a getter returns a freshly allocated object for an array or object content, and the primitive itself otherwise |
| Cache.StoreKeyFor | src/cache.js:107-119 | getStoreKey answers the first partition whose getter value is identical to the argument; the cache object and every object answer null |
| Cache.GetStoreKey | src/cache.js:107-119 | the four getter reads and identity tests answer StoreKeyFor |
| Cache.NewEntry | src/cache.js:85 | the entry holds the data and the current time |
| Cache.EntryValidity | src/cache.js:67-68 | after the JSON round trip, an entry is valid exactly while less than the TTL has passed since it was made, and its data is what JSON carries |
| Cache.InvalidWithoutTimestamp | src/cache.js:67-68 | a falsy entry, or one without a numeric timestamp, is never valid |
| Cache.AssignProperty | src/cache.js:102 | an assignment succeeds on an object or an array (a valid length only) and sets that key alone; on a primitive it throws TypeError |
| Cache.WritePartitionEntry | src/cache.js:100-103 | the partition is re-read, assigned and written back; if the assignment throws, storage is unchanged |
| Cache.SetCacheKeepsPartitions | src/cache.js:93-103 | outside the collections-list key, setCache never changes storage, and it throws exactly when getStoreKey recognises the store |
| Cache.SetCache | src/cache.js:84-104 | setCache's result and the storage after it, with the collections-list key written directly and unknown stores ignored |
| Cache.GetterStoreKey | src/cache.js:109-112 | an object just returned by a getter is never recognised |
| Cache.GetCacheSpec | src/cache.js:70-82 | the collections-list key reads the singleton; a plain object is its own store; other objects fall back to the storage key "undefined" |
| Cache.GetCache | src/cache.js:70-82 | getCache returns GetCacheSpec |
| Cache.CollectionsListRoundTrip | src/cache.js:72-73 | the collections list reads back as the entry last written to it, after its JSON round trip |
| Cache.ClearedKeys | src/cache.js:122-135 | a falsy argument clears every cache key; a known store name clears exactly that store's key; any other name clears nothing |
| Cache.ClearCache | src/cache.js:122-135 | clearCache removes exactly ClearedKeys from storage |
| Cache.ClearedPartitionIsEmpty | src/cache.js:122-135 | a cleared partition reads as {}, and no key outside the cache moves |
| ReadThrough.PartitionAccessor | src/products.js:8-14 | the read-through: read the entry, answer a valid entry's data, or else send one request, extract the data, setCache it and return it |
| ReadThrough.PartitionHit | src/search.js:6-7 | a valid entry answers its data with no request and no storage change |
| ReadThrough.PartitionMiss | src/search.js:9-13 | a miss sends exactly one request, and the result is the data extracted from its answer |
| ReadThrough.PartitionWriteLost | src/collections.js:25 | when the partition holds an object, the write-back is lost, and the same call made again repeats the request |
| Collections.FirstCollectionProducts | src/collections.js:23-24 | only the first collection's product edges count; the result is an array |
| Collections.FetchCollections | src/collections.js:8-15 | fetchCollections over the singleton entry: a hit answers the stored data; a miss sends GET_COLLECTIONS and writes its nodes |
| Collections.FetchCollectionsTwice | src/collections.js:8-15 | right after a successful miss, a call within the TTL is a hit with no request and the same list |
| Collections.FetchCollectionsHit | src/collections.js:9-10 | a valid entry answers its data, with no request and no storage change |
| Collections.FetchCollectionsMiss | src/collections.js:11-14 | a miss sends one request and returns and stores its collection nodes, in order |
| Collections.FetchCollectionsOnFailure | src/collections.js:11-12 | a gateway error envelope makes fetchCollections throw TypeError, with storage unchanged |
| Collections.ProductsRequest | src/collections.js:20-22 | the request names the collection as title:<name> |
| Collections.FetchProductsByCollection | src/collections.js:17-27 | the read-through over the collections partition, keyed by collection name |
| Collections.FirstCollectionOnly | src/collections.js:23-24 | the products of the first collection are returned; later collections are ignored |
| Collections.NoCollectionGivesEmpty | src/collections.js:23 | no collection gives the empty list |
| Collections.ProductsByCollectionMiss | src/collections.js:19-26 | on a miss, one title:<name> request goes out, and its first collection's products are returned |
| Collections.CollectionNamedCollectionsList | src/cache.js:88-91 | a collection named collectionsList is written over the collections-list entry |
| Products.FetchProductById | src/products.js:8-14 | fetchProductById is the read-through over the productById partition |
| Products.FetchProductByHandle | src/products.js:16-22 | fetchProductByHandle is the read-through over the productByHandle partition |
| Products.ProductByIdHit | src/products.js:9-10 | a valid entry answers its data with no request |
| Products.ProductByIdMiss | src/products.js:11-13 | a miss sends one { id } request and returns its product, null included, with storage unchanged |
| Products.ProductByHandleHit | src/products.js:17-18 | a valid entry answers its data with no request |
| Products.ProductByHandleMiss | src/products.js:19-21 | a miss sends one { handle } request and returns its productByHandle, with storage unchanged |
| Search.SearchProducts | src/search.js:5-14 | searchProducts is the read-through over the search partition, keyed by the term |
| Search.SearchHit | src/search.js:6-7 | a valid entry answers its data with no request |
| Search.SearchMiss | src/search.js:9-13 | a miss sends one { q } request and returns all its product nodes, in order |
| Cart.DecodeEncode | src/cart.js:5-7 | lines written to storage read back as the same lines |
| Cart.EncodeDecode | src/cart.js:5-7 | a stored list of lines is the encoding of what it decodes to |
| Cart.EncodedCartCell | src/cart.js:7 | JSON.stringify writes an encoded cart unchanged |
| Cart.FindIndex | src/cart.js:10 | find locates the first line with the variantId, or reports that none has it |
| Cart.RemoveLines | src/cart.js:20 | the filter never grows the cart |
| Cart.Ids | src/cart.js:44 | the ids are the lines' variantIds, in order |
| Cart.AddExisting | src/cart.js:10-12 | adding a present variant bumps its quantity by q and changes no other line |
| Cart.AddNew | src/cart.js:13-15 | adding a new variant appends one line |
| Cart.AddKeepsUnique | src/cart.js:9-17 | addToCart keeps variantIds unique |
| Cart.UpdateKeepsUnique | src/cart.js:24-30 | updateCartItem keeps variantIds unique |
| Cart.RemoveLinesMembers | src/cart.js:20 | exactly the lines with another variantId survive removeFromCart |
| Cart.RemoveKeepsUnique | src/cart.js:19-22 | removeFromCart keeps variantIds unique |
| Cart.RemoveConcat | src/cart.js:20 | the filter distributes over concatenation, so the order is kept |
| Cart.RemoveAbsent | src/cart.js:20 | removing an absent variant leaves the cart unchanged |
| Cart.RemoveExisting | src/cart.js:19-22 | removing a present variant drops exactly its line and keeps the rest in order |
| Cart.UpdateExisting | src/cart.js:24-30 | the matching line's quantity becomes q, whatever q is (zero or less keeps the line), and every other line is unchanged |
| Cart.UpdateAbsent | src/cart.js:24-30 | an id that no line has leaves the cart unchanged |
| Cart.UpdateToZeroIsNotRemove | src/cart.js:19-30 | updating to 0 and removing give different carts |
| Cart.CountUpdate | src/cart.js:39-40 | replacing a line changes the count by the difference of the quantities |
| Cart.CountConcat | src/cart.js:39-40 | the count is additive over concatenation |
| Cart.CountAfterAdd | src/cart.js:9-17 | addToCart(id, q) raises the count by q |
| Cart.CountAfterRemove | src/cart.js:19-22 | removing a present variant lowers the count by its quantity |
| Cart.HydratedLine | src/cart.js:46-56 | hydrating one node fails only with a TypeError |
| Cart.HydrateNodes | src/cart.js:46 | every node is hydrated in order, and the map succeeds when each node does |
| Cart.CartState.Load | src/cart.js:5 | the module starts from the lines stored under shopifyCart, or [] |
| Cart.CartState.Sync | src/cart.js:7 | sync stores the serialised lines under shopifyCart and changes nothing else |
| Cart.CartState.AddToCart | src/cart.js:9-17 | the lines become AddLine (qty defaults to 1), and storage mirrors them; a cart with unique variantIds keeps them unique |
| Cart.CartState.RemoveFromCart | src/cart.js:19-22 | the lines become RemoveLines, and storage mirrors them; a cart with unique variantIds keeps them unique |
| Cart.CartState.UpdateCartItem | src/cart.js:24-30 | the lines become UpdateLine, and storage mirrors them; a cart with unique variantIds keeps them unique |
| Cart.CartState.ClearCart | src/cart.js:32-35 | the cart becomes empty, and storage mirrors it; a cart with unique variantIds keeps them unique |
| Cart.CartState.GetCart | src/cart.js:37 | the copy is an array holding exactly the cart's lines |
| Cart.CartState.GetCartCount | src/cart.js:39-40 | the empty cart counts 0 |
| Cart.CartState.HydrateCart | src/cart.js:42-57 | an empty cart answers [] with no request; otherwise exactly one request for the ids in cart order, and its answer hydrated |
| Cart.MutatorsKeepUnique | src/cart.js:9-35 | every mutator keeps variantIds unique |
| Cart.HydratedQuantity | src/cart.js:47-48 | a hydrated node gets the quantity of its variant's line |
| Cart.HydratedWithoutImage | src/cart.js:54 | a product without image edges gets the image '' |
| Cart.HydrateUnknownVariant | src/cart.js:48 | a node for a variant not in the cart, or a null node, throws |
| Checkout.Window.constructor | src/checkout.js:84 | a window starts at its address with no alerts |
| Checkout.LineInputsOf | src/checkout.js:8-11 | each item maps to its line input, one for one |
| Checkout.LineInputs | src/checkout.js:8-11 | the mapping needs an array and keeps its length |
| Checkout.LineInputsOfCart | src/checkout.js:7-12 | a stored cart's lines become the cart input's lines, in order |
| Checkout.Messages | src/checkout.js:18 | the user errors' messages, one for one |
| Checkout.CreateCartIn | src/checkout.js:5-30 | createCart's result, its one request and storage: shopifyCartId is set only on success |
| Checkout.UserErrorsMessage | src/checkout.js:16-20 | the thrown message is the user errors' messages joined by ', ' |
| Checkout.UserErrorsThrow | src/checkout.js:16-20 | non-empty user errors throw that message and leave storage alone |
| Checkout.CreateCartStoresId | src/checkout.js:23-25 | without user errors, the cart is returned and its id stored |
| Checkout.CheckoutUrl | src/checkout.js:79-81 | a successful checkout always has a truthy checkout URL |
| Checkout.CheckoutIn | src/checkout.js:68-90 | success redirects to the URL; failure alerts "Checkout failed: <message>" and rethrows |
| Checkout.Attempt | src/checkout.js:69-84 | the try block of checkout, against the storage object |
| Checkout.EmptyCartFails | src/checkout.js:70-74 | an empty or missing cart fails with "Cart is empty" before any request, with one alert and no redirect |
| Checkout.MissingUrlFails | src/checkout.js:79-81 | a cart without a checkout URL fails with no redirect |
| Checkout.CheckoutAlertsOnlyOnFailure | src/checkout.js:68-90 | success adds no alert; failure adds exactly one alert and keeps the address |
| Checkout.CheckoutExistingCart | src/checkout.js:93-117 | checkoutExistingCart's outcome, requests, storage, address and alerts are ExistingCartSpec's |
| Checkout.EmptyCartAlertedTwice | src/checkout.js:97-99 | with no stored id and an empty cart, the failure is alerted twice |
| Checkout.FailedCreationSentTwice | src/checkout.js:99 | a failing checkout, and its cart creation, is sent twice |
| Checkout.FixedAlertsAtMostOnce | src/checkout.js:93-117 | the corrected flow alerts at most once, and never on success |
| Checkout.ExistingCartRedirects | src/checkout.js:102-111 | a live cart id redirects to that cart's checkout URL with one request |
| Checkout.StaleCartIdDropped | src/checkout.js:104-107 | a stale id is removed before the fallback checkout, which then decides the outcome |
| Pagination.PaginateWindow | src/pagination.js:1-4 | from page 1 on, a page is the window [start, start + perPage) clipped to the list |
| Pagination.PaginateAtMostPerPage | src/pagination.js:3 | a page holds at most perPage items |
| Pagination.PaginateBeyondEnd | src/pagination.js:2-3 | a page starting at or past the end is empty |
| Pagination.PagesArePrefix | src/pagination.js:1-4 | pages 1..k read in turn are the first k·perPage items: nothing skipped or repeated |
| Pagination.SecondPageOfTwentyFive | src/pagination.js:1-4 | page 2 of 25 items, ten to a page, is items 10-19 |
| Utils.HandleApiError | src/utils.js:14-19 | the envelope has exactly error: true, the friendly message, and the original message as details |
| Utils.ValidateRequired | src/utils.js:22-27 | a truthy value is returned; otherwise "<name> is required" is thrown |
| Utils.ConfigErrors | src/utils.js:29-45 | each error is reported exactly when its setting is unset, empty or the placeholder, at most once, domain before token |
| Utils.ValidateConfig | src/utils.js:29-49 | with no errors it succeeds; otherwise it throws "Configuration errors: " followed by the errors joined |
| Utils.BothMissingMessage | src/utils.js:46-48 | with both settings missing, the message lists the domain error, then the token error |
| Lookup.Split | src/declarative.js:257 | a split path has at least one key |
| Lookup.SplitKey | src/declarative.js:257 | a path without a dot is one key |
| Lookup.PriceOf | src/declarative.js:260-292 | the price key always gives a string, and gives one whenever the price chain can be read |
| Lookup.Step | src/declarative.js:258-342 | a step on anything but a truthy object or array gives null |
| Lookup.ResolveOnNonObject | src/declarative.js:257-343 | a lookup from a non-object gives null, whatever keys follow |
| Lookup.LookupOnNonObject | src/declarative.js:256-344 | getNestedProperty on a non-object is null |
| Lookup.WordLookup | src/declarative.js:256-344 | a one-key path is a single step |
| Lookup.PlainFieldLookup | src/declarative.js:340 | an ordinary key reads the object's field |
| Lookup.PricePrefersRange | src/declarative.js:266-268 | priceRange.minVariantPrice.amount wins, formatted, with '0.00' for falsy or '0.0' |
| Lookup.PriceFromVariantEdges | src/declarative.js:270-276 | without a price range, the first variant edge's price is used |
| Lookup.PriceFromVariantArray | src/declarative.js:278-284 | next comes the first entry of a variants array |
| Lookup.PriceDefault | src/declarative.js:286-291 | with none of these shapes, the price is '0.00' |
| Lookup.ImagePrefersImageUrl | src/declarative.js:297-299 | image.url wins |
| Lookup.ImageFromEdges | src/declarative.js:302-308 | then the first image edge's url |
| Lookup.ImageFromUrlArray | src/declarative.js:311-317 | then the first entry of an images array |
| Lookup.ImagePlaceholder | src/declarative.js:319-325 | with no image, the placeholder URL is used |
| Lookup.VariantIdOrder | src/declarative.js:327-340 | a variant edge's id wins, then the first variant's id, then the plain field |
| Template.WordRun | src/declarative.js:182 | the greedy \w+ run: a prefix of word characters followed by a non-word character or the end |
| Template.HoleAtIff | src/declarative.js:182 | a hole starts the text exactly when the text starts with {{word}} |
| Template.MarkersAreNotHoles | src/declarative.js:182-196 | the each markers are never scalar holes |
| Template.SpellPieces | src/declarative.js:182-192 | scanning for holes loses no text |
| Template.PiecesOfPlainText | src/declarative.js:182 | text without a brace has no hole |
| Template.FillWithoutHoles | src/declarative.js:182-192 | text without holes comes through the scalar pass unchanged |
| Template.FillStopsAtFailure | src/declarative.js:182-192 | a callback exception ends the replacement with that exception |
| Template.OrEmpty | src/declarative.js:191 | `value \|\| ''` is '' for falsy values and the string itself for strings |
| Template.ScalarValueOfLookup | src/declarative.js:183-191 | a hole is filled with what getNestedProperty finds, or '' |
| Template.ScalarValueOfNull | src/declarative.js:185-189 | on a null item every hole is emptied, except image and price, which throw TypeError |
| Template.ScalarPassHole | src/declarative.js:182-192 | a hole is replaced by its callback's value |
| Template.EmptiedHole | src/declarative.js:182-192 | a hole whose callback gives '' disappears |
| Template.ScalarPassKeepsClose | src/declarative.js:182 | the closing marker survives the scalar pass |
| Template.ScalarPassKeepsOpen | src/declarative.js:182 | the opening marker and its key survive the scalar pass |
| Template.FillEmptiesThis | src/declarative.js:182-192 | a callback that empties this removes {{this}} from inside a block |
| Template.ScalarPassEmptiesThis | src/declarative.js:182-221 | for an item without a this field, the scalar pass removes {{this}} from blocks |
| Template.FindClose | src/declarative.js:196 | the lazy match stops at the first {{/each}} |
| Template.BlockAt | src/declarative.js:196 | a block found fits within the text |
| Template.BlockAtSound | src/declarative.js:196 | what is found is {{#each word}}inner{{/each}} at the start, with no earlier closing marker |
| Template.BlockAtComplete | src/declarative.js:196 | every such block is found |
| Template.UnchunkChunks | src/declarative.js:195-243 | scanning for blocks loses no text |
| Template.ChunksOfPlainText | src/declarative.js:196 | text without a brace has no block |
| Template.ExpandWithoutBlocks | src/declarative.js:195-243 | text without blocks comes through the block pass unchanged |
| Template.EdgeUrls | src/declarative.js:203 | image edges map to url values, one for one |
| Template.ImageEdgesGiveUrls | src/declarative.js:201-203 | image edges become their URLs, in order |
| Template.BlockOverNonArray | src/declarative.js:209-212 | a block over a non-array renders as '' |
| Template.ReplaceThisAbsent | src/declarative.js:219-221 | an inner template without {{this}} is unchanged by a string item |
| Template.ReplaceThisMarker | src/declarative.js:219-221 | a string item without $ replaces {{this}} |
| Template.DollarAmpersandItem | src/declarative.js:220 | the string item "$&" brings back the matched text |
| Template.RenderItemsConcat | src/declarative.js:214-241 | array elements render independently and in order |
| Template.StringItemsRepeatInner | src/declarative.js:214-241 | string elements repeat a brace-free inner template once each |
| Template.PlainBlockChunks | src/declarative.js:196 | a block with plain inner text is one chunk |
| Template.BlockOverStrings | src/declarative.js:197-241 | a block over an array of strings repeats its inner text once per string |
| Template.PlainBlockOverStrings | src/declarative.js:195-243 | the block pass over such a block gives the repeated inner text |
| Template.EachOverStringsLosesThis | src/declarative.js:178-246 | {{#each k}}a{{this}}b{{/each}} over strings renders "ab" once per string: the strings never appear |
| Template.PlainTemplate | src/declarative.js:178-246 | a brace-free template renders as itself |
| Template.RenderList | src/declarative.js:174-176 | a non-array throws TypeError; an empty array gives '' |
| Template.RenderAllConcat | src/declarative.js:174-176 | renderList concatenates the items rendered independently |
| Template.RenderAllCons | src/declarative.js:174-176 | the list is its first item rendered, then the rest |
| Template.PlainTemplateList | src/declarative.js:174-176 | a brace-free template is repeated once per item |
| Template.RenderCart | src/declarative.js:248-254 | a null or undefined cart throws; an object cart whose lines are missing, falsy or empty renders '<p>Your cart is empty</p>' |
| Template.ArrayCartIsEmpty | src/declarative.js:248-251 | an array cart always renders as the empty-cart message |
| Template.CartWithLines | src/declarative.js:252-253 | a cart object with lines renders them as a list |
| Declarative.Attr | src/declarative.js:55-56 | a dataset attribute is its text when present, and undefined otherwise |
| Declarative.LimitOf | src/declarative.js:91 | parseInt(limit) \|\| 10 is never 0, and is 10 without the attribute |
| Declarative.LimitOfNumeral | src/declarative.js:91 | a numeral gives its count, and "0" gives 10 |
| Declarative.SliceValue | src/declarative.js:103 | an array is sliced; null, undefined, numbers and objects throw TypeError |
| Declarative.FirstTruthy | src/declarative.js:156-166 | the key found is truthy and listed; with none found, no listed key is truthy |
| Declarative.RenderDispatch | src/declarative.js:151-172 | render uses the first truthy of products, collections, results (list), product (single) and cart (cart); with none, the template |
| Declarative.RenderOrderFirst | src/declarative.js:156-166 | the renderer key is products, then collections, results, product and cart, whichever is truthy first |
| Declarative.RenderWithoutData | src/declarative.js:151-168 | data with nothing truthy leaves the template as it is |
| Declarative.BatchPrefix | src/declarative.js:41-52 | processing n containers yields n contents |
| Declarative.BatchSpec | src/declarative.js:41-52 | every container gets one content |
| Declarative.LoadedLastWins | src/declarative.js:34-39 | an id is loaded exactly if some template has it or it was there; its markup is the last such template's |
| Declarative.MissingTemplateThrowsFirst | src/declarative.js:56-60 | a missing or unknown template throws before loading, fetching or storage changes; the error reads Template "undefined" not found |
| Declarative.TemplateNotFound | src/declarative.js:56-60 | without a usable template the container is processed as the not-found error alone: markup, storage and requests are untouched |
| Declarative.UnknownTypeAfterLoading | src/declarative.js:62-84 | an unknown type shows "Unknown shopify type: …" after the loading state, with nothing sent |
| Declarative.RequiredAttributes | src/declarative.js:94-96 | products need data-collection, product needs data-handle or data-id, search needs data-query; without them the message shows and nothing is sent |
| Declarative.ProductsNeedCollection | src/declarative.js:94-96 | without data-collection, fetchProducts throws before any request |
| Declarative.ProductNeedsHandleOrId | src/declarative.js:112-114 | without a handle or an id, fetchProduct throws before any request |
| Declarative.SearchNeedsQuery | src/declarative.js:133-135 | without data-query, fetchSearch throws before any request |
| Declarative.FetchFailsEarly | src/declarative.js:45-50 | a fetch that throws before any request shows its message, with storage untouched |
| Declarative.HandleOverId | src/declarative.js:116-118 | a handle wins over an id and makes it irrelevant; with only an id, the product is fetched by id |
| Declarative.ProductFetch | src/declarative.js:108-121 | a product container with a handle or an id fetches { product } |
| Declarative.LimitedKeepsFirst | src/declarative.js:103 | a positive limit keeps the first limit elements of a list |
| Declarative.ProductsAreCut | src/declarative.js:89-106 | products are cut to data-limit (10 by default), beside the collection name |
| Declarative.SearchResultsAreCut | src/declarative.js:129-144 | results are cut to data-limit, beside the query |
| Declarative.UnknownProductShowsTemplate | src/declarative.js:120 | a null product renders the raw template without error |
| Declarative.CartContainerShowsEmpty | src/declarative.js:146-149 | a cart container always shows the empty-cart message, with nothing sent |
| Declarative.BatchPrefixGrows | src/declarative.js:44-51 | processing more containers only appends contents and requests |
| Declarative.EachContainerShown | src/declarative.js:44-51 | each container shows its own outcome, computed on the storage left by the containers before it; a failure does not stop the rest |
| Declarative.BatchPrefixLast | src/declarative.js:44-51 | the last of n processed containers shows its own outcome |
| Declarative.Datasets | src/declarative.js:55-56 | the datasets of the containers, in order |
| Declarative.Contents | src/declarative.js:168 | the contents of the containers, in order |
| Declarative.Page.constructor | src/declarative.js:42 | the page holds the containers in document order |
| Declarative.Loader.constructor | src/declarative.js:17 | the template cache starts empty |
| Declarative.Loader.LoadTemplates | src/declarative.js:34-39 | the template cache becomes Loaded over the page's templates |
| Declarative.Loader.Fetch | src/declarative.js:66-84 | the five fetch methods behave as FetchSpec |
| Declarative.Loader.ProcessContainer | src/declarative.js:54-87 | processContainer changes only container i, to the content, result, requests and storage of ProcessSpec |
| Declarative.Loader.ProcessCaught | src/declarative.js:45-50 | a failure is shown as the error markup |
| Declarative.Loader.Turn | src/declarative.js:44-51 | one turn of the loop extends the batch by one container |
| Declarative.Loader.ProcessContainers | src/declarative.js:41-52 | every container is processed in order, with contents, requests and storage as BatchSpec |
| Declarative.Loader.Init | src/declarative.js:21-32 | templates are loaded first, then the containers are processed |

## Left out

- The event wiring is not modelled (src/declarative.js:354-418). This covers `setupEventListeners`, `handleAddToCart`, `getSelectedVariant` and `refreshCartDisplays`. These are DOM events, button state and timers.
- `addPagination` is not modelled (src/declarative.js:420-432). No fetch result carries `hasNextPage`, so it always returns at once. The `handlePagination` it wires is not defined.
- The auto-initialisation on DOMContentLoaded is not modelled, nor is the `ShopifyCacheDebug` global.
- `debugCache` is not modelled; it only logs to the console.
- The console logging and warnings throughout are not modelled.
- `getCartDetails` is modelled only as the request inside `checkoutExistingCart`.
- `addToCartAPI` is not modelled: nothing in the core calls it.
- src/api.js, src/renderers.js, src/config.js and src/queries are not part of this model. The gateway is a function from requests to answers, and CACHE_TTL is a parameter.
- Asynchrony is not modelled: each `await` is taken to complete before the next statement.
- The clock is a parameter. One `Date.now()` reading serves a whole call.
- Floating point is not modelled. `parseFloat(x).toFixed(2)` is the parameter `fmt`.
- Numbers are integers.
- NumberOf: strings, arrays and objects convert to NaN. Their real numeric conversion is not modelled.
- The `data-sort` attribute is read but never used, so it is not modelled.
- Storage.ParseCell: a cell written as plain text is treated as malformed JSON.
- A `saveToLocalStorage` quota failure is not modelled.
- The wording of engine-raised TypeError, SyntaxError and RangeError messages is the model's own. The library's own Error messages are exact.
- Cart.CartState.Load requires a stored cart that is missing, empty, or a list of `{ variantId, quantity }` lines. Any other stored text is not modelled.
- Cart.CartState.GetCartCount: the contract only states that the empty cart counts 0. Its behaviour under changes is proved in CountAfterAdd and CountAfterRemove.
- Declarative.Page: the DOM is modelled as a sequence of containers, each with its dataset and its own innerHTML. Nested containers and the aliasing of DOM nodes are not modelled.
- JsValue.Prop: only own properties are modelled. Inherited members such as `constructor`, `toString` and `__proto__` read as undefined. So `{{constructor}}` in a template renders as '' where the source prints the function's text. Likewise `clearCache('toString')` (Cache.StoreNamed, Cache.ClearedKeys) takes the unknown-name branch and clears nothing. The source removes the storage key named by that function's text, which is no cache key.
- Template.RenderItem: array elements that are numbers, booleans or undefined leave the inner template as it is, as the source does.

## Findings

| source | as written | input that shows it | evidently intended | confidence | as-written member | corrected member |
|---|---|---|---|---|---|---|
| src/checkout.js:93-117 | the fallback `checkout()` calls at lines 99 and 107 sit inside the `try`, so a checkout that fails is alerted and then run again by the `catch` at 112-116 | no `shopifyCartId` and an empty `shopifyCart`: "Checkout failed: Cart is empty" is alerted twice, and a failing cart creation is requested twice | the catch is the fallback for a failure to fetch the existing cart, so checkout runs at most once and alerts at most once | not executed | Checkout.EmptyCartAlertedTwice | Checkout.FixedAlertsAtMostOnce |
