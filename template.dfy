/** The template engine of src/declarative.js: `renderSingle` (a pass over `{{key}}` holes, then a
    pass over `{{#each key}}…{{/each}}` blocks), `renderList` and `renderCart`. A template is scanned
    left to right the way the global regular expressions scan it, into pieces that spell it back. */
module Template {
  import opened Wrappers
  import opened JsValue
  import Lookup
  import Gateway

  const EmptyCart := "<p>Your cart is empty</p>"
  const ThisMarker := "{{this}}"
  const Open := "{{#each "
  const Close := "{{/each}}"

  /** `\w`. */
  predicate IsWordChar(c: char) {
    'a' <= c <= 'z' || 'A' <= c <= 'Z' || '0' <= c <= '9' || c == '_'
  }

  predicate IsWord(w: string) {
    w != [] && forall i :: 0 <= i < |w| ==> IsWordChar(w[i])
  }

  /** The longest run of word characters s starts with (what greedy `\w+` takes). */
  function WordRun(s: string): (w: string)
    ensures w <= s
    ensures forall i :: 0 <= i < |w| ==> IsWordChar(w[i])
    ensures |w| < |s| ==> !IsWordChar(s[|w|])
    decreases |s|
  {
    if s != [] && IsWordChar(s[0]) then [s[0]] + WordRun(s[1..]) else ""
  }

  // ---------------------------------------------------------------------------------------------
  // The scalar pass: /\{\{(\w+)\}\}/g

  /** The key of the `{{key}}` hole s starts with, if any. */
  function HoleAt(s: string): Option<string> {
    if |s| >= 2 && s[0] == '{' && s[1] == '{' then
      var w := WordRun(s[2..]);
      if w != [] && |s| >= |w| + 4 && s[|w| + 2] == '}' && s[|w| + 3] == '}' then Some(w) else None
    else None
  }

  function HoleText(w: string): string {
    "{{" + w + "}}"
  }

  /** A hole starts s exactly when s begins with `{{`, a word and `}}`. */
  lemma HoleAtIff(s: string, w: string)
    ensures HoleAt(s) == Some(w) <==> IsWord(w) && HoleText(w) <= s
  {
    if IsWord(w) && HoleText(w) <= s {
      var t := s[2..];
      assert forall i :: 0 <= i < |w| ==> t[i] == w[i];
      assert t[|w|] == '}';
      WordRunOf(t, w);
    }
  }

  lemma {:induction false} WordRunOf(t: string, w: string)
    requires IsWord(w) && |t| > |w| && t[..|w|] == w && !IsWordChar(t[|w|])
    ensures WordRun(t) == w
    decreases |w|
  {
    if |w| > 1 {
      assert t[1..][..|w| - 1] == w[1..];
      WordRunOf(t[1..], w[1..]);
    }
  }

  /** The each-block markers are never holes: `#` and `/` are not word characters. */
  lemma MarkersAreNotHoles(rest: string)
    ensures HoleAt(Open + rest) == None
    ensures HoleAt(Close + rest) == None
  {
    assert (Open + rest)[2] == '#';
    assert (Close + rest)[2] == '/';
  }

  datatype Piece = Lit(c: char) | Hole(key: string)

  function Pieces(s: string): seq<Piece>
    decreases |s|
  {
    if s == [] then []
    else match HoleAt(s)
      case Some(w) => [Hole(w)] + Pieces(s[|w| + 4..])
      case None => [Lit(s[0])] + Pieces(s[1..])
  }

  function Spell(ps: seq<Piece>): string
    decreases |ps|
  {
    if ps == [] then ""
    else (match ps[0] case Lit(c) => [c] case Hole(w) => HoleText(w)) + Spell(ps[1..])
  }

  /** A hole found at the start of s is spelled by the text it starts s with. */
  lemma HoleAtSpelled(s: string, w: string)
    requires HoleAt(s) == Some(w)
    ensures |w| + 4 <= |s| && s == HoleText(w) + s[|w| + 4..]
  {
    var t := s[2..];
    assert w <= t;
    var h := HoleText(w);
    assert |h| == |w| + 4;
    forall i | 0 <= i < |h|
      ensures s[i] == h[i]
    {
      if 2 <= i < |w| + 2 {
        assert h[i] == w[i - 2] == t[i - 2];
      }
    }
    assert s[..|h|] == h;
  }

  /** Spell takes the pieces one at a time. */
  lemma SpellCons(p: Piece, ps: seq<Piece>)
    ensures Spell([p] + ps) == (match p case Lit(c) => [c] case Hole(w) => HoleText(w)) + Spell(ps)
  {
    assert ([p] + ps)[0] == p && ([p] + ps)[1..] == ps;
  }

  /** Scanning loses nothing: the pieces spell the template back. */
  lemma {:induction false} SpellPieces(s: string)
    ensures Spell(Pieces(s)) == s
    decreases |s|
  {
    if s != [] {
      match HoleAt(s)
      case Some(w) =>
        var rest := s[|w| + 4..];
        HoleAtSpelled(s, w);
        SpellPieces(rest);
        SpellCons(Hole(w), Pieces(rest));
      case None =>
        SpellPieces(s[1..]);
        SpellCons(Lit(s[0]), Pieces(s[1..]));
        assert s == [s[0]] + s[1..];
    }
  }

  predicate NoBrace(s: string) {
    forall i :: 0 <= i < |s| ==> s[i] != '{'
  }

  /** Text without a brace has no hole. */
  lemma {:induction false} PiecesOfPlainText(s: string)
    requires NoBrace(s)
    ensures forall i :: 0 <= i < |Pieces(s)| ==> Pieces(s)[i].Lit?
    decreases |s|
  {
    if s != [] {
      assert s[0] != '{';
      PiecesOfPlainText(s[1..]);
    }
  }

  /** `replace(regex, callback)`: each hole in order is replaced by what the callback returns; the
      first exception the callback throws ends the replacement. */
  function Fill(ps: seq<Piece>, fill: string -> Result<string>): Result<string>
    decreases |ps|
  {
    if ps == [] then Ok("")
    else
      var head :- match ps[0] case Lit(c) => Ok([c]) case Hole(w) => fill(w);
      var tail :- Fill(ps[1..], fill);
      Ok(head + tail)
  }

  /** Text without holes goes through unchanged. */
  lemma {:induction false} FillWithoutHoles(ps: seq<Piece>, fill: string -> Result<string>)
    requires forall i :: 0 <= i < |ps| ==> ps[i].Lit?
    ensures Fill(ps, fill) == Ok(Spell(ps))
    decreases |ps|
  {
    if ps != [] {
      FillWithoutHoles(ps[1..], fill);
    }
  }

  /** A failure of the callback on the first hole is the failure of the whole replacement. */
  lemma FillStopsAtFailure(w: string, ps: seq<Piece>, fill: string -> Result<string>)
    requires fill(w).Err?
    ensures Fill([Hole(w)] + ps, fill) == Err(fill(w).error)
  {
  }

  /** `value || ''`, converted to a string by `replace`. */
  function OrEmpty(v: Value): (s: string)
    ensures !Truthy(v) ==> s == ""
    ensures v.Str? ==> s == v.s
  {
    if Truthy(v) then ToStr(v) else ""
  }

  /** The scalar callback of renderSingle. The warning for a missing image or price reads
      `item.title`, which throws when the item itself is null or undefined. */
  function ScalarValue(item: Value, key: string, fmt: Value -> string): Result<string> {
    var v :- Lookup.GetNestedProperty(item, key, fmt);
    if !Truthy(v) && (key == "image" || key == "price") then
      var _ :- Prop(item, "title");
      Ok(OrEmpty(v))
    else Ok(OrEmpty(v))
  }

  /** A hole is filled with the value getNestedProperty finds, or '' when that is falsy. */
  lemma ScalarValueOfLookup(item: Value, key: string, fmt: Value -> string)
    requires !Nullish(item) && Lookup.GetNestedProperty(item, key, fmt).Ok?
    ensures ScalarValue(item, key, fmt) == Ok(OrEmpty(Lookup.GetNestedProperty(item, key, fmt).value))
  {
  }

  /** On a null item every hole is emptied, except that image and price holes throw. */
  lemma ScalarValueOfNull(key: string, fmt: Value -> string)
    ensures ScalarValue(Null, key, fmt).Err? <==> key == "image" || key == "price"
    ensures ScalarValue(Null, key, fmt).Err? ==> ScalarValue(Null, key, fmt).error.TypeError?
    ensures ScalarValue(Null, key, fmt).Ok? ==> ScalarValue(Null, key, fmt).value == ""
  {
    Lookup.LookupOnNonObject(Null, key, fmt);
  }

  /** The scalar callback for one item, as a value. */
  function ScalarFill(item: Value, fmt: Value -> string): string -> Result<string> {
    (k: string) => ScalarValue(item, k, fmt)
  }

  function ScalarPass(template: string, item: Value, fmt: Value -> string): Result<string> {
    Fill(Pieces(template), ScalarFill(item, fmt))
  }

  // ---------------------------------------------------------------------------------------------
  // The block pass: /\{\{#each (\w+)\}\}(.*?)\{\{\/each\}\}/gs

  predicate CloseAt(t: string, k: nat) {
    k + |Close| <= |t| && t[k..k + |Close|] == Close
  }

  /** The first position from i on where `{{/each}}` stands in t (what the lazy `.*?` with the s
      flag stops at). */
  function FindClose(t: string, i: nat): (r: Option<nat>)
    requires i <= |t|
    ensures r.Some? ==> i <= r.value && CloseAt(t, r.value)
    ensures r.Some? ==> forall k :: i <= k < r.value ==> !CloseAt(t, k)
    ensures r.None? ==> forall k :: i <= k ==> !CloseAt(t, k)
    decreases |t| - i
  {
    if i + |Close| > |t| then None
    else if CloseAt(t, i) then Some(i)
    else FindClose(t, i + 1)
  }

  datatype Block = Block(key: string, inner: string)

  function BlockText(b: Block): string {
    Open + b.key + "}}" + b.inner + Close
  }

  /** The block s starts with, if any. */
  function BlockAt(s: string): (r: Option<Block>)
    ensures r.Some? ==> |BlockText(r.value)| <= |s|
  {
    if |s| >= |Open| && s[..|Open|] == Open then
      var w := WordRun(s[|Open|..]);
      var n := |Open| + |w|;
      if w != [] && |s| >= n + 2 && s[n] == '}' && s[n + 1] == '}' then
        match FindClose(s[n + 2..], 0)
        case Some(j) => Some(Block(w, s[n + 2..][..j]))
        case None => None
      else None
    else None
  }

  /** The block BlockAt finds is spelled out at the start of s. */
  lemma BlockAtPrefix(s: string)
    requires BlockAt(s).Some?
    ensures BlockText(BlockAt(s).value) <= s
  {
    var b := BlockAt(s).value;
    var w := b.key;
    var n := |Open| + |w|;
    var j := |b.inner|;
    var t := s[n + 2..];
    assert CloseAt(t, j);
    assert s[..|Open|] == Open;
    assert s[|Open|..n] == w;
    assert s[n..n + 2] == "}}";
    assert s[n + 2..n + 2 + j] == b.inner;
    assert s[n + 2 + j..n + 2 + j + |Close|] == Close;
    var l := |BlockText(b)|;
    assert s[..l] == s[..|Open|] + s[|Open|..n] + s[n..n + 2] + s[n + 2..n + 2 + j] + s[n + 2 + j..l];
  }

  /** What BlockAt finds is a block at the start of s whose inner text holds no closing marker. */
  lemma BlockAtSound(s: string)
    requires BlockAt(s).Some?
    ensures IsWord(BlockAt(s).value.key) && BlockText(BlockAt(s).value) <= s
    ensures forall k :: 0 <= k < |BlockAt(s).value.inner| ==> !CloseAt(BlockAt(s).value.inner + Close, k)
  {
    var b := BlockAt(s).value;
    BlockAtPrefix(s);
    var t := s[|Open| + |b.key| + 2..];
    forall k | 0 <= k < |b.inner| ensures !CloseAt(b.inner + Close, k) {
      assert !CloseAt(t, k);
      assert (b.inner + Close)[k..k + |Close|] == t[k..k + |Close|];
    }
  }

  /** The parts of a block spelled at the start of s, position by position. */
  lemma BlockTextParts(s: string, b: Block)
    requires BlockText(b) <= s
    ensures var n := |Open| + |b.key|;
      n + 2 <= |s| && s[..|Open|] == Open && s[|Open|..][..|b.key|] == b.key
      && s[n] == '}' && s[n + 1] == '}' && b.inner + Close <= s[n + 2..]
  {
    var n := |Open| + |b.key|;
    var bt := BlockText(b);
    assert bt == Open + (b.key + ("}}" + (b.inner + Close)));
    assert s[..|bt|] == bt;
    assert s[..|Open|] == bt[..|Open|];
    assert s[|Open|..][..|b.key|] == bt[|Open|..n];
    assert s[n] == bt[n] && s[n + 1] == bt[n + 1];
    var ic := b.inner + Close;
    assert |bt| == n + 2 + |ic|;
    forall k | 0 <= k < |ic| ensures s[n + 2..][k] == ic[k] {
      assert s[n + 2 + k] == bt[n + 2 + k];
    }
    assert s[n + 2..][..|ic|] == ic;
  }

  /** In text that starts with inner and the closing marker, with no earlier marker, the first
      marker is right after inner. */
  lemma FindCloseAfter(t: string, inner: string)
    requires inner + Close <= t
    requires forall k :: 0 <= k < |inner| ==> !CloseAt(inner + Close, k)
    ensures FindClose(t, 0) == Some(|inner|)
  {
    var m := |inner|;
    var ic := inner + Close;
    assert t[..|ic|] == ic;
    forall k | 0 <= k < m ensures !CloseAt(t, k) {
      assert !CloseAt(ic, k);
      assert ic[k..k + |Close|] == t[k..k + |Close|];
    }
    assert t[m..m + |Close|] == ic[m..];
    assert CloseAt(t, m);
  }

  /** Conversely, every such block is found. */
  lemma BlockAtComplete(s: string, b: Block)
    requires IsWord(b.key) && BlockText(b) <= s
    requires forall k :: 0 <= k < |b.inner| ==> !CloseAt(b.inner + Close, k)
    ensures BlockAt(s) == Some(b)
  {
    var n := |Open| + |b.key|;
    BlockTextParts(s, b);
    var u := s[|Open|..];
    assert u[|b.key|] == s[n];
    WordRunOf(u, b.key);
    var t := s[n + 2..];
    FindCloseAfter(t, b.inner);
    assert t[..|b.inner|] == (b.inner + Close)[..|b.inner|];
  }

  datatype Chunk = Char(c: char) | Each(block: Block)

  function Chunks(s: string): seq<Chunk>
    decreases |s|
  {
    if s == [] then []
    else match BlockAt(s)
      case Some(b) => [Each(b)] + Chunks(s[|BlockText(b)|..])
      case None => [Char(s[0])] + Chunks(s[1..])
  }

  function Unchunk(cs: seq<Chunk>): string
    decreases |cs|
  {
    if cs == [] then ""
    else (match cs[0] case Char(c) => [c] case Each(b) => BlockText(b)) + Unchunk(cs[1..])
  }

  lemma {:induction false} UnchunkChunks(s: string)
    ensures Unchunk(Chunks(s)) == s
    decreases |s|
  {
    if s != [] {
      match BlockAt(s)
      case Some(b) =>
        BlockAtPrefix(s);
        UnchunkChunks(s[|BlockText(b)|..]);
        assert s == s[..|BlockText(b)|] + s[|BlockText(b)|..];
      case None =>
        UnchunkChunks(s[1..]);
        assert s == [s[0]] + s[1..];
    }
  }

  lemma {:induction false} ChunksOfPlainText(s: string)
    requires NoBrace(s)
    ensures forall i :: 0 <= i < |Chunks(s)| ==> Chunks(s)[i].Char?
    decreases |s|
  {
    if s != [] {
      assert s[0] != '{';
      ChunksOfPlainText(s[1..]);
    }
  }

  /** The `$` patterns a replacement string may hold when the pattern has no groups: `$$`, `$&` (the
      match), `` $` `` (the text before it) and `$'` (the text after it); any other `$` is literal. */
  function Substitution(r: string, before: string, after: string): string
    decreases |r|
  {
    if r == [] then ""
    else if |r| >= 2 && r[0] == '$' && r[1] in "$&`'" then
      (if r[1] == '$' then "$" else if r[1] == '&' then ThisMarker else if r[1] == '`' then before else after)
      + Substitution(r[2..], before, after)
    else [r[0]] + Substitution(r[1..], before, after)
  }

  lemma {:induction false} SubstitutionWithoutDollar(r: string, before: string, after: string)
    requires forall i :: 0 <= i < |r| ==> r[i] != '$'
    ensures Substitution(r, before, after) == r
    decreases |r|
  {
    if r != [] {
      SubstitutionWithoutDollar(r[1..], before, after);
    }
  }

  predicate ThisAt(str: string, k: nat) {
    k + |ThisMarker| <= |str| && str[k..k + |ThisMarker|] == ThisMarker
  }

  /** `str.replace(/\{\{this\}\}/g, repl)` from position i on. */
  function ReplaceThisFrom(str: string, i: nat, repl: string): string
    requires i <= |str|
    decreases |str| - i
  {
    if i == |str| then ""
    else if ThisAt(str, i) then
      Substitution(repl, str[..i], str[i + |ThisMarker|..]) + ReplaceThisFrom(str, i + |ThisMarker|, repl)
    else [str[i]] + ReplaceThisFrom(str, i + 1, repl)
  }

  function ReplaceThis(str: string, repl: string): string {
    ReplaceThisFrom(str, 0, repl)
  }

  /** An inner template without `{{this}}` is not changed by a string item. */
  lemma {:induction false} ReplaceThisAbsent(str: string, i: nat, repl: string)
    requires i <= |str|
    requires forall k :: i <= k ==> !ThisAt(str, k)
    ensures ReplaceThisFrom(str, i, repl) == str[i..]
    decreases |str| - i
  {
    if i < |str| {
      ReplaceThisAbsent(str, i + 1, repl);
      assert str[i..] == [str[i]] + str[i + 1..];
    }
  }

  /** The marker starts with a brace. */
  lemma NotThisAt(str: string, k: nat)
    requires k < |str| && str[k] != '{'
    ensures !ThisAt(str, k)
  {
    if k + |ThisMarker| <= |str| {
      assert str[k..k + |ThisMarker|][0] == str[k];
    }
  }

  /** A character other than a brace is copied. */
  lemma ReplaceThisStep(str: string, i: nat, repl: string)
    requires i < |str| && str[i] != '{'
    ensures ReplaceThisFrom(str, i, repl) == [str[i]] + ReplaceThisFrom(str, i + 1, repl)
  {
    NotThisAt(str, i);
  }

  /** Up to a marker, text without braces is copied. */
  lemma {:induction false} ReplaceThisCopy(str: string, i: nat, m: nat, repl: string)
    requires i <= m <= |str|
    requires forall k :: i <= k < m ==> str[k] != '{'
    ensures ReplaceThisFrom(str, i, repl) == str[i..m] + ReplaceThisFrom(str, m, repl)
    decreases m - i
  {
    if i < m {
      ReplaceThisStep(str, i, repl);
      ReplaceThisCopy(str, i + 1, m, repl);
      Regroup([str[i]], str[i + 1..m], ReplaceThisFrom(str, m, repl));
      assert str[i..m] == [str[i]] + str[i + 1..m];
    }
  }

  lemma Regroup(a: string, b: string, c: string)
    ensures a + (b + c) == (a + b) + c
  {
  }

  /** At a marker the replacement text is substituted and the scan resumes after the marker. */
  lemma ReplaceThisAtMarker(str: string, m: nat, repl: string)
    requires ThisAt(str, m)
    ensures ReplaceThisFrom(str, m, repl)
      == Substitution(repl, str[..m], str[m + |ThisMarker|..]) + ReplaceThisFrom(str, m + |ThisMarker|, repl)
  {
  }

  /** A string item takes the place of `{{this}}` in an inner template around it. */
  lemma ReplaceThisMarker(before: string, url: string, after: string)
    requires forall i :: 0 <= i < |url| ==> url[i] != '$'
    requires NoBrace(before) && NoBrace(after)
    ensures ReplaceThis(before + ThisMarker + after, url) == before + url + after
  {
    var str := before + ThisMarker + after;
    var m := |before|;
    var e := m + |ThisMarker|;
    assert str[..m] == before && str[m..e] == ThisMarker && str[e..] == after;
    ReplaceThisCopy(str, 0, m, url);
    ReplaceThisAtMarker(str, m, url);
    SubstitutionWithoutDollar(url, before, after);
    ReplaceThisCopy(str, e, |str|, url);
    var tail := ReplaceThisFrom(str, e, url);
    assert tail == after + "";
    Regroup(before, url, after);
  }

  /** `$&` in a string item brings the marker back. */
  lemma DollarAmpersandItem()
    ensures ReplaceThis(ThisMarker, "$&") == ThisMarker
  {
    assert ThisAt(ThisMarker, 0);
  }

  /** The property callback for an object (or null) item of a block. `price` is formatted from
      `price.amount` when the item has a truthy price; every other key is read from the item. */
  function ItemValue(x: Value, key: string, fmt: Value -> string): Result<string> {
    if key == "this" then Ok(ToStr(x))
    else if key == "price" then
      var price :- Prop(x, "price");
      if Truthy(price) then Ok(fmt(Get(price, "amount"))) else Ok(OrEmpty(Get(x, key)))
    else
      var v :- Prop(x, key);
      Ok(OrEmpty(v))
  }

  /** One element of a block's array rendered with the inner template. */
  function RenderItem(x: Value, inner: string, fmt: Value -> string): Result<string> {
    match x
    case Str(s) => Ok(ReplaceThis(inner, s))
    case Null => Fill(Pieces(inner), (k: string) => ItemValue(x, k, fmt))
    case Arr(_) => Fill(Pieces(inner), (k: string) => ItemValue(x, k, fmt))
    case Obj(_) => Fill(Pieces(inner), (k: string) => ItemValue(x, k, fmt))
    case _ => Ok(inner)
  }

  function RenderItems(xs: seq<Value>, inner: string, fmt: Value -> string): Result<string>
    decreases |xs|
  {
    if xs == [] then Ok("")
    else
      var head :- RenderItem(xs[0], inner, fmt);
      var tail :- RenderItems(xs[1..], inner, fmt);
      Ok(head + tail)
  }

  /** Elements render independently and in order. */
  lemma {:induction false} RenderItemsConcat(xs: seq<Value>, ys: seq<Value>, inner: string, fmt: Value -> string)
    requires RenderItems(xs, inner, fmt).Ok? && RenderItems(ys, inner, fmt).Ok?
    ensures RenderItems(xs + ys, inner, fmt) == Ok(RenderItems(xs, inner, fmt).value + RenderItems(ys, inner, fmt).value)
    decreases |xs|
  {
    if xs == [] {
      assert xs + ys == ys;
      assert "" + RenderItems(ys, inner, fmt).value == RenderItems(ys, inner, fmt).value;
    } else {
      assert (xs + ys)[0] == xs[0];
      assert (xs + ys)[1..] == xs[1..] + ys;
      RenderItemsConcat(xs[1..], ys, inner, fmt);
      var h, a, c := RenderItem(xs[0], inner, fmt).value, RenderItems(xs[1..], inner, fmt).value, RenderItems(ys, inner, fmt).value;
      assert h + (a + c) == (h + a) + c;
    }
  }

  /** `edges.map((edge) => edge.node.url)`. */
  function EdgeUrls(edges: seq<Value>): (r: Result<seq<Value>>)
    ensures r.Ok? ==> |r.value| == |edges|
    decreases |edges|
  {
    if edges == [] then Ok([])
    else
      var node :- Prop(edges[0], "node");
      var url :- Prop(node, "url");
      var rest :- EdgeUrls(edges[1..]);
      Ok([url] + rest)
  }

  /** The array a block iterates: `images` and `variants` connections are flattened first. */
  function BlockArray(found: Value, key: string): Result<Value> {
    if key == "images" && Truthy(found) && Truthy(Get(found, "edges")) then
      var edges := Get(found, "edges");
      if edges.Arr? then
        var urls :- EdgeUrls(edges.items);
        Ok(Arr(urls))
      else Err(TypeError("item.images.edges.map is not a function"))
    else if key == "variants" && Truthy(found) && Truthy(Get(found, "edges")) then Gateway.NodesOf(Get(found, "edges"))
    else Ok(found)
  }

  function ExpandBlock(item: Value, b: Block, fmt: Value -> string): Result<string> {
    var found :- Lookup.GetNestedProperty(item, b.key, fmt);
    var arr :- BlockArray(found, b.key);
    if arr.Arr? then RenderItems(arr.items, b.inner, fmt) else Ok("")
  }

  /** Image edges become their URLs, in order. */
  lemma {:induction false} ImageEdgesGiveUrls(edges: seq<Value>, urls: seq<Value>)
    requires |edges| == |urls|
    requires forall i :: 0 <= i < |edges| ==> edges[i] == Obj(map["node" := Obj(map["url" := urls[i]])])
    ensures EdgeUrls(edges) == Ok(urls)
    decreases |edges|
  {
    if edges != [] {
      ImageEdgesGiveUrls(edges[1..], urls[1..]);
      assert urls == [urls[0]] + urls[1..];
    }
  }

  /** A block over something that is not an array renders as nothing. */
  lemma BlockOverNonArray(item: Value, b: Block, fmt: Value -> string)
    requires b.key != "images" && b.key != "variants"
    requires Lookup.GetNestedProperty(item, b.key, fmt).Ok? && !Lookup.GetNestedProperty(item, b.key, fmt).value.Arr?
    ensures ExpandBlock(item, b, fmt) == Ok("")
  {
  }

  function ExpandChunks(cs: seq<Chunk>, item: Value, fmt: Value -> string): Result<string>
    decreases |cs|
  {
    if cs == [] then Ok("")
    else
      var head :- match cs[0] case Char(c) => Ok([c]) case Each(b) => ExpandBlock(item, b, fmt);
      var tail :- ExpandChunks(cs[1..], item, fmt);
      Ok(head + tail)
  }

  lemma {:induction false} ExpandWithoutBlocks(cs: seq<Chunk>, item: Value, fmt: Value -> string)
    requires forall i :: 0 <= i < |cs| ==> cs[i].Char?
    ensures ExpandChunks(cs, item, fmt) == Ok(Unchunk(cs))
    decreases |cs|
  {
    if cs != [] {
      ExpandWithoutBlocks(cs[1..], item, fmt);
    }
  }

  function BlockPass(html: string, item: Value, fmt: Value -> string): Result<string> {
    ExpandChunks(Chunks(html), item, fmt)
  }

  // ---------------------------------------------------------------------------------------------
  // The pass order: holes inside a block are filled from the outer item before the block pass

  /** Position k of t cannot start a hole: no `{{` followed by a word character there. */
  predicate NoHoleStart(t: string, k: nat)
    requires k < |t|
  {
    t[k] != '{' || k + 2 >= |t| || t[k + 1] != '{' || !IsWordChar(t[k + 2])
  }

  lemma NoHoleAt(t: string, k: nat)
    requires k < |t| && NoHoleStart(t, k)
    ensures HoleAt(t[k..]) == None
  {
    var u := t[k..];
    if |u| >= 2 && u[0] == '{' && u[1] == '{' {
      assert u[2..] == [] || !IsWordChar(u[2..][0]);
    }
  }

  /** The scalar pass copies a stretch of text from which no hole starts. */
  lemma {:induction false} ScalarPassCopies(t: string, i: nat, m: nat, fill: string -> Result<string>)
    requires i <= m <= |t| && forall k :: i <= k < m ==> NoHoleStart(t, k)
    requires Fill(Pieces(t[m..]), fill).Ok?
    ensures Fill(Pieces(t[i..]), fill) == Ok(t[i..m] + Fill(Pieces(t[m..]), fill).value)
    decreases m - i
  {
    if i < m {
      NoHoleAt(t, i);
      assert t[i..][1..] == t[i + 1..];
      assert Pieces(t[i..]) == [Lit(t[i])] + Pieces(t[i + 1..]);
      ScalarPassCopies(t, i + 1, m, fill);
      var rest := Fill(Pieces(t[m..]), fill).value;
      assert ([Lit(t[i])] + Pieces(t[i + 1..]))[1..] == Pieces(t[i + 1..]);
      assert [t[i]] + (t[i + 1..m] + rest) == t[i..m] + rest;
    } else {
      assert t[i..m] + Fill(Pieces(t[m..]), fill).value == Fill(Pieces(t[m..]), fill).value;
    }
  }

  /** A hole is replaced by what the callback gives for its key. */
  lemma ScalarPassHole(w: string, s: string, fill: string -> Result<string>)
    requires IsWord(w) && fill(w).Ok? && Fill(Pieces(s), fill).Ok?
    ensures Fill(Pieces(HoleText(w) + s), fill) == Ok(fill(w).value + Fill(Pieces(s), fill).value)
  {
    HoleAtIff(HoleText(w) + s, w);
    assert (HoleText(w) + s)[|w| + 4..] == s;
  }

  /** A hole the callback empties disappears. */
  lemma {:induction false} EmptiedHole(w: string, s: string, fill: string -> Result<string>)
    requires IsWord(w) && fill(w) == Ok("") && Fill(Pieces(s), fill) == Ok(s)
    ensures Fill(Pieces(HoleText(w) + s), fill) == Ok(s)
  {
    ScalarPassHole(w, s, fill);
    assert "" + s == s;
  }

  /** Text without braces followed by the closing marker passes the scalar pass unchanged. */
  lemma {:induction false} ScalarPassKeepsClose(after: string, fill: string -> Result<string>)
    requires NoBrace(after)
    ensures Fill(Pieces(after + Close), fill) == Ok(after + Close)
  {
    var t := after + Close;
    forall k | 0 <= k < |t| ensures NoHoleStart(t, k) {
      if k < |after| {
        assert t[k] == after[k];
      } else if k >= |after| + 2 {
        assert t[k] == Close[k - |after|];
      } else {
        assert t[|after| + 1] == '{' && t[|after| + 2] == '/';
      }
    }
    assert t[|t|..] == [];
    assert Fill(Pieces([]), fill) == Ok("");
    ScalarPassCopies(t, 0, |t|, fill);
    assert t[0..] == t && t[0..|t|] == t;
    assert t + "" == t;
  }

  /** The opening marker, its key, `}}` and text without braces pass the scalar pass unchanged. */
  lemma {:induction false} ScalarPassKeepsOpen(key: string, before: string, rest: string, fill: string -> Result<string>)
    requires NoBrace(key) && NoBrace(before) && Fill(Pieces(rest), fill).Ok?
    ensures Fill(Pieces(Open + key + "}}" + before + rest), fill)
      == Ok(Open + key + "}}" + before + Fill(Pieces(rest), fill).value)
  {
    var a := Open + key + "}}" + before;
    var t := a + rest;
    forall k | 0 <= k < |a| ensures NoHoleStart(t, k) {
      assert t[k] == a[k];
      if k >= |Open| + |key| + 2 {
        assert a[k] == before[k - |Open| - |key| - 2];
      } else if k >= |Open| {
        assert a[k] == (key + "}}")[k - |Open|];
      } else if k >= 2 {
        assert a[k] == Open[k];
      } else {
        assert t[1] == '{' && t[2] == '#';
      }
    }
    assert t[|a|..] == rest;
    ScalarPassCopies(t, 0, |a|, fill);
    assert t[0..] == t && t[0..|a|] == a;
  }

  /** With no `this` field on an object item, `{{this}}` is filled with ''. */
  lemma ThisHoleOfObject(fields: map<string, Value>, fmt: Value -> string)
    requires "this" !in fields
    ensures ScalarFill(Obj(fields), fmt)("this") == Ok("")
  {
    assert Lookup.IsKey("this");
    Lookup.PlainFieldLookup(fields, "this", fmt);
  }

  lemma ThisMarkerIsHole()
    ensures HoleText("this") == ThisMarker && IsWord("this")
  {
  }

  /** A block's `{{this}}` goes the way of a callback that empties it. */
  lemma {:induction false} FillEmptiesThis(key: string, before: string, after: string, fill: string -> Result<string>)
    requires IsWord(key) && NoBrace(before) && NoBrace(after) && fill("this") == Ok("")
    ensures Fill(Pieces(Open + key + "}}" + before + ThisMarker + after + Close), fill)
      == Ok(Open + key + "}}" + before + after + Close)
  {
    var b := after + Close;
    var head := Open + key + "}}" + before;
    ScalarPassKeepsClose(after, fill);
    ThisMarkerIsHole();
    EmptiedHole("this", b, fill);
    var rest := ThisMarker + b;
    assert IsWord(key) ==> NoBrace(key);
    ScalarPassKeepsOpen(key, before, rest, fill);
    Regroup(head + ThisMarker, after, Close);
    Regroup(head, ThisMarker, b);
    Regroup(head, after, Close);
  }

  /** `{{this}}` inside a block is emptied by the scalar pass when the outer item has no `this`
      field; the block reaches the block pass without it. */
  lemma ScalarPassEmptiesThis(key: string, before: string, after: string, fields: map<string, Value>, fmt: Value -> string)
    requires IsWord(key) && NoBrace(before) && NoBrace(after) && "this" !in fields
    ensures ScalarPass(Open + key + "}}" + before + ThisMarker + after + Close, Obj(fields), fmt)
      == Ok(Open + key + "}}" + before + after + Close)
  {
    ThisHoleOfObject(fields, fmt);
    FillEmptiesThis(key, before, after, ScalarFill(Obj(fields), fmt));
  }

  /** String elements leave an inner template without `{{this}}` as it is. */
  lemma {:induction false} StringItemsRepeatInner(xs: seq<Value>, inner: string, fmt: Value -> string)
    requires NoBrace(inner) && forall i :: 0 <= i < |xs| ==> xs[i].Str?
    ensures RenderItems(xs, inner, fmt) == Ok(Repeat(inner, |xs|))
    decreases |xs|
  {
    if xs != [] {
      ReplaceThisCopy(inner, 0, |inner|, xs[0].s);
      assert inner[0..|inner|] == inner && inner[|inner|..] == [];
      assert ReplaceThisFrom(inner, |inner|, xs[0].s) == "";
      assert inner + "" == inner;
      StringItemsRepeatInner(xs[1..], inner, fmt);
    }
  }

  /** A block whose inner text has no brace is found whole. */
  lemma {:induction false} PlainBlockChunks(key: string, inner: string)
    requires IsWord(key) && NoBrace(inner)
    ensures Chunks(BlockText(Block(key, inner))) == [Each(Block(key, inner))]
  {
    var b := Block(key, inner);
    var t := BlockText(b);
    forall k | 0 <= k < |inner| ensures !CloseAt(inner + Close, k) {
      assert (inner + Close)[k] == inner[k];
    }
    BlockAtComplete(t, b);
    assert t[|t|..] == [];
  }

  /** A text that is one block expands to that block. */
  lemma OneChunk(b: Block, item: Value, fmt: Value -> string)
    requires ExpandBlock(item, b, fmt).Ok?
    ensures ExpandChunks([Each(b)], item, fmt) == ExpandBlock(item, b, fmt)
  {
    assert [Each(b)][1..] == [];
    assert ExpandBlock(item, b, fmt).value + "" == ExpandBlock(item, b, fmt).value;
  }

  /** A block over an array field of strings repeats its inner text once per string. */
  lemma {:induction false} BlockOverStrings(key: string, inner: string, fields: map<string, Value>,
                                            xs: seq<Value>, fmt: Value -> string)
    requires IsWord(key) && key != "price" && key != "image" && key != "variantId" && NoBrace(inner)
    requires key in fields && fields[key] == Arr(xs) && forall i :: 0 <= i < |xs| ==> xs[i].Str?
    ensures ExpandBlock(Obj(fields), Block(key, inner), fmt) == Ok(Repeat(inner, |xs|))
  {
    assert Lookup.IsKey(key);
    Lookup.PlainFieldLookup(fields, key, fmt);
    assert IndexKey("edges") == None;
    assert BlockArray(Arr(xs), key) == Ok(Arr(xs));
    StringItemsRepeatInner(xs, inner, fmt);
  }

  /** A block with plain inner text over an array of strings repeats the inner text. */
  lemma {:induction false} PlainBlockOverStrings(key: string, inner: string, fields: map<string, Value>,
                                                 xs: seq<Value>, fmt: Value -> string)
    requires IsWord(key) && key != "price" && key != "image" && key != "variantId" && NoBrace(inner)
    requires key in fields && fields[key] == Arr(xs) && forall i :: 0 <= i < |xs| ==> xs[i].Str?
    ensures BlockPass(BlockText(Block(key, inner)), Obj(fields), fmt) == Ok(Repeat(inner, |xs|))
  {
    PlainBlockChunks(key, inner);
    BlockOverStrings(key, inner, fields, xs, fmt);
    OneChunk(Block(key, inner), Obj(fields), fmt);
  }

  /** The consequence for a gallery template: `{{#each images}}<img src="{{this}}">{{/each}}` over an
      item whose images are URL strings renders one `<img src="">` per image. The scalar pass has
      already emptied `{{this}}` with the outer item's (missing) `this` field, so the URLs never
      appear. */
  lemma {:induction false} EachOverStringsLosesThis(key: string, before: string, after: string, fields: map<string, Value>,
                                                    xs: seq<Value>, fmt: Value -> string)
    requires IsWord(key) && key != "price" && key != "image" && key != "variantId"
    requires NoBrace(before) && NoBrace(after) && "this" !in fields
    requires key in fields && fields[key] == Arr(xs) && forall i :: 0 <= i < |xs| ==> xs[i].Str?
    ensures RenderSingle(Open + key + "}}" + before + ThisMarker + after + Close, Obj(fields), fmt)
      == Ok(Repeat(before + after, |xs|))
  {
    var inner := before + after;
    ScalarPassEmptiesThis(key, before, after, fields, fmt);
    assert Open + key + "}}" + before + after + Close == BlockText(Block(key, inner));
    assert NoBrace(inner) by {
      forall i | 0 <= i < |inner| ensures inner[i] != '{' {
        if i >= |before| {
          assert inner[i] == after[i - |before|];
        }
      }
    }
    PlainBlockOverStrings(key, inner, fields, xs, fmt);
  }

  // ---------------------------------------------------------------------------------------------
  // The renderers

  function RenderSingle(template: string, item: Value, fmt: Value -> string): Result<string> {
    var html :- ScalarPass(template, item, fmt);
    BlockPass(html, item, fmt)
  }

  /** A template with no braces renders as itself, whatever the item. */
  lemma PlainTemplate(template: string, item: Value, fmt: Value -> string)
    requires NoBrace(template)
    ensures RenderSingle(template, item, fmt) == Ok(template)
  {
    PiecesOfPlainText(template);
    FillWithoutHoles(Pieces(template), ScalarFill(item, fmt));
    SpellPieces(template);
    ChunksOfPlainText(template);
    ExpandWithoutBlocks(Chunks(template), item, fmt);
    UnchunkChunks(template);
  }

  function RenderAll(template: string, items: seq<Value>, fmt: Value -> string): Result<string>
    decreases |items|
  {
    if items == [] then Ok("")
    else
      var head :- RenderSingle(template, items[0], fmt);
      var tail :- RenderAll(template, items[1..], fmt);
      Ok(head + tail)
  }

  /** `items.map(renderSingle).join('')`, which needs an array. */
  function RenderList(template: string, items: Value, fmt: Value -> string): (r: Result<string>)
    ensures !items.Arr? ==> r.Err? && r.error.TypeError?
    ensures items == Arr([]) ==> r == Ok("")
  {
    if items.Arr? then RenderAll(template, items.items, fmt)
    else if Nullish(items) then Err(TypeError("Cannot read properties of " + ToStr(items) + " (reading 'map')"))
    else Err(TypeError("items.map is not a function"))
  }

  /** The list is the items rendered one after the other. */
  lemma {:induction false} RenderAllConcat(template: string, xs: seq<Value>, ys: seq<Value>, fmt: Value -> string)
    requires RenderAll(template, xs, fmt).Ok? && RenderAll(template, ys, fmt).Ok?
    ensures RenderAll(template, xs + ys, fmt) == Ok(RenderAll(template, xs, fmt).value + RenderAll(template, ys, fmt).value)
    decreases |xs|
  {
    if xs == [] {
      assert xs + ys == ys;
      assert "" + RenderAll(template, ys, fmt).value == RenderAll(template, ys, fmt).value;
    } else {
      var h, a, c := RenderSingle(template, xs[0], fmt).value, RenderAll(template, xs[1..], fmt).value, RenderAll(template, ys, fmt).value;
      RenderAllCons(template, xs, fmt);
      assert (xs + ys)[1..] == xs[1..] + ys;
      RenderAllConcat(template, xs[1..], ys, fmt);
      RenderAllCons(template, xs + ys, fmt);
      Regroup(h, a, c);
    }
  }

  /** A non-empty list is its first item rendered, then the rest. */
  lemma RenderAllCons(template: string, items: seq<Value>, fmt: Value -> string)
    requires items != [] && RenderSingle(template, items[0], fmt).Ok?
    requires RenderAll(template, items[1..], fmt).Ok?
    ensures RenderAll(template, items, fmt)
      == Ok(RenderSingle(template, items[0], fmt).value + RenderAll(template, items[1..], fmt).value)
  {
  }

  function Repeat(s: string, n: nat): string
    decreases n
  {
    if n == 0 then "" else s + Repeat(s, n - 1)
  }

  /** A plain template is repeated once per item. */
  lemma {:induction false} PlainTemplateList(template: string, items: seq<Value>, fmt: Value -> string)
    requires NoBrace(template)
    ensures RenderAll(template, items, fmt) == Ok(Repeat(template, |items|))
    decreases |items|
  {
    if items != [] {
      PlainTemplate(template, items[0], fmt);
      PlainTemplateList(template, items[1..], fmt);
    }
  }

  /** `renderCart`: '<p>Your cart is empty</p>' when `cart.lines` is missing or empty. */
  function RenderCart(template: string, cart: Value, fmt: Value -> string): (r: Result<string>)
    ensures Nullish(cart) ==> r.Err?
    ensures cart.Obj? && ("lines" !in cart.fields || !Truthy(cart.fields["lines"]) || cart.fields["lines"] == Arr([]))
      ==> r == Ok(EmptyCart)
  {
    var lines :- Prop(cart, "lines");
    if !Truthy(lines) || Get(lines, "length") == Num(0) then Ok(EmptyCart)
    else RenderList(template, lines, fmt)
  }

  /** The cart the library hands to renderCart is an array, whose `lines` is undefined: every cart
      renders as empty. */
  lemma ArrayCartIsEmpty(template: string, items: seq<Value>, fmt: Value -> string)
    ensures RenderCart(template, Arr(items), fmt) == Ok(EmptyCart)
  {
    assert IndexKey("lines") == None;
  }

  /** A cart object with lines renders them as a list. */
  lemma CartWithLines(template: string, lines: seq<Value>, fmt: Value -> string)
    requires lines != []
    ensures RenderCart(template, Obj(map["lines" := Arr(lines)]), fmt) == RenderAll(template, lines, fmt)
  {
  }
}
