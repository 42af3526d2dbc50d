/** The browser's localStorage: string keys mapped to text. A cell written through JSON.stringify is
    kept as the value that JSON.parse gives back for it; a cell written as a plain string keeps the
    string. */
module Storage {
  import opened Wrappers
  import opened JsValue

  datatype Stored =
    | Json(v: Value)   // text produced by JSON.stringify; JSON.parse of it yields v
    | Text(t: string)  // any other text, written by setItem(key, string)

  type Items = map<string, Stored>

  /** `localStorage.setItem(key, JSON.stringify(v))`. JSON.stringify(undefined) is undefined, and
      setItem stores that as the text "undefined". */
  function JsonCell(v: Value): (c: Stored)
    ensures !v.Undefined? ==> c.Json? && JsonClean(c.v)
  {
    if v.Undefined? then Text("undefined") else NormalizeIsClean(v); Json(Normalize(v))
  }

  /** `if (stored)` on what getItem returned: only the empty string is falsy. */
  predicate CellTruthy(c: Stored) {
    c.Json? || c.t != ""
  }

  /** `JSON.parse(stored)`. Plain-string cells are never read back through JSON.parse by the program
      except after outside interference; the model treats their text as malformed JSON. */
  function ParseCell(c: Stored): Result<Value> {
    match c
    case Json(v) => Ok(v)
    case Text(t) => Err(SyntaxError("Unexpected token in JSON: " + t))
  }

  /** The storage object; the cache, the cart and checkout all share one. */
  class LocalStorage {
    var items: Items

    constructor (initial: Items)
      ensures items == initial
    {
      items := initial;
    }

    method SetItem(key: string, c: Stored)
      modifies this
      ensures items == old(items)[key := c]
    {
      items := items[key := c];
    }

    method RemoveItem(key: string)
      modifies this
      ensures items == old(items) - {key}
    {
      items := items - {key};
    }
  }
}
