/** A persisted generation record as the pages read it, and the JavaScript
    truthiness rules behind its favourite flag. */
module Records {
  import opened Wrappers

  /** A value the backend may store in a favourite field: absent (`undefined`
      or `null`), a number (`0`/`1` when written by the generator) or a
      boolean (when written by the history page). */
  datatype JsValue = Undefined | Num(n: int) | Bool(b: bool)

  /** JavaScript truthiness of a stored favourite value. */
  predicate Truthy(v: JsValue)
  {
    match v
    case Undefined => false
    case Num(n) => n != 0
    case Bool(b) => b
  }

  /** `a || b`: the first operand when it is truthy, otherwise the second. */
  function JsOr(a: JsValue, b: JsValue): JsValue
  {
    if Truthy(a) then a else b
  }

  /** `Number(v) > 0`; `Number(undefined)` is NaN, which is not above 0. */
  predicate NumberPositive(v: JsValue)
  {
    match v
    case Undefined => false
    case Num(n) => n > 0
    case Bool(b) => b
  }

  /** The calendar month a record was created in; `None` when the stored
      timestamp does not parse to a date. */
  datatype YearMonth = YearMonth(year: int, month: int)

  /** A generation record with the fields the pages touch. Fields stored
      under two spellings (snake_case as written, camelCase as typed) are kept
      apart because the pages read `a || b`; an absent string is "". */
  datatype Generation = Generation(
    id: string,
    gender: string,
    ethnicity: string,
    fashion_style: string,
    fashionStyle: string,
    background: string,
    custom_prompt: string,
    customPrompt: string,
    is_favorite: JsValue,
    isFavorite: JsValue,
    created: Option<YearMonth>)

  /** `Number(g.is_favorite || g.isFavorite) > 0`, the favourite test of both pages. */
  predicate IsFavorite(g: Generation)
  {
    NumberPositive(JsOr(g.is_favorite, g.isFavorite))
  }

  /** A record with both favourite fields set to the same boolean is a favourite exactly when that boolean is true. */
  lemma BothFieldsSet(g: Generation, b: bool)
    requires g.is_favorite == Bool(b) && g.isFavorite == Bool(b)
    ensures IsFavorite(g) == b
  {
  }

  /** The snake_case flag decides when it is truthy; only a falsy one (absent,
      0 or false) lets the camelCase flag decide. A favourite always has a
      truthy flag, and a negative number, though truthy, is no favourite. */
  lemma FavoriteFlagPrecedence(g: Generation)
    ensures Truthy(g.is_favorite) ==> (IsFavorite(g) <==> NumberPositive(g.is_favorite))
    ensures !Truthy(g.is_favorite) ==> (IsFavorite(g) <==> NumberPositive(g.isFavorite))
    ensures IsFavorite(g) ==> Truthy(g.is_favorite) || Truthy(g.isFavorite)
    ensures g.is_favorite.Num? && g.is_favorite.n < 0 ==> !IsFavorite(g)
  {
  }

  /** `a || b || ''` over two spellings of one string field. */
  function FirstNonEmpty(a: string, b: string): (r: string)
    ensures r == a || r == b
    ensures r == "" <==> a == "" && b == ""
    ensures a != "" ==> r == a
    ensures a == "" ==> r == b
  {
    if a != "" then a else b
  }

  datatype User = User(id: string)
}
