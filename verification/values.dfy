/**
 * The Python values the tag handles: what a template variable resolves to, the
 * exceptions the tag raises, and the variable lookup it delegates to the
 * template engine.
 */
module Values {
  import opened Wrappers
  import opened Decimal

  /** One row of a database query set; the tag reads only its `url` attribute. */
  datatype Item = Item(url: string)

  /**
   * A value bound in a render context. `List` is a Python list of dictionaries,
   * `QuerySet` a database query set, `Other` any object the tag does not inspect
   * (carrying the text `str()` gives it), and `Unresolved` the template variable
   * object itself, kept when it cannot be resolved; its text is its reference.
   */
  datatype Value =
    | Str(s: string)
    | Int(n: int)
    | List(items: seq<map<string, string>>)
    | QuerySet(rows: seq<Item>)
    | Other(text: string)
    | Unresolved(ref: string)

  /** The exceptions that leave the tag. */
  datatype Error =
    | TemplateSyntaxError(message: string)
    | IndexError
    | KeyError
    | TypeError

  /**
   * The template engine's variable resolution: the value a reference denotes in
   * the given bindings, or `None` where the engine raises.
   */
  type Resolver = (string, map<string, Value>) -> Option<Value>

  /**
   * The text `%s` formatting gives a value; Python's `repr` of a list or a query
   * set is foreign and is supplied as `reprOf`.
   */
  function Text(v: Value, reprOf: Value -> string): (s: string)
    ensures v.Str? ==> s == v.s
    ensures v.Int? ==> s == IntText(v.n) && (v.n >= 0 ==> AllDigits(s) && DigitsValue(s) == v.n)
    ensures v.Other? ==> s == v.text
    ensures v.Unresolved? ==> s == v.ref
    ensures v.List? || v.QuerySet? ==> s == reprOf(v)
  {
    match v
    case Str(s) => s
    case Int(n) => IntText(n)
    case Other(text) => text
    case Unresolved(ref) => ref
    case _ => reprOf(v)
  }
}
