/**
 * The JSON values and user records that the plugins exchange with the host
 * application, and Python's notion of truthiness on them.
 */
module Values {

  /** A JSON document. Numbers are integers; objects are unordered. */
  datatype Json =
    | JNull
    | JBool(b: bool)
    | JNum(n: int)
    | JStr(s: string)
    | JArr(items: seq<Json>)
    | JObj(fields: map<string, Json>)

  /** Python's `bool(x)` on a decoded JSON value. */
  predicate Truthy(j: Json) {
    match j
    case JNull => false
    case JBool(b) => b
    case JNum(n) => n != 0
    case JStr(s) => s != ""
    case JArr(a) => |a| > 0
    case JObj(m) => |m| > 0
  }

  /**
   * The `__user__` dict the host passes to a plugin (`None` when absent),
   * with each value already rendered by `str`.
   */
  type UserRecord = map<string, string>

  /** `user.get(key, "")` on a present user. */
  function UserField(user: UserRecord, key: string): string {
    if key in user then user[key] else ""
  }

  /** `s.startswith(prefix)`. */
  predicate StartsWith<T(==)>(s: seq<T>, prefix: seq<T>) {
    |prefix| <= |s| && s[..|prefix|] == prefix
  }

  /** `needle in haystack` for strings. */
  predicate Contains(haystack: string, needle: string)
    decreases |haystack|
  {
    StartsWith(haystack, needle) || (haystack != [] && Contains(haystack[1..], needle))
  }

  /** The decimal rendering of a natural number, as an f-string prints it. */
  function Decimal(n: nat): (r: string)
    ensures |r| >= 1
    ensures forall i :: 0 <= i < |r| ==> '0' <= r[i] <= '9'
  {
    if n < 10 then [Digit(n)] else Decimal(n / 10) + [Digit(n % 10)]
  }

  function Digit(d: nat): (c: char)
    requires d < 10
  {
    "0123456789"[d]
  }
}
