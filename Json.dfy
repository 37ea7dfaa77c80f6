/** JSON values as JavaScript holds them once `JSON.parse` has read them, the
    property lookup the runtime performs on them, and the string conversion
    JavaScript's `Error` constructor applies to its argument. */
module Json {
  import opened Wrappers

  /** A parsed JSON value. Numbers are modelled as integers: no operation of the
      runtime computes with them, they only pass through or are printed. */
  datatype Json =
    | Null
    | Bool(b: bool)
    | Num(n: int)
    | Str(s: string)
    | Arr(items: seq<Json>)
    | Obj(members: seq<Member>)

  /** One `key: value` pair of an object, in the order the object lists them. */
  datatype Member = Member(key: string, value: Json)

  /** The value of property `key` among `members`; when a key is repeated the
      last occurrence wins, as it does for `JSON.parse`. */
  function Get(members: seq<Member>, key: string): (r: Option<Json>)
    ensures r.None? <==> forall i :: 0 <= i < |members| ==> members[i].key != key
    ensures r.Some? ==> exists i :: 0 <= i < |members| && members[i] == Member(key, r.value)
                                    && forall k :: i < k < |members| ==> members[k].key != key
  {
    if |members| == 0 then None
    else if members[|members| - 1].key == key then Some(members[|members| - 1].value)
    else Get(members[..|members| - 1], key)
  }

  /** Property access `json.key` on a value that is not `null`: only objects have
      the properties the runtime reads, every other value yields `undefined`. */
  function Property(j: Json, key: string): (r: Option<Json>)
    ensures r.Some? ==> j.Obj?
  {
    if j.Obj? then Get(j.members, key) else None
  }

  /** The decimal digits of a natural number. */
  function Digits(n: nat): (r: string)
    ensures |r| > 0 && forall i :: 0 <= i < |r| ==> '0' <= r[i] <= '9'
  {
    if n < 10 then [('0' as int + n) as char]
    else Digits(n / 10) + [('0' as int + n % 10) as char]
  }

  /** `String(v)` for a parsed JSON value, `None` where it throws a TypeError.
      An array joins its elements with "," (null elements become empty); an
      object prints as "[object Object]" unless it has an own "toString"
      property: a parsed value is never callable, so the conversion falls back
      to `valueOf`, which returns the object itself, and gives up. */
  function JsString(j: Json): (r: Option<string>)
    ensures r.Some? <==> Printable(j)
    ensures j.Str? ==> r == Some(j.s)
    ensures j.Obj? && r.Some? ==> r.value == "[object Object]"
  {
    match j
    case Null => Some("null")
    case Bool(b) => Some(if b then "true" else "false")
    case Num(n) => Some(if n < 0 then "-" + Digits(-n) else Digits(n))
    case Str(s) => Some(s)
    case Arr(items) =>
      var parts := seq(|items|, i requires 0 <= i < |items| => if items[i].Null? then Some("") else JsString(items[i]));
      assert forall i :: 0 <= i < |items| ==> (parts[i].Some? <==> Printable(items[i]));
      if forall i :: 0 <= i < |items| ==> parts[i].Some? then
        Some(Join(seq(|items|, i requires 0 <= i < |items| => if parts[i].Some? then parts[i].value else "")))
      else None
    case Obj(members) =>
      if forall i :: 0 <= i < |members| ==> members[i].key != "toString" then Some("[object Object]") else None
  }

  /** `String(v)` succeeds: no object reachable through arrays has an own
      "toString" property. */
  predicate Printable(j: Json)
    decreases j
  {
    match j
    case Arr(items) => forall i :: 0 <= i < |items| ==> Printable(items[i])
    case Obj(members) => forall i :: 0 <= i < |members| ==> members[i].key != "toString"
    case _ => true
  }

  /** The strings of `parts`, separated by commas. */
  function Join(parts: seq<string>): string
  {
    if |parts| == 0 then ""
    else if |parts| == 1 then parts[0]
    else Join(parts[..|parts| - 1]) + "," + parts[|parts| - 1]
  }
}
