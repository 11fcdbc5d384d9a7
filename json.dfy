/**
 * The values a parsed JSON request body can hold, and the few JavaScript
 * operations the route handlers apply to them: truthiness, `a || b`,
 * `typeof` tests (as constructor tests) and `String(v)`.
 */
module Json {

  /** A JavaScript value taken from a request body. `Undefined` is what reading a
      missing key gives. Numbers are integers (see the README). */
  datatype Value =
    | Undefined
    | Null
    | Bool(b: bool)
    | Num(n: int)
    | Str(s: string)
    | Arr(items: seq<Value>)
    | Obj

  /** JavaScript truthiness: `undefined`, `null`, `false`, `0` and `""` are falsy. */
  predicate Truthy(v: Value) {
    match v
    case Undefined => false
    case Null => false
    case Bool(b) => b
    case Num(n) => n != 0
    case Str(s) => s != ""
    case Arr(_) => true
    case Obj => true
  }

  /** The five falsy values, listed. */
  lemma {:induction false} FalsyValues(v: Value)
    ensures !Truthy(v) <==> v == Undefined || v == Null || v == Bool(false) || v == Num(0) || v == Str("")
  {
  }

  /** `a || b`: the first operand when it is truthy, otherwise the second. */
  function Or(a: Value, b: Value): (r: Value)
    ensures Truthy(a) ==> r == a
    ensures !Truthy(a) ==> r == b
    ensures Truthy(r) <==> Truthy(a) || Truthy(b)
  {
    if Truthy(a) then a else b
  }

  /** The decimal digits of a natural number. */
  function NaturalText(n: nat): (r: string)
    ensures |r| > 0
    ensures forall k :: 0 <= k < |r| ==> '0' <= r[k] <= '9'
    decreases n
  {
    var digit := ['0' + (n % 10) as char];
    if n < 10 then digit else NaturalText(n / 10) + digit
  }

  /** `String(n)` for an integer. */
  function DecimalText(n: int): string {
    if n < 0 then "-" + NaturalText(-n) else NaturalText(n)
  }

  /** The elements joined with commas, as `Array.prototype.join` does. */
  function JoinWithCommas(parts: seq<string>): string
    decreases |parts|
  {
    if |parts| == 0 then ""
    else if |parts| == 1 then parts[0]
    else JoinWithCommas(parts[..|parts| - 1]) + "," + parts[|parts| - 1]
  }

  /** `String(v)`. An array prints its elements joined with commas, `null` and
      `undefined` elements as empty strings. */
  function ToText(v: Value): (r: string)
    ensures v.Str? ==> r == v.s
    ensures !v.Str? && !v.Arr? ==> r != ""
    decreases v
  {
    match v
    case Undefined => "undefined"
    case Null => "null"
    case Bool(b) => if b then "true" else "false"
    case Num(n) => DecimalText(n)
    case Str(s) => s
    case Arr(items) =>
      JoinWithCommas(seq(|items|, i requires 0 <= i < |items| =>
        if items[i].Null? || items[i].Undefined? then "" else ToText(items[i])))
    case Obj => "[object Object]"
  }

  /** A few values and what `String` makes of them: an empty array prints as
      the empty string although it is truthy. */
  lemma {:induction false} ToTextExamples()
    ensures Truthy(Arr([])) && ToText(Arr([])) == ""
    ensures ToText(Arr([Num(1), Num(2)])) == "1,2"
    ensures ToText(Arr([Null, Str("a")])) == ",a"
    ensures ToText(Num(-12)) == "-12"
    ensures ToText(Obj) == "[object Object]"
  {
    var p := ["1", "2"];
    assert p[..1] == ["1"];
    assert JoinWithCommas(p) == "1,2";
    var q := ["", "a"];
    assert q[..1] == [""];
    assert JoinWithCommas(q) == ",a";
    assert NaturalText(12) == NaturalText(1) + ['2'];
    assert ToText(Num(1)) == "1" && ToText(Num(2)) == "2";
    var items := [Num(1), Num(2)];
    var parts := seq(|items|, i requires 0 <= i < |items| =>
      if items[i].Null? || items[i].Undefined? then "" else ToText(items[i]));
    assert parts == p;
    var items2 := [Null, Str("a")];
    var parts2 := seq(|items2|, i requires 0 <= i < |items2| =>
      if items2[i].Null? || items2[i].Undefined? then "" else ToText(items2[i]));
    assert parts2 == q;
  }

  /** A request body (`req.body || {}`): field names to values. */
  type Body = map<string, Value>

  /** `body[key]`, which is `undefined` for a key the body does not have. */
  function Field(body: Body, key: string): Value {
    if key in body then body[key] else Undefined
  }
}
