/** The JavaScript values a request payload can hold once Express has parsed
    its JSON body, and the few JavaScript operations the controllers apply to
    them: truthiness, member access, `.length`, `Number.isInteger` and the
    string rendering a template literal performs. */
module Json {
  import opened Wrappers

  /** A parsed JSON value, plus `undefined` for a member that is not there.
      JSON numbers are split by `Number.isInteger`: an integral number is an
      `Int`; any other (finite) number is a `NonIntNum`, kept only as the text
      JavaScript renders it with. */
  datatype Value =
    | Absent
    | Null
    | Bool(b: bool)
    | Int(n: int)
    | NonIntNum(text: string)
    | Str(s: string)
    | Arr(items: seq<Value>)
    | Obj(members: map<string, Value>)

  /** JavaScript truthiness. A non-integral number is never zero (and JSON has
      no NaN), so it is truthy. */
  predicate Truthy(v: Value) {
    match v
    case Absent => false
    case Null => false
    case Bool(b) => b
    case Int(n) => n != 0
    case NonIntNum(_) => true
    case Str(s) => s != ""
    case Arr(_) => true
    case Obj(_) => true
  }

  /** `v[p]` for a value that can be read from: an object's own member, and
      `undefined` for a primitive or an array. The member names the
      controllers read (`deliverTo`, `quantity`, `id`, `price`, ...) are
      neither own nor inherited members of strings, numbers, booleans or
      arrays. */
  function Member(v: Value, p: string): Value {
    if v.Obj? && p in v.members then v.members[p] else Absent
  }

  /** `v[p]` in full: reading a member of `undefined` or `null` throws a
      TypeError, which is `None` here. */
  function Prop(v: Value, p: string): (r: Option<Value>)
    ensures r.None? <==> v == Absent || v == Null
    ensures r.Some? ==> r.value == Member(v, p)
  {
    if v.Absent? || v.Null? then None else Some(Member(v, p))
  }

  /** `const {data = {}} = req.body` followed by `data[p]`: the default
      replaces a missing `data`, not a `null` one. */
  function BodyField(data: Value, p: string): (r: Option<Value>)
    ensures r.None? <==> data == Null
    ensures r.Some? ==> r.value == Member(data, p)
  {
    Prop(if data.Absent? then Obj(map[]) else data, p)
  }

  /** `v.length` where it is a number: strings and arrays. Every other value
      (an object included, see the README) yields `undefined`. */
  function Length(v: Value): Option<nat> {
    match v
    case Str(s) => Some(|s|)
    case Arr(a) => Some(|a|)
    case _ => None
  }

  /** `v && v.length > 0`; `undefined > 0` is false. */
  predicate HasLength(v: Value) {
    Truthy(v) && Length(v).Some? && Length(v).value > 0
  }

  /** A non-empty string or a non-empty array: what `HasLength` comes to. */
  predicate NonEmpty(v: Value) {
    (v.Str? && v.s != "") || (v.Arr? && v.items != [])
  }

  /** `!v || v <= 0 || !Number.isInteger(v)`. The comparison `v <= 0` decides
      nothing for a value that is not an integral number, since the last test
      already holds for it, so it is written for integers only. */
  predicate NotPositiveInteger(v: Value) {
    !Truthy(v) || (v.Int? && v.n <= 0) || !v.Int?
  }

  /** The decimal digits of `n`, as `${n}` renders a non-negative integer. */
  function NatToString(n: nat): (s: string)
    ensures |s| >= 1
    ensures forall k :: 0 <= k < |s| ==> '0' <= s[k] <= '9'
    ensures |s| > 1 ==> s[0] != '0'
  {
    if n < 10 then ["0123456789"[n]]
    else NatToString(n / 10) + ["0123456789"[n % 10]]
  }

  /** The number a string of decimal digits denotes. */
  function DigitsValue(s: string): nat
    requires forall k :: 0 <= k < |s| ==> '0' <= s[k] <= '9'
  {
    if s == [] then 0
    else DigitsValue(s[..|s| - 1]) * 10 + (s[|s| - 1] as int - '0' as int)
  }

  /** The digits `NatToString` renders denote the number itself. */
  lemma {:induction false} NatToStringValue(n: nat)
    ensures DigitsValue(NatToString(n)) == n
  {
    var s := NatToString(n);
    if n < 10 {
      assert s[..0] == [];
    } else {
      var d := n % 10;
      assert s == NatToString(n / 10) + ["0123456789"[d]];
      assert s[..|s| - 1] == NatToString(n / 10);
      assert "0123456789"[d] as int - '0' as int == d;
      NatToStringValue(n / 10);
    }
  }

  /** How a template literal `${v}` renders a value. */
  function Display(v: Value): string
    decreases v, 1
  {
    match v
    case Absent => "undefined"
    case Null => "null"
    case Bool(b) => if b then "true" else "false"
    case Int(n) => if n < 0 then "-" + NatToString(-n) else NatToString(n)
    case NonIntNum(t) => t
    case Str(s) => s
    case Arr(a) => Join(a)
    case Obj(_) => "[object Object]"
  }

  /** `Array.prototype.join(",")`, which renders `null` and `undefined`
      elements as empty strings. */
  function Join(a: seq<Value>): string
    decreases a, 0
  {
    if a == [] then ""
    else
      var first := if a[0].Absent? || a[0].Null? then "" else Display(a[0]);
      if |a| == 1 then first else first + "," + Join(a[1..])
  }
}
