/** The fragment of the JavaScript value model the food application depends on:
    dynamically typed values as they arrive in JSON, the nullish (??) and falsy (||)
    tests, the Number() and String() coercions, the JSON.stringify / JSON.parse
    round trip, and the outcome of one fetch call. */
module JsRuntime {
  import opened JsString

  datatype Option<T> = None | Some(value: T) {
    function GetOr(default: T): T {
      if Some? then value else default
    }
  }

  /** A JavaScript number; negative zero is not told apart from zero. */
  datatype JsNum = Finite(r: real) | NaN | PosInfinity | NegInfinity

  /** A JavaScript value of the kinds JSON carries, plus undefined, which also
      stands for a property that is not there. */
  datatype Json =
    | Undefined
    | Null
    | Bool(b: bool)
    | Num(n: JsNum)
    | Str(s: string)
    | Arr(elems: seq<Json>)
    | Obj(fields: map<string, Json>)

  /** Host algorithms the application calls whose workings are not modelled:
      numericLiteral parses a trimmed, non-empty string as a StrNumericLiteral
      (NaN when it is not one), numberToString is Number::toString, and parseUrl is
      the WHATWG URL parser, yielding the protocol of a URL it accepts. */
  datatype Host = Host(
    numericLiteral: string -> JsNum,
    numberToString: JsNum -> string,
    parseUrl: string -> Option<string>)

  /** null or undefined: the values ?? and ?. skip. */
  predicate Nullish(v: Json) {
    v.Undefined? || v.Null?
  }

  /** The values || skips: undefined, null, false, 0, NaN and "". */
  predicate Falsy(v: Json) {
    match v
    case Undefined => true
    case Null => true
    case Bool(b) => !b
    case Num(n) => n == Finite(0.0) || n == NaN
    case Str(s) => s == ""
    case Arr(_) => false
    case Obj(_) => false
  }

  /** a ?? b */
  function Coalesce(a: Json, b: Json): (r: Json)
    ensures !Nullish(a) ==> r == a
    ensures Nullish(a) ==> r == b
  {
    if Nullish(a) then b else a
  }

  /** a || b */
  function OrElse(a: Json, b: Json): (r: Json)
    ensures !Falsy(a) ==> r == a
    ensures Falsy(a) ==> r == b
  {
    if Falsy(a) then b else a
  }

  /** Reading the property k of v. Reading a property of null or undefined throws
      a TypeError, so v must be neither; a property that an object does not have,
      and every property of a primitive or an array that this application reads,
      is undefined. */
  function Member(v: Json, k: string): (r: Json)
    requires !Nullish(v)
  {
    if v.Obj? && k in v.fields then v.fields[k] else Undefined
  }

  /** ECMAScript StringToNumber: surrounding white space is ignored and an empty
      string is 0; the rest is a numeric literal the host parses. */
  function StringToNumber(s: string, host: Host): JsNum {
    var t := Trim(s);
    if t == "" then Finite(0.0) else host.numericLiteral(t)
  }

  /** String(v) for the values JSON carries. Arrays join their elements with commas,
      null and undefined elements giving the empty string. An object is taken to
      convert through Object.prototype.toString; one with its own toString member,
      for which JavaScript throws, is not told apart. */
  function ToStr(v: Json, host: Host): string
    decreases v, 1
  {
    match v
    case Undefined => "undefined"
    case Null => "null"
    case Bool(b) => if b then "true" else "false"
    case Num(n) => host.numberToString(n)
    case Str(s) => s
    case Arr(es) => JoinElems(es, host)
    case Obj(_) => "[object Object]"
  }

  /** Array.prototype.join(",") over the elements of an array. */
  function JoinElems(es: seq<Json>, host: Host): string
    decreases es, 0
  {
    if es == [] then ""
    else
      var first := if Nullish(es[0]) then "" else ToStr(es[0], host);
      if |es| == 1 then first else first + "," + JoinElems(es[1..], host)
  }

  /** Number(v) for the values JSON carries; an array or object is first turned
      into its string, as ToPrimitive does for these plain values. */
  function ToNumber(v: Json, host: Host): JsNum {
    match v
    case Undefined => NaN
    case Null => Finite(0.0)
    case Bool(b) => if b then Finite(1.0) else Finite(0.0)
    case Num(n) => n
    case Str(s) => StringToNumber(s, host)
    case Arr(_) => StringToNumber(ToStr(v, host), host)
    case Obj(_) => StringToNumber("[object Object]", host)
  }

  /** The value the receiving side parses from JSON.stringify(v): members whose
      value is undefined are dropped from objects, undefined array elements and
      non-finite numbers become null. */
  function Wire(v: Json): Json {
    match v
    case Undefined => Undefined
    case Null => Null
    case Bool(b) => Bool(b)
    case Num(n) => if n.Finite? then Num(n) else Null
    case Str(s) => Str(s)
    case Arr(es) => Arr(seq(|es|, i requires 0 <= i < |es| => if es[i].Undefined? then Null else Wire(es[i])))
    case Obj(m) => Obj(map k | k in m && !m[k].Undefined? :: Wire(m[k]))
  }

  /** A value that JSON could have produced: no undefined and no non-finite number anywhere. */
  predicate Serializable(v: Json) {
    match v
    case Undefined => false
    case Num(n) => n.Finite?
    case Arr(es) => forall i :: 0 <= i < |es| ==> Serializable(es[i])
    case Obj(m) => forall k :: k in m ==> Serializable(m[k])
    case _ => true
  }

  /** What arrives over JSON is serializable, and a serializable value crosses
      unchanged; so crossing twice is crossing once. */
  lemma {:induction false} WireSerializable(v: Json)
    requires !v.Undefined?
    ensures Serializable(Wire(v))
    ensures Serializable(v) ==> Wire(v) == v
  {
    match v
    case Arr(es) =>
      forall i | 0 <= i < |es| && !es[i].Undefined? ensures Serializable(Wire(es[i])) && (Serializable(es[i]) ==> Wire(es[i]) == es[i]) {
        WireSerializable(es[i]);
      }
      if Serializable(v) {
        forall i | 0 <= i < |es| ensures Wire(v).elems[i] == es[i] {
          assert Serializable(es[i]);
          assert !es[i].Undefined?;
        }
        assert Wire(v).elems == es;
      }
    case Obj(m) =>
      forall k | k in m && !m[k].Undefined? ensures Serializable(Wire(m[k])) && (Serializable(m[k]) ==> Wire(m[k]) == m[k]) {
        WireSerializable(m[k]);
      }
      if Serializable(v) {
        forall k | k in m ensures k in Wire(v).fields && Wire(v).fields[k] == m[k] {
          assert Serializable(m[k]);
          assert !m[k].Undefined?;
        }
        assert Wire(v).fields == m;
      }
    case _ =>
  }

  /** One fetch call: the method, the URL and the object handed to JSON.stringify as the body. */
  datatype Call = Call(verb: string, url: string, payload: Option<Json>)

  /** What one fetch call produced: it threw (network failure), or a response with
      its status and the value res.json() resolves to (None when that rejects). */
  datatype Outcome = Threw | Answered(status: int, body: Option<Json>)

  /** Response.ok */
  predicate IsOk(status: int) {
    200 <= status <= 299
  }
}
