/**
 * The JavaScript values that reach the relay from parsed JSON and from the
 * settings file, with the coercions the source applies to them: truthiness
 * (`x || y`), `String(x)`, `Number(x)`, `x === true` and property reads.
 *
 * Number-to-text and text-to-number conversion (`String(1.5)`, `Number(" 8080 ")`)
 * are ECMAScript algorithms this model does not restate: they are passed in
 * as a `Conversions` record.
 */
module JsValues {
  import opened Results

  /** An IEEE double as JavaScript sees it; both zeros are `Finite(0.0)`. */
  datatype Number = NaN | PosInf | NegInf | Finite(r: real)

  /** A JavaScript value: arrays keep their elements, plain objects their own properties. */
  datatype Value =
    | Undefined
    | Null
    | Bool(b: bool)
    | Num(n: Number)
    | Str(s: string)
    | Arr(elements: seq<Value>)
    | Obj(fields: map<string, Value>)

  /** The ECMAScript string/number conversions, supplied by the host. */
  datatype Conversions = Conversions(parseNumber: string -> Number, showNumber: Number -> string)

  /** ToBoolean: what `if (v)` and `v || w` test. */
  predicate Truthy(v: Value) {
    match v
    case Undefined => false
    case Null => false
    case Bool(b) => b
    case Num(n) => n != NaN && n != Finite(0.0)
    case Str(s) => s != ""
    case Arr(_) => true
    case Obj(_) => true
  }

  /** `v || w`. */
  function OrElse(v: Value, w: Value): (r: Value)
    ensures Truthy(v) ==> r == v
    ensures !Truthy(v) ==> r == w
  {
    if Truthy(v) then v else w
  }

  /** The TypeError `String(v)` and `Number(v)` throw when `v` yields no primitive. */
  const ConversionError := "Cannot convert object to primitive value"

  /**
   * `String(v)`. A plain object parsed from JSON holds no function, so when
   * it has an own `toString` property that hides the inherited method, and
   * the inherited `valueOf` returns the object itself: the conversion throws.
   * An array converts as its elements joined with commas, `null` and
   * `undefined` elements as empty text; it throws when an element does.
   */
  function ToText(conv: Conversions, v: Value): (r: Result<string>)
    decreases v, 0
    ensures r.Err? ==> r.message == ConversionError
    ensures v.Obj? ==> (r.Err? <==> "toString" in v.fields)
    ensures v.Obj? && r.Ok? ==> r.value == "[object Object]"
    ensures v.Str? ==> r == Ok(v.s)
    ensures !v.Obj? && !v.Arr? ==> r.Ok?
  {
    match v
    case Undefined => Ok("undefined")
    case Null => Ok("null")
    case Bool(b) => Ok(if b then "true" else "false")
    case Num(n) => Ok(conv.showNumber(n))
    case Str(s) => Ok(s)
    case Arr(xs) => JoinTexts(seq(|xs|, i requires 0 <= i < |xs| => ElementText(conv, xs[i])))
    case Obj(f) => if "toString" in f then Err(ConversionError) else Ok("[object Object]")
  }

  /** How an array element shows inside `String(array)`. */
  function ElementText(conv: Conversions, v: Value): (r: Result<string>)
    decreases v, 1
    ensures r.Err? ==> r.message == ConversionError
  {
    if v == Null || v == Undefined then Ok("") else ToText(conv, v)
  }

  /** `Array.prototype.join(',')` over converted elements: the first failure wins. */
  function JoinTexts(rs: seq<Result<string>>): (r: Result<string>)
    ensures r.Err? <==> exists i :: 0 <= i < |rs| && rs[i].Err?
    ensures r.Err? ==> exists i :: 0 <= i < |rs| && rs[i] == r
  {
    if rs == [] then Ok("")
    else match rs[0]
      case Err(m) => Err(m)
      case Ok(t) =>
        if |rs| == 1 then Ok(t)
        else match JoinTexts(rs[1..])
          case Err(m) => Err(m)
          case Ok(rest) => Ok(t + "," + rest)
  }

  /** `String(v || '')`, the idiom every string input of the relay goes through. */
  function TextOrEmpty(conv: Conversions, v: Value): (r: Result<string>)
    ensures !Truthy(v) ==> r == Ok("")
    ensures Truthy(v) ==> r == ToText(conv, v)
    ensures v.Str? ==> r == Ok(v.s)
  {
    ToText(conv, OrElse(v, Str("")))
  }

  /**
   * `Number(v)`. A plain object gives NaN unless it hides `toString`, when
   * it throws; an array converts through its text.
   */
  function ToNumber(conv: Conversions, v: Value): (r: Result<Number>)
    ensures r.Err? <==> ToText(conv, v).Err?
    ensures r.Err? ==> r.message == ConversionError
    ensures v.Num? ==> r == Ok(v.n)
  {
    match v
    case Undefined => Ok(NaN)
    case Null => Ok(Finite(0.0))
    case Bool(b) => Ok(if b then Finite(1.0) else Finite(0.0))
    case Num(n) => Ok(n)
    case Str(s) => Ok(conv.parseNumber(s))
    case Arr(_) =>
      (match ToText(conv, v)
       case Err(m) => Err(m)
       case Ok(t) => Ok(conv.parseNumber(t)))
    case Obj(f) => if "toString" in f then Err(ConversionError) else Ok(NaN)
  }

  /** `v === true`. */
  predicate IsTrue(v: Value) {
    v == Bool(true)
  }

  /**
   * `v.key` on a value that is not `null` or `undefined`: an own property of a
   * plain object, `undefined` for everything else. The keys the relay reads
   * are never inherited members of the built-in prototypes.
   */
  function Member(v: Value, key: string): Value {
    if v.Obj? && key in v.fields then v.fields[key] else Undefined
  }

  /** `v.key`, which throws a TypeError when `v` is `null` or `undefined`. */
  function ReadProperty(v: Value, key: string): (r: Result<Value>)
    ensures r.Err? <==> v == Null || v == Undefined
    ensures r.Ok? ==> r.value == Member(v, key)
  {
    if v == Null || v == Undefined then
      Err("Cannot read properties of " + (if v == Null then "null" else "undefined") + " (reading '" + key + "')")
    else Ok(Member(v, key))
  }
}
