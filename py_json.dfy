/** Python values as the daemon sees them: decoded JSON (json.loads keeps
    int and float apart), exact decimal numbers, Python floats with their
    non-finite values, exceptions, and the dict.get lookups the parser chains. */
module PyJson {
  import opened Text

  function Pow10(n: nat): (r: nat)
    ensures r >= 1
  {
    if n == 0 then 1 else 10 * Pow10(n - 1)
  }

  /** The number mantissa / 10^exp: a JSON number literal read exactly. */
  datatype Decimal = Decimal(mantissa: int, exp: nat)

  /** A Python float: finite values kept exact, plus inf, -inf and nan, which
      float() accepts from text. */
  datatype PyFloat = Finite(d: Decimal) | PosInf | NegInf | NaN

  /** Python's chained comparison lo <= x <= hi for integer bounds: false for
      nan, and for an infinity outside the bounds. */
  predicate FloatBetween(x: PyFloat, lo: int, hi: int)
  {
    match x
    case Finite(d) => lo * Pow10(d.exp) <= d.mantissa <= hi * Pow10(d.exp)
    case PosInf => false
    case NegInf => false
    case NaN => false
  }

  /** The same decimal with trailing zero digits of the fraction dropped. */
  function Normalize(d: Decimal): (n: Decimal)
    ensures n.exp <= d.exp
    ensures n.mantissa * Pow10(d.exp - n.exp) == d.mantissa
    ensures n.exp == 0 || n.mantissa % 10 != 0
    decreases d.exp
  {
    if d.exp > 0 && d.mantissa % 10 == 0 then Normalize(Decimal(d.mantissa / 10, d.exp - 1)) else d
  }

  /** Left-pads a digit string with zeros to the given width. */
  function ZeroPad(s: string, width: nat): (r: string)
    ensures |r| == if |s| < width then width else |s|
    ensures |s| < width ==> r == seq(width - |s|, _ => '0') + s
    ensures |s| >= width ==> r == s
    decreases width - |s|
  {
    if |s| < width then
      assert seq(width - |s|, _ => '0') == seq(width - |s| - 1, _ => '0') + "0";
      ZeroPad("0" + s, width)
    else s
  }

  /** repr() of a finite float written in positional notation: the shortest
      decimal text, with ".0" after an integral value. */
  function DecimalRepr(d: Decimal): string
  {
    var n := Normalize(d);
    if n.exp == 0 then IntToString(n.mantissa) + ".0"
    else if n.mantissa < 0 then "-" + PositionalDigits(-n.mantissa, n.exp)
    else PositionalDigits(n.mantissa, n.exp)
  }

  /** The digits of a / 10^e with the point placed before the last e digits. */
  function PositionalDigits(a: nat, e: nat): string
  {
    var p := Pow10(e);
    var whole: nat := DivNat(a, p);
    NatToString(whole) + "." + ZeroPad(NatToString(a % p), e)
  }

  /** a / p for a positive divisor, known to be a natural number. */
  function DivNat(a: nat, p: nat): (q: nat)
    requires p >= 1
    ensures q == a / p
  {
    var q := a / p;
    assert q * p <= a;
    q
  }

  /** str() of a Python float, as an f-string interpolates it. */
  function FloatRepr(x: PyFloat): string
  {
    match x
    case Finite(d) => DecimalRepr(d)
    case PosInf => "inf"
    case NegInf => "-inf"
    case NaN => "nan"
  }

  /** A decoded JSON value. JTime is never produced by json.loads: it stands
      for a datetime that the response builders render with isoformat(). */
  datatype Json =
    | JNull
    | JBool(b: bool)
    | JInt(i: int)
    | JFloat(d: Decimal)
    | JStr(s: string)
    | JArr(items: seq<Json>)
    | JObj(fields: map<string, Json>)
    | JTime(micros: int)

  /** The Python type name a value has, as exception messages spell it. */
  function TypeName(j: Json): string
  {
    match j
    case JNull => "NoneType"
    case JBool(_) => "bool"
    case JInt(_) => "int"
    case JFloat(_) => "float"
    case JStr(_) => "str"
    case JArr(_) => "list"
    case JObj(_) => "dict"
    case JTime(_) => "datetime"
  }

  /** A raised Python exception: its class and str(e). */
  datatype PyException = PyException(kind: string, message: string)

  function AttributeError(j: Json, attr: string): PyException
  {
    PyException("AttributeError", "'" + TypeName(j) + "' object has no attribute '" + attr + "'")
  }

  function TypeError(message: string): PyException
  {
    PyException("TypeError", message)
  }

  /** A value that may be None. */
  datatype Option<+T> = None | Some(value: T)

  /** The outcome of Python code that may raise. */
  datatype Result<+T> = Ok(value: T) | Err(error: PyException) {
    predicate IsFailure() { Err? }
    function PropagateFailure<U>(): Result<U>
      requires Err?
    {
      Err(error)
    }
    function Extract(): T
      requires Ok?
    {
      value
    }
  }

  /** obj.get(key, default): only a dict has .get; anything else raises
      AttributeError. A key bound to null yields null, not the default. */
  function Get(obj: Json, key: string, default: Json): (r: Result<Json>)
    ensures r.Ok? <==> obj.JObj?
    ensures r.Ok? && key in obj.fields ==> r.value == obj.fields[key]
    ensures r.Ok? && key !in obj.fields ==> r.value == default
  {
    match obj
    case JObj(fields) => Ok(if key in fields then fields[key] else default)
    case _ => Err(AttributeError(obj, "get"))
  }

  /** dict.get on a value already known to be a dict: it cannot raise. */
  function Lookup(obj: Json, key: string, default: Json): (v: Json)
    requires obj.JObj?
    ensures Get(obj, key, default) == Ok(v)
  {
    if key in obj.fields then obj.fields[key] else default
  }

  /** The empty dict literal {} the parser passes as a default. */
  const Empty: Json := JObj(map[])
}
