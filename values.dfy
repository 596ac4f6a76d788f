/** The Python values that flow through the client: the decoded JSON of a
    catalog record, Python's notion of truthiness, `dict.get`, the text an
    f-string gives a value, and the exceptions the client lets escape. */
module Values {
  import opened Text

  /** A Python float: a finite number, an infinity, or not-a-number. */
  datatype Double = Finite(x: real) | Infinity(negative: bool) | NaN

  /** A Python value as decoded from JSON; `Null` is Python's `None`. */
  datatype Value =
    | Null
    | Bool(b: bool)
    | Int(i: int)
    | Float(f: Double)
    | Str(s: string)
    | List(items: seq<Value>)
    | Dict(entries: map<string, Value>)

  /** A catalog record: a dict from string keys to values. */
  type Record = map<string, Value>

  /** The exceptions that escape from the operations of the client. */
  datatype Error =
    | KeyError(key: string)
    | AttributeError(attribute: string)
    | OverflowError

  /** A result, or the exception that ended the call. */
  datatype Result<T> = Ok(value: T) | Err(error: Error)

  /** An optional configuration value (`Optional[str]`). */
  datatype Option<T> = None | Some(value: T)

  /** `bool(v)`: None, False, zero, the empty string and empty containers are
      false; everything else is true, NaN included. */
  predicate Truthy(v: Value)
  {
    match v
    case Null => false
    case Bool(b) => b
    case Int(i) => i != 0
    case Float(f) => !(f.Finite? && f.x == 0.0)
    case Str(s) => s != ""
    case List(items) => items != []
    case Dict(entries) => entries != map[]
  }

  /** `bool(o)` for an `Optional[str]`: set and not empty. */
  predicate TruthyText(o: Option<string>)
  {
    o.Some? && o.value != ""
  }

  /** `m.get(key, default)`. */
  function Get(m: Record, key: string, default: Value): Value
  {
    if key in m then m[key] else default
  }

  /** `f"{v}"` for the values a record's `name` can hold. */
  function FormatValue(v: Value): string
  {
    match v
    case Null => "None"
    case Bool(b) => if b then "True" else "False"
    case Int(i) => if i < 0 then "-" + Decimal(-i) else Decimal(i)
    case Float(_) => "<float>"
    case Str(s) => s
    case List(_) => "<list>"
    case Dict(_) => "<dict>"
  }

  /** A string is rendered as itself, an integer as a numeral without leading
      zeros that reads back as the same integer, a flag as `True` or `False`. */
  lemma FormatValueReadsBack(v: Value)
    ensures v.Str? ==> FormatValue(v) == v.s
    ensures v.Bool? ==> FormatValue(v) == (if v.b then "True" else "False")
    ensures v.Int? && v.i >= 0 ==> var t := FormatValue(v);
      |t| >= 1 && AllDigits(t) && ParseDecimal(t) == v.i && (t[0] != '0' || t == "0")
    ensures v.Int? && v.i < 0 ==> var t := FormatValue(v);
      |t| >= 2 && t[0] == '-' && AllDigits(t[1..]) && ParseDecimal(t[1..]) == -v.i && t[1] != '0'
  {
    if v.Int? {
      if v.i < 0 {
        DecimalRoundTrip(-v.i);
        assert FormatValue(v)[1..] == Decimal(-v.i);
      } else {
        DecimalRoundTrip(v.i);
      }
    }
  }
}
