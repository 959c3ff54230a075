/** The JSON values a request body carries for one feature, as the Python
    server sees them after decoding: `None`, an `int`, a `float` or a `str`.

    A `float` keeps, beside its exact value, the text Python's `str` gives for
    it (e.g. "3.0"); that text is only used where a raw value is interpolated
    into a string. */
module Json {
  import Strings

  datatype Value =
    | Null
    | Int(i: int)
    | Float(x: real, text: string)
    | Str(s: string)
  {
    /** Whether Python can compare the value with a number. */
    predicate IsNumber() {
      Int? || Float?
    }

    /** The numeric value of an `int` or a `float`. */
    function Num(): real
      requires IsNumber()
    {
      if Int? then i as real else x
    }
  }

  /** Python's `str(v)`, as an f-string interpolates it. */
  function Render(v: Value): (s: string)
    ensures v.Int? ==> s == Strings.IntToString(v.i)
  {
    match v
    case Null => "None"
    case Int(i) => Strings.IntToString(i)
    case Float(_, text) => text
    case Str(s) => s
  }
}
