/** The JavaScript values a feed record's numeric properties can hold, and how
    JavaScript's relational operators treat them. A property is a number,
    JSON `null`, or missing (`undefined`). `null` converts to the number 0;
    `undefined` converts to NaN, which compares false against everything. */
module JsValues {

  datatype Option<T> = None | Some(value: T)

  /** A numeric property as read from `eq.properties`. */
  datatype JsNum<T> = Num(value: T) | Null | Undefined

  /** `properties.mag`: a real magnitude, `null` or missing. */
  type Magnitude = JsNum<real>

  /** `properties.time`: epoch milliseconds, `null` or missing. */
  type Stamp = JsNum<int>

  /** JavaScript's ToNumber on a magnitude; `None` stands for NaN. */
  function MagnitudeNumber(m: Magnitude): Option<real>
  {
    match m
    case Num(x) => Some(x)
    case Null => Some(0.0)
    case Undefined => None
  }

  /** JavaScript's ToNumber on a timestamp; `None` stands for NaN. */
  function StampNumber(t: Stamp): Option<int>
  {
    match t
    case Num(x) => Some(x)
    case Null => Some(0)
    case Undefined => None
  }

  /** `m >= t` in JavaScript. */
  predicate AtLeast(m: Magnitude, t: real)
  {
    match MagnitudeNumber(m)
    case Some(x) => x >= t
    case None => false
  }

  /** `m < t` in JavaScript. */
  predicate Below(m: Magnitude, t: real)
  {
    match MagnitudeNumber(m)
    case Some(x) => x < t
    case None => false
  }

  /** `m >= t` and `m < t` are complementary on every magnitude except a
      missing one, which fails both; `null` behaves exactly as 0. */
  lemma ComparisonCoercion(m: Magnitude, t: real)
    ensures m.Undefined? ==> !AtLeast(m, t) && !Below(m, t)
    ensures !m.Undefined? ==> (AtLeast(m, t) <==> !Below(m, t))
    ensures m.Null? ==> (AtLeast(m, t) <==> 0.0 >= t) && (Below(m, t) <==> 0.0 < t)
  {
  }
}
