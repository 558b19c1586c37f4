/** JavaScript's optional, nullable values and the `??` operator they are read with. */
module JsValues {

  /** A parameter or property that may be left out (`undefined`), be `null`, or hold a value. */
  datatype Optional<T> = Undefined | Null | Given(value: T)

  /** `a ?? fallback`: the fallback replaces `undefined` and `null` and nothing else,
      so a given `false`, `0` or `""` is kept. */
  function Coalesce<T>(a: Optional<T>, fallback: T): T
  {
    match a
    case Given(v) => v
    case _ => fallback
  }

  /** `a ?? null`: `undefined` becomes `null`; `null` and a given value stay as they are. */
  function CoalesceNull<T>(a: Optional<T>): Optional<T>
  {
    if a.Given? then a else Null
  }
}
