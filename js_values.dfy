/**
 * The two shapes of loosely-typed JavaScript data that the campaign store guards
 * against: a value that may be null or undefined (read with `??`), and a value that
 * is used only when `Array.isArray` holds of it.
 */
module JsValues {

  /** A value that may be absent (null or undefined in JavaScript). */
  datatype Option<+T> = None | Some(value: T) {

    /** The `??` operator: the value when present, otherwise the fallback. */
    function GetOr(fallback: T): T {
      match this
      case Some(v) => v
      case None => fallback
    }
  }

  /**
   * A persisted or agent-supplied value that the code only uses as a list when it is
   * an array; `NotArray` stands for every other JSON value (absent, null, an object,
   * a string, a number).
   */
  datatype MaybeList<+T> = Arr(items: seq<T>) | NotArray {

    /** `Array.isArray(v) ? v : []` */
    function AsList(): seq<T> {
      match this
      case Arr(xs) => xs
      case NotArray => []
    }
  }
}
