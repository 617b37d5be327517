/** JavaScript's `undefined` for a parameter or an option the caller left
    out, and the default-value substitution that replaces it. */
module Defaults {

  datatype Undefinable<T> = Undefined | Defined(value: T) {

    /** What a default parameter `x = fallback` binds: the argument when
        one was passed, `fallback` when it was `undefined`. */
    function Or(fallback: T): T {
      if Defined? then value else fallback
    }
  }
}
