/** A value that may be absent: the model's stand-in for a JavaScript
    argument or property that may be `undefined`. */
module Optional {

  datatype Option<+T> = None | Some(value: T) {

    /** The carried value, or `fallback` when there is none: JavaScript's
        default parameter `x = fallback`, which applies to `undefined` only. */
    function OrDefault(fallback: T): (r: T)
      ensures Some? ==> r == value
      ensures None? ==> r == fallback
    {
      if Some? then value else fallback
    }
  }
}
