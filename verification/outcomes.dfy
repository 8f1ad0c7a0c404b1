/** Python's `None`-or-value returns and the exceptions the modelled code can raise. */
module Outcomes {

  /** A value that may be Python's `None`. */
  datatype Option<+T> = None | Some(value: T)

  /** The exceptions the modelled functions raise on some input. */
  datatype PyError =
    | IndexError          // a list subscript outside the list
    | UnboundLocalError   // a local variable read before any assignment

  /** The outcome of a call that either returns or raises. */
  datatype Result<+T> = Ok(value: T) | Err(error: PyError)
}

/** The state of the four movement keys the cameras poll each frame. */
module Keyboard {

  /** `true` when `glfw.get_key(window, KEY_*) == glfw.PRESS`. */
  datatype Keys = Keys(w: bool, s: bool, a: bool, d: bool)

  const NoKeys := Keys(false, false, false, false)

  /** 1 for a pressed key, 0 otherwise. */
  function Count(pressed: bool): real
  {
    if pressed then 1.0 else 0.0
  }
}
