/** Small value types shared by the rock-physics and well-filter modules. */
module Common {

  datatype Option<+T> = None | Some(value: T)
}
