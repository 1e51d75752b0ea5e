/** The optional value the modules receive for every parameter the caller may
    leave out (Python's `None`). */
module Optional {

  datatype Option<+T> = None | Some(value: T) {

    /** The value, or `default` when absent (Ansible's `default=` for an option). */
    function GetOr(default: T): T {
      match this
      case Some(v) => v
      case None => default
    }
  }
}
