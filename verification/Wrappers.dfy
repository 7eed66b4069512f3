/** The optional fields and RPC answers of the program. */
module Wrappers {

  datatype Option<+T> = None | Some(value: T) {
    /** What a protocol-buffer getter returns: the field, or its default. */
    function GetOr(default: T): T {
      if Some? then value else default
    }
  }
}
