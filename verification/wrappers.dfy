/** The optional value used wherever the supply dialog may have nothing to show:
    an absent user, an unknown wallet balance, no blocking error. */
module Wrappers {

  datatype Option<+T> = None | Some(value: T)
}
