/** Types shared by every layer of the model. */
module Basics {

  /** A 128-bit identifier of a client, server or list.  Only its equality and its
      total order are ever used, so it is a natural number here. */
  type Uuid = nat

  datatype Option<+T> = None | Some(value: T)

  function Max(x: nat, y: nat): nat {
    if x < y then y else x
  }

  function Min(x: nat, y: nat): nat {
    if x < y then x else y
  }
}
