// Small value types shared by every module.
module Prelude {
  datatype Option<+T> = None | Some(value: T)

  datatype Result<+T, +E> = Ok(value: T) | Err(error: E)

  // Identifiers are compared, sorted and hashed but never taken apart: the total
  // order of nat stands for the order of the strings.
  type Id = nat

  function Max(a: int, b: int): int { if a < b then b else a }

  function Min(a: int, b: int): int { if b < a then b else a }
}
