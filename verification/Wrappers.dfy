/** What the other modules share: Option, wherever the C++ code has a possibly null pointer or a possibly missing value,
    and std::min. */
module Wrappers {
  datatype Option<+T> = None | Some(value: T)

  function Min(a: int, b: int): int { if a < b then a else b }
}
