/** Integer helpers shared by the telemetry windows and the history table. */
module Ints {
  function Min(a: int, b: int): int {
    if a <= b then a else b
  }

  function Max(a: int, b: int): int {
    if a <= b then b else a
  }
}
