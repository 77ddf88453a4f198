/** Notions more than one part of the model uses. */
module Common {
  datatype Option<T> = None | Some(value: T)

  /** A channel's transfer state, as far as the driver ever sets it. */
  datatype TransferState = IDLE | RUNNING | COMPLETED

  function Min(a: int, b: int): int { if a <= b then a else b }
}
