/** Shared vocabulary: optional values, exact minima and maxima, and the reply of an injected dependency. */
module Base {
  datatype Option<+T> = None | Some(value: T)

  /** What an awaited dependency call gives back: a value, or a thrown error. */
  datatype Reply<+T> = Ok(value: T) | Threw

  function MinR(a: real, b: real): real { if a <= b then a else b }
  function MaxR(a: real, b: real): real { if a >= b then a else b }
  function MinI(a: int, b: int): int { if a <= b then a else b }
  function MaxI(a: int, b: int): int { if a >= b then a else b }
}
