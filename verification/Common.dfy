module Common {

  datatype Option<+T> = None | Some(value: T)

  /** A service call either goes through or raises; a raise rolls its whole transaction back. */
  datatype Outcome<+T> = Ok(value: T) | Err(code: string) {
    predicate IsFailure() { Err? }

    function PropagateFailure<U>(): Outcome<U>
      requires Err?
    {
      Err(code)
    }

    function Extract(): T
      requires Ok?
    {
      value
    }
  }

  function Need(condition: bool, code: string): Outcome<()> {
    if condition then Ok(()) else Err(code)
  }

  function Min(a: int, b: int): int { if a <= b then a else b }

  function Max(a: int, b: int): int { if a >= b then a else b }
}
