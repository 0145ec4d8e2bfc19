/** Stock failure and option types and the arithmetic shared by the models of the repository. */
module Wrappers {

  datatype Option<+T> = None | Some(value: T)

  datatype Result<+T, +E> = Ok(value: T) | Err(error: E) {
    predicate IsFailure() {
      Err?
    }

    function PropagateFailure<U>(): Result<U, E>
      requires Err?
    {
      Err(error)
    }

    function Extract(): T
      requires Ok?
    {
      value
    }
  }

  lemma TimesNotNegative(x: nat, y: nat)
    ensures x * y >= 0
  {
  }

  /** A larger factor gives at least one multiple more. */
  lemma OneStepMore(q: int, d: int, step: int)
    requires d > q && step > 0
    ensures d * step >= q * step + step
  {
    TimesNotNegative(d - q - 1, step);
    assert (d - q - 1) * step == d * step - q * step - step;
  }
}
