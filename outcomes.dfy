/**
 * Shared vocabulary: Rust's `Option`, the three ways a Rust call can end
 * (returning `Ok`, returning `Err` with a fixed message, or panicking), and
 * Rust's `u64`.
 */
module Outcomes {

  datatype Option<+T> = None | Some(value: T)

  /** How a call ends. `Err` is a returned `Result::Err(&str)`; `Panic` is a
      `panic!`, an `expect` or an out-of-bounds index, which ends the process. */
  datatype Outcome<+T> = Ok(value: T) | Err(error: string) | Panic(message: string) {

    predicate IsFailure() {
      !Ok?
    }

    /** Carries an `Err` or a `Panic` over to an outcome of another type. */
    function PropagateFailure<U>(): (r: Outcome<U>)
      requires !Ok?
      ensures r.Err? == Err? && r.Panic? == Panic?
    {
      if Err? then Err(error) else Panic(message)
    }

    function Extract(): T
      requires Ok?
    {
      value
    }
  }

  /** Rust's 64-bit unsigned integer. */
  type u64 = x: int | 0 <= x < 0x1_0000_0000_0000_0000
}
