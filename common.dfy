/** Shared vocabulary of the buffer layer: optional values, the errors the
    buffers and strategies raise, results, and the optional capacity bound. */
module Common {

  datatype Option<+T> = None | Some(value: T) {
    /** Python's `x if x is not None else default`. */
    function GetOr(default: T): T {
      match this
      case Some(v) => v
      case None => default
    }
  }

  /** The exceptions raised synchronously by the modelled code. */
  datatype Error =
    | InvalidQuantity                  // ValueError: a count or amount that is not > 0
    | InvalidCapacity                  // simpy: "capacity" must be > 0
    | NegativeInit                     // simpy: "init" must be >= 0
    | InitAboveCapacity                // simpy: "init" must be <= "capacity"
    | ValidationError(fields: seq<string>)  // pydantic: the fields whose constraints fail

  datatype Result<+T> = Ok(value: T) | Err(error: Error)

  /** The capacity a simpy Store or Container is built with: a configured
      number, or `simpy.core.Infinity` when none is configured. */
  datatype Capacity = Unbounded | Finite(limit: int) {
    /** A size or level `n` is within the bound. */
    predicate Fits(n: int) {
      match this
      case Unbounded => true
      case Finite(c) => n <= c
    }

    /** How many of `want` single-item puts a store holding `size` items
        accepts before it is full. */
    function Accepts(size: int, want: nat): (k: nat)
      ensures k <= want
      ensures Fits(size + k) || k == 0
      ensures k < want ==> !Fits(size + k + 1)
    {
      match this
      case Unbounded => want
      case Finite(c) =>
        if c - size <= 0 then 0
        else if c - size < want then c - size
        else want
    }
  }

  /** Capacity as buffer.py builds it: `None` means unbounded, otherwise the
      configured number itself. */
  function CapacityOf(configured: Option<int>): (cap: Capacity)
    ensures cap.Unbounded? <==> configured.None?
    ensures configured.Some? ==> cap == Finite(configured.value)
    ensures configured.None? ==> forall n: int :: cap.Fits(n)
  {
    match configured
    case None => Unbounded
    case Some(c) => Finite(c)
  }
}
