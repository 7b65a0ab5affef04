/**
 * The custom `move_only_function<R(Args...)>` of move_only_function.h: a box
 * that owns at most one callable through a `unique_ptr`, so moving it leaves
 * the source empty. The callable is an opaque function value from the
 * argument tuple `A` to the result `R` (for a void result, `R` is `()`).
 */
module MoveOnlyFunctions {
  import opened Wrappers

  class MoveOnlyFunction<A, R> {
    var callable: Option<A -> R>

    /** `operator bool`: a callable is held. */
    function IsSet(): (b: bool)
      reads this
      ensures b <==> callable.Some?
    {
      callable.Some?
    }

    /** The default and the nullptr constructors: an empty function. */
    constructor ()
      ensures callable == None && !IsSet()
    {
      callable := None;
    }

    /** Construction from a callable: a non-empty function that calls it. */
    constructor Of(f: A -> R)
      ensures callable == Some(f) && IsSet()
    {
      callable := Some(f);
    }

    /** The move constructor: the callable moves over and `other` is left empty. */
    constructor MoveFrom(other: MoveOnlyFunction<A, R>)
      modifies other
      ensures callable == old(other.callable) && !other.IsSet()
    {
      callable := other.callable;
      new;
      other.callable := None;
    }

    /**
     * The move assignment: the old callable is released, `other`'s moves over
     * and `other` is left empty; moving onto itself changes nothing.
     */
    method MoveAssign(other: MoveOnlyFunction<A, R>)
      modifies this, other
      ensures callable == old(other.callable)
      ensures other != this ==> !other.IsSet()
    {
      if other != this {
        callable, other.callable := other.callable, None;
      }
    }

    /** Assignment of nullptr: empty, whatever was held before. */
    method AssignNull()
      modifies this
      ensures callable == None && !IsSet()
    {
      callable := None;
    }

    /** Assignment of a callable: the old one is released and `f` is held. */
    method Assign(f: A -> R)
      modifies this
      ensures callable == Some(f) && IsSet()
    {
      callable := Some(f);
    }

    /** `operator()`: only on a non-empty function; returns what the held callable returns. */
    method Call(args: A) returns (r: R)
      requires IsSet()
      ensures r == callable.value(args)
    {
      r := callable.value(args);
    }

    /** The member `swap`: the two objects exchange their callables. */
    method Swap(other: MoveOnlyFunction<A, R>)
      modifies this, other
      ensures callable == old(other.callable) && other.callable == old(callable)
    {
      if other != this {
        callable, other.callable := other.callable, callable;
      }
    }
  }

  /** The non-member `swap`, which defers to the member one. */
  method Swap<A, R>(lhs: MoveOnlyFunction<A, R>, rhs: MoveOnlyFunction<A, R>)
    modifies lhs, rhs
    ensures lhs.callable == old(rhs.callable) && rhs.callable == old(lhs.callable)
  {
    lhs.Swap(rhs);
  }

  /** Swapping twice puts both callables back where they were. */
  method SwapTwice<A, R>(lhs: MoveOnlyFunction<A, R>, rhs: MoveOnlyFunction<A, R>)
    modifies lhs, rhs
    ensures lhs.callable == old(lhs.callable) && rhs.callable == old(rhs.callable)
  {
    lhs.Swap(rhs);
    Swap(lhs, rhs);
  }
}
