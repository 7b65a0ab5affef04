/**
 * The single-shot resumer of setable_resume.h: `asio_setter` holds one
 * optional completion handler, which a suspended operation installs and
 * `setable_resume::resume` consumes. `H` is the handler (the operation to
 * complete) and `A` the argument tuple it is completed with.
 */
module SetableResume {
  import opened Wrappers

  /**
   * `asio_setter`. `completions` is a ghost record of each handler that was
   * completed, with the arguments it was completed with.
   */
  class Setter<H, A> {
    var pending: Option<H>
    ghost var completions: seq<(H, A)>

    constructor ()
      ensures pending == None && completions == []
    {
      pending := None;
      completions := [];
    }

    /** `asio_setter::operator()`: install the handler, replacing any earlier one. */
    method Register(handler: H)
      modifies this
      ensures pending == Some(handler) && completions == old(completions)
    {
      pending := Some(handler);
    }
  }

  /** The exception the non-void `resume` throws ("not implemented"). */
  datatype ResumeError = NotImplemented

  /** `setable_resume<R(Args...)>`; `voidResult` says whether `R` is void. */
  class SetableResume<H, A> {
    const holder: Setter<H, A>
    const voidResult: bool

    /** `is_set`: a handler is registered and not yet consumed. */
    function IsSet(): (b: bool)
      reads this, holder
      ensures b <==> holder.pending.Some?
    {
      holder.pending.Some?
    }

    /** A new resumer owns a new setter and is not set. */
    constructor (voidResult: bool)
      ensures this.voidResult == voidResult && fresh(holder)
      ensures !IsSet() && holder.completions == []
    {
      this.voidResult := voidResult;
      holder := new Setter();
    }

    /**
     * `resume`. For a void result it needs a handler, completes it once with
     * `args` and empties the slot, so a second call without a new
     * registration breaks this precondition. For any other result it throws
     * "not implemented" and changes nothing.
     */
    method Resume(args: A) returns (outcome: Outcome<ResumeError>)
      requires voidResult ==> IsSet()
      modifies holder
      ensures voidResult ==> outcome == Pass && !IsSet()
      ensures voidResult ==> holder.completions == old(holder.completions) + [(old(holder.pending).value, args)]
      ensures !voidResult ==> outcome == Fail(NotImplemented)
      ensures !voidResult ==> holder.pending == old(holder.pending) && holder.completions == old(holder.completions)
    {
      if voidResult {
        holder.completions := holder.completions + [(holder.pending.value, args)];
        holder.pending := None;
        outcome := Pass;
      } else {
        outcome := Fail(NotImplemented);
      }
    }

    /** `weak_ptr`: an observer of the setter that does not own it. */
    method WeakReference() returns (observer: Setter<H, A>)
      ensures observer == holder
    {
      observer := holder;
    }

    /** `~setable_resume`: the slot is emptied, so an observer sees nothing pending. */
    method Destroy()
      modifies holder
      ensures holder.pending == None && holder.completions == old(holder.completions)
    {
      holder.pending := None;
    }
  }

  /**
   * Register, resume, register again, resume: each handler is completed once,
   * with its own arguments, and the slot ends empty.
   */
  method ResumeEachRegistrationOnce<H, A>(first: H, second: H, x: A, y: A)
  {
    var resumer := new SetableResume<H, A>(true);
    var setter := resumer.WeakReference();
    setter.Register(first);
    assert resumer.IsSet();
    var outcome := resumer.Resume(x);
    assert !resumer.IsSet();
    setter.Register(second);
    outcome := resumer.Resume(y);
    assert setter.completions == [(first, x), (second, y)];
    resumer.Destroy();
    assert setter.pending == None;
  }
}
