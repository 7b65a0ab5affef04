/**
 * The move-only coroutine owner of unique_coroutine.h. Coroutine frames are
 * an abstract resource: `Frames` knows which handles are live (with their
 * completion state) and, as ghost state, which have been destroyed and which
 * `UniqueCoroutine` owns each live one. Destroying a frame needs it live, so
 * every destroy the owner performs is the first and only one.
 */
module UniqueCoroutines {
  import opened Wrappers

  type Handle = nat

  /** The handle held, as a set: empty for a null handle. */
  function Held(h: Option<Handle>): (s: set<Handle>)
  {
    if h.Some? then {h.value} else {}
  }

  /** The coroutine frames that handles refer to. */
  class Frames {
    var done: map<Handle, bool>
    var next: Handle
    ghost var destroyed: set<Handle>
    ghost var owner: map<Handle, UniqueCoroutine>

    ghost predicate Valid()
      reads this
    {
      && done.Keys !! destroyed
      && owner.Keys <= done.Keys
      && (forall h :: h in done ==> h < next)
      && (forall h :: h in destroyed ==> h < next)
    }

    constructor ()
      ensures Valid() && done == map[] && destroyed == {} && owner == map[]
    {
      done, next := map[], 0;
      destroyed, owner := {}, map[];
    }

    /** A new suspended frame, with a handle never used before. */
    method Spawn() returns (h: Handle)
      requires Valid()
      modifies this
      ensures Valid()
      ensures h !in old(done) && h !in old(destroyed)
      ensures done == old(done)[h := false]
      ensures destroyed == old(destroyed) && owner == old(owner)
    {
      h := next;
      done := done[h := false];
      next := next + 1;
    }

    /** `coroutine_handle::destroy`: only a live frame can be destroyed. */
    method DestroyFrame(h: Handle)
      requires Valid() && h in done
      modifies this
      ensures Valid()
      ensures done == old(done) - {h} && destroyed == old(destroyed) + {h}
      ensures owner == old(owner) - {h}
    {
      done := done - {h};
      destroyed := destroyed + {h};
      owner := owner - {h};
    }

    /**
     * `coroutine_handle::resume` on a frame that is not done; whether it
     * runs to completion is up to the coroutine body, given as `finishes`.
     */
    method ResumeFrame(h: Handle, finishes: bool)
      requires Valid() && h in done && !done[h]
      modifies this
      ensures Valid()
      ensures done == old(done)[h := finishes]
      ensures destroyed == old(destroyed) && owner == old(owner)
    {
      done := done[h := finishes];
    }
  }

  /** `unique_coroutine`: the sole owner of one handle, or of none. */
  class UniqueCoroutine {
    var handle: Option<Handle>
    const frames: Frames

    /** The handle held is live and recorded as owned by this object alone. */
    ghost predicate Valid()
      reads this, frames
    {
      frames.Valid() && (handle.Some? ==> handle.value in frames.owner && frames.owner[handle.value] == this)
    }

    /** The constructor from a handle, which it takes sole ownership of. */
    constructor (frames: Frames, h: Option<Handle>)
      requires frames.Valid()
      requires h.Some? ==> h.value in frames.done && h.value !in frames.owner
      modifies frames
      ensures Valid() && this.frames == frames && handle == h
      ensures frames.done == old(frames.done) && frames.destroyed == old(frames.destroyed)
      ensures frames.owner == if h.Some? then old(frames.owner)[h.value := this] else old(frames.owner)
    {
      this.frames := frames;
      handle := h;
      new;
      if h.Some? {
        frames.owner := frames.owner[h.value := this];
      }
    }

    /** The move constructor: the handle moves over and `other` is left null. */
    constructor MoveFrom(other: UniqueCoroutine)
      requires other.Valid()
      modifies other, other.frames
      ensures Valid() && other.Valid() && frames == other.frames
      ensures handle == old(other.handle) && other.handle == None
      ensures frames.done == old(other.frames.done) && frames.destroyed == old(other.frames.destroyed)
      ensures frames.owner == if handle.Some? then old(other.frames.owner)[handle.value := this] else old(other.frames.owner)
    {
      frames := other.frames;
      handle := other.handle;
      new;
      other.handle := None;
      if handle.Some? {
        frames.owner := frames.owner[handle.value := this];
      }
    }

    /**
     * The move assignment. From another object: the handle held (if any) is
     * destroyed, `other`'s moves over and `other` is left null. Onto itself:
     * nothing changes.
     */
    method MoveAssign(other: UniqueCoroutine)
      requires Valid() && other.Valid() && other.frames == frames
      modifies this, other, frames
      ensures Valid() && other.Valid()
      ensures other == this ==> handle == old(handle) && unchanged(frames)
      ensures other != this ==> handle == old(other.handle) && other.handle == None
      ensures other != this ==> frames.destroyed == old(frames.destroyed) + Held(old(handle))
      ensures other != this ==> frames.done == old(frames.done) - Held(old(handle))
      ensures other != this ==>
        frames.owner == if handle.Some? then (old(frames.owner) - Held(old(handle)))[handle.value := this]
                        else old(frames.owner) - Held(old(handle))
    {
      if other != this {
        if handle.Some? {
          frames.DestroyFrame(handle.value);
        }
        handle := other.handle;
        other.handle := None;
        if handle.Some? {
          frames.owner := frames.owner[handle.value := this];
        }
      }
    }

    /** `resume`: needs a handle, and does nothing once the coroutine is done. */
    method Resume(finishes: bool)
      requires Valid() && handle.Some?
      modifies frames
      ensures Valid()
      ensures old(frames.done[handle.value]) ==> frames.done == old(frames.done)
      ensures !old(frames.done[handle.value]) ==> frames.done == old(frames.done)[handle.value := finishes]
      ensures frames.destroyed == old(frames.destroyed) && frames.owner == old(frames.owner)
    {
      var h := handle.value;
      if !frames.done[h] {
        frames.ResumeFrame(h, finishes);
      }
    }

    /** `is_done`: needs a handle, and reports whether its coroutine has finished. */
    method IsDone() returns (b: bool)
      requires Valid() && handle.Some?
      ensures b == frames.done[handle.value]
    {
      b := frames.done[handle.value];
    }

    /** `~unique_coroutine`: destroys the handle held exactly when there is one. */
    method Destroy()
      requires Valid()
      modifies frames
      ensures frames.Valid()
      ensures frames.destroyed == old(frames.destroyed) + Held(handle)
      ensures frames.done == old(frames.done) - Held(handle)
      ensures frames.owner == old(frames.owner) - Held(handle)
    {
      if handle.Some? {
        frames.DestroyFrame(handle.value);
      }
    }
  }

  /**
   * A handle moved from one owner to another and both owners destroyed: the
   * moved-from owner destroys nothing and the frame is destroyed once.
   */
  method MoveThenDestroyBoth()
  {
    var frames := new Frames();
    var h := frames.Spawn();
    var first := new UniqueCoroutine(frames, Some(h));
    var second := new UniqueCoroutine.MoveFrom(first);
    first.Destroy();
    assert frames.destroyed == {};
    second.Destroy();
    assert frames.destroyed == {h} && frames.done == map[];
  }
}
