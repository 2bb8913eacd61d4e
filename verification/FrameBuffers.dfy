/** The frame buffers that the stack allocates and frees by hand. */
module FrameBuffers {
  import opened Wrappers

  /** The frame buffers in use. Only a buffer in use can be freed, so none is freed twice. */
  class BufferPool {
    var live: set<nat>
    var next: nat

    ghost predicate Valid()
      reads this
    {
      forall b :: b in live ==> b < next
    }

    constructor ()
      ensures Valid() && live == {}
    {
      live, next := {}, 0;
    }

    /** A buffer that was not in use, or none when the allocator fails. */
    method Alloc(succeeds: bool) returns (buf: Option<nat>)
      requires Valid()
      modifies this
      ensures Valid()
      ensures succeeds ==> buf.Some? && buf.value !in old(live) && live == old(live) + {buf.value}
      ensures !succeeds ==> buf.None? && live == old(live)
    {
      buf := None;
      if succeeds {
        buf := Some(next);
        live, next := live + {next}, next + 1;
      }
    }

    method Free(buf: nat)
      requires Valid() && buf in live
      modifies this
      ensures Valid() && live == old(live) - {buf}
    {
      live := live - {buf};
    }
  }
}
