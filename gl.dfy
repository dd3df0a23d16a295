// The graphics device as the framebuffer code sees it: object names that
// the device hands out and takes back, and the values of the calls the code
// issues (attachment points, buffer bits, completeness statuses, storage
// formats).  What the device does with those calls is not modelled.

module GL {

  datatype Option<T> = None | Some(value: T)

  /** A device object name (GLuint).  0 means "no object". */
  type Name = nat

  /** The names the device has handed out and not yet taken back.
      Allocation can fail; the caller passes the device's answer in. */
  class Device {
    var live: set<Name>
    var next: Name

    ghost predicate Valid()
      reads this
    {
      0 < next && forall n :: n in live ==> 0 < n < next
    }

    constructor ()
      ensures Valid() && live == {}
    {
      live := {};
      next := 1;
    }

    /** glGen*: a fresh non-zero name when the device can allocate, else 0. */
    method Gen(ok: bool) returns (name: Name)
      requires Valid()
      modifies this
      ensures Valid()
      ensures ok ==> name != 0 && name !in old(live) && live == old(live) + {name}
      ensures !ok ==> name == 0 && live == old(live)
    {
      if ok {
        name := next;
        live := live + {name};
        next := next + 1;
      } else {
        name := 0;
      }
    }

    /** glDelete*: gives the name back (0 is never live, so deleting it does nothing). */
    method Delete(name: Name)
      requires Valid()
      modifies this
      ensures Valid() && live == old(live) - {name}
    {
      live := live - {name};
    }
  }

  /** Framebuffer attachment points and draw/read buffer selections.
      ColorAttachment(i) is GL_COLOR_ATTACHMENT0 + i; NoAttachment is GL_NONE. */
  datatype Attachment =
    | NoAttachment
    | ColorAttachment(index: int)
    | DepthAttachment
    | DepthStencilAttachment

  /** glBlitFramebuffer mask bits. */
  const ColorBufferBit: bv32 := 0x4000
  const DepthBufferBit: bv32 := 0x0100

  /** What glCheckFramebufferStatus (or glGetError) reports. */
  datatype FramebufferStatus =
    | Complete
    | IncompleteAttachment
    | IncompleteMissingAttachment
    | Unsupported
    | IncompleteDrawBuffer
    | IncompleteReadBuffer
    | IncompleteMultisample
    | Undefined
    | OtherCode(code: nat)  // a value none of the eight above has; the model takes this as given

  /** GL_INVALID_OPERATION, as returned by glGetError. */
  const InvalidOperation: nat := 0x0502

  /** Renderbuffer storage formats requested from the device. */
  datatype InternalFormat = RGBA8 | RGBA16F | RGBA32F | DepthComponent
}
