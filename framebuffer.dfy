// Attachment bookkeeping of GPU framebuffers: the slot tables of a
// framebuffer, the back-references that textures and renderbuffers keep to
// the slot they sit in, and the globally tracked bound framebuffer.
// Device calls are reduced to the values they carry (DrawSetup, blit calls)
// and to name allocation on a GL.Device.

module Framebuffer {
  import opened GL

  /** GPU_FB_MAX_SLOTS: the number of colour slots of a framebuffer. */
  const MaxSlots := 4

  /** GPUTextureFormat, as far as the renderbuffer code tells formats apart. */
  datatype TextureFormat = GpuRGBA8 | GpuRGBA16F | GpuRGBA32F | OtherFormat(code: nat)

  /** GPURenderBufferType */
  datatype RenderBufferType = ColorBuffer | DepthBuffer

  datatype Size = Size(width: int, height: int)

  /** What a bind sends to the device: the framebuffer object bound, the
      draw buffers (a single glDrawBuffer is a one-element list), the read
      buffer and, for the variants that set one, the viewport size. */
  datatype DrawSetup = DrawSetup(handle: Name, draw: seq<Attachment>, read: Attachment, viewport: Option<Size>)

  /** What GPU_framebuffer_blit sends to the device: the framebuffer object
      bound for reading and the one bound for drawing, the texture names
      attached to each and their attachment points, both rectangles
      (anchored at the origin), the mask, the framebuffer bound again
      afterwards and the draw buffer set last. */
  datatype FramebufferBlit = FramebufferBlit(
    readFb: Name, readBind: Name, read: Attachment,
    drawFb: Name, writeBind: Name, write: Attachment,
    source: Size, target: Size, mask: bv32, rebound: Name, drawBuffer: Attachment)

  /** The status names of gpu_print_framebuffer_error; anything else is "unknown". */
  function StatusName(status: FramebufferStatus): (name: string)
    ensures status.OtherCode? <==> name == "unknown"
    ensures !status.OtherCode? ==> |name| > 15 && name[..15] == "GL_FRAMEBUFFER_"
  {
    match status
    case Complete => "GL_FRAMEBUFFER_COMPLETE"
    case IncompleteAttachment => "GL_FRAMEBUFFER_INCOMPLETE_ATTACHMENT"
    case IncompleteMissingAttachment => "GL_FRAMEBUFFER_INCOMPLETE_MISSING_ATTACHMENT"
    case Unsupported => "GL_FRAMEBUFFER_UNSUPPORTED"
    case IncompleteDrawBuffer => "GL_FRAMEBUFFER_INCOMPLETE_DRAW_BUFFER"
    case IncompleteReadBuffer => "GL_FRAMEBUFFER_INCOMPLETE_READ_BUFFER"
    case IncompleteMultisample => "GL_FRAMEBUFFER_INCOMPLETE_MULTISAMPLE"
    case Undefined => "GL_FRAMEBUFFER_UNDEFINED"
    case OtherCode(_) => "unknown"
  }

  const StatusPrefix := "GPUFrameBuffer: framebuffer status "

  /** The message written to err_out. */
  function StatusMessage(status: FramebufferStatus): string
  {
    StatusPrefix + StatusName(status) + "\n"
  }

  /** The message names the status: two different listed statuses give
      different messages. */
  lemma StatusMessagesDistinct(a: FramebufferStatus, b: FramebufferStatus)
    requires !a.OtherCode? && !b.OtherCode? && a != b
    ensures StatusMessage(a) != StatusMessage(b)
  {
    StatusNamesDistinct(a, b);
    var ma, mb := StatusMessage(a), StatusMessage(b);
    assert ma[|StatusPrefix|..|ma| - 1] == StatusName(a);
    assert mb[|StatusPrefix|..|mb| - 1] == StatusName(b);
  }

  /** Two statuses the switch names get different names. */
  lemma StatusNamesDistinct(a: FramebufferStatus, b: FramebufferStatus)
    requires !a.OtherCode? && !b.OtherCode? && a != b
    ensures StatusName(a) != StatusName(b)
  {
  }

  /** The internal-format switch of GPU_renderbuffer_create for colour storage. */
  function StorageFormat(dataType: TextureFormat): (f: InternalFormat)
    ensures f == RGBA16F <==> dataType == GpuRGBA16F
    ensures f == RGBA32F <==> dataType == GpuRGBA32F
    ensures f == RGBA8 <==> !(dataType == GpuRGBA16F || dataType == GpuRGBA32F)
  {
    match dataType
    case GpuRGBA8 => RGBA8
    case GpuRGBA16F => RGBA16F
    case GpuRGBA32F => RGBA32F
    case _ => RGBA8
  }

  /** The indices of the occupied entries of a slot table, in ascending order
      (the attachments[] list the bind loops build). */
  function OccupiedSlots(slots: seq<Texture?>): (r: seq<nat>)
    ensures forall k :: 0 <= k < |r| ==> r[k] < |slots| && slots[r[k]] != null
    ensures forall i :: 0 <= i < |slots| && slots[i] != null ==> i in r
    ensures forall j, k :: 0 <= j < k < |r| ==> r[j] < r[k]
  {
    if slots == [] then []
    else
      var last := |slots| - 1;
      OccupiedSlots(slots[..last]) + (if slots[last] != null then [last] else [])
  }

  /** The occupied-slot list is the only ascending list of exactly the occupied indices. */
  lemma {:induction false} OccupiedSlotsUnique(slots: seq<Texture?>, r: seq<nat>)
    requires forall k :: 0 <= k < |r| ==> r[k] < |slots| && slots[r[k]] != null
    requires forall i :: 0 <= i < |slots| && slots[i] != null ==> i in r
    requires forall j, k :: 0 <= j < k < |r| ==> r[j] < r[k]
    ensures r == OccupiedSlots(slots)
  {
    AscendingSameElements(r, OccupiedSlots(slots));
  }

  lemma {:induction false} AscendingSameElements(a: seq<nat>, b: seq<nat>)
    requires forall j, k :: 0 <= j < k < |a| ==> a[j] < a[k]
    requires forall j, k :: 0 <= j < k < |b| ==> b[j] < b[k]
    requires forall x :: x in a <==> x in b
    ensures a == b
  {
    if a != [] {
      assert a[0] in b;
    }
    if b != [] {
      assert b[0] in a;
    }
    if a != [] && b != [] {
      assert a[0] == b[0];
      forall x ensures x in a[1..] <==> x in b[1..] {
        if x in a[1..] {
          var i :| 1 <= i < |a| && a[i] == x;
          assert x in b;
          var j :| 0 <= j < |b| && b[j] == x;
          assert j != 0 by { assert a[0] < a[i]; }
          assert b[1..][j - 1] == x;
        }
        if x in b[1..] {
          var i :| 1 <= i < |b| && b[i] == x;
          assert x in a;
          var j :| 0 <= j < |a| && a[j] == x;
          assert j != 0 by { assert b[0] < b[i]; }
          assert a[1..][j - 1] == x;
        }
      }
      AscendingSameElements(a[1..], b[1..]);
      assert a == [a[0]] + a[1..] && b == [b[0]] + b[1..];
    }
  }

  /** The draw-buffer list naming the given colour slots. */
  function ColorAttachments(slots: seq<nat>): (r: seq<Attachment>)
    ensures |r| == |slots|
    ensures forall k :: 0 <= k < |slots| ==> r[k] == ColorAttachment(slots[k])
  {
    seq(|slots|, k requires 0 <= k < |slots| => ColorAttachment(slots[k]))
  }

  function SizeOf(tex: Texture): Size
  {
    Size(tex.width, tex.height)
  }

  /** GG: the framebuffer object the code believes is bound (0: the default one). */
  class Global {
    var currentfb: Name

    constructor ()
      ensures currentfb == 0
    {
      currentfb := 0;
    }

    /** GPU_framebuffer_bound */
    predicate Bound(fb: FrameBuffer)
      reads this
    {
      fb.handle == currentfb
    }

    /** GPU_framebuffer_restore: binds the default framebuffer, skipping the
        device call when it is already the tracked one. */
    method Restore()
      modifies this
      ensures currentfb == 0
      ensures forall fb: FrameBuffer :: Bound(fb) <==> fb.handle == 0
    {
      if currentfb != 0 {
        currentfb := 0;
      }
    }
  }

  /** The part of a GPUTexture the framebuffer code uses.  The texture type
      itself lives in the texture module; only these queries and the
      back-reference are modelled. */
  class Texture {
    const bindcode: Name
    const width: int
    const height: int
    const depth: bool
    const stencil: bool
    /** its target is GL_TEXTURE_2D_MULTISAMPLE */
    const multisample: bool
    var fb: FrameBuffer?
    var fbAttachment: int

    constructor (bindcode: Name, width: int, height: int, depth: bool, stencil: bool, multisample: bool)
      ensures this.bindcode == bindcode && this.width == width && this.height == height
      ensures this.depth == depth && this.stencil == stencil && this.multisample == multisample
      ensures fb == null && fbAttachment == -1
    {
      this.bindcode := bindcode;
      this.width := width;
      this.height := height;
      this.depth := depth;
      this.stencil := stencil;
      this.multisample := multisample;
      fb := null;
      fbAttachment := -1;
    }

    /** GPU_texture_framebuffer_set */
    method FramebufferSet(fb: FrameBuffer?, attachment: int)
      modifies this
      ensures this.fb == fb && fbAttachment == attachment
    {
      this.fb := fb;
      fbAttachment := attachment;
    }

    /** What a detach may write: this texture's framebuffer and its colour slots. */
    ghost function DetachFrame(): set<object>
      reads this
    {
      if fb == null then {} else {fb, fb.colortex}
    }

    /** GPU_framebuffer_texture_detach: no-op when not attached; otherwise
        rebinds the owner if it is not the tracked one, clears the one slot
        the back-reference names and clears the back-reference. */
    method Detach(gg: Global)
      requires fb != null ==> fb.Valid() && (depth || 0 <= fbAttachment < MaxSlots)
      requires fb != null && !depth ==> fb.colortex[fbAttachment] == this
      modifies this, gg, DetachFrame()
      ensures old(fb) == null ==> unchanged(this, gg)
      ensures old(fb) != null ==> fb == null && fbAttachment == -1 && gg.currentfb == old(fb).handle
      ensures var f := old(fb);
        f != null ==>
          f.depthrb == old(f.depthrb) &&
          (depth ==> f.depthtex == null && f.colortex[..] == old(f.colortex[..])) &&
          (!depth ==> f.depthtex == old(f.depthtex) &&
                      f.colortex[..] == old(f.colortex[..])[old(fbAttachment) := null])
      ensures var f := old(fb); f != null && old(f.TexturesAgree()) ==> f.TexturesAgree()
    {
      var owner := fb;
      var attachment := fbAttachment;
      if owner == null {
        return;
      }
      if gg.currentfb != owner.handle {
        gg.currentfb := owner.handle;
      }
      if depth {
        // depth-stencil and depth-only textures both live in depthtex
        owner.depthtex := null;
      } else {
        owner.colortex[attachment] := null;
      }
      FramebufferSet(null, -1);
    }

    /** GPU_texture_bind_as_framebuffer: binds the framebuffer the texture is
        attached to, drawing to and reading from its slot (nothing for a depth
        texture), with the texture's size as viewport. */
    method BindAsFramebuffer(gg: Global) returns (setup: Option<DrawSetup>)
      modifies gg
      ensures fb == null ==> setup == None && unchanged(gg)
      ensures fb != null ==>
        gg.currentfb == fb.handle &&
        var buffer := if depth then NoAttachment else ColorAttachment(fbAttachment);
        setup == Some(DrawSetup(fb.handle, [buffer], buffer, Some(SizeOf(this))))
    {
      if fb == null {
        // "Error, texture not bound to framebuffer!"
        return None;
      }
      var buffer := if depth then NoAttachment else ColorAttachment(fbAttachment);
      setup := Some(DrawSetup(fb.handle, [buffer], buffer, Some(SizeOf(this))));
      gg.currentfb := fb.handle;
    }

    /** Releases the texture's device name (the texture module's free). */
    method Free(device: Device)
      requires device.Valid()
      modifies device
      ensures device.Valid() && device.live == old(device.live) - {bindcode}
    {
      device.Delete(bindcode);
    }
  }

  /** Stand-in for the texture module's constructors: a 2D colour texture or a
      depth texture, multisampled when samples > 0; `ok` is whether the device
      could allocate it. */
  method TextureCreate(width: int, height: int, depth: bool, samples: int, device: Device, ok: bool)
    returns (tex: Texture?)
    requires device.Valid()
    modifies device
    ensures device.Valid()
    ensures tex == null <==> !ok
    ensures tex == null ==> device.live == old(device.live)
    ensures tex != null ==>
      fresh(tex) && tex.bindcode != 0 && tex.bindcode !in old(device.live) &&
      device.live == old(device.live) + {tex.bindcode} &&
      tex.width == width && tex.height == height && tex.depth == depth && !tex.stencil &&
      tex.multisample == (samples > 0) && tex.fb == null
  {
    var name := device.Gen(ok);
    if name == 0 {
      return null;
    }
    tex := new Texture(name, width, height, depth, false, samples > 0);
  }

  /** GPURenderBuffer. `storage` is the format its storage was requested in. */
  class RenderBuffer {
    const width: int
    const height: int
    const samples: int
    const depth: bool
    const bindcode: Name
    const storage: InternalFormat
    var fb: FrameBuffer?
    var fbAttachment: int

    constructor (width: int, height: int, samples: int, depth: bool, bindcode: Name, storage: InternalFormat)
      ensures this.width == width && this.height == height && this.samples == samples
      ensures this.depth == depth && this.bindcode == bindcode && this.storage == storage
      ensures fb == null && fbAttachment == 0
    {
      this.width := width;
      this.height := height;
      this.samples := samples;
      this.depth := depth;
      this.bindcode := bindcode;
      this.storage := storage;
      fb := null;
      fbAttachment := 0;
    }

    /** GPU_renderbuffer_framebuffer_set */
    method FramebufferSet(fb: FrameBuffer?, attachment: int)
      modifies this
      ensures this.fb == fb && fbAttachment == attachment
    {
      this.fb := fb;
      fbAttachment := attachment;
    }

    ghost function DetachFrame(): set<object>
      reads this
    {
      if fb == null then {} else {fb, fb.colorrb}
    }

    /** GPU_framebuffer_renderbuffer_detach */
    method Detach(gg: Global)
      requires fb != null ==> fb.Valid() && (depth || 0 <= fbAttachment < MaxSlots)
      requires fb != null && !depth ==> fb.colorrb[fbAttachment] == this
      modifies this, gg, DetachFrame()
      ensures old(fb) == null ==> unchanged(this, gg)
      ensures old(fb) != null ==> fb == null && fbAttachment == -1 && gg.currentfb == old(fb).handle
      ensures var f := old(fb);
        f != null ==>
          f.depthtex == old(f.depthtex) &&
          (depth ==> f.depthrb == null && f.colorrb[..] == old(f.colorrb[..])) &&
          (!depth ==> f.depthrb == old(f.depthrb) &&
                      f.colorrb[..] == old(f.colorrb[..])[old(fbAttachment) := null])
      ensures var f := old(fb); f != null && old(f.RenderBuffersAgree()) ==> f.RenderBuffersAgree()
    {
      var owner := fb;
      var attachment := fbAttachment;
      if owner == null {
        return;
      }
      if gg.currentfb != owner.handle {
        gg.currentfb := owner.handle;
      }
      if depth {
        owner.depthrb := null;
      } else {
        owner.colorrb[attachment] := null;
      }
      FramebufferSet(null, -1);
    }

    /** GPU_renderbuffer_free: releases the device name when there is one. */
    method Free(device: Device)
      requires device.Valid()
      modifies device
      ensures device.Valid() && device.live == old(device.live) - {bindcode}
    {
      if bindcode != 0 {
        device.Delete(bindcode);
      }
    }
  }

  /** GPU_renderbuffer_create: a renderbuffer with depth storage, or colour
      storage in the format the switch picks.  `genOk` is whether the device
      could allocate a name; without one there is no renderbuffer. */
  method RenderBufferCreate(
    width: int, height: int, samples: int, dataType: TextureFormat, kind: RenderBufferType,
    device: Device, genOk: bool)
    returns (rb: RenderBuffer?)
    requires device.Valid()
    modifies device
    ensures device.Valid()
    ensures rb == null <==> !genOk
    ensures rb == null ==> device.live == old(device.live)
    ensures rb != null ==>
      fresh(rb) && rb.bindcode != 0 && rb.bindcode !in old(device.live) &&
      device.live == old(device.live) + {rb.bindcode}
    ensures rb != null ==>
      rb.width == width && rb.height == height && rb.samples == samples &&
      rb.depth == (kind == DepthBuffer) && rb.fb == null &&
      rb.storage == (if kind == DepthBuffer then DepthComponent else StorageFormat(dataType))
  {
    var name := device.Gen(genOk);
    if name == 0 {
      // "render buffer creation failed"; the empty record is freed
      return null;
    }
    var storage := if kind == DepthBuffer then DepthComponent else StorageFormat(dataType);
    rb := new RenderBuffer(width, height, samples, kind == DepthBuffer, name, storage);
  }

  /** GPUFrameBuffer */
  class FrameBuffer {
    const handle: Name
    const colortex: array<Texture?>
    var depthtex: Texture?
    const colorrb: array<RenderBuffer?>
    var depthrb: RenderBuffer?

    ghost predicate Valid()
    {
      colortex.Length == MaxSlots && colorrb.Length == MaxSlots
    }

    constructor (handle: Name)
      ensures this.handle == handle && Valid()
      ensures fresh(colortex) && fresh(colorrb)
      ensures NoTextures() && NoRenderBuffers()
    {
      this.handle := handle;
      colortex := new Texture?[MaxSlots](_ => null);
      colorrb := new RenderBuffer?[MaxSlots](_ => null);
      depthtex := null;
      depthrb := null;
    }

    ghost predicate NoTextures()
      reads this`depthtex, colortex
    {
      depthtex == null && forall i :: 0 <= i < colortex.Length ==> colortex[i] == null
    }

    ghost predicate NoRenderBuffers()
      reads this`depthrb, colorrb
    {
      depthrb == null && forall i :: 0 <= i < colorrb.Length ==> colorrb[i] == null
    }

    /** The textures in the slot table. */
    ghost function Textures(): set<Texture>
      reads this`depthtex, colortex
    {
      (set t: Texture | t in colortex[..]) + (if depthtex == null then {} else {depthtex})
    }

    /** The renderbuffers in the slot table. */
    ghost function RenderBuffers(): set<RenderBuffer>
      reads this`depthrb, colorrb
    {
      (set r: RenderBuffer | r in colorrb[..]) + (if depthrb == null then {} else {depthrb})
    }

    /** Every texture in a slot points back at this framebuffer and that slot;
        colour slots hold colour textures and depthtex a depth texture. */
    ghost predicate TexturesAgree()
      reads this`depthtex, colortex, Textures()
      requires Valid()
    {
      (forall i :: 0 <= i < MaxSlots && colortex[i] != null ==>
         colortex[i].fb == this && colortex[i].fbAttachment == i && !colortex[i].depth) &&
      (depthtex != null ==> depthtex.fb == this && depthtex.depth)
    }

    ghost predicate RenderBuffersAgree()
      reads this`depthrb, colorrb, RenderBuffers()
      requires Valid()
    {
      (forall i :: 0 <= i < MaxSlots && colorrb[i] != null ==>
         colorrb[i].fb == this && colorrb[i].fbAttachment == i && !colorrb[i].depth) &&
      (depthrb != null ==> depthrb.fb == this && depthrb.depth)
    }

    /** Forward slot entries and back-references agree. */
    ghost predicate SlotsAgree()
      reads this, colortex, colorrb, Textures(), RenderBuffers()
    {
      Valid() && TexturesAgree() && RenderBuffersAgree()
    }

    /** GPU_framebuffer_texture_attach: a slot beyond the table is refused
        with nothing changed; otherwise the framebuffer becomes the tracked
        one, the texture goes into depthtex or its colour slot, and its
        back-reference becomes (this, slot).  A back-reference the texture
        had to another framebuffer is overwritten, not detached. */
    method TextureAttach(tex: Texture, slot: int, gg: Global) returns (ok: bool)
      requires Valid()
      requires 0 <= slot || tex.depth
      modifies this`depthtex, colortex, tex, gg
      ensures ok <==> slot < MaxSlots
      ensures !ok ==> unchanged(this, colortex, tex, gg)
      ensures ok ==> tex.fb == this && tex.fbAttachment == slot && gg.Bound(this)
      ensures ok && tex.depth ==> depthtex == tex && colortex[..] == old(colortex[..])
      ensures ok && !tex.depth ==> depthtex == old(depthtex) && colortex[..] == old(colortex[..])[slot := tex]
      ensures ok && old(tex.fb) == null && old(TexturesAgree()) ==> TexturesAgree()
      ensures Textures() <= old(Textures()) + {tex}
      ensures old(RenderBuffersAgree()) ==> RenderBuffersAgree()
    {
      if slot >= MaxSlots {
        // "Attaching to index %d framebuffer slot unsupported."
        return false;
      }
      gg.currentfb := handle;
      if tex.depth {
        depthtex := tex;
      } else {
        colortex[slot] := tex;
      }
      tex.FramebufferSet(this, slot);
      ok := true;
    }

    /** GPU_framebuffer_renderbuffer_attach: as the texture attach, except that
        a GL_INVALID_OPERATION from the device after the attach call restores
        the default framebuffer and fails with nothing recorded. */
    method RenderBufferAttach(rb: RenderBuffer, slot: int, glError: nat, gg: Global)
      returns (ok: bool, message: Option<string>)
      requires Valid()
      requires 0 <= slot || rb.depth
      modifies this`depthrb, colorrb, rb, gg
      ensures ok <==> slot < MaxSlots && glError != InvalidOperation
      ensures !ok ==> unchanged(this, colorrb, rb)
      ensures slot >= MaxSlots ==> unchanged(gg) && message == None
      ensures slot < MaxSlots && glError == InvalidOperation ==>
        gg.currentfb == 0 && message == Some(StatusMessage(OtherCode(InvalidOperation)))
      ensures ok ==> message == None && rb.fb == this && rb.fbAttachment == slot && gg.Bound(this)
      ensures ok && rb.depth ==> depthrb == rb && colorrb[..] == old(colorrb[..])
      ensures ok && !rb.depth ==> depthrb == old(depthrb) && colorrb[..] == old(colorrb[..])[slot := rb]
      ensures ok && old(rb.fb) == null && old(RenderBuffersAgree()) ==> RenderBuffersAgree()
      ensures RenderBuffers() <= old(RenderBuffers()) + {rb}
      ensures old(TexturesAgree()) ==> TexturesAgree()
    {
      message := None;
      if slot >= MaxSlots {
        return false, None;
      }
      gg.currentfb := handle;
      if glError == InvalidOperation {
        gg.Restore();
        return false, Some(StatusMessage(OtherCode(glError)));
      }
      if rb.depth {
        depthrb := rb;
      } else {
        colorrb[slot] := rb;
      }
      rb.FramebufferSet(this, slot);
      ok := true;
    }

    /** The detach loop of GPU_framebuffer_free over textures: depthtex, then
        the colour slots in order. */
    method DetachTextures(gg: Global)
      requires Valid() && TexturesAgree()
      modifies this, colortex, Textures(), gg
      ensures NoTextures() && depthrb == old(depthrb)
      ensures forall t :: t in old(Textures()) ==> t.fb == null && t.fbAttachment == -1
      ensures gg.currentfb == if old(NoTextures()) then old(gg.currentfb) else handle
    {
      ghost var detached := false;
      if depthtex != null {
        depthtex.Detach(gg);
        detached := true;
      }
      for i := 0 to MaxSlots
        invariant depthtex == null && depthrb == old(depthrb)
        invariant forall j :: 0 <= j < i ==> colortex[j] == null
        invariant forall j :: i <= j < MaxSlots ==> colortex[j] == old(colortex[j])
        invariant TexturesAgree()
        invariant old(depthtex) != null ==> old(depthtex).fb == null && old(depthtex).fbAttachment == -1
        invariant forall j :: 0 <= j < i && old(colortex[j]) != null ==>
          old(colortex[j]).fb == null && old(colortex[j]).fbAttachment == -1
        invariant detached <==> old(depthtex) != null || exists j :: 0 <= j < i && old(colortex[j]) != null
        invariant gg.currentfb == if detached then handle else old(gg.currentfb)
      {
        if colortex[i] != null {
          colortex[i].Detach(gg);
          detached := true;
        }
      }
    }

    /** The detach loop of GPU_framebuffer_free over renderbuffers. */
    method DetachRenderBuffers(gg: Global)
      requires Valid() && RenderBuffersAgree()
      modifies this, colorrb, RenderBuffers(), gg
      ensures NoRenderBuffers() && depthtex == old(depthtex)
      ensures forall r :: r in old(RenderBuffers()) ==> r.fb == null && r.fbAttachment == -1
      ensures gg.currentfb == if old(NoRenderBuffers()) then old(gg.currentfb) else handle
    {
      ghost var detached := false;
      if depthrb != null {
        depthrb.Detach(gg);
        detached := true;
      }
      for i := 0 to MaxSlots
        invariant depthrb == null && depthtex == old(depthtex)
        invariant forall j :: 0 <= j < i ==> colorrb[j] == null
        invariant forall j :: i <= j < MaxSlots ==> colorrb[j] == old(colorrb[j])
        invariant RenderBuffersAgree()
        invariant old(depthrb) != null ==> old(depthrb).fb == null && old(depthrb).fbAttachment == -1
        invariant forall j :: 0 <= j < i && old(colorrb[j]) != null ==>
          old(colorrb[j]).fb == null && old(colorrb[j]).fbAttachment == -1
        invariant detached <==> old(depthrb) != null || exists j :: 0 <= j < i && old(colorrb[j]) != null
        invariant gg.currentfb == if detached then handle else old(gg.currentfb)
      {
        if colorrb[i] != null {
          colorrb[i].Detach(gg);
          detached := true;
        }
      }
    }

    /** GPU_framebuffer_free: force-detaches every attached texture and
        renderbuffer, releases the object and, when it is the tracked one,
        binds the default framebuffer. */
    method Free(gg: Global, device: Device)
      requires SlotsAgree() && device.Valid()
      modifies this, colortex, colorrb, Textures(), RenderBuffers(), gg, device
      ensures NoTextures() && NoRenderBuffers()
      ensures forall t :: t in old(Textures()) ==> t.fb == null && t.fbAttachment == -1
      ensures forall r :: r in old(RenderBuffers()) ==> r.fb == null && r.fbAttachment == -1
      ensures gg.currentfb ==
        if old(NoTextures()) && old(NoRenderBuffers()) && old(gg.currentfb) != handle
        then old(gg.currentfb) else 0
      ensures device.Valid() && device.live == old(device.live) - {handle}
    {
      DetachTextures(gg);
      DetachRenderBuffers(gg);
      if handle != 0 {
        device.Delete(handle);
        if gg.currentfb == handle {
          gg.currentfb := 0;
        }
      }
    }

    /** The loop shared by the bind variants: the occupied colour slots in
        ascending order. */
    method OccupiedColorSlots() returns (slots: seq<nat>)
      requires Valid()
      ensures slots == OccupiedSlots(colortex[..])
    {
      slots := [];
      for i := 0 to MaxSlots
        invariant slots == OccupiedSlots(colortex[..i])
      {
        assert colortex[..i + 1][..i] == colortex[..i];
        if colortex[i] != null {
          slots := slots + [i];
        }
      }
      assert colortex[..MaxSlots] == colortex[..];
    }

    /** GPU_framebuffer_bind: draws to every occupied colour slot, reads from
        the lowest one; with no colour texture draws and reads nothing.  The
        viewport is the size of the last texture the loop saw (the highest
        occupied slot), or of depthtex when no colour slot is occupied. */
    method Bind(gg: Global) returns (setup: DrawSetup)
      requires Valid()
      requires OccupiedSlots(colortex[..]) != [] || depthtex != null
      modifies gg
      ensures gg.Bound(this) && setup.handle == handle
      ensures OccupiedSlots(colortex[..]) == [] ==>
        setup.draw == [NoAttachment] && setup.read == NoAttachment &&
        setup.viewport == Some(SizeOf(depthtex))
      ensures var occupied := OccupiedSlots(colortex[..]);
        occupied != [] ==>
          setup.draw == ColorAttachments(occupied) && setup.read == ColorAttachment(occupied[0]) &&
          setup.viewport == Some(SizeOf(colortex[occupied[|occupied| - 1]]))
    {
      var slots := OccupiedColorSlots();
      if |slots| == 0 {
        setup := DrawSetup(handle, [NoAttachment], NoAttachment, Some(SizeOf(depthtex)));
      } else {
        var tex := colortex[slots[|slots| - 1]];
        setup := DrawSetup(handle, ColorAttachments(slots), ColorAttachment(slots[0]), Some(SizeOf(tex)));
      }
      ghost var table := colortex[..];
      gg.currentfb := handle;
      assert colortex[..] == table;
    }

    /** GPU_framebuffer_slots_bind: an empty slot is reported and nothing
        happens; otherwise draws to every occupied slot and reads from `slot`. */
    method SlotsBind(slot: int, gg: Global) returns (setup: Option<DrawSetup>)
      requires Valid() && 0 <= slot < MaxSlots
      modifies gg
      ensures colortex[slot] == null ==> setup == None && unchanged(gg)
      ensures colortex[slot] != null ==>
        gg.Bound(this) &&
        setup == Some(DrawSetup(handle, ColorAttachments(OccupiedSlots(colortex[..])),
                                ColorAttachment(slot), Some(SizeOf(colortex[slot]))))
    {
      if colortex[slot] == null {
        // "Error, framebuffer slot empty!"
        return None;
      }
      var slots := OccupiedColorSlots();
      setup := Some(DrawSetup(handle, ColorAttachments(slots), ColorAttachment(slot), Some(SizeOf(colortex[slot]))));
      gg.currentfb := handle;
    }

    /** GPU_framebuffer_bind_no_save: draws to and reads from one slot. */
    method BindNoSave(slot: int, gg: Global) returns (setup: DrawSetup)
      requires Valid() && 0 <= slot < MaxSlots && colortex[slot] != null
      modifies gg
      ensures gg.Bound(this)
      ensures setup == DrawSetup(handle, [ColorAttachment(slot)], ColorAttachment(slot), Some(SizeOf(colortex[slot])))
    {
      setup := DrawSetup(handle, [ColorAttachment(slot)], ColorAttachment(slot), Some(SizeOf(colortex[slot])));
      gg.currentfb := handle;
    }

    /** GPU_framebuffer_bind_simple: draws to and reads from slot 0, viewport untouched. */
    method BindSimple(gg: Global) returns (setup: DrawSetup)
      modifies gg
      ensures gg.Bound(this)
      ensures setup == DrawSetup(handle, [ColorAttachment(0)], ColorAttachment(0), None)
    {
      setup := DrawSetup(handle, [ColorAttachment(0)], ColorAttachment(0), None);
      gg.currentfb := handle;
    }

    /** GPU_framebuffer_bind_all_attachments: draws to every occupied slot and
        reads from slot 0 whether or not it is occupied. */
    method BindAllAttachments(gg: Global) returns (setup: DrawSetup)
      requires Valid()
      modifies gg
      ensures gg.Bound(this)
      ensures setup == DrawSetup(handle, ColorAttachments(OccupiedSlots(colortex[..])), ColorAttachment(0), None)
    {
      var slots := OccupiedColorSlots();
      setup := DrawSetup(handle, ColorAttachments(slots), ColorAttachment(0), None);
      gg.currentfb := handle;
    }

    /** GPU_framebuffer_check_valid: binds, then asks the device; an
        incomplete status restores the default framebuffer and is reported. */
    method CheckValid(status: FramebufferStatus, gg: Global) returns (ok: bool, message: Option<string>)
      modifies gg
      ensures ok <==> status == Complete
      ensures ok ==> gg.Bound(this) && message == None
      ensures !ok ==> gg.currentfb == 0 && message == Some(StatusMessage(status))
    {
      gg.currentfb := handle;
      if status != Complete {
        gg.Restore();
        return false, Some(StatusMessage(status));
      }
      return true, None;
    }

    /** GPU_framebuffer_blit: copies from this framebuffer's texture onto
        dst's, the whole read rectangle onto the whole write rectangle
        (stretching), depth or colour, then binds the tracked framebuffer
        again and sets colour attachment 0 as the draw buffer. */
    method Blit(readSlot: int, dst: FrameBuffer, writeSlot: int, useDepth: bool, gg: Global)
      returns (call: FramebufferBlit)
      requires Valid() && dst.Valid()
      requires useDepth ==> depthtex != null && dst.depthtex != null
      requires !useDepth ==>
        0 <= readSlot < MaxSlots && 0 <= writeSlot < MaxSlots &&
        colortex[readSlot] != null && dst.colortex[writeSlot] != null
      ensures call.readFb == handle && call.drawFb == dst.handle
      ensures call.mask == if useDepth then DepthBufferBit else ColorBufferBit
      ensures useDepth ==>
        call.readBind == depthtex.bindcode && call.writeBind == dst.depthtex.bindcode
      ensures !useDepth ==>
        call.readBind == colortex[readSlot].bindcode && call.writeBind == dst.colortex[writeSlot].bindcode
      ensures useDepth ==>
        call.read == DepthAttachment && call.write == DepthAttachment &&
        call.source == SizeOf(depthtex) && call.target == SizeOf(dst.depthtex)
      ensures !useDepth ==>
        call.source == SizeOf(colortex[readSlot]) && call.target == SizeOf(dst.colortex[writeSlot])
      ensures !useDepth ==>
        call.read == ColorAttachment(colortex[readSlot].fbAttachment) &&
        call.write == ColorAttachment(dst.colortex[writeSlot].fbAttachment)
      ensures !useDepth && SlotsAgree() ==> call.read == ColorAttachment(readSlot)
      ensures !useDepth && dst.SlotsAgree() ==> call.write == ColorAttachment(writeSlot)
      ensures call.rebound == gg.currentfb && call.drawBuffer == ColorAttachment(0)
    {
      var readTex := if useDepth then depthtex else colortex[readSlot];
      var writeTex := if useDepth then dst.depthtex else dst.colortex[writeSlot];
      var readAttach := if useDepth then DepthAttachment else ColorAttachment(readTex.fbAttachment);
      var writeAttach := if useDepth then DepthAttachment else ColorAttachment(writeTex.fbAttachment);
      var mask := if useDepth then DepthBufferBit else ColorBufferBit;
      call := FramebufferBlit(handle, readTex.bindcode, readAttach, dst.handle, writeTex.bindcode, writeAttach,
                              SizeOf(readTex), SizeOf(writeTex), mask, gg.currentfb, ColorAttachment(0));
    }
  }

  /** GPU_framebuffer_create: a fresh framebuffer with empty slots, or none
      when the device cannot allocate an object. */
  method FrameBufferCreate(device: Device, genOk: bool, gg: Global) returns (fb: FrameBuffer?)
    requires device.Valid()
    modifies device, gg
    ensures device.Valid() && gg.currentfb == old(gg.currentfb)
    ensures fb == null <==> !genOk
    ensures fb == null ==> device.live == old(device.live)
    ensures fb != null ==>
      fresh(fb) && fresh(fb.colortex) && fresh(fb.colorrb) && fb.Valid() &&
      fb.NoTextures() && fb.NoRenderBuffers() && fb.SlotsAgree() &&
      fb.Textures() == {} && fb.RenderBuffers() == {} &&
      fb.handle != 0 && fb.handle !in old(device.live) &&
      device.live == old(device.live) + {fb.handle}
  {
    var name := device.Gen(genOk);
    fb := new FrameBuffer(name);
    assert fb.Textures() == {} && fb.RenderBuffers() == {};
    if name == 0 {
      // "framebuffer gen failed."
      fb.Free(gg, device);
      return null;
    }
  }
}
