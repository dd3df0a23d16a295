// Attach followed by detach, for every framebuffer and surface, and short
// runs of the framebuffer operations on fresh objects, showing what the slot
// table and the back-references hold after each step.

module Scenarios {
  import opened GL
  import opened Framebuffer

  /** A detached colour texture attached to an empty slot and detached again
      leaves the slot table as it was and the texture detached. */
  method TextureRoundTrip(fb: FrameBuffer, tex: Texture, slot: int, gg: Global)
    requires fb.Valid() && fb.TexturesAgree() && tex.fb == null && !tex.depth
    requires 0 <= slot < MaxSlots && fb.colortex[slot] == null
    modifies fb, fb.colortex, tex, gg
    ensures fb.colortex[..] == old(fb.colortex[..]) && fb.depthtex == old(fb.depthtex)
    ensures tex.fb == null && tex.fbAttachment == -1 && fb.TexturesAgree()
    ensures gg.Bound(fb)
  {
    var ok := fb.TextureAttach(tex, slot, gg);
    tex.Detach(gg);
    assert old(fb.colortex[..])[slot := tex][slot := null] == old(fb.colortex[..]);
  }

  /** The same for a depth texture and an empty depth point. */
  method DepthTextureRoundTrip(fb: FrameBuffer, tex: Texture, gg: Global)
    requires fb.Valid() && fb.TexturesAgree() && tex.fb == null && tex.depth && fb.depthtex == null
    modifies fb, fb.colortex, tex, gg
    ensures fb.colortex[..] == old(fb.colortex[..]) && fb.depthtex == null
    ensures tex.fb == null && tex.fbAttachment == -1 && fb.TexturesAgree()
    ensures gg.Bound(fb)
  {
    var ok := fb.TextureAttach(tex, 0, gg);
    tex.Detach(gg);
  }

  /** A detached colour renderbuffer attached to an empty slot and detached
      again: whether or not the device accepted the attach, the slot table
      is as it was and the renderbuffer is detached. */
  method RenderBufferRoundTrip(fb: FrameBuffer, rb: RenderBuffer, slot: int, glError: nat, gg: Global)
    requires fb.Valid() && fb.RenderBuffersAgree() && rb.fb == null && !rb.depth
    requires 0 <= slot < MaxSlots && fb.colorrb[slot] == null
    modifies fb, fb.colorrb, rb, gg
    ensures fb.colorrb[..] == old(fb.colorrb[..]) && fb.depthrb == old(fb.depthrb)
    ensures rb.fb == null && fb.RenderBuffersAgree()
  {
    var ok, message := fb.RenderBufferAttach(rb, slot, glError, gg);
    rb.Detach(gg);
    assert old(fb.colorrb[..])[slot := rb][slot := null] == old(fb.colorrb[..]);
  }

  /** The same for a depth renderbuffer and an empty depth point. */
  method DepthRenderBufferRoundTrip(fb: FrameBuffer, rb: RenderBuffer, glError: nat, gg: Global)
    requires fb.Valid() && fb.RenderBuffersAgree() && rb.fb == null && rb.depth && fb.depthrb == null
    modifies fb, fb.colorrb, rb, gg
    ensures fb.colorrb[..] == old(fb.colorrb[..]) && fb.depthrb == null
    ensures rb.fb == null && fb.RenderBuffersAgree()
  {
    var ok, message := fb.RenderBufferAttach(rb, 0, glError, gg);
    rb.Detach(gg);
  }

  /** A colour texture attached at slot 3 and detached again: the slot table
      is empty once more, the texture is free, and the framebuffer stays the
      tracked one. */
  method AttachThenDetach() returns (fb: FrameBuffer, tex: Texture, gg: Global)
    ensures fb.Valid() && fb.NoTextures() && fb.TexturesAgree()
    ensures tex.fb == null && tex.fbAttachment == -1
    ensures gg.currentfb == fb.handle == 1
  {
    gg := new Global();
    fb := new FrameBuffer(1);
    tex := new Texture(2, 64, 64, false, false, false);
    var ok := fb.TextureAttach(tex, 3, gg);
    assert fb.colortex[3] == tex && fb.TexturesAgree();
    tex.Detach(gg);
    assert forall i :: 0 <= i < MaxSlots ==> fb.colortex[i] == fb.colortex[..][i];
  }

  /** Attaching a texture that is already attached elsewhere re-points its
      back-reference without detaching it: the first framebuffer keeps the
      texture in its slot, no longer agreeing with it, and a later detach
      clears the second framebuffer's slot only, leaving the second one bound
      (as the detach loop of GPU_framebuffer_free would on the first). */
  method ReattachLeavesStaleSlot() returns (first: FrameBuffer, second: FrameBuffer, tex: Texture, gg: Global)
    ensures first.Valid() && second.Valid()
    ensures first.colortex[0] == tex && second.colortex[1] == null
    ensures tex.fb == null && !first.TexturesAgree()
    ensures gg.Bound(second) && !gg.Bound(first)
  {
    gg := new Global();
    first := new FrameBuffer(1);
    second := new FrameBuffer(2);
    tex := new Texture(3, 64, 64, false, false, false);
    var ok := first.TextureAttach(tex, 0, gg);
    ok := second.TextureAttach(tex, 1, gg);
    assert first.colortex[0] == tex && tex.fb == second;
    tex.Detach(gg);
  }

  /** Freeing a framebuffer with a texture attached detaches the texture,
      gives the framebuffer's name back and leaves the default framebuffer
      bound, since it was the tracked one. */
  method FreeDetaches() returns (tex: Texture, device: Device, gg: Global)
    ensures tex.fb == null && tex.fbAttachment == -1
    ensures device.Valid() && device.live == {tex.bindcode}
    ensures gg.currentfb == 0
  {
    device := new Device();
    gg := new Global();
    var fb := FrameBufferCreate(device, true, gg);
    tex := TextureCreate(64, 64, false, 0, device, true);
    var ok := fb.TextureAttach(tex, 0, gg);
    assert fb.colortex[..][0] == tex;
    assert fb.SlotsAgree() && tex in fb.Textures();
    fb.Free(gg, device);
  }
}
