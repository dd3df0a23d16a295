// GPUOffScreen: a framebuffer together with the colour and depth surfaces
// it owns, built all-or-nothing, plus its size queries, blit and readback.

module Offscreen {
  import opened GL
  import opened Framebuffer

  /** The device extensions the sample clamp consults:
      GL_EXT_framebuffer_multisample, GL_ARB_texture_multisample,
      GL_EXT_framebuffer_blit. */
  datatype Capabilities = Capabilities(
    framebufferMultisample: bool, textureMultisample: bool, framebufferBlit: bool)

  /** The GPU_OFFSCREEN_* mode flags: renderbuffer-backed colour, renderbuffer-
      backed depth (texture-backed otherwise), depth compare mode. */
  datatype Mode = Mode(renderbufferColor: bool, renderbufferDepth: bool, depthCompare: bool)

  /** The device's answers during GPU_offscreen_create, in call order: the
      framebuffer name, the colour surface, the glGetError after a colour
      renderbuffer attach, the depth surface, the glGetError after a depth
      renderbuffer attach, and the completeness status. */
  datatype CreateResponses = CreateResponses(
    framebufferGen: bool, colorAlloc: bool, colorAttachError: nat,
    depthAlloc: bool, depthAttachError: nat, status: FramebufferStatus)

  /** Whether the colour and depth surfaces are allocated and attached. */
  predicate SurfacesSucceed(mode: Mode, responses: CreateResponses)
  {
    responses.colorAlloc &&
    (mode.renderbufferColor ==> responses.colorAttachError != InvalidOperation) &&
    responses.depthAlloc &&
    (mode.renderbufferDepth ==> responses.depthAttachError != InvalidOperation)
  }

  /** Whether every step of the creation goes through. */
  predicate CreateSucceeds(mode: Mode, responses: CreateResponses)
  {
    responses.framebufferGen && SurfacesSucceed(mode, responses) && responses.status == Complete
  }

  /** The device's answers during the multisample path of GPU_offscreen_read_pixels. */
  datatype ReadResponses = ReadResponses(textureGen: bool, framebufferGen: bool, status: FramebufferStatus)

  /** Whether glReadPixels ran, on the temporary single-sample copy or on the
      offscreen itself, and on which rectangle. */
  datatype PixelRead = NotRead | Read(fromTemporary: bool, size: Size)

  /** The glBlitFramebuffer call of GPU_offscreen_blit. */
  datatype OffscreenBlitCall = OffscreenBlitCall(read: Name, draw: Name, size: Size, mask: bv32)

  /** The sample count GPU_offscreen_create keeps: a multisample request is
      dropped to 0 when the device lacks framebuffer multisampling, lacks
      texture multisampling while a texture is involved, or lacks blitting. */
  function ClampSamples(samples: int, caps: Capabilities, mode: Mode): (r: int)
    ensures r == samples || r == 0
  {
    if samples != 0 &&
       (!caps.framebufferMultisample ||
        (!caps.textureMultisample && (!mode.renderbufferColor || !mode.renderbufferDepth)) ||
        !caps.framebufferBlit)
    then 0
    else samples
  }

  /** Clamping a clamped count changes nothing. */
  lemma ClampSamplesIdempotent(samples: int, caps: Capabilities, mode: Mode)
    ensures ClampSamples(ClampSamples(samples, caps, mode), caps, mode) == ClampSamples(samples, caps, mode)
  {
  }

  /** Without framebuffer multisampling or without blitting, every request
      is single-sampled, whatever the mode. */
  lemma ClampSamplesMissingExtension(samples: int, caps: Capabilities, mode: Mode)
    requires !caps.framebufferMultisample || !caps.framebufferBlit
    ensures ClampSamples(samples, caps, mode) == 0
  {
  }

  /** With every extension the request is kept. */
  lemma ClampSamplesFullSupport(samples: int, mode: Mode)
    ensures ClampSamples(samples, Capabilities(true, true, true), mode) == samples
  {
  }

  /** Renderbuffer-only offscreens do not need texture multisampling. */
  lemma ClampSamplesRenderbuffersOnly(samples: int, caps: Capabilities, depthCompare: bool)
    requires caps.framebufferMultisample && caps.framebufferBlit
    ensures ClampSamples(samples, caps, Mode(true, true, depthCompare)) == samples
  {
  }

  /** A texture-backed offscreen on a device without texture multisampling is
      single-sampled, whatever was asked for. */
  lemma ClampSamplesTextureWithoutSupport(samples: int, caps: Capabilities, mode: Mode)
    requires !caps.textureMultisample && !(mode.renderbufferColor && mode.renderbufferDepth)
    ensures ClampSamples(samples, caps, mode) == 0
  {
  }

  /** The glBlitFramebuffer mask: the colour bit exactly when colour is
      copied, the depth bit exactly when depth is, nothing else. */
  function BlitMask(color: bool, depth: bool): (mask: bv32)
    ensures (mask & ColorBufferBit != 0) <==> color
    ensures (mask & DepthBufferBit != 0) <==> depth
    ensures mask & !(ColorBufferBit | DepthBufferBit) == 0
  {
    (if color then ColorBufferBit else 0) | (if depth then DepthBufferBit else 0)
  }

  function Min(a: int, b: int): int
  {
    if a < b then a else b
  }

  /** GPUOffScreen */
  class OffScreen {
    var fb: FrameBuffer?
    var color: Texture?
    var depth: Texture?
    var rbcolor: RenderBuffer?
    var rbdepth: RenderBuffer?
    var samples: int

    /** The zero-filled record the creation starts from. */
    constructor ()
      ensures fb == null && color == null && depth == null && rbcolor == null && rbdepth == null
      ensures samples == 0
    {
      fb := null;
      color := null;
      depth := null;
      rbcolor := null;
      rbdepth := null;
      samples := 0;
    }

    /** GPU_offscreen_width: the colour texture's, else the colour
        renderbuffer's, else 0. */
    function Width(): int
      reads this
    {
      if color != null then color.width else if rbcolor != null then rbcolor.width else 0
    }

    /** GPU_offscreen_height */
    function Height(): int
      reads this
    {
      if color != null then color.height else if rbcolor != null then rbcolor.height else 0
    }

    /** GPU_offscreen_samples */
    function Samples(): int
      reads this
    {
      samples
    }

    /** The device names of everything the offscreen owns. */
    ghost function Handles(): set<Name>
      reads this
    {
      (if fb == null then {} else {fb.handle}) + SurfaceHandles()
    }

    /** The device names of the owned textures and renderbuffers. */
    ghost function SurfaceHandles(): set<Name>
      reads this
    {
      ColorHandles() + DepthHandles()
    }

    /** The device name of the colour surface, texture or renderbuffer. */
    ghost function ColorHandles(): set<Name>
      reads this`color, this`rbcolor
    {
      (if color == null then {} else {color.bindcode}) + (if rbcolor == null then {} else {rbcolor.bindcode})
    }

    /** The device name of the depth surface, texture or renderbuffer. */
    ghost function DepthHandles(): set<Name>
      reads this`depth, this`rbdepth
    {
      (if depth == null then {} else {depth.bindcode}) + (if rbdepth == null then {} else {rbdepth.bindcode})
    }

    /** The surfaces the offscreen owns. */
    ghost function OwnedTextures(): set<Texture>
      reads this
    {
      (if color == null then {} else {color}) + (if depth == null then {} else {depth})
    }

    ghost function OwnedRenderBuffers(): set<RenderBuffer>
      reads this
    {
      (if rbcolor == null then {} else {rbcolor}) + (if rbdepth == null then {} else {rbdepth})
    }

    /** The device holds exactly `base` plus the offscreen's own names. */
    ghost predicate Accounted(device: Device, base: set<Name>)
      reads this, device
    {
      device.live == base + Handles() && Handles() !! base
    }

    /** The framebuffer exists, its tables agree with the surfaces'
        back-references, and it holds only surfaces the offscreen owns. */
    ghost predicate Consistent()
      reads this, fb, if fb == null then {} else {fb.colortex, fb.colorrb}
      reads if fb == null then {} else fb.Textures()
      reads if fb == null then {} else fb.RenderBuffers()
    {
      fb != null && fb.SlotsAgree() &&
      fb.Textures() <= OwnedTextures() && fb.RenderBuffers() <= OwnedRenderBuffers()
    }

    /** The colour role holds the surface the mode asks for at slot 0,
        sized as requested, and the other kind's slot 0 is empty. */
    ghost predicate ColorFormed(renderbuffer: bool, width: int, height: int)
      reads this, fb, if fb == null then {} else {fb.colortex, fb.colorrb}
    {
      fb != null && fb.Valid() &&
      if renderbuffer then
        color == null && rbcolor != null && fb.colorrb[0] == rbcolor && fb.colortex[0] == null &&
        rbcolor.samples == samples && rbcolor.width == width && rbcolor.height == height
      else
        rbcolor == null && color != null && fb.colortex[0] == color && fb.colorrb[0] == null &&
        color.multisample == (samples > 0) && color.width == width && color.height == height
    }

    /** The depth role holds the surface the mode asks for at the depth
        point, and the other kind's depth point is empty. */
    ghost predicate DepthFormed(renderbuffer: bool)
      reads this, fb
    {
      fb != null &&
      if renderbuffer then
        depth == null && rbdepth != null && fb.depthrb == rbdepth && fb.depthtex == null
      else
        rbdepth == null && depth != null && fb.depthtex == depth && fb.depthrb == null
    }

    /** Both roles as the mode asks. */
    ghost predicate Formed(mode: Mode, width: int, height: int)
      reads this, fb, if fb == null then {} else {fb.colortex, fb.colorrb}
    {
      ColorFormed(mode.renderbufferColor, width, height) && DepthFormed(mode.renderbufferDepth)
    }

    /** A formed offscreen reports the size it was asked for
        (GPU_offscreen_width / GPU_offscreen_height). */
    lemma FormedSize(mode: Mode, width: int, height: int)
      requires Formed(mode, width, height)
      ensures Width() == width && Height() == height
    {
    }

    /** GPU_offscreen_free: frees the framebuffer (detaching whatever it
        holds), then the owned surfaces; every owned name goes back. */
    method Free(gg: Global, device: Device)
      requires device.Valid()
      requires fb == null || Consistent()
      modifies if fb == null then {} else {fb, fb.colortex, fb.colorrb}
      modifies OwnedTextures(), OwnedRenderBuffers(), gg, device
      ensures device.Valid() && device.live == old(device.live) - old(Handles())
      ensures fb != null ==> fb.NoTextures() && fb.NoRenderBuffers()
      ensures gg.currentfb == 0 ||
              (gg.currentfb == old(gg.currentfb) && (fb != null ==> gg.currentfb != fb.handle))
    {
      if fb != null {
        fb.Free(gg, device);
      }
      FreeSurfaces(device);
    }

    /** The surface half of GPU_offscreen_free: each owned texture and
        renderbuffer gives its name back. */
    method FreeSurfaces(device: Device)
      requires device.Valid()
      modifies device
      ensures device.Valid() && device.live == old(device.live) - SurfaceHandles()
    {
      if color != null {
        color.Free(device);
      }
      if depth != null {
        depth.Free(device);
      }
      if rbcolor != null {
        rbcolor.Free(device);
      }
      if rbdepth != null {
        rbdepth.Free(device);
      }
    }

    /** GPU_offscreen_bind: with `save`, binds through the colour texture;
        without, binds slot 0 of the framebuffer directly. */
    method Bind(save: bool, gg: Global) returns (setup: Option<DrawSetup>)
      requires save ==> color != null
      requires !save ==> fb != null && fb.Valid() && fb.colortex[0] != null
      modifies gg
      ensures save && color.fb == null ==> setup == None && unchanged(gg)
      ensures save && color.fb != null && !color.depth ==>
        gg.currentfb == color.fb.handle &&
        setup == Some(DrawSetup(color.fb.handle, [ColorAttachment(color.fbAttachment)],
                                ColorAttachment(color.fbAttachment), Some(SizeOf(color))))
      ensures !save ==>
        gg.Bound(fb) &&
        setup == Some(DrawSetup(fb.handle, [ColorAttachment(0)], ColorAttachment(0), Some(SizeOf(fb.colortex[0]))))
    {
      if save {
        setup := color.BindAsFramebuffer(gg);
      } else {
        var s := fb.BindNoSave(0, gg);
        setup := Some(s);
      }
    }

    /** GPU_offscreen_unbind: back to the default framebuffer. */
    method Unbind(restore: bool, gg: Global)
      modifies gg
      ensures gg.currentfb == 0
    {
      gg.Restore();
    }

    /** GPU_offscreen_bind_simple */
    method BindSimple(gg: Global) returns (setup: DrawSetup)
      requires fb != null
      modifies gg
      ensures gg.Bound(fb)
      ensures setup == DrawSetup(fb.handle, [ColorAttachment(0)], ColorAttachment(0), None)
    {
      setup := fb.BindSimple(gg);
    }

    /** GPU_offscreen_read_pixels: a single-sample colour texture is read
        directly; a multisample one is first resolved into a temporary
        texture and framebuffer, which are released on every path. */
    method ReadPixels(device: Device, responses: ReadResponses) returns (result: PixelRead)
      requires color != null && device.Valid()
      modifies device
      ensures device.Valid() && device.live == old(device.live)
      ensures !color.multisample ==> result == Read(false, SizeOf(color))
      ensures color.multisample ==>
        (result.Read? <==> responses.textureGen && responses.status == Complete)
      ensures color.multisample && result.Read? ==> result == Read(true, SizeOf(color))
    {
      var size := SizeOf(color);
      if color.multisample {
        var texBlit := device.Gen(responses.textureGen);
        var fboBlit: Name := 0;
        result := NotRead;
        if texBlit != 0 {
          // the framebuffer name is not checked; what the device answers
          // for the status, with or without a name, is left free
          fboBlit := device.Gen(responses.framebufferGen);
          if responses.status == Complete {
            result := Read(true, size);
          }
        }
        // finally: cleanup
        if texBlit != 0 {
          device.Delete(texBlit);
        }
        if fboBlit != 0 {
          device.Delete(fboBlit);
        }
      } else {
        result := Read(false, size);
      }
    }

    /** GPU_offscreen_blit: copies the rectangle both offscreens cover,
        colour and/or depth, and leaves the destination bound. */
    method Blit(dst: OffScreen, copyColor: bool, copyDepth: bool, gg: Global) returns (call: OffscreenBlitCall)
      requires copyColor || copyDepth
      requires fb != null && dst.fb != null
      modifies gg
      ensures call.read == fb.handle && call.draw == dst.fb.handle
      ensures call.size == Size(Min(Width(), dst.Width()), Min(Height(), dst.Height()))
      ensures call.mask == BlitMask(copyColor, copyDepth)
      ensures gg.Bound(dst.fb)
    {
      var height := Min(Height(), dst.Height());
      var width := Min(Width(), dst.Width());
      var mask: bv32 := 0;
      if copyColor {
        mask := mask | ColorBufferBit;
      }
      if copyDepth {
        mask := mask | DepthBufferBit;
      }
      call := OffscreenBlitCall(fb.handle, dst.fb.handle, Size(width, height), mask);
      var _ := dst.fb.BindSimple(gg);
    }
  }

  /** Allocates a texture and attaches it to `fb`, at colour slot 0 or at
      the depth point. */
  method AttachNewTexture(
    fb: FrameBuffer, width: int, height: int, depth: bool, samples: int,
    device: Device, alloc: bool, gg: Global)
    returns (tex: Texture?)
    requires device.Valid() && fb.SlotsAgree()
    modifies fb`depthtex, fb.colortex, device, gg
    ensures device.Valid() && fb.SlotsAgree()
    ensures tex == null <==> !alloc
    ensures tex == null ==> device.live == old(device.live) && unchanged(gg, fb`depthtex, fb.colortex)
    ensures tex != null ==>
      fresh(tex) && tex.bindcode !in old(device.live) && device.live == old(device.live) + {tex.bindcode} &&
      tex.width == width && tex.height == height && tex.depth == depth && tex.multisample == (samples > 0) &&
      gg.Bound(fb) && fb.Textures() <= old(fb.Textures()) + {tex}
    ensures tex != null && depth ==> fb.depthtex == tex && fb.colortex[..] == old(fb.colortex[..])
    ensures tex != null && !depth ==> fb.depthtex == old(fb.depthtex) && fb.colortex[..] == old(fb.colortex[..])[0 := tex]
  {
    tex := TextureCreate(width, height, depth, samples, device, alloc);
    if tex != null {
      // slot 0 is always accepted
      var _ := fb.TextureAttach(tex, 0, gg);
    }
  }

  /** Allocates a renderbuffer and attaches it to `fb`, at colour slot 0 or
      at the depth point; `attached` is false when the device refused the
      attach, in which case the renderbuffer exists but is not recorded. */
  method AttachNewRenderBuffer(
    fb: FrameBuffer, width: int, height: int, samples: int, dataType: TextureFormat,
    kind: RenderBufferType, device: Device, alloc: bool, glError: nat, gg: Global)
    returns (rb: RenderBuffer?, attached: bool)
    requires device.Valid() && fb.SlotsAgree()
    modifies fb`depthrb, fb.colorrb, device, gg
    ensures device.Valid() && fb.SlotsAgree()
    ensures rb == null <==> !alloc
    ensures attached <==> alloc && glError != InvalidOperation
    ensures rb == null ==> device.live == old(device.live) && unchanged(gg, fb`depthrb, fb.colorrb)
    ensures rb != null ==>
      fresh(rb) && rb.bindcode !in old(device.live) && device.live == old(device.live) + {rb.bindcode} &&
      rb.width == width && rb.height == height && rb.samples == samples && rb.depth == (kind == DepthBuffer) &&
      (gg.currentfb == 0 || gg.Bound(fb)) && fb.RenderBuffers() <= old(fb.RenderBuffers()) + {rb}
    ensures !attached ==> unchanged(fb`depthrb, fb.colorrb)
    ensures attached && kind == DepthBuffer ==> fb.depthrb == rb && fb.colorrb[..] == old(fb.colorrb[..])
    ensures attached && kind == ColorBuffer ==>
      fb.depthrb == old(fb.depthrb) && fb.colorrb[..] == old(fb.colorrb[..])[0 := rb]
  {
    rb := RenderBufferCreate(width, height, samples, dataType, kind, device, alloc);
    attached := false;
    if rb != null {
      var message;
      attached, message := fb.RenderBufferAttach(rb, 0, glError, gg);
    }
  }

  /** The colour step of GPU_offscreen_create with GPU_OFFSCREEN_RENDERBUFFER_COLOR:
      a colour renderbuffer at slot 0; the device may refuse its storage at
      attach time. */
  method ColorRenderBufferStep(
    ofs: OffScreen, width: int, height: int, dataType: TextureFormat,
    alloc: bool, glError: nat, device: Device, gg: Global, ghost gg0: Name)
    returns (ok: bool)
    requires device.Valid() && ofs.Consistent() && ofs.fb.NoTextures() && ofs.fb.NoRenderBuffers()
    requires ofs.color == null && ofs.depth == null && ofs.rbcolor == null && ofs.rbdepth == null
    requires gg.currentfb == 0 || gg.currentfb == gg0 || gg.currentfb == ofs.fb.handle
    modifies ofs`rbcolor, ofs.fb`depthrb, ofs.fb.colorrb, device, gg
    ensures device.Valid() && ofs.Consistent()
    ensures gg.currentfb == 0 || gg.currentfb == gg0 || gg.currentfb == ofs.fb.handle
    ensures device.live == old(device.live) + ofs.ColorHandles() && ofs.ColorHandles() !! old(device.live)
    ensures ofs.rbcolor != null ==> fresh(ofs.rbcolor)
    ensures ok <==> alloc && glError != InvalidOperation
    ensures ok ==> ofs.ColorFormed(true, width, height) && ofs.fb.depthtex == null && ofs.fb.depthrb == null
  {
    ofs.rbcolor, ok := AttachNewRenderBuffer(ofs.fb, width, height, ofs.samples, dataType, ColorBuffer, device, alloc, glError, gg);
  }

  /** The colour step of GPU_offscreen_create without it: a colour texture,
      multisampled when the sample count is positive, at slot 0. */
  method ColorTextureStep(
    ofs: OffScreen, width: int, height: int,
    alloc: bool, device: Device, gg: Global, ghost gg0: Name)
    returns (ok: bool)
    requires device.Valid() && ofs.Consistent() && ofs.fb.NoTextures() && ofs.fb.NoRenderBuffers()
    requires ofs.color == null && ofs.depth == null && ofs.rbcolor == null && ofs.rbdepth == null
    requires gg.currentfb == 0 || gg.currentfb == gg0 || gg.currentfb == ofs.fb.handle
    modifies ofs`color, ofs.fb`depthtex, ofs.fb.colortex, device, gg
    ensures device.Valid() && ofs.Consistent()
    ensures gg.currentfb == 0 || gg.currentfb == gg0 || gg.currentfb == ofs.fb.handle
    ensures device.live == old(device.live) + ofs.ColorHandles() && ofs.ColorHandles() !! old(device.live)
    ensures ofs.color != null ==> fresh(ofs.color)
    ensures ok <==> alloc
    ensures ok ==> ofs.ColorFormed(false, width, height) && ofs.fb.depthtex == null && ofs.fb.depthrb == null
  {
    ofs.color := AttachNewTexture(ofs.fb, width, height, false, ofs.samples, device, alloc, gg);
    ok := ofs.color != null;
  }

  /** The depth step of GPU_offscreen_create with GPU_OFFSCREEN_RENDERBUFFER_DEPTH:
      a depth renderbuffer at the depth point; the device may refuse its
      storage at attach time.  The colour role is left as it was. */
  method DepthRenderBufferStep(
    ofs: OffScreen, width: int, height: int, dataType: TextureFormat,
    alloc: bool, glError: nat, device: Device, gg: Global, ghost gg0: Name, ghost colorRenderbuffer: bool)
    returns (ok: bool)
    requires device.Valid() && ofs.Consistent() && ofs.ColorFormed(colorRenderbuffer, width, height)
    requires ofs.fb.depthtex == null && ofs.fb.depthrb == null && ofs.depth == null && ofs.rbdepth == null
    requires gg.currentfb == 0 || gg.currentfb == gg0 || gg.currentfb == ofs.fb.handle
    modifies ofs`rbdepth, ofs.fb`depthrb, ofs.fb.colorrb, device, gg
    ensures device.Valid() && ofs.Consistent() && ofs.ColorFormed(colorRenderbuffer, width, height)
    ensures gg.currentfb == 0 || gg.currentfb == gg0 || gg.currentfb == ofs.fb.handle
    ensures device.live == old(device.live) + ofs.DepthHandles() && ofs.DepthHandles() !! old(device.live)
    ensures ofs.rbdepth != null ==> fresh(ofs.rbdepth)
    ensures ok <==> alloc && glError != InvalidOperation
    ensures ok ==> ofs.DepthFormed(true)
  {
    ofs.rbdepth, ok := AttachNewRenderBuffer(ofs.fb, width, height, ofs.samples, dataType, DepthBuffer, device, alloc, glError, gg);
  }

  /** The depth step of GPU_offscreen_create without it: a depth texture at
      the depth point.  The colour role is left as it was. */
  method DepthTextureStep(
    ofs: OffScreen, width: int, height: int,
    alloc: bool, device: Device, gg: Global, ghost gg0: Name, ghost colorRenderbuffer: bool)
    returns (ok: bool)
    requires device.Valid() && ofs.Consistent() && ofs.ColorFormed(colorRenderbuffer, width, height)
    requires ofs.fb.depthtex == null && ofs.fb.depthrb == null && ofs.depth == null && ofs.rbdepth == null
    requires gg.currentfb == 0 || gg.currentfb == gg0 || gg.currentfb == ofs.fb.handle
    modifies ofs`depth, ofs.fb`depthtex, ofs.fb.colortex, device, gg
    ensures device.Valid() && ofs.Consistent() && ofs.ColorFormed(colorRenderbuffer, width, height)
    ensures gg.currentfb == 0 || gg.currentfb == gg0 || gg.currentfb == ofs.fb.handle
    ensures device.live == old(device.live) + ofs.DepthHandles() && ofs.DepthHandles() !! old(device.live)
    ensures ofs.depth != null ==> fresh(ofs.depth)
    ensures ok <==> alloc
    ensures ok ==> ofs.DepthFormed(false)
  {
    ofs.depth := AttachNewTexture(ofs.fb, width, height, true, ofs.samples, device, alloc, gg);
    ok := ofs.depth != null;
  }

  /** The colour step, as the mode chooses it. */
  method ColorStep(
    ofs: OffScreen, width: int, height: int, dataType: TextureFormat, mode: Mode,
    responses: CreateResponses, device: Device, gg: Global, ghost gg0: Name)
    returns (ok: bool)
    requires device.Valid() && ofs.Consistent() && ofs.fb.NoTextures() && ofs.fb.NoRenderBuffers()
    requires ofs.color == null && ofs.depth == null && ofs.rbcolor == null && ofs.rbdepth == null
    requires gg.currentfb == 0 || gg.currentfb == gg0 || gg.currentfb == ofs.fb.handle
    modifies ofs`color, ofs`rbcolor, ofs.fb`depthtex, ofs.fb`depthrb, ofs.fb.colortex, ofs.fb.colorrb
    modifies device, gg
    ensures device.Valid() && ofs.Consistent()
    ensures gg.currentfb == 0 || gg.currentfb == gg0 || gg.currentfb == ofs.fb.handle
    ensures device.live == old(device.live) + ofs.ColorHandles() && ofs.ColorHandles() !! old(device.live)
    ensures ofs.color != null ==> fresh(ofs.color)
    ensures ofs.rbcolor != null ==> fresh(ofs.rbcolor)
    ensures ok <==> responses.colorAlloc &&
                    (mode.renderbufferColor ==> responses.colorAttachError != InvalidOperation)
    ensures ok ==>
      ofs.ColorFormed(mode.renderbufferColor, width, height) && ofs.fb.depthtex == null && ofs.fb.depthrb == null
  {
    if mode.renderbufferColor {
      ok := ColorRenderBufferStep(ofs, width, height, dataType,
                                  responses.colorAlloc, responses.colorAttachError, device, gg, gg0);
    } else {
      ok := ColorTextureStep(ofs, width, height, responses.colorAlloc, device, gg, gg0);
    }
  }

  /** The depth step, as the mode chooses it. */
  method DepthStep(
    ofs: OffScreen, width: int, height: int, dataType: TextureFormat, mode: Mode,
    responses: CreateResponses, device: Device, gg: Global, ghost gg0: Name)
    returns (ok: bool)
    requires device.Valid() && ofs.Consistent() && ofs.ColorFormed(mode.renderbufferColor, width, height)
    requires ofs.fb.depthtex == null && ofs.fb.depthrb == null && ofs.depth == null && ofs.rbdepth == null
    requires gg.currentfb == 0 || gg.currentfb == gg0 || gg.currentfb == ofs.fb.handle
    modifies ofs`depth, ofs`rbdepth, ofs.fb`depthtex, ofs.fb`depthrb, ofs.fb.colortex, ofs.fb.colorrb
    modifies device, gg
    ensures device.Valid() && ofs.Consistent()
    ensures gg.currentfb == 0 || gg.currentfb == gg0 || gg.currentfb == ofs.fb.handle
    ensures device.live == old(device.live) + ofs.DepthHandles() && ofs.DepthHandles() !! old(device.live)
    ensures ofs.depth != null ==> fresh(ofs.depth)
    ensures ofs.rbdepth != null ==> fresh(ofs.rbdepth)
    ensures ok <==> responses.depthAlloc &&
                    (mode.renderbufferDepth ==> responses.depthAttachError != InvalidOperation)
    ensures ok ==> ofs.Formed(mode, width, height)
  {
    if mode.renderbufferDepth {
      ok := DepthRenderBufferStep(ofs, width, height, dataType,
                                  responses.depthAlloc, responses.depthAttachError, device, gg, gg0,
                                  mode.renderbufferColor);
    } else {
      ok := DepthTextureStep(ofs, width, height, responses.depthAlloc, device, gg, gg0, mode.renderbufferColor);
    }
  }

  /** Names handed out in two rounds, each disjoint from what was live. */
  lemma AddNames(live0: set<Name>, live1: set<Name>, live2: set<Name>, first: set<Name>, second: set<Name>)
    requires live1 == live0 + first && first !! live0
    requires live2 == live1 + second && second !! live1
    ensures live2 == live0 + (first + second) && (first + second) !! live0
  {
  }

  /** The surface steps of GPU_offscreen_create: colour, then depth (only
      if colour went through).  Whatever was allocated is recorded in the
      offscreen, so that freeing it releases every name. */
  method BuildSurfaces(
    ofs: OffScreen, width: int, height: int, dataType: TextureFormat, mode: Mode,
    responses: CreateResponses, device: Device, gg: Global, ghost gg0: Name)
    returns (ok: bool)
    requires device.Valid() && ofs.Consistent() && ofs.fb.NoTextures() && ofs.fb.NoRenderBuffers()
    requires ofs.color == null && ofs.depth == null && ofs.rbcolor == null && ofs.rbdepth == null
    requires gg.currentfb == 0 || gg.currentfb == gg0 || gg.currentfb == ofs.fb.handle
    modifies ofs`color, ofs`depth, ofs`rbcolor, ofs`rbdepth
    modifies ofs.fb`depthtex, ofs.fb`depthrb, ofs.fb.colortex, ofs.fb.colorrb, device, gg
    ensures device.Valid() && ofs.Consistent()
    ensures gg.currentfb == 0 || gg.currentfb == gg0 || gg.currentfb == ofs.fb.handle
    ensures device.live == old(device.live) + ofs.SurfaceHandles()
    ensures ofs.SurfaceHandles() !! old(device.live)
    ensures ofs.color != null ==> fresh(ofs.color)
    ensures ofs.depth != null ==> fresh(ofs.depth)
    ensures ofs.rbcolor != null ==> fresh(ofs.rbcolor)
    ensures ofs.rbdepth != null ==> fresh(ofs.rbdepth)
    ensures ok <==> SurfacesSucceed(mode, responses)
    ensures ok ==> ofs.Formed(mode, width, height)
  {
    ghost var live := device.live;
    ok := ColorStep(ofs, width, height, dataType, mode, responses, device, gg, gg0);
    ghost var afterColor := device.live;
    if !ok {
      AddNames(live, afterColor, afterColor, ofs.ColorHandles(), {});
      return;
    }
    ok := DepthStep(ofs, width, height, dataType, mode, responses, device, gg, gg0);
    AddNames(live, afterColor, device.live, ofs.ColorHandles(), ofs.DepthHandles());
  }

  /** The completeness check of GPU_offscreen_create; when it passes, the
      default framebuffer is restored.  Only the binding changes. */
  method CheckAndRestore(
    ofs: OffScreen, status: FramebufferStatus, gg: Global,
    ghost mode: Mode, ghost width: int, ghost height: int)
    returns (created: bool)
    requires ofs.Consistent() && ofs.Formed(mode, width, height)
    modifies gg
    ensures created <==> status == Complete
    ensures ofs.Consistent() && ofs.Formed(mode, width, height) && gg.currentfb == 0
  {
    var message;
    created, message := ofs.fb.CheckValid(status, gg);
    if created {
      gg.Restore();
    }
  }

  /** The tail of GPU_offscreen_create: when the surfaces went through, the
      completeness check; on any failure the offscreen is freed, otherwise
      the default framebuffer is restored and nothing else changes. */
  method FinishCreate(
    ofs: OffScreen, built: bool, status: FramebufferStatus, device: Device, gg: Global,
    ghost gg0: Name, ghost base: set<Name>, ghost mode: Mode, ghost width: int, ghost height: int)
    returns (created: bool)
    requires device.Valid() && ofs.Consistent() && ofs.Accounted(device, base)
    requires built ==> ofs.Formed(mode, width, height)
    requires gg.currentfb == 0 || gg.currentfb == gg0 || gg.currentfb == ofs.fb.handle
    modifies ofs.fb, ofs.fb.colortex, ofs.fb.colorrb, ofs.OwnedTextures(), ofs.OwnedRenderBuffers()
    modifies gg, device
    ensures device.Valid() && unchanged(ofs)
    ensures created <==> built && status == Complete
    ensures !created ==> device.live == base && (gg.currentfb == 0 || gg.currentfb == gg0)
    ensures created ==>
      ofs.Consistent() && ofs.Formed(mode, width, height) && ofs.Accounted(device, base) && gg.currentfb == 0
  {
    created := false;
    if built {
      created := CheckAndRestore(ofs, status, gg, mode, width, height);
    }
    if !created {
      ofs.Free(gg, device);
    }
  }

  /** GPU_offscreen_create, with each surface attached to its own role:
      either every step succeeds and the offscreen is returned, unbound, with
      the surfaces its mode asks for, or every name allocated on the way is
      released and there is no offscreen. */
  method OffscreenCreate(
    width: int, height: int, samples: int, dataType: TextureFormat, mode: Mode,
    caps: Capabilities, responses: CreateResponses, device: Device, gg: Global)
    returns (ofs: OffScreen?)
    requires device.Valid()
    modifies device, gg
    ensures device.Valid()
    ensures ofs != null <==> CreateSucceeds(mode, responses)
    ensures ofs == null ==>
      device.live == old(device.live) && (gg.currentfb == 0 || gg.currentfb == old(gg.currentfb))
    ensures ofs != null ==>
      fresh(ofs) && fresh(ofs.fb) && ofs.Consistent() && ofs.Formed(mode, width, height) &&
      ofs.Samples() == ClampSamples(samples, caps, mode) && gg.currentfb == 0 &&
      ofs.Accounted(device, old(device.live))
  {
    ghost var gg0 := gg.currentfb;
    ofs := new OffScreen();
    var fb := FrameBufferCreate(device, responses.framebufferGen, gg);
    if fb == null {
      // freeing the still empty record releases no name
      return null;
    }
    ofs.fb := fb;
    ofs.samples := ClampSamples(samples, caps, mode);
    ghost var afterFramebuffer := device.live;
    var built := BuildSurfaces(ofs, width, height, dataType, mode, responses, device, gg, gg0);
    AddNames(old(device.live), afterFramebuffer, device.live, {fb.handle}, ofs.SurfaceHandles());
    var created := FinishCreate(ofs, built, responses.status, device, gg, gg0,
                                old(device.live), mode, width, height);
    if !created {
      return null;
    }
  }

  /** The surface steps of GPU_offscreen_create as written.  `fault` is
      whether a texture attach is handed a null texture: the colour-texture
      branch attaches ofs->depth, which is still null, and the depth-texture
      branch attaches ofs->color, which is null because colour went to a
      renderbuffer.  Without a fault, the surfaces went through only when
      both are renderbuffers. */
  method AsWrittenSurfaces(
    ofs: OffScreen, width: int, height: int, dataType: TextureFormat, mode: Mode,
    responses: CreateResponses, device: Device, gg: Global, ghost gg0: Name)
    returns (ok: bool, fault: bool)
    requires device.Valid() && ofs.Consistent() && ofs.fb.NoTextures() && ofs.fb.NoRenderBuffers()
    requires ofs.color == null && ofs.depth == null && ofs.rbcolor == null && ofs.rbdepth == null
    requires gg.currentfb == 0 || gg.currentfb == gg0 || gg.currentfb == ofs.fb.handle
    modifies ofs`rbcolor, ofs`rbdepth, ofs.fb`depthrb, ofs.fb.colorrb, device, gg
    ensures fault <==>
      responses.colorAlloc &&
      (!mode.renderbufferColor ||
       (responses.colorAttachError != InvalidOperation && !mode.renderbufferDepth && responses.depthAlloc))
    ensures ok <==> !fault && mode.renderbufferColor && mode.renderbufferDepth && SurfacesSucceed(mode, responses)
    ensures !fault ==> device.Valid() && ofs.Consistent()
    ensures !fault ==> gg.currentfb == 0 || gg.currentfb == gg0 || gg.currentfb == ofs.fb.handle
    ensures !fault ==>
      device.live == old(device.live) + ofs.SurfaceHandles() && ofs.SurfaceHandles() !! old(device.live)
    ensures ofs.rbcolor != null ==> fresh(ofs.rbcolor)
    ensures ofs.rbdepth != null ==> fresh(ofs.rbdepth)
    ensures ok ==> ofs.Formed(mode, width, height)
  {
    ghost var live := device.live;
    if !mode.renderbufferColor {
      var tex := TextureCreate(width, height, false, ofs.samples, device, responses.colorAlloc);
      // GPU_framebuffer_texture_attach(ofs->fb, ofs->depth, 0, 0)
      return false, tex != null;
    }
    fault := false;
    ok := ColorRenderBufferStep(ofs, width, height, dataType,
                                responses.colorAlloc, responses.colorAttachError, device, gg, gg0);
    ghost var afterColor := device.live;
    if !ok {
      AddNames(live, afterColor, afterColor, ofs.ColorHandles(), {});
      return;
    }
    if mode.renderbufferDepth {
      ok := DepthRenderBufferStep(ofs, width, height, dataType,
                                  responses.depthAlloc, responses.depthAttachError, device, gg, gg0, true);
      AddNames(live, afterColor, device.live, ofs.ColorHandles(), ofs.DepthHandles());
      return;
    }
    var tex := TextureCreate(width, height, true, ofs.samples, device, responses.depthAlloc);
    if tex != null {
      // GPU_framebuffer_texture_attach(ofs->fb, ofs->color, 0, 0)
      return false, true;
    }
    ok := false;
    AddNames(live, afterColor, afterColor, ofs.ColorHandles(), {});
  }

  /** How GPU_offscreen_create ends as written: the offscreen, NULL, or a
      texture attach handed a null texture (which dereferences it). */
  datatype CreateOutcome = Created(ofs: OffScreen) | CreateFailed | NullTextureAttach

  /** GPU_offscreen_create as written: any mode with a colour or depth
      texture reaches the null attach once the texture it allocated exists,
      and only all-renderbuffer offscreens can be created. */
  method OffscreenCreateAsWritten(
    width: int, height: int, samples: int, dataType: TextureFormat, mode: Mode,
    caps: Capabilities, responses: CreateResponses, device: Device, gg: Global)
    returns (outcome: CreateOutcome)
    requires device.Valid()
    modifies device, gg
    ensures outcome.Created? <==>
      mode.renderbufferColor && mode.renderbufferDepth && CreateSucceeds(mode, responses)
    ensures outcome == NullTextureAttach <==>
      responses.framebufferGen && responses.colorAlloc &&
      (!mode.renderbufferColor ||
       (responses.colorAttachError != InvalidOperation && !mode.renderbufferDepth && responses.depthAlloc))
    ensures outcome == CreateFailed ==> device.live == old(device.live)
    ensures outcome.Created? ==>
      fresh(outcome.ofs) && outcome.ofs.Consistent() && outcome.ofs.Formed(mode, width, height) &&
      outcome.ofs.Accounted(device, old(device.live))
  {
    ghost var gg0 := gg.currentfb;
    var ofs := new OffScreen();
    var fb := FrameBufferCreate(device, responses.framebufferGen, gg);
    if fb == null {
      return CreateFailed;
    }
    ofs.fb := fb;
    ofs.samples := ClampSamples(samples, caps, mode);
    ghost var afterFramebuffer := device.live;
    var built, fault := AsWrittenSurfaces(ofs, width, height, dataType, mode, responses, device, gg, gg0);
    if fault {
      return NullTextureAttach;
    }
    AddNames(old(device.live), afterFramebuffer, device.live, {fb.handle}, ofs.SurfaceHandles());
    var created := FinishCreate(ofs, built, responses.status, device, gg, gg0,
                                old(device.live), mode, width, height);
    if !created {
      return CreateFailed;
    }
    return Created(ofs);
  }

  /** Two texture surfaces (mode 0, what most callers ask for) on a device
      that grants everything: as written the create reaches the null attach,
      while attaching each surface to its own role creates the offscreen. */
  method SwappedAttachCounterexample() returns (asWritten: CreateOutcome, corrected: OffScreen?)
    ensures asWritten == NullTextureAttach
    ensures corrected != null && corrected.color != null && corrected.depth != null
  {
    var mode := Mode(false, false, false);
    var caps := Capabilities(true, true, true);
    var responses := CreateResponses(true, true, 0, true, 0, Complete);
    var device := new Device();
    var gg := new Global();
    asWritten := OffscreenCreateAsWritten(64, 64, 0, GpuRGBA8, mode, caps, responses, device, gg);
    device := new Device();
    gg := new Global();
    corrected := OffscreenCreate(64, 64, 0, GpuRGBA8, mode, caps, responses, device, gg);
  }
}
