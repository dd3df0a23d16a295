# GPU framebuffer attachment bookkeeping

A Dafny model of the bookkeeping half of Blender's `gpu_framebuffer.c`. It covers
three things:

- the framebuffer records and their slot tables: four colour-texture slots, four
  colour-renderbuffer slots, one depth texture and one depth renderbuffer;
- the back-references that textures and renderbuffers keep to the slot they sit in;
- the globally tracked bound framebuffer (`GG.currentfb`).

On top of these sit the offscreen buffers (`GPUOffScreen`). Each owns a framebuffer
together with a colour surface and a depth surface.

The device is reduced to what the code relies on. A `GL.Device` hands out object names
and takes them back, so "every failure path frees" becomes a statement about the set of
live names. Values the code only receives from the device are parameters of the
operations that receive them:

- whether an allocation succeeded;
- the `glGetError` after a renderbuffer attach;
- the completeness status.

The device calls a bind or blit issues are returned as plain values: the draw-buffer
list, the read buffer, the viewport, and the blit rectangle and mask.

Files:

- `gl.dfy` (module `GL`): device names, attachment points, buffer bits, statuses and
  storage formats.
- `framebuffer.dfy` (module `Framebuffer`): the `Global` binding state, the `Texture`
  and `RenderBuffer` surfaces, and the `FrameBuffer` class. The class has attach,
  detach, free, the bind variants, the completeness check and blit.
- `offscreen.dfy` (module `Offscreen`): the sample-count clamp, the `OffScreen` class,
  creation (as written and corrected), free, bind, readback, blit and the size queries.
- `scenarios.dfy` (module `Scenarios`): attach followed by detach for every
  framebuffer and surface, and short runs on fresh objects: re-attaching elsewhere and
  free after attach.

Slot tables are arrays updated in place, and back-references are fields of the surface
objects. `FrameBuffer.SlotsAgree()` is a one-directional agreement between them: every
surface in a slot points back at this framebuffer and that slot. It does not say that a
surface pointing at a slot is still in it.
Attach keeps the agreement for a surface that was not attached before; detach and free
keep it always.

Some behaviour of the code that a reader might not expect, and that the model keeps:

- Re-attaching an attached texture to a second framebuffer does not move it. Only the
  back-reference is overwritten (`gpu_framebuffer.c:169`), and the first framebuffer's
  slot keeps the texture (`Scenarios.ReattachLeavesStaleSlot`).
- The viewport of `GPU_framebuffer_bind` is the size of the last occupied colour slot,
  not the first, because the loop overwrites `tex` (`gpu_framebuffer.c:297-307`).
- `GPU_framebuffer_free` detaches through `GPU_framebuffer_texture_detach`, which binds
  the owner. On a framebuffer whose slots agree with their surfaces (the model's
  precondition), the tracked binding therefore ends at 0 whenever anything was attached,
  not only when it already named the freed framebuffer.

## Model

| member | source | states |
|---|---|---|
| Framebuffer.StatusName | source/blender/gpu/intern/gpu_framebuffer.c:59-93 | The eight listed statuses get a `GL_FRAMEBUFFER_...` name; any other status, and only such a status, gets "unknown". |
| Framebuffer.StatusNamesDistinct | source/blender/gpu/intern/gpu_framebuffer.c:64-83 | Two different listed statuses never share a name. |
| Framebuffer.StatusMessage | source/blender/gpu/intern/gpu_framebuffer.c:61-88 | The text written to `err_out`: "GPUFrameBuffer: framebuffer status ", the status name, and a newline. |
| Framebuffer.StatusMessagesDistinct | source/blender/gpu/intern/gpu_framebuffer.c:61-88 | Two different listed statuses give different messages, so the message names the status. |
| Framebuffer.StorageFormat | source/blender/gpu/intern/gpu_framebuffer.c:671-693 | RGBA16F and RGBA32F map to themselves, and every other format maps to RGBA8 (both directions). |
| Framebuffer.OccupiedSlots | source/blender/gpu/intern/gpu_framebuffer.c:297-307 | The result lists exactly the occupied slot indices, each in range, in strictly ascending order. |
| Framebuffer.OccupiedSlotsUnique | source/blender/gpu/intern/gpu_framebuffer.c:297-307 | Any ascending list of exactly the occupied indices equals `OccupiedSlots`, so that list is the one the bind loops build. |
| Framebuffer.ColorAttachments | source/blender/gpu/intern/gpu_framebuffer.c:267-272 | The draw-buffer list has one `GL_COLOR_ATTACHMENT0 + i` per listed slot, in the same order. |
| Framebuffer.Global.Bound | source/blender/gpu/intern/gpu_framebuffer.c:374-377 | A framebuffer is bound exactly when its object is the tracked one. |
| Framebuffer.Global.Restore | source/blender/gpu/intern/gpu_framebuffer.c:502-508 | The tracked binding becomes 0 from any state, so restoring twice is the same as once; afterwards only a framebuffer with object 0 counts as bound. |
| Framebuffer.Texture.Detach | source/blender/gpu/intern/gpu_framebuffer.c:179-219 | Unattached: nothing changes. Attached: the owner becomes the tracked binding, exactly the one forward entry is cleared (`depthtex`, or the colour slot the back-reference names), the back-reference becomes (null, -1), and slot agreement is kept. |
| Framebuffer.Texture.BindAsFramebuffer | source/blender/gpu/intern/gpu_framebuffer.c:221-255 | Unattached: nothing is bound. Attached: the owner is bound, drawing and reading use the texture's slot (none for depth), and the viewport is the texture's size. |
| Framebuffer.RenderBuffer.FramebufferSet | source/blender/gpu/intern/gpu_framebuffer.c:726-730 | The back-reference becomes the given framebuffer and attachment. |
| Framebuffer.RenderBuffer.Detach | source/blender/gpu/intern/gpu_framebuffer.c:440-467 | Same as the texture detach, with `depthrb` and `colorrb`. |
| Framebuffer.RenderBuffer.Free | source/blender/gpu/intern/gpu_framebuffer.c:707-714 | The renderbuffer's name leaves the live set and nothing else is released. |
| Framebuffer.RenderBufferCreate | source/blender/gpu/intern/gpu_framebuffer.c:636-705 | A failed name allocation gives no renderbuffer and leaves the live set unchanged. Otherwise exactly one fresh non-zero name is added, and the renderbuffer has the requested size and samples, is detached, is depth exactly for the depth type, and has depth storage or `StorageFormat(dataType)`. |
| Framebuffer.FrameBuffer.TextureAttach | source/blender/gpu/intern/gpu_framebuffer.c:124-172 | Fails with nothing changed exactly when `slot >= 4`. Otherwise: the framebuffer becomes the tracked binding; a depth texture goes into `depthtex` and any other into `colortex[slot]`, with no other slot touched; the back-reference becomes (fb, slot); slot agreement is kept when the texture was detached. |
| Framebuffer.FrameBuffer.RenderBufferAttach | source/blender/gpu/intern/gpu_framebuffer.c:395-438 | Same as the texture attach, except that a `GL_INVALID_OPERATION` after the attach call restores binding 0, records nothing and reports the error. |
| Framebuffer.FrameBuffer.DetachTextures | source/blender/gpu/intern/gpu_framebuffer.c:472-479 | Every texture in the table is detached (null back-reference, -1) and the table is empty. The binding is the framebuffer exactly when something was detached, and unchanged otherwise. |
| Framebuffer.FrameBuffer.DetachRenderBuffers | source/blender/gpu/intern/gpu_framebuffer.c:481-488 | Same as `DetachTextures`, for the renderbuffer table. |
| Framebuffer.FrameBuffer.Free | source/blender/gpu/intern/gpu_framebuffer.c:469-500 | Every slot ends empty and every previously attached surface ends detached, including when nothing was attached. The object's name leaves the live set. The binding ends at 0 unless nothing was attached and it named another framebuffer, in which case it is unchanged. |
| Framebuffer.FrameBuffer.OccupiedColorSlots | source/blender/gpu/intern/gpu_framebuffer.c:297-307 | The loop's list equals `OccupiedSlots` of the colour table. |
| Framebuffer.FrameBuffer.Bind | source/blender/gpu/intern/gpu_framebuffer.c:290-325 | The framebuffer is bound. With occupied colour slots: it draws to all of them in ascending order, reads from the lowest, and the viewport is the last slot's size. With none: it draws and reads nothing, and the viewport comes from `depthtex`. |
| Framebuffer.FrameBuffer.SlotsBind | source/blender/gpu/intern/gpu_framebuffer.c:257-288 | An empty slot gives nothing and changes no state. Otherwise the framebuffer is bound, drawing to every occupied slot and reading from `slot`, with the slot's size as viewport. |
| Framebuffer.FrameBuffer.BindNoSave | source/blender/gpu/intern/gpu_framebuffer.c:333-343 | The framebuffer is bound, drawing to and reading from the one slot, with the slot's size as viewport. |
| Framebuffer.FrameBuffer.BindSimple | source/blender/gpu/intern/gpu_framebuffer.c:345-353 | The framebuffer is bound, drawing to and reading from slot 0, with no viewport change. |
| Framebuffer.FrameBuffer.BindAllAttachments | source/blender/gpu/intern/gpu_framebuffer.c:355-372 | The framebuffer is bound, drawing to every occupied slot in ascending order and reading from slot 0. |
| Framebuffer.FrameBuffer.CheckValid | source/blender/gpu/intern/gpu_framebuffer.c:379-393 | Succeeds exactly on a complete status, leaving the framebuffer bound. Otherwise the binding is 0 and the message names the status. |
| Framebuffer.FrameBuffer.Blit | source/blender/gpu/intern/gpu_framebuffer.c:589-621 | Reads from this framebuffer's object and draws into `dst`'s, never the other way. Copies depth to depth, or colour slot `readSlot` to colour slot `writeSlot`: the texture names attached are those of the two textures, the rectangles are their full sizes, and the mask is the matching single bit. A colour attachment is always `GL_COLOR_ATTACHMENT0` plus the texture's own back-reference slot, which on agreeing tables is the slot given. The previously tracked framebuffer is bound again and colour attachment 0 becomes the draw buffer. |
| Framebuffer.FrameBufferCreate | source/blender/gpu/intern/gpu_framebuffer.c:97-117 | Fails, with the live set unchanged, exactly when the device gives no name. Otherwise the framebuffer is fresh, its slots are empty and agreeing, exactly its non-zero name is added, and the tracked binding `GG.currentfb` is unchanged. |
| Offscreen.ClampSamples | source/blender/gpu/intern/gpu_framebuffer.c:776-798 | The kept count is the requested one or 0. |
| Offscreen.ClampSamplesMissingExtension | source/blender/gpu/intern/gpu_framebuffer.c:776-798 | Without `GL_EXT_framebuffer_multisample` or without `GL_EXT_framebuffer_blit`, every request drops to 0, whatever the mode. |
| Offscreen.ClampSamplesIdempotent | source/blender/gpu/intern/gpu_framebuffer.c:776-798 | Clamping an already clamped count changes nothing. |
| Offscreen.ClampSamplesFullSupport | source/blender/gpu/intern/gpu_framebuffer.c:776-798 | With all three extensions the request is kept. |
| Offscreen.ClampSamplesRenderbuffersOnly | source/blender/gpu/intern/gpu_framebuffer.c:778-781 | With both renderbuffer flags, texture multisampling is not needed. |
| Offscreen.ClampSamplesTextureWithoutSupport | source/blender/gpu/intern/gpu_framebuffer.c:778-781 | A texture-backed offscreen without texture multisampling is single-sampled. |
| Offscreen.BlitMask | source/blender/gpu/intern/gpu_framebuffer.c:995-1001 | The colour bit is set exactly when colour is copied, the depth bit exactly when depth is, and no other bit is set. |
| Offscreen.OffScreen.Width | source/blender/gpu/intern/gpu_framebuffer.c:1009-1020 | The colour texture's width, else the colour renderbuffer's, else 0. `FormedSize` proves that a created offscreen reports the requested width. |
| Offscreen.OffScreen.Height | source/blender/gpu/intern/gpu_framebuffer.c:1022-1033 | The colour texture's height, else the colour renderbuffer's, else 0. `FormedSize` proves that a created offscreen reports the requested height. |
| Offscreen.OffScreen.Samples | source/blender/gpu/intern/gpu_framebuffer.c:1035-1038 | The stored sample count; `OffscreenCreate` proves it is `ClampSamples` of the request. |
| Offscreen.OffScreen.FormedSize | source/blender/gpu/intern/gpu_framebuffer.c:1009-1033 | A formed offscreen reports the requested width and height, from the colour texture or else the colour renderbuffer. |
| Offscreen.OffScreen.Free | source/blender/gpu/intern/gpu_framebuffer.c:863-879 | Every name the offscreen owns leaves the live set, the framebuffer's tables end empty, and the binding ends at 0 or where it was (never on the freed framebuffer). |
| Offscreen.OffScreen.FreeSurfaces | source/blender/gpu/intern/gpu_framebuffer.c:867-876 | Exactly the surfaces' names leave the live set. |
| Offscreen.OffScreen.Bind | source/blender/gpu/intern/gpu_framebuffer.c:881-889 | With save: binds through the colour texture. Without: binds colour slot 0 only. |
| Offscreen.OffScreen.Unbind | source/blender/gpu/intern/gpu_framebuffer.c:896-902 | The binding ends at 0. |
| Offscreen.OffScreen.BindSimple | source/blender/gpu/intern/gpu_framebuffer.c:891-894 | The framebuffer is bound with slot 0 for drawing and reading. |
| Offscreen.OffScreen.ReadPixels | source/blender/gpu/intern/gpu_framebuffer.c:904-979 | The live set is the same afterwards on every path. A single-sample colour texture is read directly at its size. A multisample one is read, through the temporary copy, exactly when the temporary texture is allocated and the temporary framebuffer is complete. |
| Offscreen.OffScreen.Blit | source/blender/gpu/intern/gpu_framebuffer.c:981-1007 | Reads from the source framebuffer and draws to the destination, over the smaller width and the smaller height, with mask `BlitMask(color, depth)`. The destination ends bound. |
| Offscreen.AttachNewTexture | source/blender/gpu/intern/gpu_framebuffer.c:812-823 | Without a texture nothing changes. Otherwise exactly its fresh name is added, it sits in colour slot 0 or `depthtex` with no other slot touched, the framebuffer is bound, and slot agreement is kept. |
| Offscreen.AttachNewRenderBuffer | source/blender/gpu/intern/gpu_framebuffer.c:800-811 | As `AttachNewTexture`; a refused attach leaves the renderbuffer allocated but unrecorded. |
| Offscreen.ColorRenderBufferStep | source/blender/gpu/intern/gpu_framebuffer.c:800-811 | Succeeds exactly when allocation and attach succeed, and then the colour role is formed. Exactly the colour names are added and the offscreen stays consistent. |
| Offscreen.ColorTextureStep | source/blender/gpu/intern/gpu_framebuffer.c:812-823 | The colour step with the texture attached to its own role. |
| Offscreen.DepthRenderBufferStep | source/blender/gpu/intern/gpu_framebuffer.c:825-836 | As the colour step, for depth, keeping the colour role. |
| Offscreen.DepthTextureStep | source/blender/gpu/intern/gpu_framebuffer.c:837-850 | The depth step with the depth texture attached to its own role. |
| Offscreen.ColorStep | source/blender/gpu/intern/gpu_framebuffer.c:800-823 | The mode picks the colour step, and success is the mode's condition. |
| Offscreen.DepthStep | source/blender/gpu/intern/gpu_framebuffer.c:825-850 | The mode picks the depth step, and success means both roles are formed. |
| Offscreen.BuildSurfaces | source/blender/gpu/intern/gpu_framebuffer.c:800-850 | Succeeds exactly when `SurfacesSucceed`, and then the offscreen is formed. Whatever was allocated is recorded, and exactly those names are added. |
| Offscreen.CheckAndRestore | source/blender/gpu/intern/gpu_framebuffer.c:852-858 | Succeeds exactly on a complete status, the binding ends at 0 either way, and the surfaces are untouched. |
| Offscreen.FinishCreate | source/blender/gpu/intern/gpu_framebuffer.c:852-860 | Succeeds exactly when the surfaces were built and the status is complete. On failure everything the offscreen owns is released. On success nothing is released and the binding is 0. |
| Offscreen.OffscreenCreate | source/blender/gpu/intern/gpu_framebuffer.c:764-861 | All or nothing. The offscreen exists exactly when every step succeeds; without it the live set is unchanged. With it: fresh, consistent, surfaces formed as the mode asks, sample count `ClampSamples`, unbound, and exactly its own names added. |
| Offscreen.AsWrittenSurfaces | source/blender/gpu/intern/gpu_framebuffer.c:800-850 | The surface steps as written: the null texture attach is reached exactly when a colour or depth texture was allocated. |
| Offscreen.OffscreenCreateAsWritten | source/blender/gpu/intern/gpu_framebuffer.c:764-861 | As written, only all-renderbuffer offscreens are created. Any other mode reaches the null attach once its texture exists; failures release everything. |
| Offscreen.SwappedAttachCounterexample | source/blender/gpu/intern/gpu_framebuffer.c:819 | For mode 0 on a device that grants everything, the as-written create reaches the null attach, while the corrected create returns an offscreen with both textures. |
| Scenarios.TextureRoundTrip | source/blender/gpu/intern/gpu_framebuffer.c:124-219 | For every framebuffer whose slots agree, every detached colour texture and every empty slot in range, attach then detach leaves the slot table and `depthtex` as they were, the texture detached, the agreement kept and the framebuffer bound. |
| Scenarios.DepthTextureRoundTrip | source/blender/gpu/intern/gpu_framebuffer.c:124-219 | The same for a detached depth texture and an empty depth point: `depthtex` ends empty again and the colour slots are unchanged. |
| Scenarios.RenderBufferRoundTrip | source/blender/gpu/intern/gpu_framebuffer.c:395-467 | For every agreeing framebuffer, detached colour renderbuffer, empty slot in range and device error, attach then detach leaves the renderbuffer table as it was and the renderbuffer detached. |
| Scenarios.DepthRenderBufferRoundTrip | source/blender/gpu/intern/gpu_framebuffer.c:395-467 | The same for a detached depth renderbuffer and an empty depth point. |
| Scenarios.AttachThenDetach | source/blender/gpu/intern/gpu_framebuffer.c:124-219 | Attach followed by detach leaves the slot table empty and agreeing, and the texture detached. |
| Scenarios.ReattachLeavesStaleSlot | source/blender/gpu/intern/gpu_framebuffer.c:164-169 | After re-attaching elsewhere, the first framebuffer still holds the texture and no longer agrees with it. A detach then clears only the second framebuffer's slot and leaves the second framebuffer bound. |
| Scenarios.FreeDetaches | source/blender/gpu/intern/gpu_framebuffer.c:469-500 | Freeing a framebuffer with a texture attached detaches the texture, gives back only the framebuffer's name, and unbinds it. |

## Left out

- `GPU_framebuffer_blur`: floating-point scale factors, a static vertex buffer and
  drawing through the shader API. It leaves the blurred framebuffer bound (line 576),
  unless the blur shader is missing (lines 526-527), when it does nothing.
- Device effects: pixel contents, the result of a blit, and what
  `glCheckFramebufferStatus` would answer for a given set of attachments. The status is
  a parameter.
- `gpuPushAttrib`/`gpuPopAttrib` (the scissor and viewport save in
  `GPU_texture_bind_as_framebuffer` and `GPU_framebuffer_texture_unbind`),
  `glEnable`/`glDisable`, and the `WITH_GL_PROFILE_COMPAT` branches: rasterizer state,
  not bookkeeping.
- The `G.debug` feedback-loop warning and the `fprintf`/`BLI_snprintf` formatting.
  Messages are kept only as `StatusMessage` values.
- The texture module: `Texture` keeps only the queried fields (depth, stencil,
  multisample target, size, name, back-reference). `TextureCreate` stands in for its
  constructors, and `Texture.Free` only gives the name back.
- Depth-stencil textures are treated like depth textures: both go into `depthtex`, and
  only the device attachment point differs.
- The depth compare mode (`GPU_texture_compare_mode`) is a texture parameter with no
  effect on the bookkeeping.
- `MEM_callocN`/`MEM_freeN`: freed records stay as objects in the model, but nothing
  uses them after a free.
- `err_out` is not a buffer: check and attach failures return the message as a value.
- `GPU_offscreen_read_pixels`: the pixel type and the destination buffer's capacity are
  not modelled. The result of the unchecked `glGenFramebuffers` is not tied to the
  completeness status, which is a free parameter. With no name, line 944 binds the
  default framebuffer, whose answer the model does not decide.
- `GPU_offscreen_blit` uses `min_ff` (a float minimum). `Min` is on integers, which
  agrees for sizes that fit a float exactly.
- `GPU_offscreen_color_texture`, `GPU_offscreen_texture`,
  `GPU_offscreen_depth_texture`, `GPU_offscreen_viewport_data_get` and the
  `GPU_renderbuffer_*` getters are plain field reads. They are the fields of the
  classes, with nothing further to state.
- `GPU_framebuffer_texture_unbind` only pops the rasterizer state.
- The `view3d_gizmo_tool_generic.c` gizmo code is window-manager glue and is not part of
  this model.
- Offscreen.OffScreen.Bind: without `save` it requires colour slot 0 to hold a texture,
  because `GPU_framebuffer_bind_no_save` reads that texture's size. A renderbuffer-colour
  offscreen would be dereferenced as NULL there.
- Offscreen.OffScreen.Bind: with `save`, the result is stated for a colour texture only.
  A depth texture in the colour role does not occur in an offscreen.
- Framebuffer.FrameBufferCreate: the model has one binding, the tracked `GG.currentfb`.
  The device binding is not modelled separately. The create binds the new object and then
  0 on the device (lines 111-114) without writing `GG.currentfb`, so afterwards the two
  can disagree. The model states only that the tracked binding is unchanged.
- Framebuffer.FrameBuffer.Bind: requires an occupied colour slot or a depth texture. With
  neither, lines 315 and 323 read the size of a NULL texture.
- Framebuffer.FrameBuffer.BindNoSave: requires `colortex[slot]` to hold a texture and
  `slot` to be in 0..3. Line 341 reads that texture's size without a check.
- Framebuffer.FrameBuffer.Blit: requires the two textures to be present (the depth
  textures, or colour slots `readSlot` and `writeSlot` in 0..3). Lines 591-600 index
  the tables and read the textures without a check.
- Offscreen.OffScreen.ReadPixels: requires a colour texture. Lines 906-907 read the size
  of `ofs->color`, which is NULL for an offscreen with a colour renderbuffer.
- Offscreen.OffScreen.Blit: requires both offscreens to own a framebuffer. Lines 985-986
  read `fb->object` without a check.
- Offscreen.AttachNewRenderBuffer: attaches at slot 0 only, as the create does. The
  general slot check is in `FrameBuffer.RenderBufferAttach`.
- Framebuffer.FrameBuffer.Free: requires `SlotsAgree()`, so it does not cover a
  framebuffer whose slot still holds a surface that was re-attached elsewhere (the state
  `Scenarios.ReattachLeavesStaleSlot` builds). `GPU_framebuffer_free` accepts that state.
  Line 477 detaches such a texture through its back-reference, which clears the other
  framebuffer's slot, leaves this framebuffer's slot set and binds the other framebuffer.
  Lines 493-496 then leave the binding there. So "every slot ends empty" and "the binding
  ends at 0" are not promised for it.
- Framebuffer.FrameBuffer.DetachTextures: requires `TexturesAgree()`. It leaves out the
  same stale state; there the loop at 472-479 detaches the texture from the framebuffer
  it points at, not from this one.
- Framebuffer.FrameBuffer.DetachRenderBuffers: requires `RenderBuffersAgree()`. It leaves
  out the same stale state for renderbuffers; the loop at 481-488 detaches through
  the back-reference at 443-466.
- Framebuffer.FrameBuffer.TextureAttach: attaching into an occupied slot overwrites it
  (lines 164-169) without detaching the texture that was there. That texture's
  back-reference still names the slot, a state the one-directional `SlotsAgree()` does
  not rule out.
- Framebuffer.FrameBuffer.RenderBufferAttach: the same holds for an occupied
  renderbuffer slot (lines 430-435). The displaced renderbuffer keeps a stale
  back-reference.
- Framebuffer.FrameBuffer.TextureAttach: a negative slot is not checked by the code, so
  `0 <= slot` (for colour textures) is a precondition.
- Framebuffer.FrameBuffer.RenderBufferAttach: line 400 checks only `slot >= 4`, so
  `0 <= slot` (for colour renderbuffers) is a precondition.
- Framebuffer.FrameBuffer.SlotsBind: line 262 indexes `fb->colortex[slot]` without a
  bounds check, so `0 <= slot < 4` is a precondition.
- GL.FramebufferStatus: `OtherCode` is taken to hold a value that is none of the eight
  named statuses. A raw code equal to one of them is not modelled.

## Findings

| source | as written | input that shows it | evidently intended | confidence | as-written member | corrected member |
|---|---|---|---|---|---|---|
| source/blender/gpu/intern/gpu_framebuffer.c:819 | the colour-texture branch attaches `ofs->depth`, which is still NULL from the calloc; line 846 likewise attaches `ofs->color` in the depth-texture branch | mode 0 (colour and depth textures) with every allocation granted: `GPU_framebuffer_texture_attach(fb, NULL, 0, 0)` dereferences NULL | attach `ofs->color` at line 819 and `ofs->depth` at line 846 | not executed | Offscreen.OffscreenCreateAsWritten | Offscreen.OffscreenCreate |
