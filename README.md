# PickDepth: GPU resource lifecycle for depth picking

This project models `PickDepth`, the depth-pick resource manager of the scene.
It owns three things: an RGBA texture the size of the scene's depth texture,
a framebuffer whose only colour attachment is that texture, and a full-screen
copy command that reads the depth texture and writes into that framebuffer.
The file builds a fragment shader (`fs`) that packs each depth into the red,
green and blue channels, with alpha 1, so that it can be read back for picking, but it compiles the
command from `PassThrough` (see Findings). The class in this model compiles
the command from the packing shader, that is, it models the corrected
command. The behaviour as written exists only as the functions
`PickDepthSpec.UpdateCopyCommandsAsWritten` and `PickDepthSpec.UpdateAsWritten`.

- `update(context, depthTexture)` recreates the texture and the framebuffer
  together, and only when no framebuffer exists or the source's width or
  height differ from the texture's. It destroys the old pair before it creates
  the new one. It builds the copy command on the first call only, and on every
  call it rebinds the source texture and the target framebuffer.
- `executeCopyDepth` runs the command.
- `destroy` releases the texture, the framebuffer and the command's shader
  program. It then marks the object destroyed, after which `isDestroyed`
  reports true.

The WebGL context is modelled as an allocator of handles. Each texture,
framebuffer and shader program it creates gets the next number from a counter.
Each handle object carries a `destroyed` flag, and a texture also carries its
width, height, pixel format and datatype. As ghost state the context keeps the
set of live handles and a log of `Created`/`Destroyed` events. `Replay` audits
that log: a log replays legally only if no handle is created twice or destroyed
while not live.
The `Context` methods require and ensure only the cheap fact that every live
handle is below the counter (`Bounded`); the `Destroy` methods of `Texture`,
`Framebuffer` and `ShaderProgram` require only a live handle that is not yet
destroyed. That these calls keep the log legal (`Consistent`) is proved on
values, by `Renderer.AllocateKeepsConsistent` and
`Renderer.ReleaseKeepsConsistent`. `Scene.PickDepth.Valid()` includes it through
`PickDepthSpec.Inv`, which every update re-establishes; `Scene.PickDepth.Destroy`
ends in a destroyed object, outside `Inv`, and ensures `Consistent` of the
context directly (`context.Valid()`).

Files:
- `wrappers.dfy`: `Option`, standing for JavaScript's `undefined`.
- `renderer.dfy`: module `Renderer`. It holds the event log and its audit, the
  context's bookkeeping as a value (`GpuState`, `Allocate`, `Release`), and the
  classes `Context`, `Texture`, `Framebuffer`, `ShaderProgram` and `DrawCommand`.
- `pick_depth_spec.dfy`: module `PickDepthSpec`. It describes a pick depth as a
  value, with one function per helper function of `PickDepth.js`, composed as
  that file composes them. It also holds the lemmas about single updates, about destroy,
  and about whole sequences of updates followed by destroy.
- `pick_depth.dfy`: module `Scene`, the class `PickDepth`. It has the four
  fields of `PickDepth.js` and one method per helper function. Each method is proved to
  change the object and the context exactly as the matching `PickDepthSpec`
  function does (`View() == Spec.Update(old(View()), …)`).

`destroy` may be called once. A second call throws, because `destroyObject`
replaces the object's methods, so the model requires an object that is not yet
destroyed.

## Model

| member | source | states |
|---|---|---|
| `Scene.PickDepth.constructor` | Source/Scene/PickDepth.js:22-28 | a new pick depth holds no framebuffer, depth texture, texture to copy or copy command, and is not destroyed |
| `PickDepthSpec.NewSatisfiesInv` | Source/Scene/PickDepth.js:22-28 | a new pick depth satisfies the lifecycle invariant and owns no handle |
| `Scene.PickDepth.DestroyTextures` | Source/Scene/PickDepth.js:30-32 | the held texture is destroyed only if it exists and is not yet destroyed, and the field is then cleared; nothing else changes |
| `Scene.PickDepth.DestroyFramebuffers` | Source/Scene/PickDepth.js:34-36 | the same for the framebuffer |
| `Scene.PickDepth.CreateTextures` | Source/Scene/PickDepth.js:38-45 | the field now holds a fresh RGBA / unsigned-byte texture of the requested width and height |
| `Scene.PickDepth.CreateFramebuffers` | Source/Scene/PickDepth.js:47-57 | the old texture and framebuffer are destroyed, then a fresh texture of the given size and a fresh framebuffer whose attachment is that texture are held |
| `PickDepthSpec.DestroyTexturesGuarded` | Source/Scene/PickDepth.js:30-32 | the held texture is released only if it is still live, and the field is cleared either way; nothing else changes |
| `PickDepthSpec.DestroyFramebuffersGuarded` | Source/Scene/PickDepth.js:34-36 | the same for the framebuffer |
| `PickDepthSpec.RecreateSkipsDestroyedHandles` | Source/Scene/PickDepth.js:47-57 | even when other code already destroyed the held texture or framebuffer, recreation destroys only the handles still live, keeps the log legal and leaves the new pair live |
| `PickDepthSpec.CreateFramebuffersKeepsHeld` | Source/Scene/PickDepth.js:47-57 | from any state whose handles are live, distinct and below the counter, recreation leaves only live, distinct handles and allocates exactly two |
| `Scene.PickDepth.UpdateFramebuffers` | Source/Scene/PickDepth.js:59-68 | recreates the pair (both fresh, both old ones destroyed) exactly when there is no framebuffer or a dimension differs; otherwise both keep their identity |
| `PickDepthSpec.UpdateFramebuffersEffect` | Source/Scene/PickDepth.js:59-68 | afterwards the texture has the source's size and is the framebuffer's attachment; a recreation logs the old texture's and framebuffer's destruction before the two creations; otherwise nothing changes |
| `Scene.PickDepth.UpdateCopyCommands` | Source/Scene/PickDepth.js:70-92 | the command is created (from the depth-packing shader, as corrected in Findings) only when absent and kept otherwise; a new command and its shader program are fresh objects, and an existing command keeps the same program object; the source becomes the texture to copy and the command targets the current framebuffer |
| `PickDepthSpec.UpdateCopyCommandsEffect` | Source/Scene/PickDepth.js:70-92 | a program is allocated only when no command exists; the command's program and shader are otherwise unchanged; texture and framebuffer are untouched |
| `PickDepthSpec.UpdateCopyCommandsKeepsHeld` | Source/Scene/PickDepth.js:70-92 | rebinding keeps every held handle live, distinct and below the counter, and allocates a handle only when the command is first created |
| `Scene.PickDepth.Update` | Source/Scene/PickDepth.js:94-97 | keeps the object invariant; the texture has the source's width and height and is the framebuffer's attachment; the command targets that framebuffer; the pair is fresh iff the size changed or there was none, and is kept otherwise; a command created by the first call and its program are fresh objects, and afterwards the same command and program object are kept |
| `PickDepthSpec.UpdatePreservesInv` | Source/Scene/PickDepth.js:94-97 | update preserves the invariant and binds texture (source's size), framebuffer, texture to copy and command together |
| `PickDepthSpec.UpdateKeepsPairIffSameSize` | Source/Scene/PickDepth.js:63-67 | the texture is kept iff the framebuffer is kept (no partial resize), and they are kept iff a framebuffer existed and the texture already had the source's width and height |
| `PickDepthSpec.UpdateLog` | Source/Scene/PickDepth.js:47-57 | the exact sequence of context calls of one update: old texture and framebuffer destroyed before the new pair is created; a program created only on the first call |
| `PickDepthSpec.CommandReused` | Source/Scene/PickDepth.js:71 | once a copy command exists, update keeps its program and shader |
| `PickDepthSpec.UpdateTouchesOnlyOwned` | Source/Scene/PickDepth.js:47-57 | update changes no handle it does not own; every handle it holds afterwards was held before or is new |
| `PickDepthSpec.RunAllocatesPerResize` | Source/Scene/PickDepth.js:59-71 | over any sequence of updates on a new pick depth the invariant holds, only self-allocated handles are held, and exactly two handles are allocated per change of size plus one program |
| `Scene.PickDepth.ExecuteCopyDepth` | Source/Scene/PickDepth.js:99-101 | requires a prior update; the pass reads the latest source, runs the packing shader of the corrected command and writes into the owned framebuffer, whose texture has the source's size |
| `Scene.PickDepth.IsDestroyed` | Source/Scene/PickDepth.js:103-105 | reports false for every live (valid) pick depth |
| `Scene.PickDepth.Destroy` | Source/Scene/PickDepth.js:107-114 | requires a prior update; texture, framebuffer and shader program are destroyed and cleared, exactly the owned handles leave the live set, and the object reports destroyed |
| `PickDepthSpec.DestroyReleasesEverything` | Source/Scene/PickDepth.js:107-114 | destroy logs exactly one destruction each of texture, framebuffer and program, leaves all other handles live and owns nothing afterwards |
| `PickDepthSpec.LifecycleReleasesAllOnce` | Source/Scene/PickDepth.js:94-114 | after any updates followed by destroy, the context's live handles are exactly those it had before, and no handle is destroyed twice or destroyed without having been created |
| `Renderer.ReplayCounts` | Source/Scene/PickDepth.js:30-36 | the audit fact behind "never destroyed twice": a legally replaying event log of the model's context created each handle at most once and destroyed it at most once, only after creating it |
| `Renderer.Context.CreateTexture2D` | Source/Scene/PickDepth.js:39-44 | a fresh, live texture with the next handle number and the requested size and format |
| `Renderer.Context.CreateFramebuffer` | Source/Scene/PickDepth.js:53-56 | a fresh, live framebuffer whose only colour attachment is the given texture |
| `Renderer.Context.CreateViewportQuadCommand` | Source/Scene/PickDepth.js:79-87 | a fresh command with the given fragment shader, a fresh live shader program and no target framebuffer |
| `Renderer.Texture.Destroy` | Source/Scene/PickDepth.js:31 | only a live texture that is not destroyed can be destroyed; it leaves the live set and the log records it |
| `Renderer.Framebuffer.Destroy` | Source/Scene/PickDepth.js:35 | the same for a framebuffer; its attachment is not destroyed with it |
| `Renderer.ShaderProgram.Destroy` | Source/Scene/PickDepth.js:111 | the same for a shader program |
| `PickDepthSpec.AsWrittenCopyIsUnpacked` | Source/Scene/PickDepth.js:79 | as written, the first update compiles the copy command from PassThrough, not from the packing shader |
| `PickDepthSpec.CopyCommandPacksDepth` | Source/Scene/PickDepth.js:72-79 | with the correction, after any non-empty sequence of updates the copy command runs the depth-packing shader |

## Left out

- The imagery-layer logic (skeleton creation, the imagery tile state machine, reference counting) is not part of this model: its implementation files (Scene/ImageryLayer, Scene/Imagery, Scene/ImageryState) are not available, only a test file that exercises them.
- The GLSL text, `czm_packDepth` and the pixels a copy pass writes are not modelled. A command records only which of the two fragment shaders it was compiled from.
- Scene.PickDepth.ExecuteCopyDepth: returns a description of the pass (source, target, shader) instead of rendering; `passState` and the rendering itself are not modelled.
- The real context calls (`createTexture2D`, `createFramebuffer`, `createRenderState`, `createViewportQuadCommand`) are replaced by an allocator of numbered handles. The render state and uniform map are not modelled. The model assumes each command comes with its own freshly compiled shader program; shader caching is not modelled.
- `destroyObject`'s replacement of every method by one that throws is modelled as a `destroyed` flag. The methods other than `IsDestroyed` require a valid, not destroyed object.
- `Scene.PickDepth.Destroy` and `Scene.PickDepth.ExecuteCopyDepth` require a prior update, because `PickDepth.js` dereferences `_copyDepthCommand`, which is undefined until then.
- The guards `x && !x.isDestroyed() && x.destroy()` can leave `false` in a field where the model has `null`. Every such field is overwritten (in `createFramebuffers`) or the object becomes unusable (in `destroy`) before any `defined` test reads it.
- Framebuffers that destroy their attachments (`destroyAttachments : true`) are not modelled; the pick depth only creates framebuffers that do not.
- Scene.PickDepth.DestroyTextures: the class assumes that no other code destroys the texture the pick depth holds, so its `isDestroyed` guard always passes in the class. The value model covers the other case: `PickDepthSpec.RecreateSkipsDestroyedHandles` shows that recreation then skips a destroyed handle.
- Scene.PickDepth.DestroyFramebuffers: the same assumption for the framebuffer, although `framebuffer` is a public field that other code could destroy; the same lemma covers that case on values.
- Scene.PickDepth.Update: the source must be a texture. Calling `update` with an undefined source throws a TypeError when its width is read; the non-null parameter type excludes that call.
- The pick depth is assumed to be updated with the context it was constructed with.

## Findings

| source | as written | input that shows it | evidently intended | confidence | as-written member | corrected member |
|---|---|---|---|---|---|---|
| Source/Scene/PickDepth.js:72-79 | the copy command is compiled from `PassThrough`; the depth-packing shader `fs` built on lines 72-78 is never used | the first `update` of any pick depth | the command compiled from `fs`, so that the copy packs each depth into the red, green and blue channels, with alpha 1 | medium; not executed | `PickDepthSpec.AsWrittenCopyIsUnpacked` | `PickDepthSpec.CopyCommandPacksDepth` |
