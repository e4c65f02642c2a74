/**
 * The pick depth object: it owns an RGBA texture the size of the scene's
 * depth texture, a framebuffer around it, and a full-screen command that
 * copies the depth texture into that framebuffer, packing each depth into
 * the red, green and blue channels, with alpha 1, so that it can be read
 * back for picking.
 * Every method is proved to change the object and the context exactly as
 * the matching function of PickDepthSpec says.
 */
module Scene {
  import opened Wrappers
  import opened Renderer
  import Spec = PickDepthSpec

  /** What one copy pass reads, what it writes into, and the shader it runs. */
  datatype CopyPass = CopyPass(source: Texture, target: Framebuffer, shader: FragmentShader)

  function TexOf(t: Texture): Spec.Tex
  {
    Spec.Tex(t.id, t.width, t.height)
  }

  function TexView(t: Texture?): Option<Spec.Tex>
  {
    if t == null then None else Some(TexOf(t))
  }

  function FbView(f: Framebuffer?): Option<Spec.Fb>
  {
    if f == null then None else Some(Spec.Fb(f.id, f.colorTexture.id))
  }

  function CmdView(c: DrawCommand?): Option<Spec.Cmd>
    reads c
  {
    if c == null then None
    else
      Some(Spec.Cmd(c.fragmentShader,
                    if c.shaderProgram == null then None else Some(c.shaderProgram.id),
                    if c.framebuffer == null then None else Some(c.framebuffer.id)))
  }

  class PickDepth {
    var framebuffer: Framebuffer?
    var depthTexture: Texture?
    var textureToCopy: Texture?
    var copyDepthCommand: DrawCommand?
    /** Set by `destroyObject`; from then on every method but isDestroyed throws. */
    var destroyed: bool
    /** The context the pick depth is constructed with and updated with. */
    ghost const context: Context

    ghost function Program(): ShaderProgram?
      reads this, copyDepthCommand
    {
      if copyDepthCommand == null then null else copyDepthCommand.shaderProgram
    }

    ghost function View(): Spec.Sys
      reads this, copyDepthCommand, context
    {
      Spec.Sys(Spec.Pick(FbView(framebuffer), TexView(depthTexture), TexView(textureToCopy),
                         CmdView(copyDepthCommand), destroyed),
               context.State())
    }

    /** Every handle held belongs to the context, is live and has not been destroyed. */
    ghost predicate Holds()
      reads this, copyDepthCommand, context, depthTexture, framebuffer, Program()
    {
      Bounded(context.State()) && Spec.Held(View()) &&
      (depthTexture != null ==> depthTexture.context == context && !depthTexture.destroyed) &&
      (framebuffer != null ==> framebuffer.context == context && !framebuffer.destroyed) &&
      (Program() != null ==> Program().context == context && !Program().destroyed)
    }

    ghost predicate Valid()
      reads this, copyDepthCommand, context, depthTexture, framebuffer, Program()
    {
      Holds() && Spec.Inv(View()) &&
      (framebuffer != null ==> framebuffer.colorTexture == depthTexture) &&
      (copyDepthCommand != null ==> copyDepthCommand.framebuffer == framebuffer)
    }

    constructor (context: Context)
      requires context.Valid()
      ensures this.context == context && Valid() && !IsDestroyed()
      ensures framebuffer == null && depthTexture == null
      ensures textureToCopy == null && copyDepthCommand == null
      ensures View() == Spec.New(context.State())
    {
      this.context := context;
      framebuffer := null;
      depthTexture := null;
      textureToCopy := null;
      copyDepthCommand := null;
      destroyed := false;
      LiveBelowNext(context.State());
    }

    method DestroyTextures()
      requires Holds()
      modifies this, context, depthTexture
      ensures Holds() && View() == Spec.DestroyTextures(old(View()))
      ensures depthTexture == null
      ensures old(depthTexture) != null ==> old(depthTexture).destroyed
      ensures framebuffer == old(framebuffer) && textureToCopy == old(textureToCopy)
      ensures copyDepthCommand == old(copyDepthCommand) && destroyed == old(destroyed)
    {
      if depthTexture != null && !depthTexture.destroyed {
        depthTexture.Destroy();
      }
      depthTexture := null;
    }

    method DestroyFramebuffers()
      requires Holds()
      modifies this, context, framebuffer
      ensures Holds() && View() == Spec.DestroyFramebuffers(old(View()))
      ensures framebuffer == null
      ensures old(framebuffer) != null ==> old(framebuffer).destroyed
      ensures depthTexture == old(depthTexture) && textureToCopy == old(textureToCopy)
      ensures copyDepthCommand == old(copyDepthCommand) && destroyed == old(destroyed)
    {
      if framebuffer != null && !framebuffer.destroyed {
        framebuffer.Destroy();
      }
      framebuffer := null;
    }

    method CreateTextures(ctx: Context, width: nat, height: nat)
      requires Holds() && ctx == context
      modifies this, context
      ensures Holds() && View() == Spec.CreateTextures(old(View()), width, height)
      ensures depthTexture != null && fresh(depthTexture)
      ensures depthTexture.width == width && depthTexture.height == height
      ensures depthTexture.pixelFormat == RGBA && depthTexture.pixelDatatype == UnsignedByte
      ensures framebuffer == old(framebuffer) && textureToCopy == old(textureToCopy)
      ensures copyDepthCommand == old(copyDepthCommand) && destroyed == old(destroyed)
    {
      depthTexture := ctx.CreateTexture2D(width, height, RGBA, UnsignedByte);
    }

    method CreateFramebuffers(ctx: Context, width: nat, height: nat)
      requires Holds() && ctx == context
      modifies this, context, depthTexture, framebuffer
      ensures Holds() && View() == Spec.CreateFramebuffers(old(View()), width, height)
      ensures depthTexture != null && fresh(depthTexture)
      ensures depthTexture.width == width && depthTexture.height == height
      ensures framebuffer != null && fresh(framebuffer) && framebuffer.colorTexture == depthTexture
      ensures old(depthTexture) != null ==> old(depthTexture).destroyed
      ensures old(framebuffer) != null ==> old(framebuffer).destroyed
      ensures textureToCopy == old(textureToCopy)
      ensures copyDepthCommand == old(copyDepthCommand) && destroyed == old(destroyed)
    {
      ghost var v := View();
      DestroyTextures();
      DestroyFramebuffers();
      CreateTextures(ctx, width, height);
      ghost var v3 := View();
      Spec.CreateFramebuffersKeepsHeld(v, width, height);
      framebuffer := ctx.CreateFramebuffer(depthTexture);
      assert View() == Spec.AttachFramebuffer(v3);
    }

    method UpdateFramebuffers(ctx: Context, source: Texture)
      requires Holds() && ctx == context
      modifies this, context, depthTexture, framebuffer
      ensures Holds() && View() == Spec.UpdateFramebuffers(old(View()), TexOf(source))
      ensures if old(framebuffer) == null || old(depthTexture) == null ||
                 old(depthTexture).width != source.width || old(depthTexture).height != source.height
              then
                depthTexture != null && fresh(depthTexture) &&
                framebuffer != null && fresh(framebuffer) && framebuffer.colorTexture == depthTexture &&
                (old(depthTexture) != null ==> old(depthTexture).destroyed) &&
                (old(framebuffer) != null ==> old(framebuffer).destroyed)
              else
                depthTexture == old(depthTexture) && framebuffer == old(framebuffer)
      ensures textureToCopy == old(textureToCopy)
      ensures copyDepthCommand == old(copyDepthCommand) && destroyed == old(destroyed)
    {
      var width := source.width;
      var height := source.height;
      var texture := depthTexture;
      var textureChanged := texture == null || texture.width != width || texture.height != height;
      if framebuffer == null || textureChanged {
        CreateFramebuffers(ctx, width, height);
      }
    }

    method UpdateCopyCommands(ctx: Context, source: Texture)
      requires Holds() && ctx == context
      modifies this, context, copyDepthCommand
      ensures Holds() && View() == Spec.UpdateCopyCommands(old(View()), TexOf(source))
      ensures textureToCopy == source
      ensures copyDepthCommand != null && copyDepthCommand.framebuffer == framebuffer
      ensures old(copyDepthCommand) != null ==> copyDepthCommand == old(copyDepthCommand)
      ensures old(copyDepthCommand) == null ==>
                fresh(copyDepthCommand) && copyDepthCommand.fragmentShader == PackDepth && fresh(Program())
      ensures old(copyDepthCommand) != null ==> Program() == old(Program())
      ensures framebuffer == old(framebuffer) && depthTexture == old(depthTexture)
      ensures destroyed == old(destroyed)
    {
      ghost var v := View();
      Spec.UpdateCopyCommandsKeepsHeld(v, TexOf(source));
      if copyDepthCommand == null {
        copyDepthCommand := ctx.CreateViewportQuadCommand(PackDepth);
      }
      textureToCopy := source;
      copyDepthCommand.framebuffer := framebuffer;
      assert View() == Spec.UpdateCopyCommands(v, TexOf(source));
    }

    method Update(ctx: Context, source: Texture)
      requires Valid() && ctx == context
      modifies this, context, depthTexture, framebuffer, copyDepthCommand
      ensures Valid() && View() == Spec.Update(old(View()), TexOf(source))
      ensures textureToCopy == source
      ensures depthTexture != null && depthTexture.width == source.width && depthTexture.height == source.height
      ensures framebuffer != null && framebuffer.colorTexture == depthTexture
      ensures copyDepthCommand != null && copyDepthCommand.framebuffer == framebuffer
      ensures if old(framebuffer) == null ||
                 old(depthTexture).width != source.width || old(depthTexture).height != source.height
              then
                fresh(depthTexture) && fresh(framebuffer) &&
                (old(depthTexture) != null ==> old(depthTexture).destroyed) &&
                (old(framebuffer) != null ==> old(framebuffer).destroyed)
              else
                depthTexture == old(depthTexture) && framebuffer == old(framebuffer)
      ensures old(copyDepthCommand) != null ==> copyDepthCommand == old(copyDepthCommand)
      ensures old(copyDepthCommand) == null ==> fresh(copyDepthCommand) && fresh(Program())
      ensures old(copyDepthCommand) != null ==> Program() == old(Program())
    {
      UpdateFramebuffers(ctx, source);
      UpdateCopyCommands(ctx, source);
      Spec.UpdatePreservesInv(old(View()), TexOf(source));
    }

    /** The copy pass the command runs: packed depth of the latest source into the owned texture. */
    method ExecuteCopyDepth() returns (pass: CopyPass)
      requires Valid() && copyDepthCommand != null
      ensures pass.target == framebuffer && pass.target == copyDepthCommand.framebuffer
      ensures pass.source == textureToCopy && pass.shader == PackDepth
      ensures pass.target.colorTexture == depthTexture
      ensures pass.target.colorTexture.width == pass.source.width
      ensures pass.target.colorTexture.height == pass.source.height
    {
      pass := CopyPass(textureToCopy, copyDepthCommand.framebuffer, copyDepthCommand.fragmentShader);
    }

    function IsDestroyed(): (r: bool)
      reads this, copyDepthCommand, context, depthTexture, framebuffer, Program()
      ensures Valid() ==> !r
    {
      destroyed
    }

    method Destroy()
      requires Valid() && copyDepthCommand != null
      modifies this, context, depthTexture, framebuffer, copyDepthCommand, copyDepthCommand.shaderProgram
      ensures View() == Spec.Destroy(old(View())) && IsDestroyed()
      ensures depthTexture == null && framebuffer == null
      ensures copyDepthCommand == old(copyDepthCommand) && copyDepthCommand.shaderProgram == null
      ensures old(depthTexture).destroyed && old(framebuffer).destroyed
      ensures old(copyDepthCommand.shaderProgram).destroyed
      ensures context.Valid() && context.live == old(context.live) - Spec.Owned(old(View()).pick)
    {
      DestroyTextures();
      DestroyFramebuffers();
      var program := copyDepthCommand.shaderProgram;
      if program != null {
        program.Destroy();
      }
      copyDepthCommand.shaderProgram := null;
      destroyed := true;
      Spec.DestroyReleasesEverything(old(View()));
    }
  }
}
