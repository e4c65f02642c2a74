/**
 * The part of the WebGL context that a pick depth uses, reduced to an
 * allocator of handles. Every texture, framebuffer and shader program the
 * context creates gets the next number from a counter; the context keeps,
 * as ghost state, the set of handles that are live and a log of what was
 * created and destroyed, so that "never destroyed twice" can be stated.
 */
module Renderer {
  import opened Wrappers

  datatype Event = Created(id: nat) | Destroyed(id: nat)

  /** What a log of events leaves behind: every handle created, and those not yet destroyed. */
  datatype Ledger = Ledger(created: set<nat>, live: set<nat>)

  /** One event applied to a ledger; None when a handle is created twice or destroyed while not live. */
  function Apply(l: Ledger, e: Event): Option<Ledger>
  {
    match e
    case Created(id) => if id in l.created then None else Some(Ledger(l.created + {id}, l.live + {id}))
    case Destroyed(id) => if id in l.live then Some(Ledger(l.created, l.live - {id})) else None
  }

  /** Replays a whole log from an empty ledger; None as soon as one event is illegal. */
  function Replay(log: seq<Event>): Option<Ledger>
    decreases |log|
  {
    if log == [] then Some(Ledger({}, {}))
    else
      match Replay(log[..|log| - 1])
      case None => None
      case Some(l) => Apply(l, log[|log| - 1])
  }

  function Occurrences(log: seq<Event>, e: Event): nat
    decreases |log|
  {
    if log == [] then 0
    else Occurrences(log[..|log| - 1], e) + (if log[|log| - 1] == e then 1 else 0)
  }

  /**
   * A log that replays legally created each handle at most once and
   * destroyed it at most once, and only after creating it.
   */
  lemma {:induction false} ReplayCounts(log: seq<Event>, id: nat)
    requires Replay(log).Some?
    ensures Replay(log).value.live <= Replay(log).value.created
    ensures Occurrences(log, Created(id)) == if id in Replay(log).value.created then 1 else 0
    ensures Occurrences(log, Destroyed(id)) ==
              if id in Replay(log).value.created - Replay(log).value.live then 1 else 0
  {
    if log != [] {
      ReplayCounts(log[..|log| - 1], id);
    }
  }

  /** The context's bookkeeping as a value: the counter, the live handles and the log. */
  datatype GpuState = GpuState(next: nat, live: set<nat>, log: seq<Event>)

  /** The log replays legally, to exactly the live set, and every handle it created is below the counter. */
  ghost predicate Consistent(g: GpuState)
  {
    var r := Replay(g.log);
    r.Some? && r.value.live == g.live && forall id :: id in r.value.created ==> id < g.next
  }

  /** Hands out handle `g.next`. */
  function Allocate(g: GpuState): GpuState
  {
    GpuState(g.next + 1, g.live + {g.next}, g.log + [Created(g.next)])
  }

  /** Destroys handle `id`. */
  function Release(g: GpuState, id: nat): GpuState
  {
    GpuState(g.next, g.live - {id}, g.log + [Destroyed(id)])
  }

  /** Every live handle was issued before the counter reached its current value. */
  ghost predicate Bounded(g: GpuState)
  {
    forall id :: id in g.live ==> id < g.next
  }

  lemma LiveBelowNext(g: GpuState)
    requires Consistent(g)
    ensures Bounded(g)
  {
    ReplayCounts(g.log, 0);
  }

  lemma AllocateKeepsConsistent(g: GpuState)
    requires Consistent(g)
    ensures Consistent(Allocate(g))
    ensures g.next !in g.live
  {
    var log' := Allocate(g).log;
    assert log'[..|log'| - 1] == g.log;
    LiveBelowNext(g);
  }

  lemma ReleaseKeepsConsistent(g: GpuState, id: nat)
    requires Consistent(g) && id in g.live
    ensures Consistent(Release(g, id))
  {
    var log' := Release(g, id).log;
    assert log'[..|log'| - 1] == g.log;
  }

  datatype PixelFormat = RGBA | DepthComponent
  datatype PixelDatatype = UnsignedByte | UnsignedShort | UnsignedInt

  /** The two fragment shaders a pick depth can compile its copy command from. */
  datatype FragmentShader =
    | PassThrough  // samples the source texture and writes the sample unchanged
    | PackDepth    // samples the red channel (the depth) and packs it into the red, green and blue channels, with alpha 1

  class Context {
    var next: nat
    ghost var live: set<nat>
    ghost var log: seq<Event>

    ghost function State(): GpuState
      reads this
    {
      GpuState(next, live, log)
    }

    ghost predicate Valid()
      reads this
    {
      Consistent(State())
    }

    constructor ()
      ensures Valid() && State() == GpuState(0, {}, [])
    {
      next, live, log := 0, {}, [];
    }

    method CreateTexture2D(width: nat, height: nat, pixelFormat: PixelFormat, pixelDatatype: PixelDatatype)
      returns (t: Texture)
      requires Bounded(State())
      modifies this
      ensures Bounded(State()) && State() == Allocate(old(State()))
      ensures fresh(t) && t.context == this && t.id == old(next) && !t.destroyed
      ensures t.width == width && t.height == height
      ensures t.pixelFormat == pixelFormat && t.pixelDatatype == pixelDatatype
    {
      t := new Texture(this, next, width, height, pixelFormat, pixelDatatype);
      next, live, log := next + 1, live + {next}, log + [Created(next)];
    }

    /** A framebuffer with one colour attachment that it does not own (`destroyAttachments : false`). */
    method CreateFramebuffer(colorTexture: Texture) returns (fb: Framebuffer)
      requires Bounded(State())
      modifies this
      ensures Bounded(State()) && State() == Allocate(old(State()))
      ensures fresh(fb) && fb.context == this && fb.id == old(next) && !fb.destroyed
      ensures fb.colorTexture == colorTexture
    {
      fb := new Framebuffer(this, next, colorTexture);
      next, live, log := next + 1, live + {next}, log + [Created(next)];
    }

    /** A full-screen draw command with a freshly compiled shader program and no target framebuffer. */
    method CreateViewportQuadCommand(fragmentShader: FragmentShader) returns (c: DrawCommand)
      requires Bounded(State())
      modifies this
      ensures Bounded(State()) && State() == Allocate(old(State()))
      ensures fresh(c) && c.fragmentShader == fragmentShader && c.framebuffer == null
      ensures c.shaderProgram != null && fresh(c.shaderProgram)
      ensures c.shaderProgram.context == this && c.shaderProgram.id == old(next) && !c.shaderProgram.destroyed
    {
      var program := new ShaderProgram(this, next);
      c := new DrawCommand(fragmentShader, program);
      next, live, log := next + 1, live + {next}, log + [Created(next)];
    }
  }

  class Texture {
    const context: Context
    const id: nat
    const width: nat
    const height: nat
    const pixelFormat: PixelFormat
    const pixelDatatype: PixelDatatype
    var destroyed: bool

    constructor (context: Context, id: nat, width: nat, height: nat,
                 pixelFormat: PixelFormat, pixelDatatype: PixelDatatype)
      ensures this.context == context && this.id == id && !destroyed
      ensures this.width == width && this.height == height
      ensures this.pixelFormat == pixelFormat && this.pixelDatatype == pixelDatatype
    {
      this.context, this.id := context, id;
      this.width, this.height := width, height;
      this.pixelFormat, this.pixelDatatype := pixelFormat, pixelDatatype;
      destroyed := false;
    }

    /** A destroyed texture's methods throw, so destroying it again is ruled out. */
    method Destroy()
      requires !destroyed && id in context.live
      modifies this, context
      ensures destroyed && context.State() == Release(old(context.State()), id)
    {
      destroyed := true;
      context.live, context.log := context.live - {id}, context.log + [Destroyed(id)];
    }
  }

  class Framebuffer {
    const context: Context
    const id: nat
    const colorTexture: Texture
    var destroyed: bool

    constructor (context: Context, id: nat, colorTexture: Texture)
      ensures this.context == context && this.id == id && this.colorTexture == colorTexture && !destroyed
    {
      this.context, this.id, this.colorTexture := context, id, colorTexture;
      destroyed := false;
    }

    /** Releases the framebuffer only: its attachment is not owned by it. */
    method Destroy()
      requires !destroyed && id in context.live
      modifies this, context
      ensures destroyed && context.State() == Release(old(context.State()), id)
    {
      destroyed := true;
      context.live, context.log := context.live - {id}, context.log + [Destroyed(id)];
    }
  }

  class ShaderProgram {
    const context: Context
    const id: nat
    var destroyed: bool

    constructor (context: Context, id: nat)
      ensures this.context == context && this.id == id && !destroyed
    {
      this.context, this.id := context, id;
      destroyed := false;
    }

    method Destroy()
      requires !destroyed && id in context.live
      modifies this, context
      ensures destroyed && context.State() == Release(old(context.State()), id)
    {
      destroyed := true;
      context.live, context.log := context.live - {id}, context.log + [Destroyed(id)];
    }
  }

  /** A draw command: the program it runs and the framebuffer it renders into. */
  class DrawCommand {
    const fragmentShader: FragmentShader
    var framebuffer: Framebuffer?
    var shaderProgram: ShaderProgram?

    constructor (fragmentShader: FragmentShader, shaderProgram: ShaderProgram)
      ensures this.fragmentShader == fragmentShader && this.shaderProgram == shaderProgram
      ensures framebuffer == null
    {
      this.fragmentShader := fragmentShader;
      this.shaderProgram := shaderProgram;
      framebuffer := null;
    }
  }
}
