// The GPU as the CPU-side driver sees it: textures with framebuffers attached
// are opaque handles with a size, every shader pass is an uninterpreted kernel
// that samples some handles and renders into one target, and the context
// records each pass (with the blend state it ran under) in a trace.

module Gpu {
  import opened Formats

  datatype Vec3 = Vec3(x: real, y: real, z: real)

  datatype Filter = Linear | Nearest

  /** The texture parameters createFBO is given besides the size. */
  datatype TexSpec = TexSpec(internalFormat: InternalFormat, format: PixelFormat, texType: TexType, filter: Filter)

  /**
   * A texture with a framebuffer attached to it (the object createFBO returns).
   * Identity is reference identity: two handles name the same GPU memory
   * exactly when they are the same object.
   */
  class Fbo {
    const width: int
    const height: int
    const texelSizeX: real
    const texelSizeY: real
    const spec: TexSpec

    constructor (w: int, h: int, spec: TexSpec)
      requires w > 0 && h > 0
      ensures width == w && height == h && this.spec == spec
      ensures texelSizeX == 1.0 / w as real && texelSizeY == 1.0 / h as real
    {
      width := w;
      height := h;
      texelSizeX := 1.0 / w as real;
      texelSizeY := 1.0 / h as real;
      this.spec := spec;
    }
  }

  /** A sampled-only texture loaded from an image (the dithering pattern); it starts as 1x1. */
  class ImageTexture {
    var width: int
    var height: int

    constructor ()
      ensures width == 1 && height == 1
    {
      width := 1;
      height := 1;
    }
  }

  /** Where a pass renders: the default framebuffer (a null target) or an FBO. */
  datatype Target = Screen | ToFbo(fbo: Fbo)

  /** The blend state a pass runs under. */
  datatype Blend =
    | Disabled
    | Additive      // blendFunc(ONE, ONE)
    | Over          // blendFunc(ONE, ONE_MINUS_SRC_ALPHA)

  /** The shader programs, with the scalar uniforms that distinguish their passes. */
  datatype Kernel =
    | Copy
    | Curl
    | Vorticity(curl: real, dt: real)
    | Divergence
    | Clear(value: real)
    | Jacobi
    | GradientSubtract
    | Advection(dt: real, dissipation: real)
    | Splat(aspectRatio: real, pointX: real, pointY: real, color: Vec3, radius: real)
    | BloomPrefilter(curve: Vec3, threshold: real)
    | BloomBlur
    | BloomFinal(intensity: real)
    | SunraysMask
    | Sunrays(weight: real)
    | Blur(horizontal: bool)
    | Color(color: Vec3)
    | Checkerboard(aspectRatio: real)
    | Display(shading: bool, bloom: bool, sunrays: bool)

  /** One blit: the kernel, the textures it samples, the target it renders into, the blend state. */
  datatype Pass = Pass(kernel: Kernel, inputs: seq<object>, target: Target, blend: Blend)

  /** A pass is free of feedback hazards when it does not sample the texture it renders into. */
  predicate HazardFree(p: Pass) {
    p.target.ToFbo? ==> (p.target.fbo as object) !in p.inputs
  }

  predicate AllHazardFree(ps: seq<Pass>) {
    forall i :: 0 <= i < |ps| ==> HazardFree(ps[i])
  }

  lemma {:induction false} AllHazardFreeAppend(a: seq<Pass>, b: seq<Pass>)
    requires AllHazardFree(a) && AllHazardFree(b)
    ensures AllHazardFree(a + b)
  {
    forall i | 0 <= i < |a + b|
      ensures HazardFree((a + b)[i])
    {
      if i < |a| {
        assert (a + b)[i] == a[i];
      } else {
        assert (a + b)[i] == b[i - |a|];
      }
    }
  }

  /** The rendering context: the blend state and the log of every blit issued so far. */
  class Gl {
    var blend: Blend
    var trace: seq<Pass>

    constructor ()
      ensures blend == Disabled && trace == []
    {
      blend := Disabled;
      trace := [];
    }

    /** gl.disable(BLEND), or gl.blendFunc(...) followed by gl.enable(BLEND). */
    method SetBlend(b: Blend)
      modifies this
      ensures blend == b && trace == old(trace)
    {
      blend := b;
    }

    /** Bind the kernel and its input textures, then draw the full-screen quad into the target. */
    method Blit(kernel: Kernel, inputs: seq<object>, target: Target)
      modifies this
      ensures trace == old(trace) + [Pass(kernel, inputs, target, blend)]
      ensures blend == old(blend)
    {
      trace := trace + [Pass(kernel, inputs, target, blend)];
    }
  }
}
