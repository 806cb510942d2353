// The double-buffered ("ping-pong") field: two framebuffers of one size, one
// read by the next pass and one written by it, exchanged after each pass.

module Framebuffers {
  import opened Gpu

  /** The two slots of a double buffer, as a value. */
  datatype Slots = Slots(read: Fbo, write: Fbo)
  {
    /** The slots after one swap. */
    function Swapped(): (s: Slots)
      ensures s.read == write && s.write == read
    {
      Slots(write, read)
    }

    /** The slots after n swaps. */
    function SwappedN(n: nat): (s: Slots)
      ensures n % 2 == 0 ==> s == this
      ensures n % 2 == 1 ==> s == Swapped()
      decreases n
    {
      if n == 0 then this else Swapped().SwappedN(n - 1)
    }
  }

  /** Swapping twice restores the original assignment of the slots. */
  lemma SwapInvolution(s: Slots)
    ensures s.Swapped().Swapped() == s
  {
  }

  /** n swaps followed by m swaps are n + m swaps. */
  lemma {:induction false} SwappedNAdd(s: Slots, n: nat, m: nat)
    ensures s.SwappedN(n).SwappedN(m) == s.SwappedN(n + m)
    decreases n
  {
    if n > 0 {
      SwappedNAdd(s.Swapped(), n - 1, m);
    }
  }

  /** The size fields of a double buffer: width, height and the texel size the shaders receive. */
  datatype Geom = Geom(width: int, height: int, texelSizeX: real, texelSizeY: real)

  /**
   * Slots s hold two distinct framebuffers of size g and one format, and the
   * texel size of g is the reciprocal of its size.
   */
  predicate Layout(s: Slots, g: Geom) {
    s.read != s.write
    && g.width > 0 && g.height > 0
    && s.read.width == g.width && s.write.width == g.width
    && s.read.height == g.height && s.write.height == g.height
    && s.read.spec == s.write.spec
    && g.texelSizeX == 1.0 / g.width as real && g.texelSizeY == 1.0 / g.height as real
  }

  /** Swapping keeps the layout and the format of the read slot. */
  lemma LayoutSwappedN(s: Slots, g: Geom, n: nat)
    requires Layout(s, g)
    ensures Layout(s.SwappedN(n), g) && s.SwappedN(n).read.spec == s.read.spec
  {
  }

  /** createDoubleFBO's result: two distinct framebuffers plus the size and texel size of the pair. */
  class DoubleFbo {
    var read: Fbo
    var write: Fbo
    var width: int
    var height: int
    var texelSizeX: real
    var texelSizeY: real

    /** Both slots are distinct framebuffers of the recorded size and format. */
    ghost predicate Valid()
      reads this
    {
      Layout(Current(), Geometry())
    }

    function Current(): Slots
      reads this
    {
      Slots(read, write)
    }

    function Geometry(): Geom
      reads this
    {
      Geom(width, height, texelSizeX, texelSizeY)
    }

    /** createDoubleFBO: two fresh framebuffers of size w x h. */
    constructor (w: int, h: int, spec: TexSpec)
      requires w > 0 && h > 0
      ensures Valid()
      ensures width == w && height == h && read.spec == spec
      ensures fresh(read) && fresh(write)
    {
      var fbo1 := new Fbo(w, h, spec);
      var fbo2 := new Fbo(w, h, spec);
      read := fbo1;
      write := fbo2;
      width := w;
      height := h;
      texelSizeX := fbo1.texelSizeX;
      texelSizeY := fbo1.texelSizeY;
    }

    /**
     * swap: exchange the read and write slots; the size fields are untouched.
     * Like the source's swap it asks nothing of the pair; that a valid pair
     * stays valid across any number of swaps is LayoutSwappedN.
     */
    method Swap()
      modifies this
      ensures Current() == old(Current()).Swapped() && Geometry() == old(Geometry())
    {
      var temp := read;
      read := write;
      write := temp;
    }

    /**
     * resizeDoubleFBO: nothing changes when the size is already w x h; otherwise
     * the read slot is replaced by a new framebuffer into which the old read
     * slot is copied, the write slot by a new empty framebuffer, and the size
     * and texel size are recomputed.
     */
    method Resize(gl: Gl, w: int, h: int, spec: TexSpec)
      requires Valid() && w > 0 && h > 0
      modifies this, gl
      ensures Valid()
      ensures gl.blend == old(gl.blend)
      ensures old(width) == w && old(height) == h ==>
                Current() == old(Current()) && gl.trace == old(gl.trace) && read.spec == old(read.spec)
      ensures old(width) != w || old(height) != h ==>
                fresh(read) && fresh(write) && read.spec == spec
                && gl.trace == old(gl.trace) + [Pass(Copy, [old(read)], ToFbo(read), old(gl.blend))]
      ensures width == w && height == h
      ensures texelSizeX == 1.0 / w as real && texelSizeY == 1.0 / h as real
    {
      if width == w && height == h {
        return;
      }
      var newRead := new Fbo(w, h, spec);
      gl.Blit(Copy, [read], ToFbo(newRead));
      read := newRead;
      write := new Fbo(w, h, spec);
      width := w;
      height := h;
      texelSizeX := 1.0 / w as real;
      texelSizeY := 1.0 / h as real;
    }
  }
}
