// The simulation driver: the state scripts/script.js keeps in module-level
// variables (the config, the framebuffers, the pointers, the splat queue and
// the timers) as one object, and the operations a frame runs on it. Every
// blit goes to the context's trace; each operation is specified by the pass
// sequence it appends (see Passes) and by its effect on the state.

module Driver {
  import opened JsMath
  import opened Wrappers
  import opened Formats
  import opened Gpu
  import opened Framebuffers
  import opened Resolution
  import opened Shaders
  import opened Settings
  import opened Helpers
  import opened Input
  import opened Passes

  /** The texture parameters createFBO receives for a negotiated format. */
  function Spec(f: FormatPair, texType: TexType, filter: Filter): TexSpec {
    TexSpec(f.internalFormat, f.format, texType, filter)
  }

  /** A framebuffer's size and texture parameters. */
  datatype Buffer = Buffer(width: int, height: int, spec: TexSpec)

  function Sized(s: Size, spec: TexSpec): Buffer {
    Buffer(s.width, s.height, spec)
  }

  function BufferOf(f: Fbo): Buffer {
    Buffer(f.width, f.height, f.spec)
  }

  function BuffersOf(fs: seq<Fbo>): seq<Buffer> {
    seq(|fs|, i requires 0 <= i < |fs| => BufferOf(fs[i]))
  }

  /** The sizes and parameters of every framebuffer the driver holds. */
  datatype Shape = Shape(dye: Buffer, velocity: Buffer, pressure: Buffer, divergence: Buffer, curl: Buffer,
                         bloom: Buffer, levels: seq<Buffer>, sunrays: Buffer, sunraysTemp: Buffer)

  /**
   * The framebuffers initFramebuffers sets up for a canvas: velocity,
   * pressure, divergence and curl at the simulation resolution, dye at the
   * dye resolution, the bloom target and its mip chain at the bloom
   * resolution, the sunrays pair at the sunrays resolution. Dye, velocity,
   * the bloom chain and sunrays are filtered linearly when the device
   * supports it; pressure, divergence and curl always use nearest filtering.
   */
  function ExpectedShape(ext: Ext, cfg: Config, width: int, height: int): Shape
    requires width > 0 && height > 0
    requires ext.formatRGBA.Some? && ext.formatRG.Some? && ext.formatR.Some?
  {
    var sim := GetResolution(cfg.simResolution, width, height);
    var dyeRes := GetResolution(cfg.dyeResolution, width, height);
    var bloomRes := GetResolution(cfg.bloomResolution, width, height);
    var sunRes := GetResolution(cfg.sunraysResolution, width, height);
    var filtering := if ext.supportLinearFiltering then Linear else Nearest;
    var rgba := Spec(ext.formatRGBA.value, ext.halfFloatTexType, filtering);
    var rg := Spec(ext.formatRG.value, ext.halfFloatTexType, filtering);
    var r := Spec(ext.formatR.value, ext.halfFloatTexType, Nearest);
    var rFiltered := Spec(ext.formatR.value, ext.halfFloatTexType, filtering);
    Shape(Sized(dyeRes, rgba), Sized(sim, rg), Sized(sim, r), Sized(sim, r), Sized(sim, r),
          Sized(bloomRes, rgba), LevelBuffers(BloomLevels(bloomRes, cfg.bloomIterations), rgba),
          Sized(sunRes, rFiltered), Sized(sunRes, rFiltered))
  }

  function LevelBuffers(levels: seq<Size>, spec: TexSpec): seq<Buffer> {
    seq(|levels|, i requires 0 <= i < |levels| => Sized(levels[i], spec))
  }

  /** A double buffer's size and the parameters of its framebuffers. */
  function DoubleBuffer(d: DoubleFbo): Buffer
    reads d
  {
    Buffer(d.width, d.height, d.read.spec)
  }

  /** The double buffer keeps its size and texel size. */
  twostate predicate Kept(d: DoubleFbo)
    reads d
  {
    d.Geometry() == old(d.Geometry())
  }

  /**
   * No framebuffer is a slot of two of the double buffers v, p and d, the
   * single framebuffers are pairwise distinct, and none of them is a slot of
   * a double buffer.
   */
  predicate SlotsApart(v: Slots, p: Slots, d: Slots, singles: seq<Fbo>) {
    Disjoint(v, p) && Disjoint(v, d) && Disjoint(p, d)
    && Distinct(singles)
    && forall i :: 0 <= i < |singles| ==> Apart(v, singles[i]) && Apart(p, singles[i]) && Apart(d, singles[i])
  }

  /**
   * Swapping the double buffers any number of times keeps their layouts,
   * the format of their read slots and their separation from each other and
   * from the single framebuffers.
   */
  lemma SwapsKeepLayout(v: Slots, p: Slots, d: Slots, gv: Geom, gp: Geom, gd: Geom, singles: seq<Fbo>, a: nat, b: nat, c: nat)
    requires Layout(v, gv) && Layout(p, gp) && Layout(d, gd) && SlotsApart(v, p, d, singles)
    ensures Layout(v.SwappedN(a), gv) && Layout(p.SwappedN(b), gp) && Layout(d.SwappedN(c), gd)
    ensures v.SwappedN(a).read.spec == v.read.spec && p.SwappedN(b).read.spec == p.read.spec
            && d.SwappedN(c).read.spec == d.read.spec
    ensures SlotsApart(v.SwappedN(a), p.SwappedN(b), d.SwappedN(c), singles)
  {
    LayoutSwappedN(v, gv, a);
    LayoutSwappedN(p, gp, b);
    LayoutSwappedN(d, gd, c);
  }

  /** The state of every pointer, in order. */
  function States(ps: seq<Pointer>): (r: seq<PointerState>)
    reads ps
    ensures |r| == |ps| && forall i :: 0 <= i < |ps| ==> r[i] == ps[i].State()
  {
    if |ps| == 0 then [] else States(ps[..|ps| - 1]) + [ps[|ps| - 1].State()]
  }

  /** Pointer i of ps; distinctness is stated on this term so that it is used only where asked for. */
  ghost function At(ps: seq<Pointer>, i: nat): Pointer
    requires i < |ps|
  {
    ps[i]
  }

  /** No pointer object appears twice in ps. */
  ghost predicate PointersDistinct(ps: seq<Pointer>) {
    forall i, j :: 0 <= i < j < |ps| ==> At(ps, i) != At(ps, j)
  }

  /** Distinct pointers, stated on the indices of ps. */
  lemma DistinctIndices(ps: seq<Pointer>)
    requires PointersDistinct(ps)
    ensures forall i, j :: 0 <= i < j < |ps| ==> ps[i] != ps[j]
  {
    forall i, j | 0 <= i < j < |ps|
      ensures ps[i] != ps[j]
    {
      assert At(ps, i) != At(ps, j);
    }
  }

  /** Pointers that no one wrote to keep their states. */
  twostate lemma StatesKept(ps: seq<Pointer>)
    requires unchanged(ps)
    ensures States(ps) == old(States(ps))
  {
  }

  /** The pointers with pointer i given the color colorOf(i) and nothing else changed. */
  function Recolored(ss: seq<PointerState>, colorOf: nat -> Vec3): (r: seq<PointerState>)
    ensures |r| == |ss| && forall i :: 0 <= i < |ss| ==> r[i] == ss[i].(color := colorOf(i))
  {
    seq(|ss|, i requires 0 <= i < |ss| => ss[i].(color := colorOf(i)))
  }

  /** The loop of updateColors over the pointers: pointer i gets colorOf(i). */
  method Paint(pointers: seq<Pointer>, colorOf: nat -> Vec3)
    requires PointersDistinct(pointers)
    modifies pointers
    ensures States(pointers) == Recolored(old(States(pointers)), colorOf)
  {
    DistinctIndices(pointers);
    for i := 0 to |pointers|
      invariant forall j :: 0 <= j < i ==> pointers[j].State() == old(pointers[j].State()).(color := colorOf(j))
      invariant forall j :: i <= j < |pointers| ==> pointers[j].State() == old(pointers[j].State())
    {
      pointers[i].color := colorOf(i);
    }
  }

  /** The color every pointer gets when COLORFUL is off. */
  function White(i: nat): Vec3 {
    Vec3(1.0, 1.0, 1.0)
  }

  /**
   * The number of random splats applyInputs makes for a splat stack: none
   * when the stack is empty, otherwise the last amount queued, where a
   * negative amount makes none.
   */
  function QueuedAmount(stack: seq<int>): (n: nat)
    ensures |stack| == 0 ==> n == 0
    ensures |stack| > 0 ==> n == if stack[|stack| - 1] < 0 then 0 else stack[|stack| - 1]
  {
    if |stack| == 0 || stack[|stack| - 1] < 0 then 0 else stack[|stack| - 1]
  }

  /** The splat stack after Array.prototype.pop: the last element removed, an empty stack left as it is. */
  function Popped(stack: seq<int>): (r: seq<int>)
    ensures |stack| == 0 ==> r == []
    ensures |stack| > 0 ==> |r| == |stack| - 1 && r == stack[..|stack| - 1]
  {
    if |stack| == 0 then [] else stack[..|stack| - 1]
  }

  /** The pointer states after the pointer loop of applyInputs: every moved flag cleared, nothing else changed. */
  function ClearMoved(ss: seq<PointerState>): (r: seq<PointerState>)
    ensures |r| == |ss| && forall i :: 0 <= i < |ss| ==> r[i] == ss[i].(moved := false)
  {
    seq(|ss|, i requires 0 <= i < |ss| => ss[i].(moved := false))
  }

  /** No pointer has a pending motion. */
  predicate NoneMoved(ss: seq<PointerState>) {
    forall i :: 0 <= i < |ss| ==> !ss[i].moved
  }

  /** After the pointer loop of applyInputs no pointer has a pending motion. */
  lemma ClearedNoneMoved(ss: seq<PointerState>)
    ensures NoneMoved(ClearMoved(ss))
  {
  }

  /** The canvas aspect ratio, width over height. */
  function Aspect(width: int, height: int): real
    requires height > 0
  {
    width as real / height as real
  }

  /** The splat radius on a width by height canvas: SPLAT_RADIUS / 100, stretched when landscape. */
  function Radius(splatRadius: real, width: int, height: int): real
    requires height > 0
  {
    CorrectRadius(splatRadius / 100.0, Aspect(width, height))
  }

  /**
   * The splats of applyInputs: the random splats for the last amount on the
   * splat stack, then one for every moved pointer.
   */
  function InputSplats(draw: nat -> Draw, stack: seq<int>, colorful: bool, ss: seq<PointerState>, force: real): seq<SplatArgs> {
    RandomSplats(draw, QueuedAmount(stack), colorful) + PointerSplats(ss, force)
  }

  /**
   * The color timer after updateColors for a frame of dt seconds: advanced
   * by dt * speed, where speed is COLOR_UPDATE_SPEED; it stands still
   * without COLORFUL.
   */
  function TimerAfter(colorful: bool, timer: real, dt: real, speed: real): real {
    if colorful then ColorTimer(timer, dt * speed) else timer
  }

  /**
   * The pointer states after updateColors for a frame of dt seconds: all
   * white without COLORFUL; with it, recolored from the palette exactly when
   * the timer advanced by dt * speed reaches 1.
   */
  function ColorsAfter(colorful: bool, timer: real, dt: real, speed: real, ss: seq<PointerState>, palette: nat -> Vec3)
    : seq<PointerState>
  {
    if !colorful then Recolored(ss, White)
    else if timer + dt * speed < 1.0 then ss
    else Recolored(ss, palette)
  }

  /**
   * The inputs and the solver step of one frame, on slot values: the splats
   * ss go to velocity v and dye d, then, unless PAUSED, step runs on the
   * slots they leave (with pressure p); splats and solver are the passes of
   * the two, and v2, p2, d2 the slots they leave behind.
   */
  predicate Advanced(v: Slots, p: Slots, d: Slots, ss: seq<SplatArgs>, aspectRatio: real, radius: real, blend: Blend,
                     curl: Fbo, divergence: Fbo, dt: real, cfg: Config,
                     splats: seq<Pass>, solver: seq<Pass>, v2: Slots, p2: Slots, d2: Slots)
  {
    var v1, d1 := v.SwappedN(|ss|), d.SwappedN(|ss|);
    splats == SplatsPasses(v, d, ss, aspectRatio, radius, blend)
    && (cfg.paused ==> solver == [] && v2 == v1 && p2 == p && d2 == d1)
    && (!cfg.paused ==>
          solver == StepPasses(v1, p, d1, curl, divergence, dt, cfg)
          && v2 == v1.SwappedN(3) && p2 == p.SwappedN(JacobiCount(cfg) + 1) && d2 == d1.Swapped())
  }

  /** A timer advanced by dt * speed and pointers recolored when it reached 1 are updateColors under COLORFUL. */
  lemma CycleMatches(timer: real, dt: real, speed: real, step: real, ss: seq<PointerState>, palette: nat -> Vec3,
                     next: real, states: seq<PointerState>)
    requires step == dt * speed
    requires next == ColorTimer(timer, step)
    requires timer + step < 1.0 ==> states == ss
    requires 1.0 <= timer + step ==> states == Recolored(ss, palette)
    ensures next == TimerAfter(true, timer, dt, speed)
    ensures states == ColorsAfter(true, timer, dt, speed, ss, palette)
  {
  }

  /** A resize copies the old contents into the new read slot exactly when the size changed. */
  function ResizeCopy(oldRead: Fbo, newRead: Fbo, resized: bool): seq<Pass> {
    if resized then [Pass(Copy, [oldRead], ToFbo(newRead), Disabled)] else []
  }

  /**
   * The copy passes of initFramebuffers for a width x height canvas: one
   * for each double buffer whose size changes, the dye first. dye and
   * velocity are the read sides before, with their geometries; dyeRead and
   * velocityRead the read sides after.
   */
  function RebuildCopies(dye: Fbo, dyeGeom: Geom, dyeRead: Fbo, velocity: Fbo, velocityGeom: Geom, velocityRead: Fbo,
                         cfg: Config, width: int, height: int): seq<Pass>
    requires width > 0 && height > 0
  {
    var dyeRes := GetResolution(cfg.dyeResolution, width, height);
    var sim := GetResolution(cfg.simResolution, width, height);
    ResizeCopy(dye, dyeRead, dyeGeom.width != dyeRes.width || dyeGeom.height != dyeRes.height)
    + ResizeCopy(velocity, velocityRead, velocityGeom.width != sim.width || velocityGeom.height != sim.height)
  }

  /**
   * The resize part of a frame, on values: when the canvas size has not
   * changed, no passes and the slots v, p, d and the blend mode stay as they
   * are (v1, p1, d1, blend1); when it has, blending is off, the copy
   * passes are those of initFramebuffers for a width x height canvas, and
   * a double buffer whose resolution is unchanged keeps its slots.
   */
  predicate Resized(changed: bool, v: Slots, vGeom: Geom, p: Slots, d: Slots, dGeom: Geom, blend: Blend, cfg: Config,
                    width: int, height: int, copies: seq<Pass>, v1: Slots, p1: Slots, d1: Slots, blend1: Blend)
    requires width > 0 && height > 0
  {
    (!changed ==> copies == [] && v1 == v && p1 == p && d1 == d && blend1 == blend)
    && (changed ==> blend1 == Disabled && copies == RebuildCopies(d.read, dGeom, d1.read, v.read, vGeom, v1.read, cfg, width, height))
    && (changed ==> SameSizeKept(d, dGeom, d1, GetResolution(cfg.dyeResolution, width, height))
                    && SameSizeKept(v, vGeom, v1, GetResolution(cfg.simResolution, width, height)))
  }

  /** resizeDoubleFBO on values: a double buffer already at res keeps its slots s as s1. */
  predicate SameSizeKept(s: Slots, g: Geom, s1: Slots, res: Size) {
    g.width == res.width && g.height == res.height ==> s1 == s
  }

  // ---------------------------------------------------------------------
  // Framebuffer creation
  // ---------------------------------------------------------------------

  /** The divergence, curl and pressure framebuffers of the simulation grid (nearest filtering). */
  method CreateSolverFramebuffers(sim: Size, spec: TexSpec) returns (divergence: Fbo, curl: Fbo, pressure: DoubleFbo)
    requires sim.width > 0 && sim.height > 0
    ensures fresh(divergence) && fresh(curl) && fresh(pressure) && fresh(pressure.read) && fresh(pressure.write)
    ensures divergence != curl && Apart(pressure.Current(), divergence) && Apart(pressure.Current(), curl)
    ensures BufferOf(divergence) == Sized(sim, spec) && BufferOf(curl) == Sized(sim, spec)
    ensures pressure.Valid() && DoubleBuffer(pressure) == Sized(sim, spec)
  {
    divergence := new Fbo(sim.width, sim.height, spec);
    curl := new Fbo(sim.width, sim.height, spec);
    pressure := new DoubleFbo(sim.width, sim.height, spec);
  }

  /**
   * initBloomFramebuffers: the bloom target at the bloom resolution, then
   * level i at the resolution shifted right by i + 1, for at most
   * `iterations` levels, breaking out at the first level below 2x2.
   */
  method CreateBloomFramebuffers(res: Size, iterations: int, spec: TexSpec) returns (bloom: Fbo, levels: seq<Fbo>)
    requires res.width > 0 && res.height > 0
    ensures fresh(bloom) && BufferOf(bloom) == Sized(res, spec)
    ensures BuffersOf(levels) == LevelBuffers(BloomLevels(res, iterations), spec)
    ensures forall i :: 0 <= i < |levels| ==> fresh(levels[i])
    ensures Distinct(levels) && bloom !in levels
  {
    bloom := new Fbo(res.width, res.height, spec);
    levels := [];
    var i := 0;
    while i < iterations
      invariant 0 <= i && |levels| == i && (i == 0 || i <= iterations)
      invariant forall j :: 0 <= j < i ==> LevelFits(res, j)
      invariant forall j :: 0 <= j < i ==>
                  fresh(levels[j]) && BufferOf(levels[j]) == Sized(Level(res, j), spec)
      invariant Distinct(levels) && bloom !in levels
      decreases iterations - i
    {
      var width := ShiftRight(res.width, i + 1);
      var height := ShiftRight(res.height, i + 1);
      if width < 2 || height < 2 {
        break;
      }
      var fbo := new Fbo(width, height, spec);
      levels := levels + [fbo];
      i := i + 1;
    }
    BloomLevelsExact(res, iterations, i);
    assert BuffersOf(levels) == LevelBuffers(BloomLevels(res, iterations), spec);
  }

  /** Once every level below i fits and level i does not (or i reaches the cap), the chain has exactly i levels. */
  lemma BloomLevelsExact(res: Size, iterations: int, i: nat)
    requires forall j :: 0 <= j < i ==> LevelFits(res, j)
    requires i >= iterations || !LevelFits(res, i)
    requires iterations < 0 ==> i == 0
    requires 0 <= iterations ==> i <= iterations
    ensures |BloomLevels(res, iterations)| == i
  {
  }

  /** initSunraysFramebuffers: the sunrays target and its blur temporary, both at the sunrays resolution. */
  method CreateSunraysFramebuffers(res: Size, spec: TexSpec) returns (sunrays: Fbo, sunraysTemp: Fbo)
    requires res.width > 0 && res.height > 0
    ensures fresh(sunrays) && fresh(sunraysTemp) && sunrays != sunraysTemp
    ensures BufferOf(sunrays) == Sized(res, spec) && BufferOf(sunraysTemp) == Sized(res, spec)
  {
    sunrays := new Fbo(res.width, res.height, spec);
    sunraysTemp := new Fbo(res.width, res.height, spec);
  }

  /**
   * The framebuffers initFramebuffers creates afresh: divergence, curl and
   * pressure on the simulation grid, the bloom target with its mip chain,
   * and the sunrays pair; no two of them share a framebuffer.
   */
  method CreateSingles(sim: Size, bloomRes: Size, sunRes: Size, iterations: int, r: TexSpec, rgba: TexSpec, rFiltered: TexSpec,
                       ghost v: Slots, ghost d: Slots)
    returns (div: Fbo, cu: Fbo, pr: DoubleFbo, bl: Fbo, levels: seq<Fbo>, sr: Fbo, srTemp: Fbo)
    requires sim.width > 0 && sim.height > 0 && bloomRes.width > 0 && bloomRes.height > 0
    requires sunRes.width > 0 && sunRes.height > 0
    requires Disjoint(v, d)
    ensures fresh(pr) && fresh(pr.read) && fresh(pr.write) && pr.Valid() && DoubleBuffer(pr) == Sized(sim, r)
    ensures BufferOf(div) == Sized(sim, r) && BufferOf(cu) == Sized(sim, r) && BufferOf(bl) == Sized(bloomRes, rgba)
    ensures BuffersOf(levels) == LevelBuffers(BloomLevels(bloomRes, iterations), rgba)
    ensures BufferOf(sr) == Sized(sunRes, rFiltered) && BufferOf(srTemp) == Sized(sunRes, rFiltered)
    ensures fresh(div) && fresh(cu) && fresh(bl) && fresh(sr) && fresh(srTemp)
    ensures forall i :: 0 <= i < |levels| ==> fresh(levels[i])
    ensures SlotsApart(v, pr.Current(), d, [div, cu, bl, sr, srTemp] + levels)
  {
    div, cu, pr := CreateSolverFramebuffers(sim, r);
    bl, levels := CreateBloomFramebuffers(bloomRes, iterations, rgba);
    sr, srTemp := CreateSunraysFramebuffers(sunRes, rFiltered);
    var p := pr.Current();
    assert Disjoint(v, p);
    assert Disjoint(p, d);
    assert ApartAll(v, p, d, div) && ApartAll(v, p, d, cu);
    assert ApartAll(v, p, d, bl) && ApartAll(v, p, d, sr) && ApartAll(v, p, d, srTemp);
    assert forall i :: 0 <= i < |levels| ==> ApartAll(v, p, d, levels[i]) && levels[i] != div && levels[i] != cu
                                             && levels[i] != sr && levels[i] != srTemp;
    SinglesApart(v, p, d, div, cu, bl, sr, srTemp, levels);
  }

  /** None of the slots of v, p and d is f. */
  predicate ApartAll(v: Slots, p: Slots, d: Slots, f: Fbo) {
    Apart(v, f) && Apart(p, f) && Apart(d, f)
  }

  /** Five named framebuffers and a chain, all distinct and apart from the double buffers, meet SlotsApart. */
  lemma SinglesApart(v: Slots, p: Slots, d: Slots, a: Fbo, b: Fbo, c: Fbo, e: Fbo, f: Fbo, levels: seq<Fbo>)
    requires Disjoint(v, p) && Disjoint(v, d) && Disjoint(p, d)
    requires ApartAll(v, p, d, a) && ApartAll(v, p, d, b) && ApartAll(v, p, d, c) && ApartAll(v, p, d, e) && ApartAll(v, p, d, f)
    requires a != b && a != c && a != e && a != f && b != c && b != e && b != f && c != e && c != f && e != f
    requires Distinct(levels)
    requires forall i :: 0 <= i < |levels| ==> ApartAll(v, p, d, levels[i])
    requires forall i :: 0 <= i < |levels| ==> levels[i] != a && levels[i] != b && levels[i] != c && levels[i] != e && levels[i] != f
    ensures SlotsApart(v, p, d, [a, b, c, e, f] + levels)
  {
    var s := [a, b, c, e, f] + levels;
    forall i | 0 <= i < |s|
      ensures ApartAll(v, p, d, s[i])
    {
      if i >= 5 {
        assert s[i] == levels[i - 5];
      }
    }
    forall i, j | 0 <= i < j < |s|
      ensures s[i] != s[j]
    {
      if j >= 5 {
        assert s[j] == levels[j - 5];
        if i >= 5 {
          assert s[i] == levels[i - 5];
        }
      }
    }
  }

  /**
   * initFramebuffers before any framebuffer exists: every framebuffer is
   * created afresh at the size and with the parameters ExpectedShape gives.
   */
  method CreateFramebuffers(ext: Ext, cfg: Config, width: int, height: int)
    returns (dye: DoubleFbo, velocity: DoubleFbo, div: Fbo, cu: Fbo, pr: DoubleFbo, bl: Fbo, levels: seq<Fbo>, sr: Fbo, srTemp: Fbo)
    requires ext.formatRGBA.Some? && ext.formatRG.Some? && ext.formatR.Some?
    requires width > 0 && height > 0 && ConfigValid(cfg)
    ensures fresh(dye) && fresh(velocity) && fresh(pr)
    ensures dye.Valid() && velocity.Valid() && pr.Valid()
    ensures SlotsApart(velocity.Current(), pr.Current(), dye.Current(), [div, cu, bl, sr, srTemp] + levels)
    ensures Shape(DoubleBuffer(dye), DoubleBuffer(velocity), DoubleBuffer(pr), BufferOf(div), BufferOf(cu),
                  BufferOf(bl), BuffersOf(levels), BufferOf(sr), BufferOf(srTemp))
            == ExpectedShape(ext, cfg, width, height)
  {
    var sim := GetResolution(cfg.simResolution, width, height);
    var dyeRes := GetResolution(cfg.dyeResolution, width, height);
    var bloomRes := GetResolution(cfg.bloomResolution, width, height);
    var sunRes := GetResolution(cfg.sunraysResolution, width, height);
    var filtering := if ext.supportLinearFiltering then Linear else Nearest;
    var rgba := Spec(ext.formatRGBA.value, ext.halfFloatTexType, filtering);
    var rg := Spec(ext.formatRG.value, ext.halfFloatTexType, filtering);
    var r := Spec(ext.formatR.value, ext.halfFloatTexType, Nearest);
    var rFiltered := Spec(ext.formatR.value, ext.halfFloatTexType, filtering);
    dye := new DoubleFbo(dyeRes.width, dyeRes.height, rgba);
    velocity := new DoubleFbo(sim.width, sim.height, rg);
    div, cu, pr, bl, levels, sr, srTemp :=
      CreateSingles(sim, bloomRes, sunRes, cfg.bloomIterations, r, rgba, rFiltered, velocity.Current(), dye.Current());
  }

  /**
   * The first half of initFramebuffers: the dye and velocity double buffers
   * are resized to the dye and simulation resolutions, in that order, with
   * blending off; copies are the copy passes of the two resizes.
   */
  method ResizeDoubles(gl: Gl, dye: DoubleFbo, velocity: DoubleFbo, dyeRes: Size, sim: Size, rgba: TexSpec, rg: TexSpec)
    returns (ghost copies: seq<Pass>)
    requires dye.Valid() && velocity.Valid() && dye != velocity && Disjoint(velocity.Current(), dye.Current())
    requires dye.read.spec == rgba && velocity.read.spec == rg
    requires dyeRes.width > 0 && dyeRes.height > 0 && sim.width > 0 && sim.height > 0
    requires gl.blend == Disabled
    modifies gl, dye, velocity
    ensures dye.Valid() && velocity.Valid() && Disjoint(velocity.Current(), dye.Current())
    ensures DoubleBuffer(dye) == Sized(dyeRes, rgba) && DoubleBuffer(velocity) == Sized(sim, rg)
    ensures gl.blend == Disabled
    ensures SameSizeKept(old(dye.Current()), old(dye.Geometry()), dye.Current(), dyeRes)
    ensures SameSizeKept(old(velocity.Current()), old(velocity.Geometry()), velocity.Current(), sim)
    ensures copies == ResizeCopy(old(dye.read), dye.read, old(dye.width) != dyeRes.width || old(dye.height) != dyeRes.height)
                      + ResizeCopy(old(velocity.read), velocity.read, old(velocity.width) != sim.width || old(velocity.height) != sim.height)
    ensures gl.trace == old(gl.trace) + copies && InPhase(copies, 0) && AllHazardFree(copies)
  {
    ghost var first := ResizeOne(gl, dye, dyeRes, rgba);
    ghost var second := ResizeOne(gl, velocity, sim, rg);
    copies := first + second;
    InPhaseAppend(first, second, 0);
    AllHazardFreeAppend(first, second);
  }

  /**
   * resizeDoubleFBO with blending off: the double buffer ends up w x h with
   * the given parameters, and copy is its copy pass, if any.
   */
  method ResizeOne(gl: Gl, d: DoubleFbo, res: Size, spec: TexSpec) returns (ghost copy: seq<Pass>)
    requires d.Valid() && d.read.spec == spec && res.width > 0 && res.height > 0 && gl.blend == Disabled
    modifies gl, d
    ensures d.Valid() && DoubleBuffer(d) == Sized(res, spec) && gl.blend == Disabled
    ensures SameSizeKept(old(d.Current()), old(d.Geometry()), d.Current(), res)
    ensures old(d.width) != res.width || old(d.height) != res.height ==> fresh(d.read) && fresh(d.write)
    ensures copy == ResizeCopy(old(d.read), d.read, old(d.width) != res.width || old(d.height) != res.height)
    ensures gl.trace == old(gl.trace) + copy && InPhase(copy, 0) && AllHazardFree(copy)
  {
    d.Resize(gl, res.width, res.height, spec);
    copy := ResizeCopy(old(d.read), d.read, old(d.width) != res.width || old(d.height) != res.height);
  }


  // ---------------------------------------------------------------------
  // The passes of a frame, on the context and the double buffers alone
  // ---------------------------------------------------------------------

  /** The Jacobi loop of step: n passes, each rendering into the write slot and followed by a swap. */
  method PressureSolve(gl: Gl, pressure: DoubleFbo, divergence: Fbo, n: nat)
    requires gl.blend == Disabled
    modifies gl, pressure
    ensures Kept(pressure) && gl.blend == Disabled
    ensures gl.trace == old(gl.trace) + JacobiPasses(divergence, old(pressure.Current()), n)
    ensures pressure.Current() == old(pressure.Current()).SwappedN(n)
  {
    ghost var p0 := pressure.Current();
    for i := 0 to n
      invariant Kept(pressure) && gl.blend == Disabled
      invariant gl.trace == old(gl.trace) + JacobiPasses(divergence, p0, i)
      invariant pressure.Current() == p0.SwappedN(i)
    {
      gl.Blit(Jacobi, [divergence, pressure.read], ToFbo(pressure.write));
      pressure.Swap();
    }
  }

  /**
   * step: with blending off, curl, vorticity, divergence, the pressure
   * clear, the Jacobi iterations, the gradient subtraction and the two
   * advections, swapping after each pass into a double buffer.
   */
  method StepInto(gl: Gl, velocity: DoubleFbo, pressure: DoubleFbo, dye: DoubleFbo, curl: Fbo, divergence: Fbo,
                  dt: real, cfg: Config)
    requires velocity != pressure && velocity != dye && pressure != dye
    modifies gl, velocity, pressure, dye
    ensures Kept(velocity) && Kept(pressure) && Kept(dye)
    ensures gl.trace == old(gl.trace) + StepPasses(old(velocity.Current()), old(pressure.Current()), old(dye.Current()),
                                                   curl, divergence, dt, cfg)
    ensures gl.blend == Disabled
    ensures velocity.Current() == old(velocity.Current()).SwappedN(3)
    ensures pressure.Current() == old(pressure.Current()).SwappedN(JacobiCount(cfg) + 1)
    ensures dye.Current() == old(dye.Current()).Swapped()
  {
    ghost var v0, p0, d0 := velocity.Current(), pressure.Current(), dye.Current();
    StepHeadInto(gl, velocity, pressure, curl, divergence, dt, cfg);
    PressureSolve(gl, pressure, divergence, JacobiCount(cfg));
    SwappedNAdd(p0, 1, JacobiCount(cfg));
    StepTailInto(gl, velocity, pressure, dye, dt, cfg, v0, p0);
    Extend3(old(gl.trace), StepHead(v0, p0, curl, divergence, dt, cfg),
            JacobiPasses(divergence, p0.Swapped(), JacobiCount(cfg)), StepTail(v0, p0, d0, dt, cfg));
  }

  /** The passes of step before the pressure solve: curl, vorticity, divergence and the pressure clear. */
  method StepHeadInto(gl: Gl, velocity: DoubleFbo, pressure: DoubleFbo, curl: Fbo, divergence: Fbo, dt: real, cfg: Config)
    requires velocity != pressure
    modifies gl, velocity, pressure
    ensures Kept(velocity) && Kept(pressure) && gl.blend == Disabled
    ensures gl.trace == old(gl.trace) + StepHead(old(velocity.Current()), old(pressure.Current()), curl, divergence, dt, cfg)
    ensures velocity.Current() == old(velocity.Current()).Swapped() && pressure.Current() == old(pressure.Current()).Swapped()
  {
    gl.SetBlend(Disabled);
    gl.Blit(Curl, [velocity.read], ToFbo(curl));
    gl.Blit(Vorticity(cfg.curl, dt), [velocity.read, curl], ToFbo(velocity.write));
    velocity.Swap();
    gl.Blit(Divergence, [velocity.read], ToFbo(divergence));
    gl.Blit(Clear(cfg.pressure), [pressure.read], ToFbo(pressure.write));
    pressure.Swap();
  }

  /** The passes of step after the pressure solve: gradient subtraction and the two advections. */
  method StepTailInto(gl: Gl, velocity: DoubleFbo, pressure: DoubleFbo, dye: DoubleFbo, dt: real, cfg: Config,
                      ghost v0: Slots, ghost p0: Slots)
    requires gl.blend == Disabled
    requires velocity != pressure && velocity != dye && pressure != dye
    requires velocity.Current() == v0.Swapped() && pressure.Current() == p0.SwappedN(JacobiCount(cfg) + 1)
    modifies gl, velocity, dye
    ensures Kept(velocity) && Kept(dye) && gl.blend == Disabled
    ensures gl.trace == old(gl.trace) + StepTail(v0, p0, old(dye.Current()), dt, cfg)
    ensures velocity.Current() == v0.SwappedN(3) && dye.Current() == old(dye.Current()).Swapped()
  {
    gl.Blit(GradientSubtract, [pressure.read, velocity.read], ToFbo(velocity.write));
    velocity.Swap();
    gl.Blit(Advection(dt, cfg.velocityDissipation), [velocity.read, velocity.read], ToFbo(velocity.write));
    velocity.Swap();
    gl.Blit(Advection(dt, cfg.densityDissipation), [velocity.read, dye.read], ToFbo(dye.write));
    dye.Swap();
  }

  /**
   * splat: the force (dx, dy) into velocity, then the color into dye, at
   * (x, y) with the given radius; each followed by a swap. The passes run
   * under whatever blend state is current.
   */
  method SplatInto(gl: Gl, velocity: DoubleFbo, dye: DoubleFbo, s: SplatArgs, aspectRatio: real, radius: real)
    requires velocity != dye
    modifies gl, velocity, dye
    ensures Kept(velocity) && Kept(dye) && gl.blend == old(gl.blend)
    ensures gl.trace == old(gl.trace) + SplatPasses(old(velocity.Current()), old(dye.Current()), s, aspectRatio, radius, gl.blend)
    ensures velocity.Current() == old(velocity.Current()).Swapped() && dye.Current() == old(dye.Current()).Swapped()
  {
    gl.Blit(Kernel.Splat(aspectRatio, s.x, s.y, Vec3(s.dx, s.dy, 0.0), radius), [velocity.read], ToFbo(velocity.write));
    velocity.Swap();
    gl.Blit(Kernel.Splat(aspectRatio, s.x, s.y, s.color, radius), [dye.read], ToFbo(dye.write));
    dye.Swap();
  }

  /**
   * One more splat after the splats ss, which started from velocity slots v0
   * and dye slots d0 at trace t0: the trace and the slots are those of ss + [s].
   */
  method SplatNext(gl: Gl, velocity: DoubleFbo, dye: DoubleFbo, s: SplatArgs, aspectRatio: real, radius: real,
                   ghost t0: seq<Pass>, ghost v0: Slots, ghost d0: Slots, ghost ss: seq<SplatArgs>)
    requires velocity != dye
    requires gl.trace == t0 + SplatsPasses(v0, d0, ss, aspectRatio, radius, gl.blend)
    requires velocity.Current() == v0.SwappedN(|ss|) && dye.Current() == d0.SwappedN(|ss|)
    modifies gl, velocity, dye
    ensures Kept(velocity) && Kept(dye) && gl.blend == old(gl.blend)
    ensures gl.trace == t0 + SplatsPasses(v0, d0, ss + [s], aspectRatio, radius, gl.blend)
    ensures velocity.Current() == v0.SwappedN(|ss| + 1) && dye.Current() == d0.SwappedN(|ss| + 1)
  {
    SplatInto(gl, velocity, dye, s, aspectRatio, radius);
    Extend2(t0, SplatsPasses(v0, d0, ss, aspectRatio, radius, gl.blend),
            SplatPasses(v0.SwappedN(|ss|), d0.SwappedN(|ss|), s, aspectRatio, radius, gl.blend));
    SplatsSnoc(v0, d0, ss, s, aspectRatio, radius, gl.blend);
    SwapAfter(v0, |ss|);
    SwapAfter(d0, |ss|);
  }

  /** One more swap after n swaps is n + 1 swaps. */
  lemma SwapAfter(s: Slots, n: nat)
    ensures s.SwappedN(n).Swapped() == s.SwappedN(n + 1)
  {
    SwappedNAdd(s, n, 1);
  }

  /**
   * multipleSplats(amount): amount random splats; iteration i takes its
   * random color, position and force from draw(i).
   */
  method RandomSplatsInto(gl: Gl, velocity: DoubleFbo, dye: DoubleFbo, amount: nat, draw: nat -> Draw, colorful: bool,
                          aspectRatio: real, radius: real)
    requires velocity != dye
    modifies gl, velocity, dye
    ensures Kept(velocity) && Kept(dye) && gl.blend == old(gl.blend)
    ensures gl.trace == old(gl.trace) + SplatsPasses(old(velocity.Current()), old(dye.Current()), RandomSplats(draw, amount, colorful),
                                                     aspectRatio, radius, old(gl.blend))
    ensures velocity.Current() == old(velocity.Current()).SwappedN(amount)
    ensures dye.Current() == old(dye.Current()).SwappedN(amount)
  {
    ghost var v0, d0 := velocity.Current(), dye.Current();
    for i := 0 to amount
      invariant Kept(velocity) && Kept(dye) && gl.blend == old(gl.blend)
      invariant gl.trace == old(gl.trace) + SplatsPasses(v0, d0, RandomSplats(draw, i, colorful), aspectRatio, radius, gl.blend)
      invariant velocity.Current() == v0.SwappedN(|RandomSplats(draw, i, colorful)|)
      invariant dye.Current() == d0.SwappedN(|RandomSplats(draw, i, colorful)|)
    {
      SplatNext(gl, velocity, dye, RandomSplat(draw(i), colorful), aspectRatio, radius,
                old(gl.trace), v0, d0, RandomSplats(draw, i, colorful));
    }
  }

  /**
   * The pointer loop of applyInputs: each pointer whose moved flag is set
   * has the flag cleared and is splatted with its motion scaled by
   * splatForce (splatPointer).
   */
  method PointerSplatsInto(gl: Gl, velocity: DoubleFbo, dye: DoubleFbo, pointers: seq<Pointer>, splatForce: real,
                           aspectRatio: real, radius: real, ghost s0: seq<PointerState>)
    requires velocity != dye
    requires PointersDistinct(pointers)
    requires |s0| == |pointers| && forall i :: 0 <= i < |pointers| ==> pointers[i].State() == s0[i]
    modifies gl, velocity, dye, pointers
    ensures Kept(velocity) && Kept(dye) && gl.blend == old(gl.blend)
    ensures forall i :: 0 <= i < |pointers| ==> pointers[i].State() == s0[i].(moved := false)
    ensures var ss := PointerSplats(s0, splatForce);
            gl.trace == old(gl.trace) + SplatsPasses(old(velocity.Current()), old(dye.Current()), ss, aspectRatio, radius, old(gl.blend))
            && velocity.Current() == old(velocity.Current()).SwappedN(|ss|)
            && dye.Current() == old(dye.Current()).SwappedN(|ss|)
  {
    ghost var v0, d0 := velocity.Current(), dye.Current();
    ghost var ss: seq<SplatArgs> := [];
    for i := 0 to |pointers|
      invariant Kept(velocity) && Kept(dye) && gl.blend == old(gl.blend)
      invariant forall j :: 0 <= j < |pointers| ==> pointers[j].State() == if j < i then s0[j].(moved := false) else s0[j]
      invariant ss == PointerSplats(s0[..i], splatForce)
      invariant gl.trace == old(gl.trace) + SplatsPasses(v0, d0, ss, aspectRatio, radius, gl.blend)
      invariant velocity.Current() == v0.SwappedN(|ss|) && dye.Current() == d0.SwappedN(|ss|)
    {
      ss := PointerNext(gl, velocity, dye, pointers, i, splatForce, aspectRatio, radius, old(gl.trace), v0, d0, s0, ss);
    }
    assert s0[..|pointers|] == s0;
  }

  /**
   * One iteration of the pointer loop over the states s0: the pointers
   * before i are already cleared and ss holds their splats; pointer i, if
   * moved, has its flag cleared and is splatted.
   */
  method PointerNext(gl: Gl, velocity: DoubleFbo, dye: DoubleFbo, pointers: seq<Pointer>, i: nat, splatForce: real,
                     aspectRatio: real, radius: real,
                     ghost t0: seq<Pass>, ghost v0: Slots, ghost d0: Slots, ghost s0: seq<PointerState>, ghost ss: seq<SplatArgs>)
    returns (ghost next: seq<SplatArgs>)
    requires velocity != dye
    requires i < |pointers| && PointersDistinct(pointers)
    requires |s0| == |pointers|
    requires forall j :: 0 <= j < |pointers| ==> pointers[j].State() == if j < i then s0[j].(moved := false) else s0[j]
    requires ss == PointerSplats(s0[..i], splatForce)
    requires gl.trace == t0 + SplatsPasses(v0, d0, ss, aspectRatio, radius, gl.blend)
    requires velocity.Current() == v0.SwappedN(|ss|) && dye.Current() == d0.SwappedN(|ss|)
    modifies gl, velocity, dye, pointers[i]
    ensures Kept(velocity) && Kept(dye) && gl.blend == old(gl.blend)
    ensures forall j :: 0 <= j < |pointers| ==> pointers[j].State() == if j <= i then s0[j].(moved := false) else s0[j]
    ensures next == PointerSplats(s0[..i + 1], splatForce)
    ensures gl.trace == t0 + SplatsPasses(v0, d0, next, aspectRatio, radius, gl.blend)
    ensures velocity.Current() == v0.SwappedN(|next|) && dye.Current() == d0.SwappedN(|next|)
  {
    DistinctIndices(pointers);
    PointerSplatsPrefix(s0, i, splatForce);
    var pointer := pointers[i];
    next := ss;
    if pointer.moved {
      var s := PointerSplat(pointer.State(), splatForce);
      pointer.moved := false;
      SplatNext(gl, velocity, dye, s, aspectRatio, radius, t0, v0, d0, ss);
      next := ss + [s];
    }
  }

  /**
   * applyBloom: return at once with fewer than 2 levels; otherwise the
   * prefilter, the downsampling loop over the levels, the additive
   * upsampling loop back up the chain, and the final pass into dest.
   */
  method ApplyBloom(gl: Gl, source: Fbo, dest: Fbo, levels: seq<Fbo>, threshold: real, softKnee: real, intensity: real)
    requires 0.0 <= threshold && 0.0 <= softKnee
    modifies gl
    ensures gl.trace == old(gl.trace) + BloomPasses(source, dest, levels, threshold, softKnee, intensity)
    ensures gl.blend == if |levels| < 2 then old(gl.blend) else Disabled
  {
    if |levels| < 2 {
      return;
    }
    gl.SetBlend(Disabled);
    gl.Blit(BloomPrefilter(PrefilterCurve(threshold, softKnee), threshold), [source], ToFbo(dest));
    ghost var t1 := gl.trace;
    BloomDown(gl, dest, levels);
    ghost var t2 := gl.trace;
    gl.SetBlend(Additive);
    var last := BloomUp(gl, levels);
    ghost var t3 := gl.trace;
    gl.SetBlend(Disabled);
    gl.Blit(BloomFinal(intensity), [last], ToFbo(dest));
    Extend4(old(gl.trace), [Pass(BloomPrefilter(PrefilterCurve(threshold, softKnee), threshold), [source], ToFbo(dest), Disabled)],
            BloomDownPasses(dest, levels, |levels|), BloomUpPasses(levels, |levels| - 1),
            [Pass(BloomFinal(intensity), [levels[0]], ToFbo(dest), Disabled)]);
  }

  /** The downsampling loop of applyBloom: each level blurred down from the one before it (dest before the first). */
  method BloomDown(gl: Gl, dest: Fbo, levels: seq<Fbo>)
    requires gl.blend == Disabled
    modifies gl
    ensures gl.trace == old(gl.trace) + BloomDownPasses(dest, levels, |levels|) && gl.blend == Disabled
  {
    var last := dest;
    for i := 0 to |levels|
      invariant last == if i == 0 then dest else levels[i - 1]
      invariant gl.trace == old(gl.trace) + BloomDownPasses(dest, levels, i) && gl.blend == Disabled
    {
      var fbo := levels[i];
      gl.Blit(BloomBlur, [last], ToFbo(fbo));
      last := fbo;
    }
  }

  /** The upsampling loop of applyBloom: from the second-to-last level back to the first, each added onto from the one above. */
  method BloomUp(gl: Gl, levels: seq<Fbo>) returns (last: Fbo)
    requires 2 <= |levels| && gl.blend == Additive
    modifies gl
    ensures gl.trace == old(gl.trace) + BloomUpPasses(levels, |levels| - 1) && gl.blend == Additive
    ensures last == levels[0]
  {
    last := levels[|levels| - 1];
    var j := |levels| - 2;
    while j >= 0
      invariant -1 <= j <= |levels| - 2
      invariant last == levels[j + 1]
      invariant gl.trace == old(gl.trace) + BloomUpPasses(levels, |levels| - 2 - j) && gl.blend == Additive
    {
      var baseTex := levels[j];
      gl.Blit(BloomBlur, [last], ToFbo(baseTex));
      last := baseTex;
      j := j - 1;
    }
  }

  /** applySunrays: the mask of source into mask, then the rays into dest, blending off. */
  method ApplySunrays(gl: Gl, source: Fbo, mask: Fbo, dest: Fbo, weight: real)
    modifies gl
    ensures gl.trace == old(gl.trace) + SunraysPasses(source, mask, dest, weight)
    ensures gl.blend == Disabled
  {
    gl.SetBlend(Disabled);
    gl.Blit(SunraysMask, [source], ToFbo(mask));
    gl.Blit(Sunrays(weight), [mask], ToFbo(dest));
  }

  /** blur: `iterations` rounds of a horizontal pass into temp and a vertical pass back into target. */
  method BlurTexture(gl: Gl, target: Fbo, temp: Fbo, iterations: int)
    modifies gl
    ensures gl.trace == old(gl.trace) + BlurPasses(target, temp, if iterations < 0 then 0 else iterations, old(gl.blend))
    ensures gl.blend == old(gl.blend)
  {
    var n := if iterations < 0 then 0 else iterations;
    for i := 0 to n
      invariant gl.trace == old(gl.trace) + BlurPasses(target, temp, i, old(gl.blend))
      invariant gl.blend == old(gl.blend)
    {
      gl.Blit(Blur(true), [target], ToFbo(temp));
      gl.Blit(Blur(false), [temp], ToFbo(target));
    }
  }

  /** The post-processing half of render: bloom, then sunrays with one blur round, as enabled. */
  method PostprocessInto(gl: Gl, dye: Slots, bloom: Fbo, levels: seq<Fbo>, sunrays: Fbo, sunraysTemp: Fbo, cfg: Config)
    requires 0.0 <= cfg.bloomThreshold && 0.0 <= cfg.bloomSoftKnee
    modifies gl
    ensures gl.trace == old(gl.trace) + PostPasses(dye, bloom, levels, sunrays, sunraysTemp, cfg)
  {
    ghost var bl := if cfg.bloom then BloomPasses(dye.read, bloom, levels, cfg.bloomThreshold, cfg.bloomSoftKnee, cfg.bloomIntensity) else [];
    ghost var sr := if cfg.sunrays then SunraysPasses(dye.read, dye.write, sunrays, cfg.sunraysWeight) + BlurPasses(sunrays, sunraysTemp, 1, Disabled) else [];
    if cfg.bloom {
      ApplyBloom(gl, dye.read, bloom, levels, cfg.bloomThreshold, cfg.bloomSoftKnee, cfg.bloomIntensity);
    }
    ghost var t1 := gl.trace;
    assert t1 == old(gl.trace) + bl;
    if cfg.sunrays {
      ApplySunrays(gl, dye.read, dye.write, sunrays, cfg.sunraysWeight);
      BlurTexture(gl, sunrays, sunraysTemp, 1);
    }
    assert gl.trace == t1 + sr;
    assert gl.trace == old(gl.trace) + (bl + sr);
  }

  /**
   * render(null): bloom and sunrays as enabled, then with blending on the
   * background (back color or checkerboard) and the display pass onto the
   * screen.
   */
  method RenderInto(gl: Gl, dye: Slots, bloom: Fbo, levels: seq<Fbo>, sunrays: Fbo, sunraysTemp: Fbo,
                    dithering: ImageTexture, cfg: Config, aspectRatio: real)
    requires 0.0 <= cfg.bloomThreshold && 0.0 <= cfg.bloomSoftKnee
    modifies gl
    ensures gl.trace == old(gl.trace) + RenderPasses(dye, bloom, levels, sunrays, sunraysTemp, dithering, cfg, aspectRatio)
    ensures gl.blend == Over
  {
    PostprocessInto(gl, dye, bloom, levels, sunrays, sunraysTemp, cfg);
    gl.SetBlend(Over);
    if !cfg.transparent {
      gl.Blit(Color(NormalizeColor(cfg.backColor)), [], Screen);
    }
    if cfg.transparent {
      gl.Blit(Checkerboard(aspectRatio), [], Screen);
    }
    gl.Blit(Display(cfg.shading, cfg.bloom, cfg.sunrays), DisplayInputs(dye.read, bloom, dithering, sunrays, cfg), Screen);
  }

  // ---------------------------------------------------------------------
  // The simulation state
  // ---------------------------------------------------------------------

  /** The scalar state of the driver, for stating what an operation leaves alone. */
  datatype Globals = Globals(config: Config, canvasWidth: int, canvasHeight: int, pointers: seq<Pointer>,
                             splatStack: seq<int>, lastUpdateTime: int, colorUpdateTimer: real)

  /** The framebuffers the driver replaces wholesale in initFramebuffers. */
  datatype Replaced = Replaced(pressure: DoubleFbo, divergence: Fbo, curl: Fbo, bloom: Fbo,
                               bloomFramebuffers: seq<Fbo>, sunrays: Fbo, sunraysTemp: Fbo)

  /**
   * The color timer after a frame's advance by step: the sum while it is
   * below 1, otherwise the sum wrapped back into [0, 1). Either way the timer
   * stays below 1.
   */
  function ColorTimer(timer: real, step: real): (r: real)
    ensures r < 1.0
    ensures timer + step < 1.0 ==> r == timer + step
    ensures 1.0 <= timer + step ==> 0.0 <= r && r == Wrap(timer + step, 0.0, 1.0)
  {
    var t := timer + step;
    if t >= 1.0 then Wrap(t, 0.0, 1.0) else t
  }

  /** The framebuffers held as a shape: sizes and parameters of each. */
  function ShapeOf(dye: DoubleFbo, velocity: DoubleFbo, f: Replaced): Shape
    reads dye, velocity, f.pressure
  {
    Shape(DoubleBuffer(dye), DoubleBuffer(velocity), DoubleBuffer(f.pressure), BufferOf(f.divergence), BufferOf(f.curl),
          BufferOf(f.bloom), BuffersOf(f.bloomFramebuffers), BufferOf(f.sunrays), BufferOf(f.sunraysTemp))
  }

  /** The framebuffers that are not part of a double buffer. */
  function SinglesOf(f: Replaced): seq<Fbo> {
    [f.divergence, f.curl, f.bloom, f.sunrays, f.sunraysTemp] + f.bloomFramebuffers
  }

  /**
   * The state the driver keeps between calls, on the slots of its double
   * buffers, its single framebuffers, the shape they have and its globals:
   * every handle apart from the others, a non-empty canvas, a valid config,
   * renderable formats, framebuffers sized for the canvas, the color timer
   * below 1 and at least one pointer, all distinct.
   */
  ghost predicate Consistent(ext: Ext, v: Slots, p: Slots, d: Slots, singles: seq<Fbo>, shape: Shape, g: Globals) {
    SlotsApart(v, p, d, singles)
    && g.canvasWidth > 0 && g.canvasHeight > 0
    && ConfigValid(g.config)
    && ext.formatRGBA.Some? && ext.formatRG.Some? && ext.formatR.Some?
    && shape == ExpectedShape(ext, g.config, g.canvasWidth, g.canvasHeight)
    && g.colorUpdateTimer < 1.0
    && 1 <= |g.pointers|
    && PointersDistinct(g.pointers)
  }

  class Simulation {
    const gl: Gl
    const ext: Ext
    const displayMaterial: Material
    const ditheringTexture: ImageTexture
    const dye: DoubleFbo
    const velocity: DoubleFbo
    var pressure: DoubleFbo
    var divergence: Fbo
    var curl: Fbo
    var bloom: Fbo
    var bloomFramebuffers: seq<Fbo>
    var sunrays: Fbo
    var sunraysTemp: Fbo
    var config: Config
    var canvasWidth: int
    var canvasHeight: int
    var pointers: seq<Pointer>
    var splatStack: seq<int>
    var lastUpdateTime: int
    var colorUpdateTimer: real

    function Scalars(): Globals
      reads this
    {
      Globals(config, canvasWidth, canvasHeight, pointers, splatStack, lastUpdateTime, colorUpdateTimer)
    }

    function Framebuffers(): Replaced
      reads this
    {
      Replaced(pressure, divergence, curl, bloom, bloomFramebuffers, sunrays, sunraysTemp)
    }

    /** The framebuffers that are not part of a double buffer. */
    function Singles(): seq<Fbo>
      reads this
    {
      SinglesOf(Framebuffers())
    }

    /** Every handle is a framebuffer of its own (swapping slots does not affect this). */
    ghost predicate HandlesDistinct()
      reads this, dye, velocity, pressure
    {
      SlotsApart(velocity.Current(), pressure.Current(), dye.Current(), Singles())
    }

    /** The sizes and parameters of the framebuffers held now. */
    function CurrentShape(): Shape
      reads this, dye, velocity, pressure
    {
      ShapeOf(dye, velocity, Framebuffers())
    }

    /** The state every operation relies on. */
    ghost predicate Valid()
      reads this, dye, velocity, pressure, displayMaterial
    {
      Ready() && displayMaterial.Valid()
    }

    /** Everything Valid asks for except the display material's program cache. */
    ghost predicate Ready()
      reads this, dye, velocity, pressure
    {
      dye.Valid() && velocity.Valid() && pressure.Valid()
      && Consistent(ext, velocity.Current(), pressure.Current(), dye.Current(), Singles(), CurrentShape(), Scalars())
    }

    /**
     * The state initFramebuffers starts from: Valid, except that the
     * framebuffer sizes need not match the canvas.
     */
    ghost predicate Stale()
      reads this, dye, velocity, pressure, displayMaterial
    {
      dye.Valid() && velocity.Valid() && pressure.Valid()
      && HandlesDistinct()
      && canvasWidth > 0 && canvasHeight > 0
      && ConfigValid(config)
      && ext.formatRGBA.Some? && ext.formatRG.Some? && ext.formatR.Some?
      && dye.read.spec == ExpectedShape(ext, config, canvasWidth, canvasHeight).dye.spec
      && velocity.read.spec == ExpectedShape(ext, config, canvasWidth, canvasHeight).velocity.spec
      && colorUpdateTimer < 1.0
      && 1 <= |pointers|
      && PointersDistinct(pointers)
      && displayMaterial.Valid()
    }

    /**
     * Swapping the velocity and dye slots n times keeps the state valid: the
     * sizes do not change and the handles stay apart.
     */
    twostate lemma SwapsKeepValid(n: nat)
      requires old(Valid())
      requires unchanged(this) && unchanged(pressure) && unchanged(displayMaterial)
      requires Kept(velocity) && Kept(dye)
      requires velocity.Current() == old(velocity.Current()).SwappedN(n)
      requires dye.Current() == old(dye.Current()).SwappedN(n)
      ensures Valid()
    {
      SwapsKeepLayout(old(velocity.Current()), old(pressure.Current()), old(dye.Current()),
                      old(velocity.Geometry()), old(pressure.Geometry()), old(dye.Geometry()), old(Singles()), n, 0, n);
    }

    /** The handle facts the pass lemmas need, read off HandlesDistinct. */
    lemma HandleFacts()
      requires HandlesDistinct() && dye.Valid() && velocity.Valid() && pressure.Valid()
      ensures velocity != pressure && velocity != dye && pressure != dye
      ensures var v, p, d := velocity.Current(), pressure.Current(), dye.Current();
              Pair(v) && Pair(p) && Pair(d)
              && Disjoint(v, p) && Disjoint(v, d) && Disjoint(p, d)
              && Apart(v, curl) && Apart(v, divergence) && Apart(p, curl) && Apart(p, divergence)
              && Apart(d, curl) && Apart(d, divergence)
              && Apart(d, bloom) && Apart(d, sunrays) && Apart(d, sunraysTemp)
              && sunrays != sunraysTemp && bloom !in bloomFramebuffers && Distinct(bloomFramebuffers)
              && (forall i :: 0 <= i < |bloomFramebuffers| ==> Apart(d, bloomFramebuffers[i]))
    {
      var s := Singles();
      assert s[0] == divergence && s[1] == curl && s[2] == bloom && s[3] == sunrays && s[4] == sunraysTemp;
      forall i, j | 0 <= i < j < |bloomFramebuffers|
        ensures bloomFramebuffers[i] != bloomFramebuffers[j]
      {
        assert s[5 + i] == bloomFramebuffers[i] && s[5 + j] == bloomFramebuffers[j];
      }
      forall i | 0 <= i < |bloomFramebuffers|
        ensures bloom != bloomFramebuffers[i] && Apart(dye.Current(), bloomFramebuffers[i])
      {
        assert s[5 + i] == bloomFramebuffers[i];
      }
    }

    function AspectRatio(): real
      reads this
      requires canvasHeight > 0
    {
      Aspect(canvasWidth, canvasHeight)
    }

    /** The splat radius: SPLAT_RADIUS / 100, stretched on a landscape canvas. */
    function SplatRadius(): real
      reads this
      requires canvasHeight > 0
    {
      Radius(config.splatRadius, canvasWidth, canvasHeight)
    }

    /**
     * The first part of the startup sequence: the config with the mobile and
     * filtering adjustments, fresh framebuffers at the canvas's resolutions
     * (initFramebuffers before any framebuffer exists), an empty program
     * cache and one pointer. Start completes the sequence.
     */
    constructor (ext: Ext, isMobile: bool, width: int, height: int, baseVertexShader: Shader,
                 displayShaderSource: JsString, now: int)
      requires ext.formatRGBA.Some? && ext.formatRG.Some? && ext.formatR.Some?
      requires width > 0 && height > 0
      ensures Valid()
      ensures fresh(gl) && this.ext == ext
      ensures config == StartupConfig(DEFAULT_CONFIG, isMobile, ext.supportLinearFiltering)
      ensures canvasWidth == width && canvasHeight == height
      ensures |pointers| == 1 && pointers[0].State() == INITIAL_POINTER
      ensures splatStack == [] && lastUpdateTime == now && colorUpdateTimer == 0.0
      ensures displayMaterial.programs == map[] && displayMaterial.activeProgram == null
      ensures gl.trace == [] && gl.blend == Disabled
    {
      DefaultConfigValid();
      var cfg := StartupConfig(DEFAULT_CONFIG, isMobile, ext.supportLinearFiltering);
      var context := new Gl();
      var material := new Material(baseVertexShader, displayShaderSource);
      var dithering := new ImageTexture();
      var dyeFbo, velocityFbo, div, cu, pr, bl, levels, sr, srTemp := CreateFramebuffers(ext, cfg, width, height);
      var pointer := new Pointer();

      gl := context;
      this.ext := ext;
      config := cfg;
      canvasWidth := width;
      canvasHeight := height;
      displayMaterial := material;
      ditheringTexture := dithering;
      dye := dyeFbo;
      velocity := velocityFbo;
      divergence, curl, pressure := div, cu, pr;
      bloom, bloomFramebuffers := bl, levels;
      sunrays, sunraysTemp := sr, srTemp;
      pointers := [pointer];
      splatStack := [];
      lastUpdateTime := now;
      colorUpdateTimer := 0.0;
      new;
      assert Singles() == [div, cu, bl, sr, srTemp] + levels;
    }

    /**
     * The end of the startup sequence: the display variant for the config's
     * keywords is made active, then the initial random splats are made.
     */
    method Start(introspect: Introspection, amount: int, draw: nat -> Draw)
      requires Valid() && gl.trace == [] && gl.blend == Disabled
      modifies displayMaterial, gl, velocity, dye
      ensures Valid() && Scalars() == old(Scalars())
      ensures var key := KeywordsKey(DisplayKeywords(config.shading, config.bloom, config.sunrays));
              key in displayMaterial.programs && displayMaterial.activeProgram == displayMaterial.programs[key]
      ensures |gl.trace| == 2 * (if amount < 0 then 0 else amount) && InPhase(gl.trace, 1) && AllHazardFree(gl.trace)
      ensures var ss := RandomSplats(draw, if amount < 0 then 0 else amount, config.colorful);
              gl.trace == SplatsPasses(old(velocity.Current()), old(dye.Current()), ss, AspectRatio(), SplatRadius(), Disabled)
              && velocity.Current() == old(velocity.Current()).SwappedN(|ss|)
              && dye.Current() == old(dye.Current()).SwappedN(|ss|)
      ensures gl.blend == Disabled
    {
      UpdateKeywords(introspect);
      InitialSplats(amount, draw);
    }

    /**
     * multipleSplats(amount) on an empty trace with blending off: the splat
     * passes of amount random splats, 2 * amount of them.
     */
    method InitialSplats(amount: int, draw: nat -> Draw)
      requires Valid() && gl.trace == [] && gl.blend == Disabled
      modifies gl, velocity, dye
      ensures Valid() && Scalars() == old(Scalars())
      ensures |gl.trace| == 2 * (if amount < 0 then 0 else amount) && InPhase(gl.trace, 1) && AllHazardFree(gl.trace)
      ensures var ss := RandomSplats(draw, if amount < 0 then 0 else amount, config.colorful);
              gl.trace == SplatsPasses(old(velocity.Current()), old(dye.Current()), ss, AspectRatio(), SplatRadius(), Disabled)
              && velocity.Current() == old(velocity.Current()).SwappedN(|ss|)
              && dye.Current() == old(dye.Current()).SwappedN(|ss|)
      ensures gl.blend == Disabled
    {
      ghost var v0, d0 := velocity.Current(), dye.Current();
      HandleFacts();
      MultipleSplats(amount, draw);
      SplatsProperties(v0, d0, RandomSplats(draw, if amount < 0 then 0 else amount, config.colorful),
                       AspectRatio(), SplatRadius(), Disabled);
    }

    /**
     * updateKeywords: the display material switches to the variant for the
     * enabled SHADING, BLOOM and SUNRAYS keywords, compiling it only if it is
     * not cached yet.
     */
    method UpdateKeywords(introspect: Introspection)
      requires Valid()
      modifies displayMaterial
      ensures Valid()
      ensures var key := KeywordsKey(DisplayKeywords(config.shading, config.bloom, config.sunrays));
              key in displayMaterial.programs && displayMaterial.activeProgram == displayMaterial.programs[key]
              && (key in old(displayMaterial.programs) ==> displayMaterial.programs == old(displayMaterial.programs))
              && (key !in old(displayMaterial.programs) ==>
                    displayMaterial.programs == old(displayMaterial.programs)[key := displayMaterial.activeProgram])
    {
      displayMaterial.SetKeywords(DisplayKeywords(config.shading, config.bloom, config.sunrays), introspect);
    }

    /** calcDeltaTime: the seconds since the last frame, capped at 0.016666; the clock is read once. */
    method CalcDeltaTime(now: int) returns (dt: real)
      requires Valid()
      modifies this
      ensures Valid() && Framebuffers() == old(Framebuffers())
      ensures Scalars() == old(Scalars()).(lastUpdateTime := now)
      ensures dt == Min((now - old(lastUpdateTime)) as real / 1000.0, 0.016666)
      ensures dt <= 0.016666
      ensures old(lastUpdateTime) <= now ==> 0.0 <= dt
    {
      dt := (now - lastUpdateTime) as real / 1000.0;
      dt := Min(dt, 0.016666);
      lastUpdateTime := now;
    }

    /** resizeCanvas: adopt the displayed size; report whether it differs from the current one. */
    method ResizeCanvas(width: int, height: int) returns (changed: bool)
      requires Valid() && width > 0 && height > 0
      modifies this
      ensures changed <==> (old(canvasWidth) != width || old(canvasHeight) != height)
      ensures Scalars() == old(Scalars()).(canvasWidth := width, canvasHeight := height)
      ensures Framebuffers() == old(Framebuffers())
      ensures !changed ==> Valid()
      ensures changed ==> Stale()
      ensures unchanged(gl)
    {
      if canvasWidth != width || canvasHeight != height {
        canvasWidth := width;
        canvasHeight := height;
        return true;
      }
      return false;
    }

    /**
     * initFramebuffers: with blending off, the dye and velocity double
     * buffers are resized (their contents copied when the size changes), and
     * divergence, curl, pressure, the bloom chain and the sunrays pair are
     * created afresh, all at the sizes the canvas and config call for.
     */
    method InitFramebuffers() returns (ghost copies: seq<Pass>)
      requires Stale()
      modifies this, gl, dye, velocity
      ensures Valid()
      ensures Scalars() == old(Scalars())
      ensures gl.blend == Disabled
      ensures SameSizeKept(old(dye.Current()), old(dye.Geometry()), dye.Current(),
                           GetResolution(config.dyeResolution, canvasWidth, canvasHeight))
      ensures SameSizeKept(old(velocity.Current()), old(velocity.Geometry()), velocity.Current(),
                           GetResolution(config.simResolution, canvasWidth, canvasHeight))
      ensures var dyeRes := GetResolution(config.dyeResolution, canvasWidth, canvasHeight);
              var sim := GetResolution(config.simResolution, canvasWidth, canvasHeight);
              copies == ResizeCopy(old(dye.read), dye.read, old(dye.width) != dyeRes.width || old(dye.height) != dyeRes.height)
                        + ResizeCopy(old(velocity.read), velocity.read, old(velocity.width) != sim.width || old(velocity.height) != sim.height)
      ensures gl.trace == old(gl.trace) + copies && InPhase(copies, 0) && AllHazardFree(copies)
      ensures fresh(pressure) && fresh(divergence) && fresh(curl) && fresh(bloom) && fresh(sunrays) && fresh(sunraysTemp)
      ensures fresh(pressure.read) && fresh(pressure.write)
      ensures forall i :: 0 <= i < |bloomFramebuffers| ==> fresh(bloomFramebuffers[i])
    {
      copies := ResizeBuffers();
      var sim := GetResolution(config.simResolution, canvasWidth, canvasHeight);
      var bloomRes := GetResolution(config.bloomResolution, canvasWidth, canvasHeight);
      var sunRes := GetResolution(config.sunraysResolution, canvasWidth, canvasHeight);
      var filtering := if ext.supportLinearFiltering then Linear else Nearest;
      var rgba := Spec(ext.formatRGBA.value, ext.halfFloatTexType, filtering);
      var r := Spec(ext.formatR.value, ext.halfFloatTexType, Nearest);
      var rFiltered := Spec(ext.formatR.value, ext.halfFloatTexType, filtering);
      var div, cu, pr, bl, levels, sr, srTemp :=
        CreateSingles(sim, bloomRes, sunRes, config.bloomIterations, r, rgba, rFiltered, velocity.Current(), dye.Current());
      Install(Replaced(pr, div, cu, bl, levels, sr, srTemp));
    }

    /**
     * The first half of initFramebuffers: blending off, the dye and velocity
     * double buffers resized to the canvas, their contents copied when the
     * size changes.
     */
    method ResizeBuffers() returns (ghost copies: seq<Pass>)
      requires Stale()
      modifies gl, dye, velocity
      ensures dye.Valid() && velocity.Valid() && Disjoint(velocity.Current(), dye.Current())
      ensures DoubleBuffer(dye) == ExpectedShape(ext, config, canvasWidth, canvasHeight).dye
      ensures DoubleBuffer(velocity) == ExpectedShape(ext, config, canvasWidth, canvasHeight).velocity
      ensures gl.blend == Disabled
      ensures SameSizeKept(old(dye.Current()), old(dye.Geometry()), dye.Current(),
                           GetResolution(config.dyeResolution, canvasWidth, canvasHeight))
      ensures SameSizeKept(old(velocity.Current()), old(velocity.Geometry()), velocity.Current(),
                           GetResolution(config.simResolution, canvasWidth, canvasHeight))
      ensures var dyeRes := GetResolution(config.dyeResolution, canvasWidth, canvasHeight);
              var sim := GetResolution(config.simResolution, canvasWidth, canvasHeight);
              copies == ResizeCopy(old(dye.read), dye.read, old(dye.width) != dyeRes.width || old(dye.height) != dyeRes.height)
                        + ResizeCopy(old(velocity.read), velocity.read, old(velocity.width) != sim.width || old(velocity.height) != sim.height)
      ensures gl.trace == old(gl.trace) + copies && InPhase(copies, 0) && AllHazardFree(copies)
    {
      var sim := GetResolution(config.simResolution, canvasWidth, canvasHeight);
      var dyeRes := GetResolution(config.dyeResolution, canvasWidth, canvasHeight);
      var filtering := if ext.supportLinearFiltering then Linear else Nearest;
      var rgba := Spec(ext.formatRGBA.value, ext.halfFloatTexType, filtering);
      var rg := Spec(ext.formatRG.value, ext.halfFloatTexType, filtering);
      assert velocity != dye && Disjoint(velocity.Current(), dye.Current()) by {
        HandleFacts();
      }
      gl.SetBlend(Disabled);
      copies := ResizeDoubles(gl, dye, velocity, dyeRes, sim, rgba, rg);
    }

    /**
     * The second half of initFramebuffers: the new divergence, curl,
     * pressure, bloom chain and sunrays pair take their places.
     */
    method Install(f: Replaced)
      requires dye.Valid() && velocity.Valid() && f.pressure.Valid()
      requires Consistent(ext, velocity.Current(), f.pressure.Current(), dye.Current(), SinglesOf(f),
                          ShapeOf(dye, velocity, f), Scalars())
      modifies this
      ensures Ready() && Scalars() == old(Scalars()) && Framebuffers() == f
    {
      InstallSolver(f.divergence, f.curl, f.pressure);
      InstallPostprocess(f.bloom, f.bloomFramebuffers, f.sunrays, f.sunraysTemp);
      InstalledReady(f);
    }

    /** The simulation-grid framebuffers of initFramebuffers take their places. */
    method InstallSolver(div: Fbo, cu: Fbo, pr: DoubleFbo)
      modifies this
      ensures divergence == div && curl == cu && pressure == pr && Scalars() == old(Scalars())
      ensures bloom == old(bloom) && bloomFramebuffers == old(bloomFramebuffers)
      ensures sunrays == old(sunrays) && sunraysTemp == old(sunraysTemp)
    {
      divergence, curl, pressure := div, cu, pr;
    }

    /** The bloom and sunrays framebuffers of initFramebuffers take their places. */
    method InstallPostprocess(bl: Fbo, levels: seq<Fbo>, sr: Fbo, srTemp: Fbo)
      modifies this
      ensures bloom == bl && bloomFramebuffers == levels && sunrays == sr && sunraysTemp == srTemp
      ensures divergence == old(divergence) && curl == old(curl) && pressure == old(pressure)
      ensures Scalars() == old(Scalars())
    {
      bloom, bloomFramebuffers := bl, levels;
      sunrays, sunraysTemp := sr, srTemp;
    }

    /** Ready holds once the framebuffers of f are in place, because Install touches no double buffer. */
    twostate lemma InstalledReady(f: Replaced)
      requires old(dye.Valid() && velocity.Valid() && f.pressure.Valid())
      requires old(Consistent(ext, velocity.Current(), f.pressure.Current(), dye.Current(), SinglesOf(f),
                              ShapeOf(dye, velocity, f), Scalars()))
      requires unchanged(dye, velocity, f.pressure)
      requires Framebuffers() == f && Scalars() == old(Scalars())
      ensures Ready()
    {
    }

    /** splat(x, y, dx, dy, color) on the simulation's double buffers, with the canvas's aspect ratio and radius. */
    method Splat(s: SplatArgs)
      requires Valid()
      modifies gl, velocity, dye
      ensures Valid()
      ensures gl.trace == old(gl.trace) + SplatPasses(old(velocity.Current()), old(dye.Current()), s, AspectRatio(), SplatRadius(), gl.blend)
      ensures gl.blend == old(gl.blend)
      ensures velocity.Current() == old(velocity.Current()).Swapped() && dye.Current() == old(dye.Current()).Swapped()
    {
      ghost var v0, p0, d0 := velocity.Current(), pressure.Current(), dye.Current();
      HandleFacts();
      SwapsKeepLayout(v0, p0, d0, velocity.Geometry(), pressure.Geometry(), dye.Geometry(), Singles(), 1, 0, 1);
      SplatInto(gl, velocity, dye, s, AspectRatio(), SplatRadius());
    }

    /** multipleSplats(amount): a negative amount splats nothing. */
    method MultipleSplats(amount: int, draw: nat -> Draw)
      requires Valid()
      modifies gl, velocity, dye
      ensures Valid()
      ensures Scalars() == old(Scalars()) && Framebuffers() == old(Framebuffers())
      ensures var ss := RandomSplats(draw, if amount < 0 then 0 else amount, old(config.colorful));
              gl.trace == old(gl.trace) + SplatsPasses(old(velocity.Current()), old(dye.Current()), ss, old(AspectRatio()), old(SplatRadius()), old(gl.blend))
              && velocity.Current() == old(velocity.Current()).SwappedN(|ss|)
              && dye.Current() == old(dye.Current()).SwappedN(|ss|)
      ensures gl.blend == old(gl.blend)
    {
      var n := if amount < 0 then 0 else amount;
      HandleFacts();
      RandomSplatsInto(gl, velocity, dye, n, draw, config.colorful, AspectRatio(), SplatRadius());
      SwapsKeepValid(n);
    }

    /**
     * applyInputs: pop at most one queued amount and splat that many random
     * splats (none for a negative amount), then splat every moved pointer,
     * clearing its moved flag.
     */
    method ApplyInputs(draw: nat -> Draw)
      requires Valid()
      modifies this, gl, velocity, dye, pointers
      ensures Valid() && Framebuffers() == old(Framebuffers())
      ensures Scalars() == old(Scalars()).(splatStack := Popped(old(splatStack)))
      ensures States(pointers) == ClearMoved(old(States(pointers)))
      ensures var ss := InputSplats(draw, old(splatStack), old(config.colorful), old(States(pointers)), old(config.splatForce));
              gl.trace == old(gl.trace) + SplatsPasses(old(velocity.Current()), old(dye.Current()), ss, old(AspectRatio()), old(SplatRadius()), old(gl.blend))
              && velocity.Current() == old(velocity.Current()).SwappedN(|ss|)
              && dye.Current() == old(dye.Current()).SwappedN(|ss|)
      ensures pressure.Current() == old(pressure.Current())
      ensures gl.blend == old(gl.blend)
      ensures var ps := gl.trace[|old(gl.trace)|..];
              gl.trace == old(gl.trace) + ps && InPhase(ps, 1) && AllHazardFree(ps)
    {
      HandleFacts();
      ghost var t0, v0, d0, s0 := gl.trace, velocity.Current(), dye.Current(), States(pointers);
      ghost var aspectRatio, radius, force, blend := AspectRatio(), SplatRadius(), config.splatForce, gl.blend;
      ghost var first := RandomSplats(draw, QueuedAmount(splatStack), config.colorful);
      SplatQueued(draw);
      ghost var t1 := gl.trace;
      SplatPointers(s0);
      ghost var second := PointerSplats(s0, force);
      SplatsThen(t0, t1, gl.trace, v0, d0, first, second, aspectRatio, radius, blend);
      assert first + second == InputSplats(draw, old(splatStack), old(config.colorful), s0, force);
      SwapsAppend(v0, first, second);
      SwapsAppend(d0, first, second);
    }

    /** The first half of applyInputs: the last queued amount is popped and splatted. */
    method SplatQueued(draw: nat -> Draw)
      requires Valid()
      modifies this, gl, velocity, dye
      ensures Valid() && Framebuffers() == old(Framebuffers())
      ensures Scalars() == old(Scalars()).(splatStack := Popped(old(splatStack)))
      ensures AspectRatio() == old(AspectRatio()) && SplatRadius() == old(SplatRadius())
      ensures var ss := RandomSplats(draw, QueuedAmount(old(splatStack)), old(config.colorful));
              gl.trace == old(gl.trace) + SplatsPasses(old(velocity.Current()), old(dye.Current()), ss, old(AspectRatio()), old(SplatRadius()), old(gl.blend))
              && velocity.Current() == old(velocity.Current()).SwappedN(|ss|)
              && dye.Current() == old(dye.Current()).SwappedN(|ss|)
      ensures pressure.Current() == old(pressure.Current())
      ensures gl.blend == old(gl.blend)
    {
      if |splatStack| > 0 {
        var amount := splatStack[|splatStack| - 1];
        PopSplatStack();
        MultipleSplats(amount, draw);
      }
    }

    /** The pointer loop of applyInputs on the simulation's pointers; s0 are their states before it. */
    method SplatPointers(ghost s0: seq<PointerState>)
      requires Valid()
      requires |s0| == |pointers| && forall i :: 0 <= i < |pointers| ==> pointers[i].State() == s0[i]
      modifies gl, velocity, dye, pointers
      ensures Valid()
      ensures Scalars() == old(Scalars()) && Framebuffers() == old(Framebuffers())
      ensures States(pointers) == ClearMoved(s0)
      ensures var ss := PointerSplats(s0, old(config.splatForce));
              gl.trace == old(gl.trace) + SplatsPasses(old(velocity.Current()), old(dye.Current()), ss, old(AspectRatio()), old(SplatRadius()), old(gl.blend))
              && velocity.Current() == old(velocity.Current()).SwappedN(|ss|)
              && dye.Current() == old(dye.Current()).SwappedN(|ss|)
      ensures pressure.Current() == old(pressure.Current())
      ensures gl.blend == old(gl.blend)
    {
      HandleFacts();
      PointerSplatsInto(gl, velocity, dye, pointers, config.splatForce, AspectRatio(), SplatRadius(), s0);
      SwapsKeepValid(|PointerSplats(s0, config.splatForce)|);
    }

    /** The pop of applyInputs: the last queued amount, if there is one, leaves the stack. */
    method PopSplatStack()
      requires Valid()
      modifies this
      ensures Valid() && Framebuffers() == old(Framebuffers())
      ensures Scalars() == old(Scalars()).(splatStack := Popped(old(splatStack)))
    {
      if |splatStack| > 0 {
        splatStack := splatStack[..|splatStack| - 1];
      }
    }

    /** Set each pointer's color to colorOf(i), leaving its other fields alone. */
    method PaintPointers(colorOf: nat -> Vec3)
      requires Valid()
      modifies pointers
      ensures Valid() && Scalars() == old(Scalars()) && Framebuffers() == old(Framebuffers()) && unchanged(gl)
      ensures velocity.Current() == old(velocity.Current()) && pressure.Current() == old(pressure.Current())
              && dye.Current() == old(dye.Current())
      ensures States(pointers) == Recolored(old(States(pointers)), colorOf)
    {
      Paint(pointers, colorOf);
    }

    /** The timer part of updateColors: advance by step; recolor when the advanced timer reached 1. */
    method TickColorTimer(step: real) returns (recolor: bool)
      requires Valid()
      modifies this
      ensures Valid() && Framebuffers() == old(Framebuffers()) && States(pointers) == old(States(pointers))
      ensures unchanged(gl)
      ensures Scalars() == old(Scalars()).(colorUpdateTimer := ColorTimer(old(colorUpdateTimer), step))
      ensures recolor <==> 1.0 <= old(colorUpdateTimer) + step
    {
      recolor := colorUpdateTimer + step >= 1.0;
      colorUpdateTimer := ColorTimer(colorUpdateTimer, step);
    }

    /**
     * updateColors: without COLORFUL every pointer turns white and the timer
     * stands still; with it the timer advances by dt * COLOR_UPDATE_SPEED
     * (see ColorTimer) and every pointer gets a new color from the palette
     * exactly when the advanced timer reached 1.
     */
    method UpdateColors(dt: real, palette: nat -> Vec3)
      requires Valid()
      modifies this, pointers
      ensures Valid() && Framebuffers() == old(Framebuffers()) && unchanged(gl)
      ensures Scalars() == old(Scalars()).(colorUpdateTimer := colorUpdateTimer)
      ensures colorUpdateTimer == TimerAfter(old(config.colorful), old(colorUpdateTimer), dt, old(config.colorUpdateSpeed))
      ensures States(pointers) == ColorsAfter(old(config.colorful), old(colorUpdateTimer), dt, old(config.colorUpdateSpeed),
                                              old(States(pointers)), palette)
      ensures velocity.Current() == old(velocity.Current()) && pressure.Current() == old(pressure.Current())
              && dye.Current() == old(dye.Current())
    {
      if !config.colorful {
        PaintPointers(White);
      } else {
        CycleColors(dt, palette);
      }
    }

    /**
     * updateColors under COLORFUL: the timer advances by dt *
     * COLOR_UPDATE_SPEED and the pointers are recolored when it reached 1.
     */
    method CycleColors(dt: real, palette: nat -> Vec3)
      requires Valid() && config.colorful
      modifies this, pointers
      ensures Valid() && Framebuffers() == old(Framebuffers()) && unchanged(gl)
      ensures Scalars() == old(Scalars()).(colorUpdateTimer := TimerAfter(true, old(colorUpdateTimer), dt, old(config.colorUpdateSpeed)))
      ensures States(pointers) == ColorsAfter(true, old(colorUpdateTimer), dt, old(config.colorUpdateSpeed), old(States(pointers)), palette)
      ensures velocity.Current() == old(velocity.Current()) && pressure.Current() == old(pressure.Current())
              && dye.Current() == old(dye.Current())
    {
      ghost var timer, states := colorUpdateTimer, States(pointers);
      var speed := config.colorUpdateSpeed;
      var step := dt * speed;
      var recolor := TickColorTimer(step);
      if recolor {
        PaintPointers(palette);
      }
      CycleMatches(timer, dt, speed, step, states, palette, colorUpdateTimer, States(pointers));
    }

    /** step(dt) on the simulation's framebuffers; see StepPasses for the passes. */
    method Step(dt: real)
      requires Valid()
      modifies gl, velocity, dye, pressure
      ensures Valid() && Scalars() == old(Scalars())
      ensures gl.trace == old(gl.trace) + StepPasses(old(velocity.Current()), old(pressure.Current()), old(dye.Current()),
                                                     curl, divergence, dt, config)
      ensures gl.blend == Disabled
      ensures velocity.Current() == old(velocity.Current()).SwappedN(3)
      ensures pressure.Current() == old(pressure.Current()).SwappedN(JacobiCount(config) + 1)
      ensures dye.Current() == old(dye.Current()).Swapped()
      ensures var ps := gl.trace[|old(gl.trace)|..];
              gl.trace == old(gl.trace) + ps
              && InPhase(ps, 2) && AllHazardFree(ps) && Count(ps, Clears) == 1 && Count(ps, Jacobis) == JacobiCount(config)
    {
      ghost var v0, p0, d0 := velocity.Current(), pressure.Current(), dye.Current();
      HandleFacts();
      SwapsKeepLayout(v0, p0, d0, velocity.Geometry(), pressure.Geometry(), dye.Geometry(), Singles(),
                      3, JacobiCount(config) + 1, 1);
      StepInto(gl, velocity, pressure, dye, curl, divergence, dt, config);
      StepCounts(v0, p0, d0, curl, divergence, dt, config);
      StepHazardFree(v0, p0, d0, curl, divergence, dt, config);
      Suffix(old(gl.trace), StepPasses(v0, p0, d0, curl, divergence, dt, config));
    }

    /** render(null) on the simulation's framebuffers; see RenderPasses for the passes. */
    method Render() returns (ghost passes: seq<Pass>)
      requires Valid()
      modifies gl
      ensures Valid() && States(pointers) == old(States(pointers))
      ensures velocity.Current() == old(velocity.Current()) && pressure.Current() == old(pressure.Current())
              && dye.Current() == old(dye.Current())
      ensures passes == RenderPasses(dye.Current(), bloom, bloomFramebuffers, sunrays, sunraysTemp,
                                     ditheringTexture, config, AspectRatio())
      ensures gl.trace == old(gl.trace) + passes && gl.blend == Over
      ensures InPhase(passes, 3) && AllHazardFree(passes)
      ensures 0 < |passes| && passes[|passes| - 1].target == Screen && passes[|passes| - 1].kernel.Display?
    {
      passes := RenderPasses(dye.Current(), bloom, bloomFramebuffers, sunrays, sunraysTemp, ditheringTexture, config, AspectRatio());
      RenderInto(gl, dye.Current(), bloom, bloomFramebuffers, sunrays, sunraysTemp, ditheringTexture, config, AspectRatio());
      HandleFacts();
      RenderProperties(dye.Current(), bloom, bloomFramebuffers, sunrays, sunraysTemp, ditheringTexture, config, AspectRatio());
    }

    /**
     * The resize part of update: adopt the canvas size and, when it changed,
     * rebuild the framebuffers; copies are the copy passes of the rebuild.
     */
    method ResizeFrame(width: int, height: int) returns (ghost copies: seq<Pass>)
      requires Valid() && width > 0 && height > 0
      modifies this, gl, velocity, dye
      ensures Valid()
      ensures Scalars() == old(Scalars()).(canvasWidth := width, canvasHeight := height)
      ensures pressure == old(pressure) || fresh(pressure)
      ensures width != old(canvasWidth) || height != old(canvasHeight) ==> fresh(pressure.read) && fresh(pressure.write)
      ensures width == old(canvasWidth) && height == old(canvasHeight) ==> Framebuffers() == old(Framebuffers())
      ensures unchanged(pointers)
      ensures Resized(width != old(canvasWidth) || height != old(canvasHeight),
                      old(velocity.Current()), old(velocity.Geometry()), old(pressure.Current()), old(dye.Current()), old(dye.Geometry()),
                      old(gl.blend), config, width, height, copies, velocity.Current(), pressure.Current(), dye.Current(), gl.blend)
      ensures gl.trace == old(gl.trace) + copies && InPhase(copies, 0) && AllHazardFree(copies)
    {
      var resized := ResizeCanvas(width, height);
      if resized {
        copies := InitFramebuffers();
      } else {
        copies := [];
      }
    }

    /**
     * The first half of update: the frame's dt, the canvas resize with the
     * framebuffers rebuilt when the size changed, and the color update.
     */
    method BeginFrame(now: int, width: int, height: int, palette: nat -> Vec3) returns (dt: real, ghost copies: seq<Pass>)
      requires Valid() && width > 0 && height > 0
      modifies this, gl, velocity, dye, pointers
      ensures Valid()
      ensures dt == Min((now - old(lastUpdateTime)) as real / 1000.0, 0.016666) && dt <= 0.016666
      ensures lastUpdateTime == now && canvasWidth == width && canvasHeight == height
      ensures config == old(config) && pointers == old(pointers) && splatStack == old(splatStack)
      ensures pressure == old(pressure) || fresh(pressure)
      ensures width != old(canvasWidth) || height != old(canvasHeight) ==> fresh(pressure.read) && fresh(pressure.write)
      ensures width == old(canvasWidth) && height == old(canvasHeight) ==> Framebuffers() == old(Framebuffers())
      ensures Resized(width != old(canvasWidth) || height != old(canvasHeight),
                      old(velocity.Current()), old(velocity.Geometry()), old(pressure.Current()), old(dye.Current()), old(dye.Geometry()),
                      old(gl.blend), config, width, height, copies, velocity.Current(), pressure.Current(), dye.Current(), gl.blend)
      ensures colorUpdateTimer == TimerAfter(config.colorful, old(colorUpdateTimer), dt, config.colorUpdateSpeed)
      ensures States(pointers) == ColorsAfter(config.colorful, old(colorUpdateTimer), dt, config.colorUpdateSpeed,
                                              old(States(pointers)), palette)
      ensures gl.trace == old(gl.trace) + copies && InPhase(copies, 0) && AllHazardFree(copies)
    {
      ghost var timer, states := colorUpdateTimer, States(pointers);
      dt := CalcDeltaTime(now);
      assert gl.trace == old(gl.trace);
      copies := ResizeFrame(width, height);
      StatesKept(pointers);
      assert colorUpdateTimer == timer && States(pointers) == states;
      UpdateColors(dt, palette);
    }

    /**
     * The middle of update: the inputs are splatted, then the solver steps
     * unless PAUSED; splats and solver are the passes of the two.
     */
    method Advance(dt: real, draw: nat -> Draw) returns (ghost splats: seq<Pass>, ghost solver: seq<Pass>)
      requires Valid()
      modifies this, gl, velocity, dye, pressure, pointers
      ensures Valid() && Framebuffers() == old(Framebuffers())
      ensures Scalars() == old(Scalars()).(splatStack := Popped(old(splatStack)))
      ensures States(pointers) == ClearMoved(old(States(pointers)))
      ensures gl.trace == old(gl.trace) + splats + solver
      ensures InPhase(splats, 1) && AllHazardFree(splats) && InPhase(solver, 2) && AllHazardFree(solver)
      ensures Advanced(old(velocity.Current()), old(pressure.Current()), old(dye.Current()),
                       InputSplats(draw, old(splatStack), old(config.colorful), old(States(pointers)), old(config.splatForce)),
                       old(AspectRatio()), old(SplatRadius()), old(gl.blend), curl, divergence, dt, config,
                       splats, solver, velocity.Current(), pressure.Current(), dye.Current())
      ensures gl.blend == if config.paused then old(gl.blend) else Disabled
      ensures !config.paused ==> Count(solver, Clears) == 1 && Count(solver, Jacobis) == JacobiCount(config)
    {
      ghost var t0 := gl.trace;
      ghost var ss := InputSplats(draw, splatStack, config.colorful, States(pointers), config.splatForce);
      ghost var sp := SplatsPasses(velocity.Current(), dye.Current(), ss, AspectRatio(), SplatRadius(), gl.blend);
      ApplyInputs(draw);
      Suffix(t0, sp);
      splats := gl.trace[|t0|..];
      solver := StepUnlessPaused(dt);
    }

    /** The solver step of update, skipped while PAUSED; solver are its passes. */
    method StepUnlessPaused(dt: real) returns (ghost solver: seq<Pass>)
      requires Valid()
      modifies gl, velocity, dye, pressure
      ensures Valid() && Scalars() == old(Scalars()) && States(pointers) == old(States(pointers))
      ensures gl.trace == old(gl.trace) + solver && InPhase(solver, 2) && AllHazardFree(solver)
      ensures config.paused ==> solver == [] && gl.blend == old(gl.blend) && velocity.Current() == old(velocity.Current())
                                && pressure.Current() == old(pressure.Current()) && dye.Current() == old(dye.Current())
      ensures !config.paused ==>
                solver == StepPasses(old(velocity.Current()), old(pressure.Current()), old(dye.Current()), curl, divergence, dt, config)
                && gl.blend == Disabled
                && velocity.Current() == old(velocity.Current()).SwappedN(3)
                && pressure.Current() == old(pressure.Current()).SwappedN(JacobiCount(config) + 1)
                && dye.Current() == old(dye.Current()).Swapped()
      ensures !config.paused ==> Count(solver, Clears) == 1 && Count(solver, Jacobis) == JacobiCount(config)
    {
      if config.paused {
        solver := [];
      } else {
        ghost var t0 := gl.trace;
        Step(dt);
        solver := gl.trace[|t0|..];
      }
    }

    /**
     * The second half of update: the inputs are splatted, the solver steps
     * unless PAUSED, and the frame is rendered; splats, solver and render
     * are the passes of the three.
     */
    method FinishFrame(dt: real, draw: nat -> Draw) returns (ghost splats: seq<Pass>, ghost solver: seq<Pass>, ghost render: seq<Pass>)
      requires Valid()
      modifies this, gl, velocity, dye, pressure, pointers
      ensures Valid() && Framebuffers() == old(Framebuffers())
      ensures Scalars() == old(Scalars()).(splatStack := Popped(old(splatStack)))
      ensures States(pointers) == ClearMoved(old(States(pointers)))
      ensures gl.trace == old(gl.trace) + splats + solver + render && gl.blend == Over
      ensures InPhase(splats, 1) && AllHazardFree(splats) && InPhase(solver, 2) && AllHazardFree(solver)
      ensures Advanced(old(velocity.Current()), old(pressure.Current()), old(dye.Current()),
                       InputSplats(draw, old(splatStack), old(config.colorful), old(States(pointers)), old(config.splatForce)),
                       old(AspectRatio()), old(SplatRadius()), old(gl.blend), curl, divergence, dt, config,
                       splats, solver, velocity.Current(), pressure.Current(), dye.Current())
      ensures !config.paused ==> Count(solver, Clears) == 1 && Count(solver, Jacobis) == JacobiCount(config)
      ensures render == RenderPasses(dye.Current(), bloom, bloomFramebuffers, sunrays, sunraysTemp, ditheringTexture, config, AspectRatio())
      ensures InPhase(render, 3) && AllHazardFree(render)
      ensures 0 < |render| && render[|render| - 1].target == Screen && render[|render| - 1].kernel.Display?
    {
      splats, solver := Advance(dt, draw);
      ghost var v2, p2, d2 := velocity.Current(), pressure.Current(), dye.Current();
      render := Render();
      assert velocity.Current() == v2 && pressure.Current() == p2 && dye.Current() == d2;
    }

    /**
     * update: one frame. The clock gives dt (capped); a changed canvas size
     * rebuilds the framebuffers; the pointer colors are updated; the inputs
     * are splatted; the solver steps unless PAUSED; the frame is rendered.
     * frame is the passes of the frame.
     */
    method Update(now: int, width: int, height: int, draw: nat -> Draw, palette: nat -> Vec3)
      returns (dt: real, ghost frame: seq<Pass>, ghost copies: seq<Pass>, ghost splats: seq<Pass>, ghost solver: seq<Pass>,
               ghost render: seq<Pass>, ghost v1: Slots, ghost p1: Slots, ghost d1: Slots)
      requires Valid() && width > 0 && height > 0
      modifies this, gl, velocity, dye, pressure, pointers
      ensures Valid()
      ensures dt == Min((now - old(lastUpdateTime)) as real / 1000.0, 0.016666) && dt <= 0.016666
      ensures lastUpdateTime == now && canvasWidth == width && canvasHeight == height
      ensures config == old(config) && pointers == old(pointers)
      ensures splatStack == Popped(old(splatStack))
      ensures colorUpdateTimer == TimerAfter(config.colorful, old(colorUpdateTimer), dt, config.colorUpdateSpeed)
      ensures var colors := ColorsAfter(config.colorful, old(colorUpdateTimer), dt, config.colorUpdateSpeed, old(States(pointers)), palette);
              States(pointers) == ClearMoved(colors) && NoneMoved(States(pointers))
      ensures frame == copies + splats + solver + render
      ensures gl.trace == old(gl.trace) + frame && gl.blend == Over
      ensures var resized := width != old(canvasWidth) || height != old(canvasHeight);
              Resized(resized, old(velocity.Current()), old(velocity.Geometry()), old(pressure.Current()), old(dye.Current()),
                      old(dye.Geometry()), old(gl.blend), config, width, height, copies, v1, p1, d1,
                      if resized then Disabled else old(gl.blend))
      ensures width != old(canvasWidth) || height != old(canvasHeight) ==> fresh(p1.read) && fresh(p1.write)
      ensures width == old(canvasWidth) && height == old(canvasHeight) ==> Framebuffers() == old(Framebuffers())
      ensures var resized := width != old(canvasWidth) || height != old(canvasHeight);
              var colors := ColorsAfter(config.colorful, old(colorUpdateTimer), dt, config.colorUpdateSpeed, old(States(pointers)), palette);
              Advanced(v1, p1, d1, InputSplats(draw, old(splatStack), config.colorful, colors, config.splatForce),
                       AspectRatio(), SplatRadius(), if resized then Disabled else old(gl.blend), curl, divergence, dt, config,
                       splats, solver, velocity.Current(), pressure.Current(), dye.Current())
      ensures render == RenderPasses(dye.Current(), bloom, bloomFramebuffers, sunrays, sunraysTemp, ditheringTexture, config, AspectRatio())
      ensures PhasesOrdered(frame) && AllHazardFree(frame)
      ensures config.paused ==> Avoids(frame, 2)
      ensures !config.paused ==> Count(frame, Clears) == 1 && Count(frame, Jacobis) == JacobiCount(config)
      ensures 0 < |frame| && frame[|frame| - 1].target == Screen && frame[|frame| - 1].kernel.Display?
    {
      ghost var resized := width != canvasWidth || height != canvasHeight;
      dt, copies := BeginFrame(now, width, height, palette);
      v1, p1, d1 := velocity.Current(), pressure.Current(), dye.Current();
      ghost var colors, blend, aspectRatio, radius := States(pointers), gl.blend, AspectRatio(), SplatRadius();
      assert colors == ColorsAfter(config.colorful, old(colorUpdateTimer), dt, config.colorUpdateSpeed, old(States(pointers)), palette);
      assert blend == if resized then Disabled else old(gl.blend);
      ghost var ss := InputSplats(draw, splatStack, config.colorful, colors, config.splatForce);
      splats, solver, render := FinishFrame(dt, draw);
      ClearedNoneMoved(colors);
      frame := copies + splats + solver + render;
      Extend4(old(gl.trace), copies, splats, solver, render);
      FrameProperties(copies, splats, solver, render, config.paused, JacobiCount(config));
    }

    /** The P key: toggle PAUSED. */
    method TogglePause()
      requires Valid()
      modifies this
      ensures Valid() && Framebuffers() == old(Framebuffers())
      ensures Scalars() == old(Scalars()).(config := old(config).(paused := !old(config).paused))
    {
      config := config.(paused := !config.paused);
    }

    /** The space key: queue a burst of parseInt(random * 20) + 5 splats for the next frame. */
    method QueueSplats(random: real) returns (amount: int)
      requires Valid() && 0.0 <= random < 1.0
      modifies this
      ensures Valid() && Framebuffers() == old(Framebuffers())
      ensures 5 <= amount <= 24
      ensures Scalars() == old(Scalars()).(splatStack := old(splatStack) + [amount])
    {
      amount := (random * 20.0).Floor + 5;
      splatStack := splatStack + [amount];
    }
  }

  /**
   * A frame's passes, made of the resize copies, the splats, the step and
   * the render: the phases come in order, no pass reads its own target, the
   * solver passes appear only when the step ran, and the frame ends on the
   * screen.
   */
  lemma FrameProperties(copies: seq<Pass>, splats: seq<Pass>, solver: seq<Pass>, render: seq<Pass>, paused: bool, jacobis: nat)
    requires InPhase(copies, 0) && AllHazardFree(copies)
    requires InPhase(splats, 1) && AllHazardFree(splats)
    requires InPhase(solver, 2) && AllHazardFree(solver)
    requires paused ==> solver == []
    requires !paused ==> Count(solver, Clears) == 1 && Count(solver, Jacobis) == jacobis
    requires InPhase(render, 3) && AllHazardFree(render)
    requires 0 < |render| && render[|render| - 1].target == Screen && render[|render| - 1].kernel.Display?
    ensures var ps := copies + splats + solver + render;
            PhasesOrdered(ps) && AllHazardFree(ps)
            && (paused ==> Avoids(ps, 2))
            && (!paused ==> Count(ps, Clears) == 1 && Count(ps, Jacobis) == jacobis)
            && ps[|ps| - 1].target == Screen && ps[|ps| - 1].kernel.Display?
  {
    var front := copies + splats;
    var ps := front + solver + render;
    OrderedAppend([], copies, 0, 0);
    assert [] + copies == copies;
    OrderedAppend(copies, splats, 0, 1);
    OrderedAppend(front, solver, 1, 2);
    OrderedAppend(front + solver, render, 2, 3);
    AllHazardFreeAppend(copies, splats);
    HazardFreeAppend3(front, solver, render);
    NoSolverPasses(copies, 0);
    NoSolverPasses(splats, 1);
    NoSolverPasses(render, 3);
    CountAppend(copies, splats, Clears);
    CountAppend(front, solver, Clears);
    CountAppend(front + solver, render, Clears);
    CountAppend(copies, splats, Jacobis);
    CountAppend(front, solver, Jacobis);
    CountAppend(front + solver, render, Jacobis);
    assert ps[|ps| - 1] == render[|render| - 1];
    if paused {
      AvoidsAppend(copies, splats, 2);
      AvoidsAppend(front, solver, 2);
      AvoidsAppend(front + solver, render, 2);
    }
  }
}
