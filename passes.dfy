// The blits the driver issues, as sequences of passes over framebuffer
// handles: the solver step, the splats, the bloom chain, the sunrays and blur
// passes and the final composition. Each sequence is a function of the
// handles it involves; the lemmas state what a frame relies on: no pass
// samples the texture it renders into, each pass reads what the previous one
// of its chain wrote, and the passes come in the documented numbers.

module Passes {
  import opened Gpu
  import opened Framebuffers
  import opened Settings
  import opened Input

  // ---------------------------------------------------------------------
  // Distinctness of handles
  // ---------------------------------------------------------------------

  /** A double buffer's two slots are different framebuffers. */
  predicate Pair(s: Slots) {
    s.read != s.write
  }

  /** Neither slot of s is f. */
  predicate Apart(s: Slots, f: Fbo) {
    f != s.read && f != s.write
  }

  /** No slot of a is a slot of b. */
  predicate Disjoint(a: Slots, b: Slots) {
    Apart(a, b.read) && Apart(a, b.write)
  }

  /** No framebuffer occurs twice. */
  predicate Distinct(fs: seq<Fbo>) {
    forall i, j :: 0 <= i < j < |fs| ==> fs[i] != fs[j]
  }

  /** Pass b samples, as its input number i, the framebuffer pass a rendered into. */
  predicate Feeds(a: Pass, b: Pass, i: nat) {
    a.target.ToFbo? && i < |b.inputs| && b.inputs[i] == a.target.fbo
  }

  // ---------------------------------------------------------------------
  // Counting passes
  // ---------------------------------------------------------------------

  /** The kinds of passes that are counted. */
  datatype Selector =
    | Clears                 // the pressure clear (scaling) pass
    | Jacobis                // the Jacobi pressure iterations
    | WritesTo(slots: Slots) // a pass rendering into either slot of a double buffer
    | AdditivePasses         // a pass run with blendFunc(ONE, ONE)

  predicate Selects(sel: Selector, p: Pass) {
    match sel
    case Clears => p.kernel.Clear?
    case Jacobis => p.kernel.Jacobi?
    case WritesTo(s) => p.target == ToFbo(s.read) || p.target == ToFbo(s.write)
    case AdditivePasses => p.blend == Additive
  }

  /** The number of passes of ps that sel selects. */
  function Count(ps: seq<Pass>, sel: Selector): (n: nat)
    ensures n <= |ps|
  {
    if |ps| == 0 then 0
    else Count(ps[..|ps| - 1], sel) + if Selects(sel, ps[|ps| - 1]) then 1 else 0
  }

  /** The count is zero exactly when no pass is selected. */
  lemma {:induction false} CountZero(ps: seq<Pass>, sel: Selector)
    ensures Count(ps, sel) == 0 <==> forall i :: 0 <= i < |ps| ==> !Selects(sel, ps[i])
    decreases |ps|
  {
    if |ps| > 0 {
      var n := |ps| - 1;
      CountZero(ps[..n], sel);
      assert forall i :: 0 <= i < n ==> ps[..n][i] == ps[i];
    }
  }

  lemma {:induction false} CountAppend(a: seq<Pass>, b: seq<Pass>, sel: Selector)
    ensures Count(a + b, sel) == Count(a, sel) + Count(b, sel)
    decreases |b|
  {
    if |b| == 0 {
      assert a + b == a;
    } else {
      var b' := b[..|b| - 1];
      assert (a + b)[..|a + b| - 1] == a + b';
      CountAppend(a, b', sel);
    }
  }

  /** When no pass is selected the count is zero. */
  lemma CountNone(ps: seq<Pass>, sel: Selector)
    requires forall i :: 0 <= i < |ps| ==> !Selects(sel, ps[i])
    ensures Count(ps, sel) == 0
  {
    CountZero(ps, sel);
  }

  /** When every pass is selected the count is the length. */
  lemma {:induction false} CountAll(ps: seq<Pass>, sel: Selector)
    requires forall i :: 0 <= i < |ps| ==> Selects(sel, ps[i])
    ensures Count(ps, sel) == |ps|
    decreases |ps|
  {
    if |ps| > 0 {
      var n := |ps| - 1;
      assert forall i :: 0 <= i < n ==> ps[..n][i] == ps[i];
      CountAll(ps[..n], sel);
    }
  }

  /** Appending one pass adds one to the count exactly when the pass is selected. */
  lemma CountSnoc(a: seq<Pass>, p: Pass, sel: Selector)
    ensures Count(a + [p], sel) == Count(a, sel) + if Selects(sel, p) then 1 else 0
  {
    assert (a + [p])[..|a|] == a;
  }

  lemma CountOne(p: Pass, sel: Selector)
    ensures Count([p], sel) == if Selects(sel, p) then 1 else 0
  {
    assert [p][..0] == [];
  }

  // ---------------------------------------------------------------------
  // Phases of a frame
  // ---------------------------------------------------------------------

  /**
   * The part of a frame a kernel belongs to: 0 for the copies of a
   * framebuffer resize, 1 for splats, 2 for the solver step, 3 for rendering.
   */
  function Phase(k: Kernel): nat {
    match k
    case Copy => 0
    case Splat(_, _, _, _, _) => 1
    case Curl | Vorticity(_, _) | Divergence | Clear(_) | Jacobi | GradientSubtract | Advection(_, _) => 2
    case _ => 3
  }

  predicate InPhase(ps: seq<Pass>, ph: nat) {
    forall i :: 0 <= i < |ps| ==> Phase(ps[i].kernel) == ph
  }

  predicate PhasesAtMost(ps: seq<Pass>, ph: nat) {
    forall i :: 0 <= i < |ps| ==> Phase(ps[i].kernel) <= ph
  }

  /** No pass is of phase ph. */
  predicate Avoids(ps: seq<Pass>, ph: nat) {
    forall i :: 0 <= i < |ps| ==> Phase(ps[i].kernel) != ph
  }

  /** Two blocks without a pass of phase ph make a block without one. */
  lemma AvoidsAppend(a: seq<Pass>, b: seq<Pass>, ph: nat)
    requires Avoids(a, ph) && Avoids(b, ph)
    ensures Avoids(a + b, ph)
  {
    forall i | 0 <= i < |a + b|
      ensures Phase((a + b)[i].kernel) != ph
    {
      if i < |a| {
        assert (a + b)[i] == a[i];
      } else {
        assert (a + b)[i] == b[i - |a|];
      }
    }
  }

  /** No pass of a later phase precedes a pass of an earlier one. */
  predicate PhasesOrdered(ps: seq<Pass>) {
    forall i, j :: 0 <= i < j < |ps| ==> Phase(ps[i].kernel) <= Phase(ps[j].kernel)
  }

  /** Appending a block of one phase to passes of no later phase keeps the order. */
  lemma {:induction false} OrderedAppend(a: seq<Pass>, b: seq<Pass>, lo: nat, ph: nat)
    requires PhasesOrdered(a) && PhasesAtMost(a, lo) && lo <= ph && InPhase(b, ph)
    ensures PhasesOrdered(a + b) && PhasesAtMost(a + b, ph)
  {
    forall i, j | 0 <= i < j < |a + b|
      ensures Phase((a + b)[i].kernel) <= Phase((a + b)[j].kernel)
    {
      if j < |a| {
        assert (a + b)[i] == a[i] && (a + b)[j] == a[j];
      } else if i < |a| {
        assert (a + b)[i] == a[i] && (a + b)[j] == b[j - |a|];
      } else {
        assert (a + b)[i] == b[i - |a|] && (a + b)[j] == b[j - |a|];
      }
    }
    forall i | 0 <= i < |a + b|
      ensures Phase((a + b)[i].kernel) <= ph
    {
      if i < |a| {
        assert (a + b)[i] == a[i];
      } else {
        assert (a + b)[i] == b[i - |a|];
      }
    }
  }

  lemma {:induction false} InPhaseAppend(a: seq<Pass>, b: seq<Pass>, ph: nat)
    requires InPhase(a, ph) && InPhase(b, ph)
    ensures InPhase(a + b, ph)
  {
    forall i | 0 <= i < |a + b|
      ensures Phase((a + b)[i].kernel) == ph
    {
      if i < |a| {
        assert (a + b)[i] == a[i];
      } else {
        assert (a + b)[i] == b[i - |a|];
      }
    }
  }

  /** Outside the solver phase there is no clear and no Jacobi pass. */
  lemma {:induction false} NoSolverPasses(ps: seq<Pass>, ph: nat)
    requires InPhase(ps, ph) && ph != 2
    ensures Count(ps, Clears) == 0 && Count(ps, Jacobis) == 0
  {
    forall i | 0 <= i < |ps|
      ensures !Selects(Clears, ps[i]) && !Selects(Jacobis, ps[i])
    {
      assert Phase(ps[i].kernel) == ph;
    }
    CountNone(ps, Clears);
    CountNone(ps, Jacobis);
  }

  /** The passes appended to a trace are what follows the old trace. */
  lemma Suffix(t: seq<Pass>, a: seq<Pass>)
    ensures (t + a)[|t|..] == a
  {
  }

  /** A trace extended segment by segment is the trace extended by the segments joined. */
  lemma Extend2(t: seq<Pass>, a: seq<Pass>, b: seq<Pass>)
    ensures t + a + b == t + (a + b)
  {
  }

  lemma Extend3(t: seq<Pass>, a: seq<Pass>, b: seq<Pass>, c: seq<Pass>)
    ensures t + a + b + c == t + (a + b + c)
  {
  }

  lemma Extend4(t: seq<Pass>, a: seq<Pass>, b: seq<Pass>, c: seq<Pass>, d: seq<Pass>)
    ensures t + a + b + c + d == t + (a + b + c + d)
  {
  }

  lemma {:induction false} HazardFreeAppend3(a: seq<Pass>, b: seq<Pass>, c: seq<Pass>)
    requires AllHazardFree(a) && AllHazardFree(b) && AllHazardFree(c)
    ensures AllHazardFree(a + b + c)
  {
    AllHazardFreeAppend(a, b);
    AllHazardFreeAppend(a + b, c);
  }

  // ---------------------------------------------------------------------
  // The solver step
  // ---------------------------------------------------------------------

  /** One Jacobi iteration on the pressure slots p. */
  function JacobiPass(divergence: Fbo, p: Slots): Pass {
    Pass(Jacobi, [divergence, p.read], ToFbo(p.write), Disabled)
  }

  /** The first n Jacobi iterations, starting from the pressure slots p; each is followed by a swap. */
  function JacobiPasses(divergence: Fbo, p: Slots, n: nat): (ps: seq<Pass>)
    ensures |ps| == n
  {
    if n == 0 then [] else JacobiPasses(divergence, p, n - 1) + [JacobiPass(divergence, p.SwappedN(n - 1))]
  }

  lemma {:induction false} JacobiPassAt(divergence: Fbo, p: Slots, n: nat, k: nat)
    requires k < n
    ensures JacobiPasses(divergence, p, n)[k] == JacobiPass(divergence, p.SwappedN(k))
    decreases n
  {
    if k < n - 1 {
      JacobiPassAt(divergence, p, n - 1, k);
    }
  }

  /** The slots after any number of swaps are the slots themselves or their swap. */
  lemma SwappedNCases(p: Slots, k: nat)
    ensures p.SwappedN(k) == p || p.SwappedN(k) == p.Swapped()
  {
    assert k % 2 == 0 || k % 2 == 1;
  }

  /** The Jacobi block holds n Jacobi passes. */
  lemma JacobiKinds(divergence: Fbo, p: Slots, n: nat)
    ensures Count(JacobiPasses(divergence, p, n), Jacobis) == n
  {
    var ps := JacobiPasses(divergence, p, n);
    forall k | 0 <= k < n
      ensures Selects(Jacobis, ps[k])
    {
      JacobiPassAt(divergence, p, n, k);
    }
    CountAll(ps, Jacobis);
  }

  /** The Jacobi block holds no clear pass. */
  lemma JacobiNoClear(divergence: Fbo, p: Slots, n: nat)
    ensures Count(JacobiPasses(divergence, p, n), Clears) == 0
  {
    var ps := JacobiPasses(divergence, p, n);
    forall k | 0 <= k < n
      ensures !Selects(Clears, ps[k])
    {
      JacobiPassAt(divergence, p, n, k);
    }
    CountNone(ps, Clears);
  }

  /** Every Jacobi pass renders into a pressure slot. */
  lemma JacobiWritesOwn(divergence: Fbo, p: Slots, n: nat)
    ensures Count(JacobiPasses(divergence, p, n), WritesTo(p)) == n
  {
    var ps := JacobiPasses(divergence, p, n);
    forall k | 0 <= k < n
      ensures Selects(WritesTo(p), ps[k])
    {
      JacobiPassAt(divergence, p, n, k);
      var q := p.SwappedN(k);
      SwappedNCases(p, k);
      assert ps[k].target == ToFbo(q.write);
      assert q.write == p.read || q.write == p.write;
    }
    CountAll(ps, WritesTo(p));
  }

  /** No Jacobi pass renders into a double buffer disjoint from the pressure slots. */
  lemma JacobiWritesOther(divergence: Fbo, p: Slots, n: nat, s: Slots)
    requires Disjoint(s, p)
    ensures Count(JacobiPasses(divergence, p, n), WritesTo(s)) == 0
  {
    var ps := JacobiPasses(divergence, p, n);
    forall k | 0 <= k < n
      ensures !Selects(WritesTo(s), ps[k])
    {
      JacobiPassAt(divergence, p, n, k);
      var q := p.SwappedN(k);
      SwappedNCases(p, k);
      assert ps[k].target == ToFbo(q.write);
      assert q.write == p.read || q.write == p.write;
    }
    CountNone(ps, WritesTo(s));
  }

  lemma {:induction false} JacobiHazardFree(divergence: Fbo, p: Slots, n: nat)
    requires Pair(p) && Apart(p, divergence)
    ensures AllHazardFree(JacobiPasses(divergence, p, n))
    ensures InPhase(JacobiPasses(divergence, p, n), 2)
  {
    forall k | 0 <= k < n
      ensures HazardFree(JacobiPasses(divergence, p, n)[k])
      ensures Phase(JacobiPasses(divergence, p, n)[k].kernel) == 2
    {
      JacobiPassAt(divergence, p, n, k);
    }
  }

  /** The number of Jacobi iterations: the loop runs PRESSURE_ITERATIONS times, not at all when that is negative. */
  function JacobiCount(cfg: Config): (n: nat)
    ensures cfg.pressureIterations >= 0 ==> n == cfg.pressureIterations
  {
    if cfg.pressureIterations < 0 then 0 else cfg.pressureIterations
  }

  /** The passes before the pressure solve: curl, vorticity, divergence and the clear. */
  function StepHead(v: Slots, p: Slots, curl: Fbo, divergence: Fbo, dt: real, cfg: Config): seq<Pass> {
    var v1 := v.Swapped();
    [ Pass(Curl, [v.read], ToFbo(curl), Disabled),
      Pass(Vorticity(cfg.curl, dt), [v.read, curl], ToFbo(v.write), Disabled),
      Pass(Divergence, [v1.read], ToFbo(divergence), Disabled),
      Pass(Clear(cfg.pressure), [p.read], ToFbo(p.write), Disabled) ]
  }

  /** The passes after the pressure solve: gradient subtraction, velocity advection, dye advection. */
  function StepTail(v: Slots, p: Slots, d: Slots, dt: real, cfg: Config): seq<Pass> {
    var v1 := v.Swapped();
    var v2 := v.SwappedN(2);
    var v3 := v.SwappedN(3);
    var pn := p.SwappedN(JacobiCount(cfg) + 1);
    [ Pass(GradientSubtract, [pn.read, v1.read], ToFbo(v1.write), Disabled),
      Pass(Advection(dt, cfg.velocityDissipation), [v2.read, v2.read], ToFbo(v2.write), Disabled),
      Pass(Advection(dt, cfg.densityDissipation), [v3.read, d.read], ToFbo(d.write), Disabled) ]
  }

  /**
   * The passes of one solver step on velocity slots v, pressure slots p and
   * dye slots d, with the curl and divergence framebuffers.
   */
  function StepPasses(v: Slots, p: Slots, d: Slots, curl: Fbo, divergence: Fbo, dt: real, cfg: Config): seq<Pass> {
    StepHead(v, p, curl, divergence, dt, cfg)
    + JacobiPasses(divergence, p.Swapped(), JacobiCount(cfg))
    + StepTail(v, p, d, dt, cfg)
  }

  lemma StepPassAt(v: Slots, p: Slots, d: Slots, curl: Fbo, divergence: Fbo, dt: real, cfg: Config, k: nat)
    requires k < 7 + JacobiCount(cfg)
    ensures var ps := StepPasses(v, p, d, curl, divergence, dt, cfg);
            var n := JacobiCount(cfg);
            |ps| == 7 + n
            && (k < 4 ==> ps[k] == StepHead(v, p, curl, divergence, dt, cfg)[k])
            && (4 <= k < 4 + n ==> ps[k] == JacobiPass(divergence, p.Swapped().SwappedN(k - 4)))
            && (4 + n <= k ==> ps[k] == StepTail(v, p, d, dt, cfg)[k - 4 - n])
  {
    var n := JacobiCount(cfg);
    if 4 <= k < 4 + n {
      JacobiPassAt(divergence, p.Swapped(), n, k - 4);
    }
  }

  /**
   * The step issues 7 + N passes, N the Jacobi count: exactly one clear pass
   * and exactly N Jacobi passes, all in the solver phase.
   */
  lemma StepCounts(v: Slots, p: Slots, d: Slots, curl: Fbo, divergence: Fbo, dt: real, cfg: Config)
    ensures var ps := StepPasses(v, p, d, curl, divergence, dt, cfg);
            |ps| == 7 + JacobiCount(cfg)
            && Count(ps, Clears) == 1
            && Count(ps, Jacobis) == JacobiCount(cfg)
            && InPhase(ps, 2)
  {
    var n := JacobiCount(cfg);
    var head := StepHead(v, p, curl, divergence, dt, cfg);
    var jac := JacobiPasses(divergence, p.Swapped(), n);
    var tail := StepTail(v, p, d, dt, cfg);
    Count4(head[0], head[1], head[2], head[3], Clears);
    Count4(head[0], head[1], head[2], head[3], Jacobis);
    Count3(tail[0], tail[1], tail[2], Clears);
    Count3(tail[0], tail[1], tail[2], Jacobis);
    JacobiKinds(divergence, p.Swapped(), n);
    JacobiNoClear(divergence, p.Swapped(), n);
    CountAppend(head, jac, Clears);
    CountAppend(head + jac, tail, Clears);
    CountAppend(head, jac, Jacobis);
    CountAppend(head + jac, tail, Jacobis);
    forall k | 0 <= k < 7 + n
      ensures Phase(StepPasses(v, p, d, curl, divergence, dt, cfg)[k].kernel) == 2
    {
      StepPassAt(v, p, d, curl, divergence, dt, cfg, k);
    }
  }

  /** Counting over a literal block of four passes. */
  lemma Count4(a: Pass, b: Pass, c: Pass, d: Pass, sel: Selector)
    ensures Count([a, b, c, d], sel) == (if Selects(sel, a) then 1 else 0) + (if Selects(sel, b) then 1 else 0)
                                        + (if Selects(sel, c) then 1 else 0) + (if Selects(sel, d) then 1 else 0)
  {
    assert [a, b, c, d][..3] == [a, b, c];
    Count3(a, b, c, sel);
  }

  /** Counting over a literal block of three passes. */
  lemma Count3(a: Pass, b: Pass, c: Pass, sel: Selector)
    ensures Count([a, b, c], sel) == (if Selects(sel, a) then 1 else 0) + (if Selects(sel, b) then 1 else 0)
                                     + (if Selects(sel, c) then 1 else 0)
  {
    assert [a, b, c][..2] == [a, b];
    assert [a, b][..1] == [a];
    CountOne(a, sel);
  }

  /**
   * The data flow of a step: the divergence reads the vorticity output; the
   * clear's output is what the first Jacobi pass reads; each Jacobi pass reads
   * the pressure the previous pass wrote and the divergence pass 2 wrote; the
   * gradient subtraction reads the last pressure and the vorticity output;
   * the velocity advection reads the projected velocity, and the dye
   * advection the advected velocity.
   */
  lemma StepDataFlow(v: Slots, p: Slots, d: Slots, curl: Fbo, divergence: Fbo, dt: real, cfg: Config)
    ensures var ps := StepPasses(v, p, d, curl, divergence, dt, cfg);
            var n := JacobiCount(cfg);
            |ps| == 7 + n
            && Feeds(ps[0], ps[1], 1) && Feeds(ps[1], ps[2], 0)
            && (forall k :: 4 <= k < 4 + n ==> Feeds(ps[k - 1], ps[k], 1) && Feeds(ps[2], ps[k], 0))
            && Feeds(ps[3 + n], ps[4 + n], 0) && Feeds(ps[1], ps[4 + n], 1)
            && Feeds(ps[4 + n], ps[5 + n], 0) && Feeds(ps[4 + n], ps[5 + n], 1)
            && Feeds(ps[5 + n], ps[6 + n], 0)
  {
    var n := JacobiCount(cfg);
    var ps := StepPasses(v, p, d, curl, divergence, dt, cfg);
    StepPassAt(v, p, d, curl, divergence, dt, cfg, 0);
    StepPassAt(v, p, d, curl, divergence, dt, cfg, 1);
    StepPassAt(v, p, d, curl, divergence, dt, cfg, 2);
    StepPassAt(v, p, d, curl, divergence, dt, cfg, 3);
    StepPassAt(v, p, d, curl, divergence, dt, cfg, 3 + n);
    StepPassAt(v, p, d, curl, divergence, dt, cfg, 4 + n);
    StepPassAt(v, p, d, curl, divergence, dt, cfg, 5 + n);
    StepPassAt(v, p, d, curl, divergence, dt, cfg, 6 + n);
    forall k | 4 <= k < 4 + n
      ensures Feeds(ps[k - 1], ps[k], 1) && Feeds(ps[2], ps[k], 0)
    {
      StepPassAt(v, p, d, curl, divergence, dt, cfg, k - 1);
      StepPassAt(v, p, d, curl, divergence, dt, cfg, k);
    }
  }

  /**
   * After the step's swaps, the read slots hold the step's results: velocity
   * (swapped 3 times) holds the advected velocity, pressure (swapped N + 1
   * times) the last pressure iterate, dye (swapped once) the advected dye.
   */
  lemma StepResults(v: Slots, p: Slots, d: Slots, curl: Fbo, divergence: Fbo, dt: real, cfg: Config)
    ensures var ps := StepPasses(v, p, d, curl, divergence, dt, cfg);
            var n := JacobiCount(cfg);
            ps[5 + n].target == ToFbo(v.SwappedN(3).read)
            && ps[3 + n].target == ToFbo(p.SwappedN(n + 1).read)
            && ps[6 + n].target == ToFbo(d.Swapped().read)
  {
    var n := JacobiCount(cfg);
    StepPassAt(v, p, d, curl, divergence, dt, cfg, 3 + n);
    StepPassAt(v, p, d, curl, divergence, dt, cfg, 5 + n);
    StepPassAt(v, p, d, curl, divergence, dt, cfg, 6 + n);
  }

  /** No pass of the step samples the framebuffer it renders into. */
  lemma StepHazardFree(v: Slots, p: Slots, d: Slots, curl: Fbo, divergence: Fbo, dt: real, cfg: Config)
    requires Pair(v) && Pair(p) && Pair(d)
    requires Apart(v, curl) && Apart(v, divergence) && Apart(p, divergence) && Disjoint(v, p) && Disjoint(v, d)
    ensures AllHazardFree(StepPasses(v, p, d, curl, divergence, dt, cfg))
  {
    var n := JacobiCount(cfg);
    forall k | 0 <= k < 7 + n
      ensures HazardFree(StepPasses(v, p, d, curl, divergence, dt, cfg)[k])
    {
      StepPassAt(v, p, d, curl, divergence, dt, cfg, k);
    }
  }

  /**
   * Within a step, three passes render into velocity, one into dye and
   * N + 1 into pressure: one per swap of each double buffer.
   */
  lemma StepWrites(v: Slots, p: Slots, d: Slots, curl: Fbo, divergence: Fbo, dt: real, cfg: Config)
    requires Pair(v) && Pair(p) && Pair(d)
    requires Apart(v, curl) && Apart(v, divergence) && Apart(p, curl) && Apart(p, divergence)
    requires Apart(d, curl) && Apart(d, divergence)
    requires Disjoint(v, p) && Disjoint(v, d) && Disjoint(p, d)
    ensures var ps := StepPasses(v, p, d, curl, divergence, dt, cfg);
            Count(ps, WritesTo(v)) == 3 && Count(ps, WritesTo(d)) == 1
            && Count(ps, WritesTo(p)) == JacobiCount(cfg) + 1
  {
    var n := JacobiCount(cfg);
    var head := StepHead(v, p, curl, divergence, dt, cfg);
    var jac := JacobiPasses(divergence, p.Swapped(), n);
    var tail := StepTail(v, p, d, dt, cfg);
    Count4(head[0], head[1], head[2], head[3], WritesTo(v));
    Count4(head[0], head[1], head[2], head[3], WritesTo(d));
    Count4(head[0], head[1], head[2], head[3], WritesTo(p));
    Count3(tail[0], tail[1], tail[2], WritesTo(v));
    Count3(tail[0], tail[1], tail[2], WritesTo(d));
    Count3(tail[0], tail[1], tail[2], WritesTo(p));
    JacobiWritesOther(divergence, p.Swapped(), n, v);
    JacobiWritesOther(divergence, p.Swapped(), n, d);
    JacobiWritesOwn(divergence, p.Swapped(), n);
    WritesToSwapped(jac, p);
    CountAppend(head, jac, WritesTo(v));
    CountAppend(head + jac, tail, WritesTo(v));
    CountAppend(head, jac, WritesTo(d));
    CountAppend(head + jac, tail, WritesTo(d));
    CountAppend(head, jac, WritesTo(p));
    CountAppend(head + jac, tail, WritesTo(p));
  }

  /** Writing into a double buffer does not depend on which slot is called read. */
  lemma {:induction false} WritesToSwapped(ps: seq<Pass>, s: Slots)
    ensures Count(ps, WritesTo(s)) == Count(ps, WritesTo(s.Swapped()))
    decreases |ps|
  {
    if |ps| > 0 {
      WritesToSwapped(ps[..|ps| - 1], s);
    }
  }

  // ---------------------------------------------------------------------
  // Splats
  // ---------------------------------------------------------------------

  /** The arguments of splat(x, y, dx, dy, color). */
  datatype SplatArgs = SplatArgs(x: real, y: real, dx: real, dy: real, color: Vec3)

  /** correctRadius: on a landscape canvas the radius is stretched by the aspect ratio. */
  function CorrectRadius(radius: real, aspectRatio: real): (r: real)
    ensures aspectRatio <= 1.0 ==> r == radius
    ensures 0.0 <= radius && 1.0 < aspectRatio ==> radius <= r
  {
    if aspectRatio > 1.0 then
      assert 0.0 <= radius ==> radius * 1.0 <= radius * aspectRatio;
      radius * aspectRatio
    else
      radius
  }

  /** One splat: the force into velocity, then the color into dye, each followed by a swap. */
  function SplatPasses(v: Slots, d: Slots, s: SplatArgs, aspectRatio: real, radius: real, blend: Blend): seq<Pass> {
    [ Pass(Splat(aspectRatio, s.x, s.y, Vec3(s.dx, s.dy, 0.0), radius), [v.read], ToFbo(v.write), blend),
      Pass(Splat(aspectRatio, s.x, s.y, s.color, radius), [d.read], ToFbo(d.write), blend) ]
  }

  /** The splats ss in order, starting from velocity slots v and dye slots d. */
  function SplatsPasses(v: Slots, d: Slots, ss: seq<SplatArgs>, aspectRatio: real, radius: real, blend: Blend): (ps: seq<Pass>)
    ensures |ps| == 2 * |ss|
  {
    if |ss| == 0 then []
    else
      var n := |ss| - 1;
      SplatsPasses(v, d, ss[..n], aspectRatio, radius, blend)
      + SplatPasses(v.SwappedN(n), d.SwappedN(n), ss[n], aspectRatio, radius, blend)
  }

  lemma {:induction false} SplatsPassAt(v: Slots, d: Slots, ss: seq<SplatArgs>, aspectRatio: real, radius: real, blend: Blend, k: nat)
    requires k < |ss|
    ensures var ps := SplatsPasses(v, d, ss, aspectRatio, radius, blend);
            ps[2 * k] == SplatPasses(v.SwappedN(k), d.SwappedN(k), ss[k], aspectRatio, radius, blend)[0]
            && ps[2 * k + 1] == SplatPasses(v.SwappedN(k), d.SwappedN(k), ss[k], aspectRatio, radius, blend)[1]
    decreases |ss|
  {
    var n := |ss| - 1;
    if k < n {
      SplatsPassAt(v, d, ss[..n], aspectRatio, radius, blend, k);
    }
  }

  /**
   * Every splat renders velocity, then dye, into the write slot and samples
   * the read slot; each one samples what the previous one wrote; all passes
   * are splat passes under the given blend state, free of hazards.
   */
  lemma SplatsProperties(v: Slots, d: Slots, ss: seq<SplatArgs>, aspectRatio: real, radius: real, blend: Blend)
    requires Pair(v) && Pair(d)
    ensures var ps := SplatsPasses(v, d, ss, aspectRatio, radius, blend);
            AllHazardFree(ps) && InPhase(ps, 1)
            && (forall k :: 2 <= k < |ps| ==> Feeds(ps[k - 2], ps[k], 0))
            && (forall k :: 0 <= k < |ps| ==> ps[k].blend == blend)
  {
    var ps := SplatsPasses(v, d, ss, aspectRatio, radius, blend);
    forall k | 0 <= k < |ps|
      ensures HazardFree(ps[k]) && Phase(ps[k].kernel) == 1 && ps[k].blend == blend
      ensures 2 <= k ==> Feeds(ps[k - 2], ps[k], 0)
    {
      SplatsPassAt(v, d, ss, aspectRatio, radius, blend, k / 2);
      if 2 <= k {
        SplatsPassAt(v, d, ss, aspectRatio, radius, blend, k / 2 - 1);
      }
    }
  }

  /** Each splat renders once into velocity and once into dye. */
  lemma {:induction false} SplatsWrites(v: Slots, d: Slots, ss: seq<SplatArgs>, aspectRatio: real, radius: real, blend: Blend)
    requires Disjoint(v, d)
    ensures Count(SplatsPasses(v, d, ss, aspectRatio, radius, blend), WritesTo(v)) == |ss|
    ensures Count(SplatsPasses(v, d, ss, aspectRatio, radius, blend), WritesTo(d)) == |ss|
    decreases |ss|
  {
    if |ss| > 0 {
      var n := |ss| - 1;
      var last := SplatPasses(v.SwappedN(n), d.SwappedN(n), ss[n], aspectRatio, radius, blend);
      SplatsWrites(v, d, ss[..n], aspectRatio, radius, blend);
      CountAppend(SplatsPasses(v, d, ss[..n], aspectRatio, radius, blend), last, WritesTo(v));
      CountAppend(SplatsPasses(v, d, ss[..n], aspectRatio, radius, blend), last, WritesTo(d));
      assert last == [last[0]] + [last[1]];
      CountAppend([last[0]], [last[1]], WritesTo(v));
      CountAppend([last[0]], [last[1]], WritesTo(d));
      CountOne(last[0], WritesTo(v));
      CountOne(last[1], WritesTo(v));
      CountOne(last[0], WritesTo(d));
      CountOne(last[1], WritesTo(d));
    }
  }

  /** Splatting a then b is splatting a + b: the slots carry over. */
  lemma {:induction false} SplatsAppend(v: Slots, d: Slots, a: seq<SplatArgs>, b: seq<SplatArgs>,
                                        aspectRatio: real, radius: real, blend: Blend)
    ensures SplatsPasses(v, d, a + b, aspectRatio, radius, blend)
         == SplatsPasses(v, d, a, aspectRatio, radius, blend)
            + SplatsPasses(v.SwappedN(|a|), d.SwappedN(|a|), b, aspectRatio, radius, blend)
    decreases |b|
  {
    if |b| == 0 {
      assert a + b == a;
    } else {
      var n := |b| - 1;
      assert (a + b)[..|a| + n] == a + b[..n];
      assert (a + b)[|a| + n] == b[n];
      SplatsAppend(v, d, a, b[..n], aspectRatio, radius, blend);
      SwappedNAdd(v, |a|, n);
      SwappedNAdd(d, |a|, n);
    }
  }

  /**
   * Two rounds of splats appended one after the other to a trace, the second
   * starting on the slots the first left: together they append the splats
   * of both, which are splat passes free of hazards.
   */
  lemma SplatsThen(t0: seq<Pass>, t1: seq<Pass>, t2: seq<Pass>, v: Slots, d: Slots, a: seq<SplatArgs>, b: seq<SplatArgs>,
                   aspectRatio: real, radius: real, blend: Blend)
    requires Pair(v) && Pair(d)
    requires t1 == t0 + SplatsPasses(v, d, a, aspectRatio, radius, blend)
    requires t2 == t1 + SplatsPasses(v.SwappedN(|a|), d.SwappedN(|a|), b, aspectRatio, radius, blend)
    ensures t2 == t0 + SplatsPasses(v, d, a + b, aspectRatio, radius, blend)
    ensures InPhase(t2[|t0|..], 1) && AllHazardFree(t2[|t0|..])
  {
    Extend2(t0, SplatsPasses(v, d, a, aspectRatio, radius, blend),
            SplatsPasses(v.SwappedN(|a|), d.SwappedN(|a|), b, aspectRatio, radius, blend));
    SplatsAppend(v, d, a, b, aspectRatio, radius, blend);
    Suffix(t0, SplatsPasses(v, d, a + b, aspectRatio, radius, blend));
    SplatsProperties(v, d, a + b, aspectRatio, radius, blend);
  }

  /** The slots after the splats a and then the splats b are those after the splats a + b. */
  lemma SwapsAppend(s: Slots, a: seq<SplatArgs>, b: seq<SplatArgs>)
    ensures s.SwappedN(|a|).SwappedN(|b|) == s.SwappedN(|a + b|)
  {
    SwappedNAdd(s, |a|, |b|);
  }

  /** One more splat appends its two passes, on the slots left by the splats before it. */
  lemma SplatsSnoc(v: Slots, d: Slots, ss: seq<SplatArgs>, s: SplatArgs, aspectRatio: real, radius: real, blend: Blend)
    ensures SplatsPasses(v, d, ss + [s], aspectRatio, radius, blend)
         == SplatsPasses(v, d, ss, aspectRatio, radius, blend)
            + SplatPasses(v.SwappedN(|ss|), d.SwappedN(|ss|), s, aspectRatio, radius, blend)
  {
    assert (ss + [s])[..|ss|] == ss;
  }

  /** The random inputs of one iteration of multipleSplats: generateColor() and four Math.random() values. */
  datatype Draw = Draw(color: Vec3, x: real, y: real, u: real, w: real)

  /**
   * One random splat: the color scaled by 10 (white when COLORFUL is off),
   * and a force of 1000 * (random - 0.5) on each axis.
   */
  function RandomSplat(dr: Draw, colorful: bool): (s: SplatArgs)
    ensures s.x == dr.x && s.y == dr.y
    ensures s.dx == 1000.0 * (dr.u - 0.5) && s.dy == 1000.0 * (dr.w - 0.5)
    ensures 0.0 <= dr.u < 1.0 ==> -500.0 <= s.dx < 500.0
    ensures 0.0 <= dr.w < 1.0 ==> -500.0 <= s.dy < 500.0
    ensures !colorful ==> s.color == Vec3(1.0, 1.0, 1.0)
    ensures colorful ==> s.color == Vec3(10.0 * dr.color.x, 10.0 * dr.color.y, 10.0 * dr.color.z)
  {
    var c := Vec3(dr.color.x * 10.0, dr.color.y * 10.0, dr.color.z * 10.0);
    SplatArgs(dr.x, dr.y, 1000.0 * (dr.u - 0.5), 1000.0 * (dr.w - 0.5),
              if colorful then c else Vec3(1.0, 1.0, 1.0))
  }

  /** The splats of multipleSplats(amount), iteration i using draw(i). */
  function RandomSplats(draw: nat -> Draw, amount: nat, colorful: bool): (ss: seq<SplatArgs>)
    ensures |ss| == amount
  {
    if amount == 0 then [] else RandomSplats(draw, amount - 1, colorful) + [RandomSplat(draw(amount - 1), colorful)]
  }

  /** splatPointer: a splat at the pointer's position with its motion scaled by SPLAT_FORCE. */
  function PointerSplat(s: PointerState, splatForce: real): (a: SplatArgs)
    ensures s.deltaX == 0.0 ==> a.dx == 0.0
    ensures s.deltaY == 0.0 ==> a.dy == 0.0
    ensures (a.x, a.y) == (s.texcoordX, s.texcoordY) && a.color == s.color
  {
    SplatArgs(s.texcoordX, s.texcoordY, s.deltaX * splatForce, s.deltaY * splatForce, s.color)
  }

  /** The pointer splats of applyInputs: one per pointer whose moved flag is set, in pointer order. */
  function PointerSplats(states: seq<PointerState>, splatForce: real): (ss: seq<SplatArgs>)
    ensures |ss| <= |states|
  {
    if |states| == 0 then []
    else
      var n := |states| - 1;
      PointerSplats(states[..n], splatForce) + if states[n].moved then [PointerSplat(states[n], splatForce)] else []
  }

  /** A frame splats the pointers exactly when at least one of them moved. */
  lemma {:induction false} PointerSplatsNone(states: seq<PointerState>, splatForce: real)
    ensures PointerSplats(states, splatForce) == [] <==> forall i :: 0 <= i < |states| ==> !states[i].moved
    decreases |states|
  {
    if |states| > 0 {
      var n := |states| - 1;
      PointerSplatsNone(states[..n], splatForce);
      assert forall i :: 0 <= i < n ==> states[..n][i] == states[i];
    }
  }

  /** The pointer splats of the first i + 1 states: those of the first i, then state i's if it moved. */
  lemma PointerSplatsPrefix(states: seq<PointerState>, i: nat, splatForce: real)
    requires i < |states|
    ensures PointerSplats(states[..i + 1], splatForce)
         == PointerSplats(states[..i], splatForce) + if states[i].moved then [PointerSplat(states[i], splatForce)] else []
  {
    assert states[..i + 1][..i] == states[..i];
  }

  // ---------------------------------------------------------------------
  // Bloom
  // ---------------------------------------------------------------------

  /**
   * The prefilter's soft-knee curve: with knee = threshold * softKnee +
   * 0.0001 it is (threshold - knee, 2 knee, 0.25 / knee).
   */
  function PrefilterCurve(threshold: real, softKnee: real): (c: Vec3)
    requires 0.0 <= threshold && 0.0 <= softKnee
    ensures c.x + c.y / 2.0 == threshold
    ensures 0.0 < c.y && c.y * c.z == 0.5
    ensures c.x < threshold
  {
    var knee := threshold * softKnee + 0.0001;
    assert 0.0 < knee;
    Vec3(threshold - knee, knee * 2.0, 0.25 / knee)
  }

  /** Downsampling pass i: from the bloom target (i = 0) or level i - 1 into level i. */
  function BloomDownPass(dest: Fbo, levels: seq<Fbo>, i: nat): Pass
    requires i < |levels|
  {
    Pass(BloomBlur, [if i == 0 then dest else levels[i - 1]], ToFbo(levels[i]), Disabled)
  }

  /** The first n downsampling passes. */
  function BloomDownPasses(dest: Fbo, levels: seq<Fbo>, n: nat): (ps: seq<Pass>)
    requires n <= |levels|
    ensures |ps| == n
  {
    if n == 0 then [] else BloomDownPasses(dest, levels, n - 1) + [BloomDownPass(dest, levels, n - 1)]
  }

  /** Upsampling into level i from level i + 1, added onto level i. */
  function BloomUpPass(levels: seq<Fbo>, i: nat): Pass
    requires i + 1 < |levels|
  {
    Pass(BloomBlur, [levels[i + 1]], ToFbo(levels[i]), Additive)
  }

  /** The first m upsampling passes: they run from level |levels| - 2 down to level |levels| - 1 - m. */
  function BloomUpPasses(levels: seq<Fbo>, m: nat): (ps: seq<Pass>)
    requires m < |levels|
    ensures |ps| == m
  {
    if m == 0 then [] else BloomUpPasses(levels, m - 1) + [BloomUpPass(levels, |levels| - 1 - m)]
  }

  lemma {:induction false} BloomDownAt(dest: Fbo, levels: seq<Fbo>, n: nat, k: nat)
    requires k < n <= |levels|
    ensures BloomDownPasses(dest, levels, n)[k] == BloomDownPass(dest, levels, k)
    decreases n
  {
    if k < n - 1 {
      BloomDownAt(dest, levels, n - 1, k);
    }
  }

  lemma {:induction false} BloomUpAt(levels: seq<Fbo>, m: nat, k: nat)
    requires k < m < |levels|
    ensures BloomUpPasses(levels, m)[k] == BloomUpPass(levels, |levels| - 2 - k)
    decreases m
  {
    if k < m - 1 {
      BloomUpAt(levels, m - 1, k);
    }
  }

  /**
   * applyBloom from source into dest over the mip chain levels: nothing with
   * fewer than 2 levels; otherwise the prefilter into dest, a downsampling
   * pass into every level, an additive upsampling pass into every level but
   * the last, and the final pass back into dest.
   */
  function BloomPasses(source: Fbo, dest: Fbo, levels: seq<Fbo>, threshold: real, softKnee: real, intensity: real): seq<Pass>
    requires 0.0 <= threshold && 0.0 <= softKnee
  {
    if |levels| < 2 then []
    else
      [Pass(BloomPrefilter(PrefilterCurve(threshold, softKnee), threshold), [source], ToFbo(dest), Disabled)]
      + BloomDownPasses(dest, levels, |levels|)
      + BloomUpPasses(levels, |levels| - 1)
      + [Pass(BloomFinal(intensity), [levels[0]], ToFbo(dest), Disabled)]
  }

  lemma BloomPassAt(source: Fbo, dest: Fbo, levels: seq<Fbo>, threshold: real, softKnee: real, intensity: real, k: nat)
    requires 0.0 <= threshold && 0.0 <= softKnee
    requires 2 <= |levels| && k < 2 * |levels| + 1
    ensures var ps := BloomPasses(source, dest, levels, threshold, softKnee, intensity);
            var n := |levels|;
            |ps| == 2 * n + 1
            && (k == 0 ==> ps[k] == Pass(BloomPrefilter(PrefilterCurve(threshold, softKnee), threshold), [source], ToFbo(dest), Disabled))
            && (1 <= k <= n ==> ps[k] == BloomDownPass(dest, levels, k - 1))
            && (n < k < 2 * n ==> ps[k] == BloomUpPass(levels, 2 * n - 1 - k))
            && (k == 2 * n ==> ps[k] == Pass(BloomFinal(intensity), [levels[0]], ToFbo(dest), Disabled))
  {
    var n := |levels|;
    if 1 <= k <= n {
      BloomDownAt(dest, levels, n, k - 1);
    } else if n < k < 2 * n {
      BloomUpAt(levels, n - 1, k - n - 1);
    }
  }

  /**
   * The bloom passes are a single chain: every pass after the prefilter
   * samples what the pass before it rendered. With n >= 2 levels there are
   * 2n + 1 passes, n - 1 of them additive; with fewer there are none.
   */
  lemma BloomShape(source: Fbo, dest: Fbo, levels: seq<Fbo>, threshold: real, softKnee: real, intensity: real)
    requires 0.0 <= threshold && 0.0 <= softKnee
    ensures var ps := BloomPasses(source, dest, levels, threshold, softKnee, intensity);
            (|levels| < 2 <==> ps == [])
            && (2 <= |levels| ==> |ps| == 2 * |levels| + 1 && Count(ps, AdditivePasses) == |levels| - 1)
            && (forall k :: 1 <= k < |ps| ==> Feeds(ps[k - 1], ps[k], 0))
            && InPhase(ps, 3)
  {
    BloomChained(source, dest, levels, threshold, softKnee, intensity);
    BloomInPhase(source, dest, levels, threshold, softKnee, intensity);
    if 2 <= |levels| {
      BloomAdditiveCount(source, dest, levels, threshold, softKnee, intensity);
    }
  }

  /** Every bloom pass after the first samples what the pass before it rendered. */
  lemma BloomChained(source: Fbo, dest: Fbo, levels: seq<Fbo>, threshold: real, softKnee: real, intensity: real)
    requires 0.0 <= threshold && 0.0 <= softKnee
    ensures var ps := BloomPasses(source, dest, levels, threshold, softKnee, intensity);
            forall k :: 1 <= k < |ps| ==> Feeds(ps[k - 1], ps[k], 0)
  {
    var ps := BloomPasses(source, dest, levels, threshold, softKnee, intensity);
    forall k | 1 <= k < |ps|
      ensures Feeds(ps[k - 1], ps[k], 0)
    {
      BloomPassAt(source, dest, levels, threshold, softKnee, intensity, k - 1);
      BloomPassAt(source, dest, levels, threshold, softKnee, intensity, k);
    }
  }

  /** The bloom passes all belong to the render phase. */
  lemma BloomInPhase(source: Fbo, dest: Fbo, levels: seq<Fbo>, threshold: real, softKnee: real, intensity: real)
    requires 0.0 <= threshold && 0.0 <= softKnee
    ensures InPhase(BloomPasses(source, dest, levels, threshold, softKnee, intensity), 3)
  {
    var ps := BloomPasses(source, dest, levels, threshold, softKnee, intensity);
    forall k | 0 <= k < |ps|
      ensures Phase(ps[k].kernel) == 3
    {
      BloomPassAt(source, dest, levels, threshold, softKnee, intensity, k);
    }
  }

  /** With n >= 2 levels the chain has 2n + 1 passes, of which the n - 1 upsampling ones are additive. */
  lemma BloomAdditiveCount(source: Fbo, dest: Fbo, levels: seq<Fbo>, threshold: real, softKnee: real, intensity: real)
    requires 0.0 <= threshold && 0.0 <= softKnee && 2 <= |levels|
    ensures var ps := BloomPasses(source, dest, levels, threshold, softKnee, intensity);
            |ps| == 2 * |levels| + 1 && Count(ps, AdditivePasses) == |levels| - 1
  {
    var n := |levels|;
    var pre := [Pass(BloomPrefilter(PrefilterCurve(threshold, softKnee), threshold), [source], ToFbo(dest), Disabled)];
    var down := BloomDownPasses(dest, levels, n);
    var up := BloomUpPasses(levels, n - 1);
    var last := Pass(BloomFinal(intensity), [levels[0]], ToFbo(dest), Disabled);
    BloomDownDisabled(dest, levels, n);
    BloomUpAdditive(levels, n - 1);
    CountOne(pre[0], AdditivePasses);
    CountAppend(pre, down, AdditivePasses);
    CountAppend(pre + down, up, AdditivePasses);
    CountSnoc(pre + down + up, last, AdditivePasses);
  }

  lemma {:induction false} BloomDownDisabled(dest: Fbo, levels: seq<Fbo>, n: nat)
    requires n <= |levels|
    ensures Count(BloomDownPasses(dest, levels, n), AdditivePasses) == 0
  {
    if n > 0 {
      CountSnoc(BloomDownPasses(dest, levels, n - 1), BloomDownPass(dest, levels, n - 1), AdditivePasses);
      BloomDownDisabled(dest, levels, n - 1);
    }
  }

  lemma {:induction false} BloomUpAdditive(levels: seq<Fbo>, m: nat)
    requires m < |levels|
    ensures Count(BloomUpPasses(levels, m), AdditivePasses) == m
  {
    if m > 0 {
      CountSnoc(BloomUpPasses(levels, m - 1), BloomUpPass(levels, |levels| - 1 - m), AdditivePasses);
      BloomUpAdditive(levels, m - 1);
    }
  }

  /** With distinct levels, none of them the target or the source, no bloom pass samples its own target. */
  lemma BloomHazardFree(source: Fbo, dest: Fbo, levels: seq<Fbo>, threshold: real, softKnee: real, intensity: real)
    requires 0.0 <= threshold && 0.0 <= softKnee
    requires source != dest && dest !in levels && Distinct(levels)
    ensures AllHazardFree(BloomPasses(source, dest, levels, threshold, softKnee, intensity))
  {
    var ps := BloomPasses(source, dest, levels, threshold, softKnee, intensity);
    forall k | 0 <= k < |ps|
      ensures HazardFree(ps[k])
    {
      BloomPassAt(source, dest, levels, threshold, softKnee, intensity, k);
    }
  }

  // ---------------------------------------------------------------------
  // Sunrays, blur and the final composition
  // ---------------------------------------------------------------------

  /** applySunrays: the mask of source into mask, then the rays of the mask into dest. */
  function SunraysPasses(source: Fbo, mask: Fbo, dest: Fbo, weight: real): seq<Pass> {
    [ Pass(SunraysMask, [source], ToFbo(mask), Disabled),
      Pass(Sunrays(weight), [mask], ToFbo(dest), Disabled) ]
  }

  /** blur(target, temp, n): n rounds of a horizontal pass into temp and a vertical pass back into target. */
  function BlurPasses(target: Fbo, temp: Fbo, n: nat, blend: Blend): (ps: seq<Pass>)
    ensures |ps| == 2 * n
  {
    if n == 0 then []
    else
      BlurPasses(target, temp, n - 1, blend)
      + [ Pass(Blur(true), [target], ToFbo(temp), blend), Pass(Blur(false), [temp], ToFbo(target), blend) ]
  }

  /** Every blur round reads what the previous pass wrote, and with target != temp it is hazard free. */
  lemma {:induction false} BlurProperties(target: Fbo, temp: Fbo, n: nat, blend: Blend)
    requires target != temp
    ensures var ps := BlurPasses(target, temp, n, blend);
            AllHazardFree(ps) && InPhase(ps, 3)
            && (forall k :: 1 <= k < |ps| ==> Feeds(ps[k - 1], ps[k], 0))
            && (n > 0 ==> ps[|ps| - 1].target == ToFbo(target))
  {
    if n > 0 {
      var prev := BlurPasses(target, temp, n - 1, blend);
      var ps := BlurPasses(target, temp, n, blend);
      BlurProperties(target, temp, n - 1, blend);
      assert forall k :: 0 <= k < |prev| ==> ps[k] == prev[k];
      assert ps[|prev|] == Pass(Blur(true), [target], ToFbo(temp), blend);
      assert ps[|prev| + 1] == Pass(Blur(false), [temp], ToFbo(target), blend);
      assert forall k :: 0 <= k < |ps| ==> HazardFree(ps[k]) && Phase(ps[k].kernel) == 3;
    }
  }

  /** normalizeColor: a 0-255 color to the 0-1 range. */
  function NormalizeColor(c: Vec3): (r: Vec3)
    ensures 0.0 <= c.x <= 255.0 ==> 0.0 <= r.x <= 1.0
    ensures 0.0 <= c.y <= 255.0 ==> 0.0 <= r.y <= 1.0
    ensures 0.0 <= c.z <= 255.0 ==> 0.0 <= r.z <= 1.0
    ensures r.x * 255.0 == c.x && r.y * 255.0 == c.y && r.z * 255.0 == c.z
  {
    Vec3(c.x / 255.0, c.y / 255.0, c.z / 255.0)
  }

  /** The textures the display pass samples: the dye, then bloom and dithering, then sunrays, as enabled. */
  function DisplayInputs(dyeRead: Fbo, bloom: Fbo, dithering: ImageTexture, sunrays: Fbo, cfg: Config): seq<object> {
    [dyeRead as object]
    + (if cfg.bloom then [bloom as object, dithering as object] else [])
    + (if cfg.sunrays then [sunrays as object] else [])
  }

  /** The post-processing of render: bloom into the bloom target, sunrays with one blur round, as enabled. */
  function PostPasses(dye: Slots, bloom: Fbo, levels: seq<Fbo>, sunrays: Fbo, sunraysTemp: Fbo, cfg: Config): seq<Pass>
    requires 0.0 <= cfg.bloomThreshold && 0.0 <= cfg.bloomSoftKnee
  {
    (if cfg.bloom then BloomPasses(dye.read, bloom, levels, cfg.bloomThreshold, cfg.bloomSoftKnee, cfg.bloomIntensity) else [])
    + (if cfg.sunrays then SunraysPasses(dye.read, dye.write, sunrays, cfg.sunraysWeight) + BlurPasses(sunrays, sunraysTemp, 1, Disabled) else [])
  }

  /** The background of the screen: the back color when opaque, the checkerboard when transparent. */
  function BackgroundPass(cfg: Config, aspectRatio: real): Pass {
    if cfg.transparent then Pass(Checkerboard(aspectRatio), [], Screen, Over)
    else Pass(Color(NormalizeColor(cfg.backColor)), [], Screen, Over)
  }

  /** render(null): post-processing, then the background and the display pass onto the screen with blending on. */
  function RenderPasses(dye: Slots, bloom: Fbo, levels: seq<Fbo>, sunrays: Fbo, sunraysTemp: Fbo,
                        dithering: ImageTexture, cfg: Config, aspectRatio: real): seq<Pass>
    requires 0.0 <= cfg.bloomThreshold && 0.0 <= cfg.bloomSoftKnee
  {
    PostPasses(dye, bloom, levels, sunrays, sunraysTemp, cfg)
    + [BackgroundPass(cfg, aspectRatio),
       Pass(Display(cfg.shading, cfg.bloom, cfg.sunrays), DisplayInputs(dye.read, bloom, dithering, sunrays, cfg), Screen, Over)]
  }

  /** The post-processing passes are hazard free, belong to the render phase and never render into the dye's read slot. */
  lemma PostProperties(dye: Slots, bloom: Fbo, levels: seq<Fbo>, sunrays: Fbo, sunraysTemp: Fbo, cfg: Config)
    requires 0.0 <= cfg.bloomThreshold && 0.0 <= cfg.bloomSoftKnee
    requires Pair(dye) && Apart(dye, bloom) && Apart(dye, sunrays) && Apart(dye, sunraysTemp)
    requires sunrays != sunraysTemp && bloom !in levels && Distinct(levels)
    requires forall i :: 0 <= i < |levels| ==> Apart(dye, levels[i])
    ensures var ps := PostPasses(dye, bloom, levels, sunrays, sunraysTemp, cfg);
            AllHazardFree(ps) && InPhase(ps, 3) && forall k :: 0 <= k < |ps| ==> ps[k].target != ToFbo(dye.read)
  {
    var bl := if cfg.bloom then BloomPasses(dye.read, bloom, levels, cfg.bloomThreshold, cfg.bloomSoftKnee, cfg.bloomIntensity) else [];
    var sr := if cfg.sunrays then SunraysPasses(dye.read, dye.write, sunrays, cfg.sunraysWeight) + BlurPasses(sunrays, sunraysTemp, 1, Disabled) else [];
    BloomTargets(dye, bloom, levels, cfg);
    SunraysTargets(dye, sunrays, sunraysTemp, cfg);
    AllHazardFreeAppend(bl, sr);
    InPhaseAppend(bl, sr, 3);
    var ps := bl + sr;
    forall k | 0 <= k < |ps|
      ensures ps[k].target != ToFbo(dye.read)
    {
      if k < |bl| {
        assert ps[k] == bl[k];
      } else {
        assert ps[k] == sr[k - |bl|];
      }
    }
  }

  lemma BloomTargets(dye: Slots, bloom: Fbo, levels: seq<Fbo>, cfg: Config)
    requires 0.0 <= cfg.bloomThreshold && 0.0 <= cfg.bloomSoftKnee
    requires Apart(dye, bloom) && bloom !in levels && Distinct(levels)
    requires forall i :: 0 <= i < |levels| ==> Apart(dye, levels[i])
    ensures var bl := BloomPasses(dye.read, bloom, levels, cfg.bloomThreshold, cfg.bloomSoftKnee, cfg.bloomIntensity);
            AllHazardFree(bl) && InPhase(bl, 3) && forall k :: 0 <= k < |bl| ==> bl[k].target != ToFbo(dye.read)
  {
    var bl := BloomPasses(dye.read, bloom, levels, cfg.bloomThreshold, cfg.bloomSoftKnee, cfg.bloomIntensity);
    BloomShape(dye.read, bloom, levels, cfg.bloomThreshold, cfg.bloomSoftKnee, cfg.bloomIntensity);
    BloomHazardFree(dye.read, bloom, levels, cfg.bloomThreshold, cfg.bloomSoftKnee, cfg.bloomIntensity);
    forall k | 0 <= k < |bl|
      ensures bl[k].target != ToFbo(dye.read)
    {
      BloomPassAt(dye.read, bloom, levels, cfg.bloomThreshold, cfg.bloomSoftKnee, cfg.bloomIntensity, k);
    }
  }

  lemma SunraysTargets(dye: Slots, sunrays: Fbo, sunraysTemp: Fbo, cfg: Config)
    requires Pair(dye) && Apart(dye, sunrays) && Apart(dye, sunraysTemp) && sunrays != sunraysTemp
    ensures var sr := SunraysPasses(dye.read, dye.write, sunrays, cfg.sunraysWeight) + BlurPasses(sunrays, sunraysTemp, 1, Disabled);
            AllHazardFree(sr) && InPhase(sr, 3) && forall k :: 0 <= k < |sr| ==> sr[k].target != ToFbo(dye.read)
  {
    var sp := SunraysPasses(dye.read, dye.write, sunrays, cfg.sunraysWeight);
    var bp := BlurPasses(sunrays, sunraysTemp, 1, Disabled);
    assert bp == [Pass(Blur(true), [sunrays], ToFbo(sunraysTemp), Disabled), Pass(Blur(false), [sunraysTemp], ToFbo(sunrays), Disabled)];
    BlurProperties(sunrays, sunraysTemp, 1, Disabled);
    AllHazardFreeAppend(sp, bp);
    InPhaseAppend(sp, bp, 3);
  }

  /**
   * Rendering is hazard free, keeps to the render phase, never renders into
   * the dye's read slot (the dye field survives the frame), and ends with the
   * display pass onto the screen, which samples the dye's read slot.
   */
  lemma RenderProperties(dye: Slots, bloom: Fbo, levels: seq<Fbo>, sunrays: Fbo, sunraysTemp: Fbo,
                         dithering: ImageTexture, cfg: Config, aspectRatio: real)
    requires 0.0 <= cfg.bloomThreshold && 0.0 <= cfg.bloomSoftKnee
    requires Pair(dye) && Apart(dye, bloom) && Apart(dye, sunrays) && Apart(dye, sunraysTemp)
    requires sunrays != sunraysTemp && bloom !in levels && Distinct(levels)
    requires forall i :: 0 <= i < |levels| ==> Apart(dye, levels[i])
    ensures var ps := RenderPasses(dye, bloom, levels, sunrays, sunraysTemp, dithering, cfg, aspectRatio);
            AllHazardFree(ps) && InPhase(ps, 3)
            && (forall k :: 0 <= k < |ps| ==> ps[k].target != ToFbo(dye.read))
            && 2 <= |ps| && ps[|ps| - 1].target == Screen && ps[|ps| - 1].kernel.Display?
            && ps[|ps| - 1].inputs[0] == dye.read
  {
    var post := PostPasses(dye, bloom, levels, sunrays, sunraysTemp, cfg);
    var fin := [BackgroundPass(cfg, aspectRatio),
                Pass(Display(cfg.shading, cfg.bloom, cfg.sunrays), DisplayInputs(dye.read, bloom, dithering, sunrays, cfg), Screen, Over)];
    PostProperties(dye, bloom, levels, sunrays, sunraysTemp, cfg);
    AllHazardFreeAppend(post, fin);
    InPhaseAppend(post, fin, 3);
    var ps := post + fin;
    forall k | 0 <= k < |ps|
      ensures ps[k].target != ToFbo(dye.read)
    {
      if k < |post| {
        assert ps[k] == post[k];
      } else {
        assert ps[k] == fin[k - |post|];
      }
    }
  }
}
