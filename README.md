# WebGL fluid simulation driver, modelled in Dafny

This project models the CPU-side driver of the WebGL fluid simulation in
`scripts/script.js`. The driver owns the simulation's framebuffers and
double buffers, its pointers and its splat queue. Once per animation frame
it works out the time step, adopts a resized canvas, updates the pointer
colors and splats the queued and pointer inputs. It then runs the solver
step (curl, vorticity, divergence, the pressure clear, the Jacobi
iterations, gradient subtraction and advection) unless PAUSED, and renders
with optional bloom and sunrays.

The GPU is not simulated. Each framebuffer is an opaque handle with a size
and texture parameters. Each shader pass is a `Kernel` tag with the scalar
uniforms that distinguish it. The context records every blit as a `Pass`
(kernel, sampled textures, target, blend state) in a trace. The contracts
state which passes a frame issues, in which order, into which slots of
which double buffer, and under which blend state. On top of that the
lemmas prove:

- the phases of a frame come in order: resize copies, then splats, then solver, then render;
- no pass samples the texture it renders into;
- exactly one clear pass and PRESSURE_ITERATIONS Jacobi passes run per unpaused frame, and none run when paused;
- every pass reads what the previous pass of its chain wrote;
- the frame ends with the display pass onto the screen.

The pure parts are modelled on values:

- texture-format negotiation;
- the resolutions and the bloom mip chain;
- the 32-bit string hash and the keyword cache key of the display material;
- `#define` injection;
- the JavaScript number operations the driver relies on.

The stateful parts are classes whose methods update fields in place: the
simulation, the double buffers, the pointers, the display material and the
GL context.

Modules, one per file:

- `JsMath` (js_math.dfy): ToInt32, the shifts, `Math.round/abs/min/max`, the truncating `%`.
- `Helpers` (helpers.dfy): clamp01, wrap, and the row flip and byte conversion of a captured image.
- `Gpu` (gpu.dfy): framebuffers, kernels, passes and the context trace.
- `Framebuffers` (framebuffers.dfy): the double buffer.
- `Formats` (formats.dfy): getSupportedFormat and the context's format negotiation.
- `Resolution` (resolution.dfy): getResolution and the bloom levels.
- `Settings` (settings.dfy): config and its startup adjustments.
- `Input` (input.dfy): pointers and their event updates.
- `Shaders` (shaders.dfy): hashCode, addKeywords, compileShader and the Material program cache.
- `Passes` (passes.dfy): the pass sequences of step, splat, bloom, sunrays, blur and render, with their lemmas.
- `Driver` (driver.dfy): the simulation state and the frame loop.
- `Wrappers` (wrappers.dfy): Option.

## Model

| member | source | states |
|---|---|---|
| JsMath.ToInt32 | scripts/script.js:2038 | `hash \|= 0`: the result is a signed 32-bit integer congruent to its input modulo 2^32, and 32-bit inputs are unchanged |
| JsMath.ToInt32Congruent | scripts/script.js:2037-2038 | two integers congruent modulo 2^32 convert to the same 32-bit value |
| JsMath.ShiftRight | scripts/script.js:1313-1314 | `x >> k` is a 32-bit value; for a non-negative 32-bit x it is x divided by 2^(k mod 32), between 0 and x |
| JsMath.ShiftLeft | scripts/script.js:2037 | `x << k` on a 32-bit x is a 32-bit value congruent to x * 2^(k mod 32) |
| JsMath.Round | scripts/script.js:2013-2014 | Math.round lies within one half of its argument, and halves round up |
| JsMath.Abs | scripts/script.js:1941 | Math.abs is non-negative, equals x or -x, and is positive exactly when x is non-zero |
| JsMath.Min | scripts/script.js:1487 | Math.min is one of its arguments and at most both |
| JsMath.Max | scripts/script.js:293 | Math.max is one of its arguments and at least both |
| JsMath.Rem | scripts/script.js:2004 | the `%` operator truncates: the remainder has the dividend's sign and is smaller than the divisor in magnitude |
| Helpers.Clamp01 | scripts/script.js:292-294 | clamp01 lies in [0, 1]: inputs inside are kept, inputs below give 0, inputs above give 1 |
| Helpers.Wrap | scripts/script.js:2001-2005 | wrap returns min on an empty range; a value at or above min lands in [min, max); a value in range is kept; a value below min stays below min |
| Helpers.RemOfSmall | scripts/script.js:2004 | the remainder of a non-negative value below the divisor is the value itself |
| Helpers.WrapBelowRange | scripts/script.js:2001-2005 | wrap(-0.5, 0, 1) is -0.5: a value below the range is not brought into it |
| Helpers.ToByte | scripts/script.js:266-269 | a captured channel stored in the Uint8Array lies in 0..255: 0 at or below 0, 255 at or above 1 |
| Helpers.FlipIndex | scripts/script.js:262-272 | normalizeTexture's destination index stays inside the image, keeps the offset within the row and flips the row number |
| Helpers.FlipInvolution | scripts/script.js:262-272 | flipping the rows twice gives back the original index, so the copy is a bijection of the image |
| Framebuffers.Slots.Swapped | scripts/script.js:1388-1392 | swap exchanges the read and write slots |
| Framebuffers.Slots.SwappedN | scripts/script.js:1388-1392 | an even number of swaps restores the slots; an odd number is one swap |
| Framebuffers.SwapInvolution | scripts/script.js:1388-1392 | swapping twice restores the slots |
| Framebuffers.SwappedNAdd | scripts/script.js:1388-1392 | n swaps followed by m swaps are n + m swaps |
| Framebuffers.LayoutSwappedN | scripts/script.js:1368-1395 | swapping keeps the double buffer's size and the format of its read slot |
| Framebuffers.DoubleFbo.constructor | scripts/script.js:1368-1395 | createDoubleFBO: two fresh, distinct framebuffers of size w x h, with the texel size 1/w, 1/h |
| Framebuffers.DoubleFbo.Swap | scripts/script.js:1388-1392 | the slots are exchanged and the size fields are untouched |
| Framebuffers.DoubleFbo.Resize | scripts/script.js:1405-1415 | at the same size nothing changes and no pass runs; otherwise a fresh read slot filled by one copy of the old read slot, a fresh write slot, and the new size and texel size |
| Gpu.Fbo.constructor | scripts/script.js:1334-1366 | createFBO: a fresh w x h framebuffer with the given parameters and texel size 1/w, 1/h |
| Gpu.ImageTexture.constructor | scripts/script.js:1417-1431 | createTextureAsync starts as a 1x1 texture |
| Gpu.Gl.SetBlend | scripts/script.js:1686-1692 | gl.enable/disable(BLEND) changes the blend state and issues no pass |
| Gpu.Gl.Blit | scripts/script.js:1212-1230 | blit appends exactly one pass, with the current blend state, and keeps the blend state |
| Formats.GetSupportedFormat | scripts/script.js:145-164 | the result is the requested pair exactly when that pair is renderable; any result is renderable and no earlier in the R16F -> RG16F -> RGBA16F chain; null means the requested pair is not renderable |
| Formats.ProbeCount | scripts/script.js:145-164 | getSupportedFormat probes the backend at most three times, and never more than the chain has candidates |
| Formats.Candidates | scripts/script.js:145-164 | the fallback chain of a format starts with the format itself and has one entry per remaining fallback |
| Formats.SupportedIsFirstRenderable | scripts/script.js:145-164 | the recursion returns the first renderable candidate of the fallback chain, or null when none is renderable |
| Formats.NegotiateFormats | scripts/script.js:95-143 | WebGL 2 probes R16F, RG16F and RGBA16F with HALF_FLOAT; WebGL 1 uses unsized RGBA for all three with HALF_FLOAT_OES; linear filtering is passed through |
| Settings.StartupConfig | scripts/script.js:83-91 | mobile or no linear filtering sets DYE_RESOLUTION to 512; no linear filtering also turns off SHADING, BLOOM and SUNRAYS; no other field changes; validity is kept |
| Settings.DefaultConfigValid | scripts/script.js:32-62 | the initial config has positive resolutions and a non-negative bloom threshold and knee |
| Resolution.GetResolution | scripts/script.js:2007-2019 | the short side gets round(resolution) and the long side round(resolution * aspect); a landscape buffer is wider than tall; a square buffer gets resolution on both sides |
| Resolution.LevelsFrom | scripts/script.js:1310-1320 | the bloom levels from i on: each is the base shifted right by one more bit; all fit; the loop stops at the first level below 2x2 or at BLOOM_ITERATIONS |
| Resolution.BloomLevels | scripts/script.js:1301-1321 | initBloomFramebuffers creates at most BLOOM_ITERATIONS levels; level k is the base shifted right by k + 1 and fits; the chain stops only at a non-fitting level or at the cap |
| Resolution.BloomLevelsPrefix | scripts/script.js:1310-1320 | when every level up to k fits and k is below the cap, the chain has more than k levels |
| Resolution.LevelHalves | scripts/script.js:1313-1314 | each level halves the previous one, rounding down |
| Resolution.ShiftCountWraps | scripts/script.js:1313-1314 | `>>` takes its count modulo 32, so a shift by 32 leaves the dimension unchanged |
| Resolution.LevelDimVanishes | scripts/script.js:1313-1314 | a non-negative 32-bit dimension shifted right by 31 is 0 |
| Resolution.BloomLevelsBounded | scripts/script.js:1310-1320 | for 32-bit dimensions there are at most 30 bloom levels, whatever BLOOM_ITERATIONS is |
| Resolution.BloomBaseExample | scripts/script.js:2007-2019 | on a 1920x1080 buffer the default bloom resolution 256 gives a 455x256 base |
| Resolution.BloomChainLevels | scripts/script.js:1313-1314 | the eight right shifts of 455x256, down to 1x1 |
| Resolution.BloomChainExample | scripts/script.js:1301-1321 | a 455x256 base with 8 iterations gives seven levels, from 227x128 down to 3x2 |
| Input.Pointer.constructor | scripts/script.js:64-75 | a new pointer has id -1, zero coordinates and motion, is neither down nor moved, and has color (30, 0, 300) |
| Input.CorrectDeltaX | scripts/script.js:1948-1952 | a landscape or square canvas keeps a horizontal delta; the correction keeps its sign and maps only 0 to 0 |
| Input.CorrectDeltaY | scripts/script.js:1954-1958 | a portrait or square canvas keeps a vertical delta; the correction keeps its sign and maps only 0 to 0 |
| Input.SameSign | scripts/script.js:1948-1958 | scaling by a positive aspect ratio keeps the sign and maps only 0 to 0 |
| Input.UpdatePointerDownData | scripts/script.js:1921-1932 | the pointer takes the id, is down and not moved, sits at the texture coordinate of the position with no motion, and gets the generated color |
| Input.UpdatePointerMoveData | scripts/script.js:1934-1942 | the previous coordinate is the old one, the new one is the texture coordinate, the deltas are aspect-corrected, moved holds exactly when the coordinate changed, and id, down and color are kept |
| Input.UpdatePointerUpData | scripts/script.js:1944-1946 | only down is cleared |
| Shaders.StringHash | scripts/script.js:2033-2041 | the hash of a string is a signed 32-bit integer |
| Shaders.HashStep | scripts/script.js:2036-2039 | one loop iteration turns the hash of a prefix into the hash of the prefix plus one code unit |
| Shaders.HashCode | scripts/script.js:2033-2041 | hashCode is 0 for the empty string and otherwise the base-31 polynomial hash of the code units reduced to a signed 32-bit integer |
| Shaders.DisplayHashes | scripts/script.js:1449-1455 | the hashes of SHADING, BLOOM and SUNRAYS |
| Shaders.HashSumSnoc | scripts/script.js:332-334 | one more keyword adds its hash to the sum |
| Shaders.HashSumConcat | scripts/script.js:332-334 | the sum over a concatenation is the sum of the sums |
| Shaders.HashSumPermutation | scripts/script.js:332-334 | the hash sum does not depend on the order of the keywords |
| Shaders.KeywordsKeyPermutation | scripts/script.js:332-336 | any permutation of a keyword list hits the same cache entry |
| Shaders.KeywordsHash | scripts/script.js:332-334 | setKeywords' loop computes the plain sum of hashCode over the keywords, 0 for none |
| Shaders.KeyCollision | scripts/script.js:332-336 | ["Aa"] and ["BB"] are different lists with the same cache key |
| Shaders.DisplayKeywords | scripts/script.js:1449-1455 | each display keyword is in the list exactly when its flag is on, and the list holds nothing else |
| Shaders.DisplayVariantKeys | scripts/script.js:1449-1455 | the cache keys of the eight display variants |
| Shaders.DisplayKeysDistinct | scripts/script.js:1449-1455 | different flag settings give different cache keys, so each display variant gets its own program |
| Shaders.AddKeywords | scripts/script.js:402-409 | a null keyword list leaves the source as it is; otherwise the result is the source preceded by the define lines of the keywords |
| Shaders.DefinesSnoc | scripts/script.js:404-406 | one more keyword appends its define line |
| Shaders.DefinesConcat | scripts/script.js:404-406 | the define lines of a concatenation are the lines of the parts |
| Shaders.DefineLineAt | scripts/script.js:402-409 | keyword i's `#define` line sits right after the lines of the keywords before it |
| Shaders.AddNoKeywords | scripts/script.js:402-409 | an empty keyword list leaves the source unchanged, like a null list |
| Shaders.Shader.constructor | scripts/script.js:392-394 | a shader records its kind and source |
| Shaders.CompileShader | scripts/script.js:389-400 | the shader is compiled from the source with the keyword defines prepended |
| Shaders.Program.constructor | scripts/script.js:367-377 | a linked program records its two shaders, its keywords and its uniform table |
| Shaders.CacheInsert | scripts/script.js:336-342 | caching a program under its own key keeps the cache valid |
| Shaders.Material.constructor | scripts/script.js:323-329 | a new material has an empty program cache, no active program and no uniforms |
| Shaders.Material.SetKeywords | scripts/script.js:331-348 | a program is compiled and linked only on a cache miss; the cached program under the key becomes active; the uniforms are re-read only when the active program changes |
| Shaders.Material.Compile | scripts/script.js:339-341 | the fragment source specialised to the keywords, linked with the vertex shader |
| Shaders.Material.Cached | scripts/script.js:336-342 | the program under the hash; the cache is unchanged on a hit and extended by exactly that key on a miss |
| Shaders.Material.Activate | scripts/script.js:344-347 | the program becomes active; the uniforms are kept when it already was active |
| Passes.AvoidsAppend | scripts/script.js:1478-1480 | two blocks without solver passes make a block without them |
| Passes.OrderedAppend | scripts/script.js:1468-1482 | appending a block of one phase to passes of no later phase keeps the phases ordered |
| Passes.NoSolverPasses | scripts/script.js:1478-1480 | outside the solver phase there is no clear and no Jacobi pass |
| Passes.JacobiPasses | scripts/script.js:1642-1646 | the Jacobi block of n iterations has n passes |
| Passes.JacobiPassAt | scripts/script.js:1642-1646 | Jacobi pass k runs on the pressure slots after k swaps |
| Passes.JacobiKinds | scripts/script.js:1642-1646 | all n passes of the block are Jacobi passes |
| Passes.JacobiNoClear | scripts/script.js:1642-1646 | the block holds no clear pass |
| Passes.JacobiWritesOwn | scripts/script.js:1642-1646 | every Jacobi pass renders into a pressure slot |
| Passes.JacobiWritesOther | scripts/script.js:1642-1646 | no Jacobi pass renders into another double buffer |
| Passes.JacobiHazardFree | scripts/script.js:1642-1646 | no Jacobi pass samples its own target, and all belong to the solver phase |
| Passes.JacobiCount | scripts/script.js:1642 | the loop runs PRESSURE_ITERATIONS times, or not at all when that is negative |
| Passes.StepPassAt | scripts/script.js:1611-1674 | the kernel, inputs and target of each pass of step |
| Passes.StepCounts | scripts/script.js:1611-1674 | step issues 7 + N passes, exactly one clear and N Jacobi passes, all in the solver phase |
| Passes.StepDataFlow | scripts/script.js:1611-1674 | divergence reads the vorticity output; the first Jacobi pass reads the clear's output; each Jacobi pass reads the previous iterate and the divergence; gradient subtraction reads the last iterate; the advections read the corrected velocity |
| Passes.StepResults | scripts/script.js:1611-1674 | after step's swaps, the read slots hold the advected velocity, the last pressure iterate and the advected dye |
| Passes.StepHazardFree | scripts/script.js:1611-1674 | no pass of step samples its own target |
| Passes.StepWrites | scripts/script.js:1611-1674 | step renders three times into velocity, once into dye and N + 1 times into pressure, one per swap |
| Passes.WritesToSwapped | scripts/script.js:1388-1392 | writing into a double buffer does not depend on which slot is called read |
| Passes.CorrectRadius | scripts/script.js:1852-1857 | correctRadius keeps the radius unless the canvas is landscape, and then only enlarges a non-negative radius |
| Passes.SplatsPasses | scripts/script.js:1836-1850 | n splats issue 2n passes |
| Passes.SplatsPassAt | scripts/script.js:1836-1850 | splat k renders into velocity's, then dye's, write slot after k swaps |
| Passes.SplatsProperties | scripts/script.js:1836-1850 | splats are splat-phase passes under the given blend state, hazard free, and each pass samples what the same buffer's previous splat wrote |
| Passes.SplatsWrites | scripts/script.js:1836-1850 | each splat renders once into velocity and once into dye |
| Passes.SplatsAppend | scripts/script.js:1599-1609 | splatting a and then b is splatting a + b, the slots carrying over |
| Passes.SplatsThen | scripts/script.js:1599-1609 | two rounds of splats appended to a trace are the splats of both, in the splat phase and hazard free |
| Passes.SwapsAppend | scripts/script.js:1599-1609 | the slots after the splats a and then b are those after a + b |
| Passes.SplatsSnoc | scripts/script.js:1821-1834 | one more splat appends its two passes, on the slots left by the splats before it |
| Passes.RandomSplat | scripts/script.js:1823-1832 | the position is the drawn one; the force on each axis is 1000 * (draw - 0.5), so in [-500, 500) for a draw in [0, 1); the color is ten times the generated color with COLORFUL and white without |
| Passes.RandomSplats | scripts/script.js:1821-1834 | multipleSplats(amount) makes amount splats |
| Passes.PointerSplat | scripts/script.js:1815-1819 | splatPointer splats at the pointer's coordinate with its color, and no motion gives no force |
| Passes.PointerSplats | scripts/script.js:1603-1608 | there is at most one splat per pointer |
| Passes.PointerSplatsNone | scripts/script.js:1603-1608 | the pointers make no splat exactly when none of them moved |
| Passes.PointerSplatsPrefix | scripts/script.js:1603-1608 | the splats of the first i + 1 pointers are those of the first i, then pointer i's if it moved |
| Passes.PrefilterCurve | scripts/script.js:1751-1755 | the soft-knee curve satisfies curve0 + curve1 / 2 = threshold and curve1 * curve2 = 0.5, with curve1 positive |
| Passes.BloomDownPasses | scripts/script.js:1761-1768 | the downsampling loop issues one pass per level |
| Passes.BloomDownAt | scripts/script.js:1761-1768 | down pass k renders into level k from level k - 1 (the bloom target for k = 0) |
| Passes.BloomUpPasses | scripts/script.js:1773-1780 | the upsampling loop issues one pass per level but the last |
| Passes.BloomUpAt | scripts/script.js:1773-1780 | up pass k renders into level n - 2 - k from the level above it |
| Passes.BloomPassAt | scripts/script.js:1744-1788 | the kernel, inputs, target and blend state of each bloom pass |
| Passes.BloomShape | scripts/script.js:1744-1788 | with n >= 2 levels bloom issues 2n + 1 passes in one chain; with fewer it issues none |
| Passes.BloomChained | scripts/script.js:1744-1788 | every bloom pass after the prefilter samples what the pass before it rendered |
| Passes.BloomInPhase | scripts/script.js:1744-1788 | the bloom passes belong to the render phase |
| Passes.BloomAdditiveCount | scripts/script.js:1770-1782 | exactly the n - 1 upsampling passes are additive |
| Passes.BloomDownDisabled | scripts/script.js:1750-1768 | no downsampling pass is additive |
| Passes.BloomUpAdditive | scripts/script.js:1770-1780 | every upsampling pass is additive |
| Passes.BloomHazardFree | scripts/script.js:1744-1788 | with distinct levels apart from the source and target, no bloom pass samples its own target |
| Passes.BlurPasses | scripts/script.js:1802-1813 | blur issues two passes per iteration |
| Passes.BlurProperties | scripts/script.js:1802-1813 | each blur pass reads what the previous one wrote, and with target != temp none samples its own target |
| Passes.NormalizeColor | scripts/script.js:1992-1999 | normalizeColor divides by 255, so a 0..255 channel maps into [0, 1] |
| Passes.PostProperties | scripts/script.js:1676-1684 | the bloom and sunrays passes are hazard free, in the render phase, and never render into the dye's read slot |
| Passes.BloomTargets | scripts/script.js:1678-1679 | no bloom pass renders into the dye's read slot |
| Passes.SunraysTargets | scripts/script.js:1680-1683 | no sunrays or blur pass renders into the dye's read slot |
| Passes.RenderProperties | scripts/script.js:1676-1701 | render is hazard free, in the render phase, never renders into the dye's read slot, and ends with the display pass onto the screen sampling that slot |
| Driver.SwapsKeepLayout | scripts/script.js:1388-1392 | any number of swaps keeps the double buffers' sizes and formats and their separation from each other and from the single framebuffers |
| Driver.States | scripts/script.js:77-79 | the snapshot holds each pointer's fields, in order |
| Driver.DistinctIndices | scripts/script.js:1883-1884 | distinct pointer objects sit at distinct indices |
| Driver.Recolored | scripts/script.js:1505-1511 | each pointer gets its new color, and nothing else changes |
| Driver.Paint | scripts/script.js:1505-1511 | the forEach over the pointers gives pointer i the color colorOf(i) |
| Driver.QueuedAmount | scripts/script.js:1600-1601 | no random splats for an empty stack; otherwise the last queued amount, none if it is negative |
| Driver.Popped | scripts/script.js:1600-1601 | pop removes the last element and leaves an empty stack as it is |
| Driver.ClearMoved | scripts/script.js:1603-1608 | every moved flag is cleared and nothing else changes |
| Driver.ClearedNoneMoved | scripts/script.js:1603-1608 | after applyInputs no pointer has a pending motion |
| Driver.CycleMatches | scripts/script.js:1514-1521 | a timer advanced by dt * COLOR_UPDATE_SPEED, with the pointers recolored when it reached 1, is updateColors under COLORFUL |
| Driver.ColorTimer | scripts/script.js:1514-1518 | the timer is the plain sum while it stays below 1 and the wrapped sum once it reaches 1; it always ends below 1 |
| Driver.CreateSolverFramebuffers | scripts/script.js:1293-1295 | fresh divergence, curl and pressure at the simulation resolution, distinct from each other |
| Driver.CreateBloomFramebuffers | scripts/script.js:1301-1321 | a fresh bloom target at the bloom resolution and one fresh, distinct framebuffer per bloom level |
| Driver.BloomLevelsExact | scripts/script.js:1310-1320 | the loop's exit point is the number of bloom levels |
| Driver.CreateSunraysFramebuffers | scripts/script.js:1323-1332 | two fresh, distinct framebuffers at the sunrays resolution |
| Driver.CreateSingles | scripts/script.js:1293-1298 | the framebuffers initFramebuffers creates afresh (divergence, curl, pressure and its slots, the bloom target and every bloom level, the sunrays pair) are fresh, have their sizes and parameters, and are all apart |
| Driver.SinglesApart | scripts/script.js:1293-1298 | five named framebuffers and a chain, all distinct and apart from the double buffers, are separated |
| Driver.CreateFramebuffers | scripts/script.js:1271-1299 | initFramebuffers before any framebuffer exists: everything is fresh, at the sizes and with the parameters the canvas and config call for |
| Driver.ResizeDoubles | scripts/script.js:1281-1291 | dye, then velocity, are resized with blending off; the copies are those of the resizes, and a double buffer already at its new size keeps its slots |
| Driver.ResizeOne | scripts/script.js:1405-1415 | the double buffer gets the new size; at an unchanged size it keeps its slots and no pass runs; otherwise both slots are new and one copy pass runs |
| Driver.PressureSolve | scripts/script.js:1642-1646 | n Jacobi passes, each into the current write slot, and n swaps |
| Driver.StepInto | scripts/script.js:1611-1674 | step appends exactly StepPasses with blending off; velocity is swapped 3 times, pressure N + 1 times, dye once |
| Driver.StepHeadInto | scripts/script.js:1612-1637 | curl, vorticity, divergence and the clear, with one swap of velocity and one of pressure |
| Driver.StepTailInto | scripts/script.js:1648-1673 | gradient subtraction and the two advections, with two more swaps of velocity and one of dye |
| Driver.SplatInto | scripts/script.js:1836-1850 | a velocity splat and then a dye splat, each followed by a swap, under the current blend state |
| Driver.SplatNext | scripts/script.js:1822-1833 | one more loop iteration extends the trace and the swaps by one splat |
| Driver.SwapAfter | scripts/script.js:1388-1392 | one more swap after n swaps is n + 1 swaps |
| Driver.RandomSplatsInto | scripts/script.js:1821-1834 | multipleSplats(amount) appends the passes of amount random splats and swaps velocity and dye amount times |
| Driver.PointerSplatsInto | scripts/script.js:1603-1608 | every moved pointer has its flag cleared and is splatted, in pointer order; nothing else changes |
| Driver.PointerNext | scripts/script.js:1604-1607 | one iteration: pointer i's flag is cleared and, if it moved, it is splatted |
| Driver.ApplyBloom | scripts/script.js:1744-1788 | applyBloom appends exactly BloomPasses; blending is off afterwards unless it returned early |
| Driver.BloomDown | scripts/script.js:1761-1768 | the downsampling loop appends its passes with blending off |
| Driver.BloomUp | scripts/script.js:1773-1780 | the upsampling loop appends its passes additively and ends on level 0 |
| Driver.ApplySunrays | scripts/script.js:1790-1800 | the mask pass and the rays pass, with blending off |
| Driver.BlurTexture | scripts/script.js:1802-1813 | `iterations` rounds of two passes, none for a negative count, under the current blend state |
| Driver.PostprocessInto | scripts/script.js:1676-1684 | bloom and then sunrays with one blur round, each only when enabled |
| Driver.RenderInto | scripts/script.js:1676-1701 | post-processing, then with blending on the background and the display pass onto the screen |
| Driver.Simulation.SwapsKeepValid | scripts/script.js:1388-1392 | swapping velocity and dye any number of times keeps the simulation state valid |
| Driver.Simulation.HandleFacts | scripts/script.js:1239-1247 | the framebuffer handles the passes need are distinct |
| Driver.Simulation.constructor | scripts/script.js:77-91 | startup: the adjusted config, fresh framebuffers for the canvas, an empty program cache, one initial pointer, an empty splat stack and a zero color timer |
| Driver.Simulation.Start | scripts/script.js:1457-1459 | updateKeywords, then multipleSplats(amount): the trace is exactly the splat passes of the amount random splats (none for a negative amount), 2 * amount of them, hazard free, with velocity and dye each swapped once per splat |
| Driver.Simulation.InitialSplats | scripts/script.js:1459 | the initial random splats: on an empty trace, exactly the splat passes of the amount random splats, 2 * amount of them, with velocity and dye each swapped once per splat |
| Driver.Simulation.UpdateKeywords | scripts/script.js:1449-1455 | the display material switches to the variant for the enabled flags, compiling it only on a cache miss |
| Driver.Simulation.CalcDeltaTime | scripts/script.js:1484-1490 | dt is the seconds since the last frame capped at 0.016666; the clock reading becomes the last update time |
| Driver.Simulation.ResizeCanvas | scripts/script.js:1492-1501 | the canvas adopts the new size; the result says whether the size differs, and only then do the framebuffers need rebuilding |
| Driver.Simulation.InitFramebuffers | scripts/script.js:1271-1299 | with blending off, dye and velocity are resized (copied when their size changes, keeping their slots when it does not) and the other framebuffers, pressure's slots and every bloom level included, are fresh at their resolutions |
| Driver.Simulation.ResizeBuffers | scripts/script.js:1281-1291 | dye and velocity have the sizes the canvas calls for; copies exactly when the size changed; a buffer whose size is unchanged keeps its slots |
| Driver.Simulation.Install | scripts/script.js:1293-1298 | the new framebuffers take their places and the state is ready |
| Driver.Simulation.InstallSolver | scripts/script.js:1293-1295 | divergence, curl and pressure are replaced and nothing else is |
| Driver.Simulation.InstallPostprocess | scripts/script.js:1297-1298 | bloom, its levels and the sunrays pair are replaced and nothing else is |
| Driver.Simulation.InstalledReady | scripts/script.js:1293-1298 | the state is ready once the new framebuffers are in place |
| Driver.Simulation.Splat | scripts/script.js:1836-1850 | splat uses the canvas's aspect ratio and the corrected radius; velocity and dye are each swapped once |
| Driver.Simulation.MultipleSplats | scripts/script.js:1821-1834 | amount random splats, none for a negative amount, taken in order from the draws |
| Driver.Simulation.ApplyInputs | scripts/script.js:1599-1609 | the last queued amount is popped and splatted, then every moved pointer is splatted with its flag cleared; the passes are exactly those splats and nothing else changes |
| Driver.Simulation.SplatQueued | scripts/script.js:1600-1601 | the queued amount is popped and that many random splats are made |
| Driver.Simulation.SplatPointers | scripts/script.js:1603-1608 | every moved pointer is splatted and its flag cleared |
| Driver.Simulation.PopSplatStack | scripts/script.js:1600-1601 | the last queued amount leaves the stack |
| Driver.Simulation.PaintPointers | scripts/script.js:1505-1520 | pointer i gets colorOf(i) and nothing else changes |
| Driver.Simulation.TickColorTimer | scripts/script.js:1514-1517 | the timer advances by step and wraps; recolor holds exactly when the advanced timer reached 1 |
| Driver.Simulation.UpdateColors | scripts/script.js:1503-1522 | without COLORFUL every pointer turns white and the timer stands still; with it the timer advances by dt * COLOR_UPDATE_SPEED, and the pointers are recolored exactly when it reached 1 |
| Driver.Simulation.CycleColors | scripts/script.js:1514-1521 | the COLORFUL branch of updateColors |
| Driver.Simulation.Step | scripts/script.js:1611-1674 | step appends its passes; velocity, pressure and dye are swapped 3, N + 1 and 1 times; one clear and N Jacobi passes, hazard free, in the solver phase |
| Driver.Simulation.Render | scripts/script.js:1676-1701 | render(null) appends exactly RenderPasses and leaves the fields alone; it is hazard free and ends with the display pass onto the screen |
| Driver.Simulation.ResizeFrame | scripts/script.js:1470-1471 | the canvas size is adopted; without a change no pass runs and the slots and all other framebuffers stay as they were; with one the framebuffers are rebuilt with their copies, pressure gets new slots, and dye or velocity keeps its slots when its resolution is unchanged |
| Driver.Simulation.BeginFrame | scripts/script.js:1469-1476 | the capped dt, the resize with its copies (dye or velocity keeping its slots at an unchanged resolution, pressure new; every framebuffer kept without a resize), and the color update with the timer and the pointer colors |
| Driver.Simulation.Advance | scripts/script.js:1477-1479 | the inputs' splats, then the step unless PAUSED, on the slots the splats leave; the stack is popped, the moved flags cleared, and no framebuffer is replaced |
| Driver.Simulation.StepUnlessPaused | scripts/script.js:1478-1479 | while PAUSED nothing happens; otherwise exactly one step |
| Driver.Simulation.FinishFrame | scripts/script.js:1477-1480 | Advance followed by render(null); no framebuffer is replaced |
| Driver.Simulation.Update | scripts/script.js:1468-1482 | one frame: its passes are the resize copies, the splats of the popped amount and the moved pointers, the step unless PAUSED, and the render, with the slots, timer, colors and stack each frame leaves (after a resize, dye and velocity keep their slots where their resolution is unchanged and pressure is new; without one, every framebuffer stays as it was); the phases come in order, no pass samples its own target, and the frame ends on the screen |
| Driver.Simulation.TogglePause | scripts/script.js:1915-1916 | the P key flips PAUSED and nothing else |
| Driver.Simulation.QueueSplats | scripts/script.js:1917-1918 | the space key pushes an amount between 5 and 24 onto the splat stack |
| Driver.FrameProperties | scripts/script.js:1468-1482 | a frame made of copies, splats, step and render has ordered phases and no hazards, has solver passes only when the step ran, and ends with the display pass onto the screen |

## Left out

- Update, Config: the `COLLECT_DATA` branch of update (collectData, with the automatic splats, the screen captures and the capture helpers) is not modelled, and neither are the capture fields of config (CAPTURE_RESOLUTION, COLLECT_DATA, AUTO_SCREEN_CAP_TIME, AUTO_SPLAT_TIME, DATA_TITLE). collectData can set PAUSED. With COLLECT_DATA on, Update's `config == old(config)` and its frame contents would not describe the source.
- captureScreenshot, framebufferToTexture, textureToCanvas, downloadURI, normalizeTexture1000: these are capture and download through the DOM. Only normalizeTexture's index map and byte conversion are modelled (Helpers.FlipIndex, Helpers.ToByte), not its loop.
- Resolution.GetResolution, Driver.Simulation.ResizeFrame, Driver.Simulation.BeginFrame, Driver.Simulation.Update, Driver.Simulation.ResizeCanvas: these require a canvas and drawing buffer at least 1x1. A zero-sized buffer makes the source divide by zero (Infinity or NaN sizes), which is not modelled.
- Driver.Simulation.constructor, Driver.Consistent, Driver.ExpectedShape, Driver.CreateFramebuffers: these require all three negotiated formats to be present. In the source a null format from getSupportedFormat makes initFramebuffers throw a TypeError on the first use of it. The throw is not modelled, though Formats.GetSupportedFormat does model the null result.
- Formats.NegotiateFormats: takes the context as given by `isWebGL2`, a `renderable` predicate and the linear-filtering flag. Getting the context is not modelled: when neither a WebGL 2 nor a WebGL 1 context is available, getWebGLContext throws on its first use of `gl` (scripts/script.js:98-109). Under WebGL 1 without the OES_texture_half_float extension, `halfFloat.HALF_FLOAT_OES` throws as well (scripts/script.js:109, 115). The model always yields HALF_FLOAT_OES there.
- Passes.PrefilterCurve, Driver.ApplyBloom, Driver.PostprocessInto, Driver.RenderInto: these require a non-negative BLOOM_THRESHOLD and BLOOM_SOFT_KNEE, so that the knee is positive and 0.25 / knee is defined. Settings.ConfigValid keeps them so, together with positive resolutions. The source's GUI cannot change any of these, but nothing in the source checks them.
- JavaScript numbers are modelled as mathematical reals and integers: dt, coordinates, deltas, the color timer, wrap, radii and colors. Floating-point rounding, NaN and Infinity are not modelled. The integer operations that depend on 32-bit semantics are written out explicitly (ToInt32, the shifts).
- The clock, `Math.random` and the DOM are parameters, not calls:
  - `Date.now()` is `now`;
  - the canvas's client size after scaleByPixelRatio is `width`/`height`;
  - the random draws of multipleSplats are `draw`;
  - generateColor/HSVtoRGB are the `palette` function;
  - the random value of the space key is `random`;
  - the backend's render-target probe is `renderable`;
  - the uniform introspection of a linked program is `introspect`.
- scaleByPixelRatio, generateColor, HSVtoRGB, getTextureScale, isMobile: these depend on the device or on `Math.random`, so they are inputs (see above).
- Driver.Simulation.QueueSplats: computes `parseInt(random * 20)` as the floor of the product. parseInt goes through the number's string form, so a product below 1e-6 (printed in exponent notation, such as 2e-7) would parse to its leading digit. That case is not modelled.
- The GLSL shaders are `Kernel` tags carrying their scalar uniforms: dt, dissipation, curl, splat point, color and radius, bloom curve and intensity, sunrays weight. What the shaders compute on the GPU is not modelled.
- Kernels carry no texel sizes. The source passes a particular buffer's texel size to each pass, for example the advection's dyeTexelSize (velocity's on the velocity pass, dye's on the dye pass), the bloom blur's and the blur's. The `texelSizeX/Y` fields of Fbo and DoubleFbo are kept up to date but no pass reads them. The display pass's texelSize and ditherScale are not modelled either.
- createTextureAsync's image load: the dithering texture stays 1x1 (Gpu.ImageTexture). The asynchronous onload that resizes it is not modelled.
- `requestAnimationFrame`: Update is one frame. The browser's scheduling of frames is not modelled.
- The event listeners (mousedown, mousemove, mouseup, touchstart, touchmove, touchend):
  - the per-pointer updates they call are modelled (Input.UpdatePointer*Data);
  - the dispatch to a pointer by id or by index is not;
  - neither is the growth of the pointers array on touchstart.
- startGUI (dat.GUI): its effects are changes to config fields, and modelling them would mean the setters and onFinishChange callbacks. Only the keyboard's PAUSED toggle and splat queue are modelled (TogglePause, QueueSplats).
- createProgram and getUniforms: linking is a constructor with a given uniform table, and link or compile errors (console.trace) are not modelled.
- The module-level startup order is the constructor followed by Start. The top-level `resizeCanvas()` before the config exists is folded into the constructor's `width`/`height`. The stand-alone Program objects built at startup are not modelled.
- drawImage: it is never called.
- render with a target other than the screen and a `vecs` other than dye.read: only the capture path uses these, and it is left out above.
- Concurrency between event handlers and frames is not modelled: each handler is a method that runs to completion.
