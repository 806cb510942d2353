// The simulation's tunable parameters, their defaults, and the adjustments
// made at startup for mobile devices and for missing linear filtering.

module Settings {
  import opened Gpu

  datatype Config = Config(
    simResolution: int,
    dyeResolution: int,
    densityDissipation: real,
    velocityDissipation: real,
    pressure: real,
    pressureIterations: int,
    curl: real,
    splatRadius: real,
    splatForce: real,
    shading: bool,
    colorful: bool,
    colorUpdateSpeed: real,
    paused: bool,
    backColor: Vec3,
    transparent: bool,
    bloom: bool,
    bloomIterations: int,
    bloomResolution: int,
    bloomIntensity: real,
    bloomThreshold: real,
    bloomSoftKnee: real,
    sunrays: bool,
    sunraysResolution: int,
    sunraysWeight: real)

  /** The values the config object starts with. */
  const DEFAULT_CONFIG: Config := Config(
    simResolution := 128,
    dyeResolution := 128,
    densityDissipation := 0.1,
    velocityDissipation := 0.1,
    pressure := 0.0,
    pressureIterations := 10,
    curl := 0.0,
    splatRadius := 0.25,
    splatForce := 6000.0,
    shading := false,
    colorful := false,
    colorUpdateSpeed := 10.0,
    paused := false,
    backColor := Vec3(0.0, 0.0, 255.0),
    transparent := false,
    bloom := false,
    bloomIterations := 8,
    bloomResolution := 256,
    bloomIntensity := 0.2,
    bloomThreshold := 0.8,
    bloomSoftKnee := 0.05,
    sunrays := false,
    sunraysResolution := 196,
    sunraysWeight := 0.05)

  /**
   * What the driver relies on: positive resolutions (every texture is at
   * least 1x1) and a non-negative bloom threshold and knee, so that the
   * prefilter's knee is positive.
   */
  predicate ConfigValid(c: Config) {
    c.simResolution >= 1 && c.dyeResolution >= 1 && c.bloomResolution >= 1 && c.sunraysResolution >= 1
    && c.bloomThreshold >= 0.0 && c.bloomSoftKnee >= 0.0
  }

  /**
   * The startup adjustments: mobile devices and devices without linear
   * filtering of half floats use a 512 dye resolution, and the latter also
   * lose shading, bloom and sunrays. Every other setting is kept.
   */
  function StartupConfig(c: Config, isMobile: bool, supportLinearFiltering: bool): (r: Config)
    ensures (isMobile || !supportLinearFiltering) ==> r.dyeResolution == 512
    ensures !isMobile && supportLinearFiltering ==> r == c
    ensures !supportLinearFiltering ==> !r.shading && !r.bloom && !r.sunrays
    ensures supportLinearFiltering ==> r.shading == c.shading && r.bloom == c.bloom && r.sunrays == c.sunrays
    ensures r.(dyeResolution := c.dyeResolution, shading := c.shading, bloom := c.bloom, sunrays := c.sunrays) == c
    ensures ConfigValid(c) ==> ConfigValid(r)
  {
    var c1 := if isMobile then c.(dyeResolution := 512) else c;
    if !supportLinearFiltering then
      c1.(dyeResolution := 512, shading := false, bloom := false, sunrays := false)
    else
      c1
  }

  lemma DefaultConfigValid()
    ensures ConfigValid(DEFAULT_CONFIG)
  {
  }
}
