/** The GG Tau preset: a circumbinary ring plus three tilted circumstellar
    disks around the stars Aa, Ab1 and Ab2. The density is the sum of the
    four terms; the circumbinary term is tapered by a Gaussian roll-off only
    inside a cylindrical radius of 190 au. The disk profiles themselves are
    the collaborator's and stay uninterpreted. */
module GGTauPreset {
  import opened Common

  /** The attributes the constructor sets and the evaluator reads. */
  datatype GGTauDisk = GGTauDisk(
    beta: real,
    alpha: real,
    cutOff: real,
    angleAa: real,
    angleAb12: real,
    aAab: real,
    aAb12: real,
    innerRadius: real,
    outerRadiusAa: real,
    outerRadiusAb1: real,
    outerRadiusAb2: real,
    factor: real,
    factorAa: real,
    factorAb: real)

  /** The constructor's values. */
  function NewGGTauDisk(m: MathLib): (g: GGTauDisk)
    ensures 0.0 < m.au ==> 0.0 < g.cutOff
    ensures 0.0 < g.factor && 0.0 < g.factorAa && 0.0 < g.factorAb
    ensures g.alpha == g.beta + 1.7
  {
    var beta := 1.05;
    var surfDensExp := -1.7;
    var angleAa := 3.0 / 2.0 * m.pi;
    GGTauDisk(
      beta, -surfDensExp + beta, 2.0 * m.au,
      angleAa, angleAa + m.pi,
      36.0 / 2.0 * m.au, 4.5 / 2.0 * m.au,
      0.15 * m.au, 7.0 * m.au, 2.0 * m.au, 2.0 * m.au,
      1.082494125545485 * 1.0079425074596415,
      2.494246485180343 * 0.5061500961721862,
      0.25762784158640205 * 0.32974081598463123)
  }

  /** Squared cylindrical radius of a position. */
  function CylRadiusSq(p: Vec3): real {
    p.x * p.x + p.y * p.y
  }

  /** Cylindrical radius of a position (`np.sqrt(x ** 2 + y ** 2)`). */
  function CylRadius(m: MathLib, p: Vec3): real {
    m.sqrt(CylRadiusSq(p))
  }

  /** The Gaussian roll-off applied to the circumbinary term at cylindrical
      radius `radiusCy`. */
  function Taper(m: MathLib, g: GGTauDisk, radiusCy: real): real
    requires g.cutOff != 0.0
  {
    var u := (190.0 * m.au - radiusCy) / g.cutOff;
    m.exp(-0.5 * (u * u))
  }

  /** The circumbinary ring's profile, before tapering. */
  function CircumbinaryRaw(m: MathLib, g: GGTauDisk, position: Vec3): real {
    m.defaultDiskDensity(position,
      DiskArgs(180.0 * m.au, 260.0 * m.au, Some(32.0 * m.au), Some(180.0 * m.au),
               Some(g.alpha), Some(g.beta), None, None))
  }

  /** The circumbinary term, tapered inside 190 au. */
  function Circumbinary(m: MathLib, g: GGTauDisk, position: Vec3): real
    requires g.cutOff != 0.0
  {
    var radiusCy := CylRadius(m, position);
    var diskDensity := CircumbinaryRaw(m, g, position);
    if radiusCy < 190.0 * m.au then diskDensity * Taper(m, g, radiusCy) else diskDensity
  }

  /** A circumstellar disk: the position, reduced to its cylindrical radius
      about the star and its height, is tilted about the y axis by `angle`
      and fed to the disk profile; `factor` scales the result. */
  function StarDisk(m: MathLib, g: GGTauDisk, radiusCyDisk: real, z: real, angle: real,
                    outerRadius: real, factor: real): real
  {
    var pos := m.rotateCoordSystem(Vec3(radiusCyDisk, 0.0, z), Vec3(0.0, 1.0, 0.0), angle);
    factor * m.defaultDiskDensity(pos,
      DiskArgs(g.innerRadius, outerRadius, Some(20.0 * m.au), None, None, None, None, None))
  }

  /** The three circumstellar terms Aa, Ab1 and Ab2, added. */
  function Circumstellar(m: MathLib, g: GGTauDisk, p: Vec3): real {
    var dyAa := p.y - g.aAab * m.sin(g.angleAa);
    var dyAb := p.y - g.aAab * m.sin(g.angleAb12);
    var radiusAa := m.sqrt(p.x * p.x + dyAa * dyAa);
    var radiusAb1 := m.sqrt((p.x + g.aAb12) * (p.x + g.aAb12) + dyAb * dyAb);
    var radiusAb2 := m.sqrt((p.x - g.aAb12) * (p.x - g.aAb12) + dyAb * dyAb);
    var tilt := 20.0 / 180.0 * m.pi;
    StarDisk(m, g, radiusAa, p.z, tilt, g.outerRadiusAa, g.factorAa)
    + StarDisk(m, g, radiusAb1, p.z, tilt, g.outerRadiusAb1, g.factorAb)
    + StarDisk(m, g, radiusAb2, p.z, -tilt, g.outerRadiusAb2, g.factorAb)
  }

  /** `gas_density_distribution()`. */
  function GasDensityDistribution(m: MathLib, position: Vec3): (d: real)
    requires 0.0 < m.au
  {
    var g := NewGGTauDisk(m);
    g.factor * Circumbinary(m, g, position) + Circumstellar(m, g, position)
  }

  /** The taper test `radius_cy < 190 au` needs no square root. */
  lemma TaperTestBySquares(m: MathLib, position: Vec3)
    requires Valid(m)
    ensures CylRadius(m, position) < 190.0 * m.au <==>
      CylRadiusSq(position) < (190.0 * m.au) * (190.0 * m.au)
  {
    SqrtLess(m, CylRadiusSq(position), 190.0 * m.au);
  }

  /** The density is the scaled circumbinary term plus the three
      circumstellar terms, and the taper touches the circumbinary term only
      inside 190 au. */
  lemma TaperOnlyInside(m: MathLib, position: Vec3)
    requires Valid(m)
    ensures var g := NewGGTauDisk(m);
      var raw := CircumbinaryRaw(m, g, position);
      var rest := Circumstellar(m, g, position);
      && (CylRadiusSq(position) >= (190.0 * m.au) * (190.0 * m.au) ==>
            GasDensityDistribution(m, position) == g.factor * raw + rest)
      && (CylRadiusSq(position) < (190.0 * m.au) * (190.0 * m.au) ==>
            GasDensityDistribution(m, position) ==
              g.factor * (raw * Taper(m, g, CylRadius(m, position))) + rest)
  {
    TaperTestBySquares(m, position);
  }

  /** The roll-off lies in (0, 1] and is exactly 1 at 190 au, so the tapered
      term meets the untapered one at the boundary. */
  lemma TaperBounds(m: MathLib, radiusCy: real)
    requires Valid(m)
    ensures var g := NewGGTauDisk(m);
      && 0.0 < Taper(m, g, radiusCy) <= 1.0
      && Taper(m, g, 190.0 * m.au) == 1.0
  {
    var g := NewGGTauDisk(m);
    var u := (190.0 * m.au - radiusCy) / g.cutOff;
    assert -0.5 * (u * u) <= 0.0;
  }

  /** Tapering never raises the circumbinary term above its profile, nor
      makes a non-negative profile negative. */
  lemma CircumbinaryBelowProfile(m: MathLib, position: Vec3)
    requires Valid(m)
    requires 0.0 <= CircumbinaryRaw(m, NewGGTauDisk(m), position)
    ensures var g := NewGGTauDisk(m);
      0.0 <= Circumbinary(m, g, position) <= CircumbinaryRaw(m, g, position)
  {
    var g := NewGGTauDisk(m);
    var radiusCy := CylRadius(m, position);
    var raw := CircumbinaryRaw(m, g, position);
    if radiusCy < 190.0 * m.au {
      var t := Taper(m, g, radiusCy);
      TaperBounds(m, radiusCy);
      assert 0.0 <= raw * t <= raw by {
        assert raw * t <= raw * 1.0 by { assert raw * (1.0 - t) >= 0.0; }
      }
    }
  }

  /** Where the disk profile is never negative, neither is the density. */
  lemma DensityNonNegative(m: MathLib, position: Vec3)
    requires Valid(m)
    requires forall p, args :: 0.0 <= m.defaultDiskDensity(p, args)
    ensures 0.0 <= GasDensityDistribution(m, position)
  {
    CircumbinaryBelowProfile(m, position);
  }
}
