/** The multi-composition disk preset: one Shakura-Sunyaev disk shared by a
    silicate and a PAH composition, normalised to different masses. */
module MultiDiskPreset {
  import opened Common

  /** The parameters the evaluator reads. */
  datatype MultiDisk = MultiDisk(innerRadius: real, outerRadius: real, gasMass: Table)

  /** The parameters the constructor sets. */
  function NewMultiDisk(m: MathLib): (c: MultiDisk)
    ensures HasShape(c.gasMass, 2, 1)
    ensures c.gasMass[1][0] == 1e-3 * c.gasMass[0][0]
  {
    MultiDisk(1.0 * m.au, 300.0 * m.au, [[1e-2 * m.mSun], [(1e-2 * 1e-3) * m.mSun]])
  }

  /** `gas_density_distribution()`: both compositions follow the same disk. */
  function GasDensityDistribution(m: MathLib, c: MultiDisk, position: Vec3): (t: Table)
    ensures HasShape(t, 2, 1)
    ensures t[0] == t[1]
  {
    var gasDensity := m.defaultDiskDensity(position,
      DiskArgs(c.innerRadius, c.outerRadius, None, None, None, None, None, None));
    [[gasDensity], [gasDensity]]
  }

  /** The density table has the dimension and size of the constructor's
      `gas_mass` table at every position. */
  lemma ShapeContract(m: MathLib, position: Vec3)
    ensures SameShape(GasDensityDistribution(m, NewMultiDisk(m), position), NewMultiDisk(m).gasMass)
  {
  }
}
