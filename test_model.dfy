/** The test grid preset: a sphere whose inner half (by radius) is one dust
    composition and whose outer part is another. One region test drives the
    density table, the dust id and the maximum grain size. */
module TestModelPreset {
  import opened Common

  /** The parameters the evaluators read. `sphericalOuterRadius` is the
      spherical grid's outer radius, supplied by the base class. */
  datatype TestModel = TestModel(
    innerRadius: real,
    outerRadius: real,
    sphericalOuterRadius: real,
    gasMass: Table)

  /** The parameters the constructor sets. */
  function NewTestModel(m: MathLib, sphericalOuterRadius: real): (c: TestModel)
    ensures HasShape(c.gasMass, 2, 1)
  {
    TestModel(0.1 * m.au, 100.0 * m.au, sphericalOuterRadius,
              [[1e-6 * m.mSun], [1e-5 * m.mSun]])
  }

  /** The region test shared by the evaluators: the distance from the
      centre is below half the grid's outer radius. */
  predicate InInnerRegion(m: MathLib, c: TestModel, position: Vec3) {
    Norm(m, position) < 0.5 * c.sphericalOuterRadius
  }

  /** The region test needs no square root: it compares the squared norm
      with the squared half radius, and never holds for a radius that is
      not positive. */
  lemma InInnerRegionBySquares(m: MathLib, c: TestModel, position: Vec3)
    requires Valid(m)
    ensures InInnerRegion(m, c, position) <==>
      0.0 < c.sphericalOuterRadius &&
      NormSq(position) < (0.5 * c.sphericalOuterRadius) * (0.5 * c.sphericalOuterRadius)
  {
    SqrtLess(m, NormSq(position), 0.5 * c.sphericalOuterRadius);
  }

  /** `gas_density_distribution()`: the sphere density goes to the first
      composition inside the region and to the second outside it. */
  function GasDensityDistribution(m: MathLib, c: TestModel, position: Vec3): (t: Table)
    ensures HasShape(t, 2, 1)
    ensures t[0][0] == 0.0 || t[1][0] == 0.0
    ensures t[0][0] + t[1][0] == m.sphereDensity(position, c.innerRadius, c.outerRadius)
  {
    var gasDensity1 := m.sphereDensity(position, c.innerRadius, c.outerRadius);
    if InInnerRegion(m, c, position) then [[gasDensity1], [0.0]] else [[0.0], [gasDensity1]]
  }

  /** `dust_id()`. */
  function DustId(m: MathLib, c: TestModel, position: Vec3): (id: int)
    ensures id == 0 || id == 1
    ensures id == 0 <==> InInnerRegion(m, c, position)
  {
    if InInnerRegion(m, c, position) then 0 else 1
  }

  /** `dust_min_size()`: the same minimum grain size everywhere. */
  function DustMinSize(m: MathLib, c: TestModel, position: Vec3): (a: real)
    ensures 0.0 < a
  {
    5e-9
  }

  /** `dust_max_size()`. */
  function DustMaxSize(m: MathLib, c: TestModel, position: Vec3): (a: real)
    ensures DustMinSize(m, c, position) < a
  {
    if InInnerRegion(m, c, position) then 0.25e-6 else 0.001
  }

  /** The three evaluators agree on the region of every position: the
      populated composition of the density table is the dust id, which picks
      the small grains inside and the large grains outside. */
  lemma RegionConsistency(m: MathLib, c: TestModel, position: Vec3)
    ensures var t := GasDensityDistribution(m, c, position);
      var id := DustId(m, c, position);
      && t[1 - id][0] == 0.0
      && t[id][0] == m.sphereDensity(position, c.innerRadius, c.outerRadius)
      && DustMaxSize(m, c, position) == (if id == 0 then 0.25e-6 else 0.001)
      && DustMinSize(m, c, position) == 5e-9
  {
  }

  /** The density table has the dimension and size of the constructor's
      `gas_mass` table at every position. */
  lemma ShapeContract(m: MathLib, sphericalOuterRadius: real, position: Vec3)
    ensures var c := NewTestModel(m, sphericalOuterRadius);
      SameShape(GasDensityDistribution(m, c, position), c.gasMass)
  {
  }
}
