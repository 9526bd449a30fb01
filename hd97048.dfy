/** The HD97048 disk preset: an inner disk and three rings, optionally a PAH
    continuum, configured once by `use_extra_parameter` and then queried
    for its density table and scale height at each position. */
module HD97048Preset {
  import opened Common

  /** One extra-parameter token, as Python's `int(token)` and `float(token)`
      would read it (`None`: the conversion raises `ValueError`). */
  datatype Token = Token(asInt: Option<int>, asFloat: Option<real>)

  /** PAH-to-silicate mass fraction used when none is given. */
  const DefaultMfPah: real := 1e-3

  /** What `use_extra_parameter` makes of its tokens: the flag and fraction it
      applies, or the conversion that raised. `FractionRejected` records the
      flag already assigned before the second conversion raised. */
  datatype ExtraParameters =
    | Applied(useCont: bool, mfPah: real)
    | FlagRejected
    | FractionRejected(useCont: bool)

  function ReadExtraParameter(tokens: seq<Token>): (e: ExtraParameters)
    ensures |tokens| != 1 && |tokens| != 2 ==> e == Applied(false, DefaultMfPah)
    ensures e.FlagRejected? <==> (|tokens| == 1 || |tokens| == 2) && tokens[0].asInt.None?
    ensures e.FractionRejected? <==>
      |tokens| == 2 && tokens[0].asInt.Some? && tokens[1].asFloat.None?
    ensures (|tokens| == 1 || |tokens| == 2) && tokens[0].asInt.Some? ==>
      (e.Applied? || e.FractionRejected?) && e.useCont == (tokens[0].asInt.value != 0)
    ensures e.Applied? && |tokens| == 2 ==> e.mfPah == tokens[1].asFloat.value
    ensures e.Applied? && |tokens| != 2 ==> e.mfPah == DefaultMfPah
  {
    if |tokens| == 2 then
      match tokens[0].asInt
      case None => FlagRejected
      case Some(flag) =>
        match tokens[1].asFloat
        case None => FractionRejected(flag != 0)
        case Some(fraction) => Applied(flag != 0, fraction)
    else if |tokens| == 1 then
      match tokens[0].asInt
      case None => FlagRejected
      case Some(flag) => Applied(flag != 0, DefaultMfPah)
    else
      Applied(false, DefaultMfPah)
  }

  /** Number of dust compositions (rows) and sub-regions (columns) of the
      tables, for the continuum and the ring version. */
  function Rows(useCont: bool): nat { if useCont then 3 else 2 }
  function Cols(useCont: bool): nat { if useCont then 5 else 4 }

  /** Mass of each sub-region of the ring version before the PAH split, in
      solar masses: inner disk, ring 1, ring 2, ring 3. */
  const RegionMass: seq<real> := [1e-4, 4e-3, 5e-3, 1e-1]

  /** The `gas_mass` table `use_extra_parameter` stores. */
  function GasMassTable(mSun: real, useCont: bool, mfPah: real): (t: Table)
    ensures HasShape(t, Rows(useCont), Cols(useCont))
  {
    if useCont then
      [[1e-4 * mSun, 4e-3 * mSun, 5e-3 * mSun, 1e-1 * mSun, 0.0 * mSun],
       [0.0 * mSun, 0.0 * mSun, 0.0 * mSun, 0.0 * mSun, (0.2 * mfPah) * mSun],
       [0.0 * mSun, 0.0 * mSun, 0.0 * mSun, 0.0 * mSun, (0.8 * mfPah) * mSun]]
    else
      [[1e-4 * mSun, ((1.0 - mfPah) * 4e-3) * mSun, ((1.0 - mfPah) * 5e-3) * mSun, ((1.0 - mfPah) * 1e-1) * mSun],
       [0.0 * mSun, (mfPah * 4e-3) * mSun, (mfPah * 5e-3) * mSun, (mfPah * 1e-1) * mSun]]
  }

  /** With the continuum, the first composition holds the four regions and no
      continuum, the two PAH compositions hold only the continuum, and the
      continuum's mass `mf_pah` is split 1:4 between them. */
  lemma ContinuumGasMass(mSun: real, mfPah: real)
    ensures var t := GasMassTable(mSun, true, mfPah);
      && (forall j :: 0 <= j < 4 ==> t[0][j] == RegionMass[j] * mSun)
      && t[0][4] == 0.0
      && (forall i, j :: 1 <= i < 3 && 0 <= j < 4 ==> t[i][j] == 0.0)
      && t[1][4] == 0.2 * mfPah * mSun
      && t[2][4] == 0.8 * mfPah * mSun
      && t[1][4] + t[2][4] == mfPah * mSun
  {
  }

  /** Without the continuum, the inner disk is pure silicate, and each ring's
      mass is split between silicate and PAH in the ratio `1 - mf_pah` to
      `mf_pah`, so that the two compositions add up to the ring's mass. */
  lemma RingGasMass(mSun: real, mfPah: real)
    ensures var t := GasMassTable(mSun, false, mfPah);
      && t[0][0] == RegionMass[0] * mSun
      && t[1][0] == 0.0
      && (forall j :: 1 <= j < 4 ==> t[1][j] == mfPah * RegionMass[j] * mSun)
      && (forall j :: 0 <= j < 4 ==> t[0][j] + t[1][j] == RegionMass[j] * mSun)
  {
  }

  /** The entries of `gas_mass` that are zero whatever `mf_pah` is. */
  predicate StructuralZero(useCont: bool, i: nat, j: nat) {
    if useCont then (i == 0 && j == 4) || (1 <= i && j < 4)
    else i == 1 && j == 0
  }

  /** For a fraction strictly between 0 and 1 (and a positive solar mass),
      an entry of `gas_mass` is zero exactly where the pattern says so. */
  lemma {:induction false} GasMassZeroPattern(mSun: real, useCont: bool, mfPah: real, i: nat, j: nat)
    requires 0.0 < mSun && 0.0 < mfPah < 1.0
    requires i < Rows(useCont) && j < Cols(useCont)
    ensures GasMassTable(mSun, useCont, mfPah)[i][j] == 0.0 <==> StructuralZero(useCont, i, j)
  {
    var t := GasMassTable(mSun, useCont, mfPah);
    if !StructuralZero(useCont, i, j) {
      if useCont {
        if i == 0 {
          assert t[0][j] == RegionMass[j] * mSun;
          assert RegionMass[j] > 0.0;
        } else {
          assert j == 4;
          assert (if i == 1 then 0.2 else 0.8) * mfPah > 0.0;
        }
      } else if i == 0 {
        if j > 0 { assert 1.0 - mfPah > 0.0; }
        assert t[0][j] == (if j == 0 then 1e-4 else (1.0 - mfPah) * RegionMass[j]) * mSun;
      } else {
        assert t[1][j] == (mfPah * RegionMass[j]) * mSun;
      }
    }
  }

  /** The band of cylindrical radii, both ends inclusive, where the inner
      disk's scale-height law applies. */
  predicate InInnerBand(m: MathLib, radius: real) {
    0.3 * m.au <= radius <= 2.6 * m.au
  }

  /** Keyword arguments of the inner disk's `default_disk_density` call. */
  function InnerDiskArgs(m: MathLib): DiskArgs {
    DiskArgs(0.3 * m.au, 2.6 * m.au, Some(5.0 * m.au), Some(100.0 * m.au),
             None, Some(1.0), Some(-1.0), Some(true))
  }

  /** Keyword arguments of a ring's (or the PAH continuum's) call. */
  function RingArgs(m: MathLib, innerRadius: real, outerRadius: real): DiskArgs {
    DiskArgs(innerRadius, outerRadius, Some(12.0 * m.au), Some(100.0 * m.au),
             None, Some(1.26), Some(-0.5), Some(true))
  }

  /** The scale-height law h_ref * (r / r_ref) ^ beta that a density call's
      keyword arguments describe. */
  function ProfileScaleHeight(m: MathLib, args: DiskArgs, radius: real): real
    requires args.refScaleHeight.Some? && args.refRadius.Some? && args.beta.Some?
    requires args.refRadius.value != 0.0
  {
    args.refScaleHeight.value * m.power(radius / args.refRadius.value, args.beta.value)
  }

  /** `scale_height(radius)`: inside the inner disk's radial band it is the
      inner disk's law, everywhere else the rings' law. */
  function ScaleHeight(m: MathLib, radius: real): (h: real)
    requires 0.0 < m.au
    ensures InInnerBand(m, radius) ==> h == ProfileScaleHeight(m, InnerDiskArgs(m), radius)
    ensures !InInnerBand(m, radius) ==>
      forall inner, outer :: h == ProfileScaleHeight(m, RingArgs(m, inner, outer), radius)
  {
    if InInnerBand(m, radius) then
      5.0 * m.au * m.power(radius / (100.0 * m.au), 1.0)
    else
      12.0 * m.au * m.power(radius / (100.0 * m.au), 1.26)
  }

  /** Inside the band, both ends included, the scale height is linear in
      the radius: 5 au at 100 au. */
  lemma ScaleHeightLinearInBand(m: MathLib, radius: real)
    requires Valid(m)
    requires InInnerBand(m, radius)
    ensures ScaleHeight(m, radius) == 5.0 * m.au * radius / (100.0 * m.au)
    ensures ScaleHeight(m, 0.3 * m.au) == 5.0 * m.au * 0.003
    ensures ScaleHeight(m, 2.6 * m.au) == 5.0 * m.au * 0.026
  {
  }

  /** `gas_density_distribution()` for a given `use_cont`. */
  function Density(m: MathLib, useCont: bool, position: Vec3): (t: Table)
    ensures HasShape(t, Rows(useCont), Cols(useCont))
    ensures useCont ==>
      && t[1] == t[2]
      && t[0][4] == 0.0
      && forall j :: 0 <= j < 4 ==> t[1][j] == 0.0
    ensures !useCont ==> t[1] == t[0][0 := 0.0]
  {
    var innerDisk := m.defaultDiskDensity(position, InnerDiskArgs(m));
    var ring1 := m.defaultDiskDensity(position, RingArgs(m, 41.0 * m.au, 51.0 * m.au));
    var ring2 := m.defaultDiskDensity(position, RingArgs(m, 155.0 * m.au, 165.0 * m.au));
    var ring3 := m.defaultDiskDensity(position, RingArgs(m, 269.0 * m.au, 400.0 * m.au));
    if useCont then
      var pahCont := m.defaultDiskDensity(position, RingArgs(m, 41.0 * m.au, 400.0 * m.au));
      [[innerDisk, ring1, ring2, ring3, 0.0],
       [0.0, 0.0, 0.0, 0.0, pahCont],
       [0.0, 0.0, 0.0, 0.0, pahCont]]
    else
      [[innerDisk, ring1, ring2, ring3], [0.0, ring1, ring2, ring3]]
  }

  /** The density table has the dimension and size of the `gas_mass` table
      built for the same `use_cont`, whatever the position and the fraction,
      and it is zero wherever that table is structurally zero. */
  lemma {:induction false} DensityMatchesGasMass(m: MathLib, useCont: bool, mfPah: real, position: Vec3)
    ensures SameShape(Density(m, useCont, position), GasMassTable(m.mSun, useCont, mfPah))
    ensures forall i: nat, j: nat :: i < Rows(useCont) && j < Cols(useCont) && StructuralZero(useCont, i, j) ==>
      Density(m, useCont, position)[i][j] == 0.0 && GasMassTable(m.mSun, useCont, mfPah)[i][j] == 0.0
  {
    var d := Density(m, useCont, position);
    var g := GasMassTable(m.mSun, useCont, mfPah);
    assert HasShape(d, Rows(useCont), Cols(useCont)) && HasShape(g, Rows(useCont), Cols(useCont));
  }

  /** The model object: the fields `use_extra_parameter` assigns. A field is
      `None` while Python's attribute does not exist yet (`gas_mass`: while
      it still holds what the base class put there). */
  class HD97048 {
    const math: MathLib
    var useCont: Option<bool>
    var mfPah: Option<real>
    var gasMass: Option<Table>

    constructor (math: MathLib)
      ensures this.math == math
      ensures useCont == None && mfPah == None && gasMass == None
    {
      this.math := math;
      useCont := None;
      mfPah := None;
      gasMass := None;
    }

    /** The fields after a call of `use_extra_parameter` that returned
        normally. */
    ghost predicate Configured()
      reads this
    {
      && useCont.Some?
      && mfPah.Some?
      && gasMass == Some(GasMassTable(math.mSun, useCont.value, mfPah.value))
    }

    /** `use_extra_parameter(extra_parameter)`; `ok` is false where Python
        raises `ValueError`, after the assignments made before the raise. */
    method UseExtraParameter(extraParameter: seq<Token>) returns (ok: bool)
      modifies this
      ensures ok == ReadExtraParameter(extraParameter).Applied?
      ensures ok ==> Configured()
      ensures ok ==>
        useCont == Some(ReadExtraParameter(extraParameter).useCont) &&
        mfPah == Some(ReadExtraParameter(extraParameter).mfPah)
      ensures ReadExtraParameter(extraParameter).FlagRejected? ==>
        useCont == old(useCont) && mfPah == old(mfPah) && gasMass == old(gasMass)
      ensures ReadExtraParameter(extraParameter).FractionRejected? ==>
        useCont == Some(ReadExtraParameter(extraParameter).useCont) &&
        mfPah == old(mfPah) && gasMass == old(gasMass)
    {
      if |extraParameter| == 2 {
        if extraParameter[0].asInt.None? {
          return false;
        }
        useCont := Some(extraParameter[0].asInt.value != 0);
        if extraParameter[1].asFloat.None? {
          return false;
        }
        mfPah := Some(extraParameter[1].asFloat.value);
      } else if |extraParameter| == 1 {
        if extraParameter[0].asInt.None? {
          return false;
        }
        useCont := Some(extraParameter[0].asInt.value != 0);
        mfPah := Some(DefaultMfPah);
      } else {
        useCont := Some(false);
        mfPah := Some(DefaultMfPah);
      }
      gasMass := Some(GasMassTable(math.mSun, useCont.value, mfPah.value));
      ok := true;
    }

    /** `gas_density_distribution()`; `None` where Python would fail because
        `use_cont` was never assigned. */
    function GasDensityDistribution(position: Vec3): (r: Option<Table>)
      reads this
      ensures r.Some? <==> useCont.Some?
      ensures r.Some? ==> HasShape(r.value, Rows(useCont.value), Cols(useCont.value))
    {
      if useCont.None? then None else Some(Density(math, useCont.value, position))
    }
  }

  /** Once configured, the model meets the shape contract between
      `gas_mass` and the density it returns, at every position. */
  lemma ConfiguredShapeContract(model: HD97048, position: Vec3)
    requires model.Configured()
    ensures model.GasDensityDistribution(position).Some?
    ensures SameShape(model.GasDensityDistribution(position).value, model.gasMass.value)
  {
    DensityMatchesGasMass(model.math, model.useCont.value, model.mfPah.value, position);
  }

  /** With no extra parameters the ring version is used with the default
      fraction, giving two compositions; with the tokens "1" and "0.5" the
      continuum version is used with fraction 0.5, giving three. */
  lemma ExtraParameterScenarios(m: MathLib, position: Vec3)
    ensures ReadExtraParameter([]) == Applied(false, 1e-3)
    ensures |Density(m, false, position)| == 2
    ensures ReadExtraParameter([Token(Some(1), Some(1.0)), Token(None, Some(0.5))]) == Applied(true, 0.5)
    ensures |Density(m, true, position)| == 3
  {
  }
}
