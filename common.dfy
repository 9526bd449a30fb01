/** Values shared by every preset of the model catalogue: positions, the
    nested density / gas-mass tables, and the collaborators the presets call
    (the `Math` helper object and a few numpy routines), which are not part
    of this model and appear only as uninterpreted parameters. */
module Common {

  datatype Option<T> = None | Some(value: T)

  /** A queried position in model space (the `self.position` 3-vector). */
  datatype Vec3 = Vec3(x: real, y: real, z: real)

  function NormSq(p: Vec3): real {
    p.x * p.x + p.y * p.y + p.z * p.z
  }

  /** A 2D density or gas-mass table: first index is the dust composition,
      second index the sub-region normalised to its own mass. */
  type Table = seq<seq<real>>

  /** Every row of `t` has `cols` entries and there are `rows` rows. */
  ghost predicate HasShape(t: Table, rows: nat, cols: nat) {
    |t| == rows && forall i :: 0 <= i < rows ==> |t[i]| == cols
  }

  /** `a` and `b` have the same dimension and size, row by row. */
  ghost predicate SameShape(a: Table, b: Table) {
    |a| == |b| && forall i :: 0 <= i < |a| ==> |a[i]| == |b[i]|
  }

  /** Keyword arguments of `Math.default_disk_density`; `None` leaves the
      collaborator's own default in force. */
  datatype DiskArgs = DiskArgs(
    innerRadius: real,
    outerRadius: real,
    refScaleHeight: Option<real>,
    refRadius: Option<real>,
    alpha: Option<real>,
    beta: Option<real>,
    surfaceDensExp: Option<real>,
    realZero: Option<bool>)

  /** The collaborators: the constants `au`, `pc`, `M_sun` of `Math.const`,
      numpy's `pi`, the formula helpers of `Math`, and the numpy routines
      `sqrt`, `exp`, `sin` and the power operator. */
  datatype MathLib = MathLib(
    au: real,
    pc: real,
    mSun: real,
    pi: real,
    defaultDiskDensity: (Vec3, DiskArgs) -> real,
    sphereDensity: (Vec3, real, real) -> real,
    rotateCoordSystem: (Vec3, Vec3, real) -> Vec3,
    sqrt: real -> real,
    exp: real -> real,
    sin: real -> real,
    power: (real, real) -> real)

  /** The only facts about the collaborators that the proofs rely on. */
  ghost predicate Valid(m: MathLib) {
    && 0.0 < m.au
    && 0.0 < m.pc
    && 0.0 < m.mSun
    && (forall v :: 0.0 <= v ==> 0.0 <= m.sqrt(v) && m.sqrt(v) * m.sqrt(v) == v)
    && (forall x :: 0.0 < m.exp(x))
    && (forall x :: x <= 0.0 ==> m.exp(x) <= 1.0)
    && m.exp(0.0) == 1.0
    && (forall x :: m.power(x, 1.0) == x)
  }

  /** `np.linalg.norm(position)`. */
  function Norm(m: MathLib, p: Vec3): real {
    m.sqrt(NormSq(p))
  }

  /** Comparing a square root against a bound is the same as comparing the
      radicand against the squared bound, when the bound is positive; a
      bound that is not positive is never exceeded from below. */
  lemma SqrtLess(m: MathLib, v: real, c: real)
    requires Valid(m)
    requires 0.0 <= v
    ensures m.sqrt(v) < c <==> (0.0 < c && v < c * c)
  {
    var s := m.sqrt(v);
    assert 0.0 <= s && s * s == v;
    if s < c {
      assert 0.0 < c;
      calc {
        v;
      ==
        s * s;
      <= { assert (c - s) * s >= 0.0; }
        s * c;
      < { assert (c - s) * c > 0.0; }
        c * c;
      }
    } else if 0.0 < c {
      assert c * c <= c * s;
      assert c * s <= s * s;
    }
  }
}
