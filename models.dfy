/** The diffusion model catalogue: the apparent-diffusion-coefficient models Brownian, Confined,
    Hop, Immobile and HopModified, each with its parameter bounds and initial guess, and the two
    MSD models Linear and Power. The exponential and the power are the library's. */
module Models {
  import opened Numerics

  /** The instance attributes `R` (point scanning across the field of view) and `dt` (time
      step) that every Dapp model reads. */
  datatype Config = Config(R: real, dt: real)

  /** What `__init__` sets: `R = dt = 0`. */
  const FreshConfig: Config := Config(0.0, 0.0)

  /** The time points at which the localisation term's divisions are defined. */
  predicate Defined(c: Config, t: real)
  {
    t != 0.0 && t != 2.0 * c.R * c.dt
  }

  /** The localisation-error term `delta**2 / (2*t*(1 - 2*R*dt/t))` shared by the Dapp models. */
  function Localisation(c: Config, t: real, delta: real): (r: real)
    requires Defined(c, t)
    ensures t > 2.0 * c.R * c.dt ==> r >= 0.0
    ensures delta == 0.0 ==> r == 0.0
  {
    ShiftedDenominator(c, t);
    Square(delta) / (2.0 * t * (1.0 - 2.0 * c.R * c.dt / t))
  }

  /** The denominator of the localisation term is `2t - 4 R dt`. */
  lemma ShiftedDenominator(c: Config, t: real)
    requires Defined(c, t)
    ensures 2.0 * t * (1.0 - 2.0 * c.R * c.dt / t) == 2.0 * t - 4.0 * c.R * c.dt
  {
    assert t * (c.R * c.dt / t) == c.R * c.dt;
  }

  /** The confinement term `D_micro * (tau/t) * (1 - exp(-t/tau))`. */
  function Confinement(t: real, dMicro: real, tau: real, nm: Numerics): (r: real)
    requires t != 0.0 && tau != 0.0
    ensures dMicro == 0.0 ==> r == 0.0
  {
    dMicro * (tau / t) * (1.0 - nm.exp(-t / tau))
  }

  /** `ModelBrownian`: the diffusion coefficient plus the localisation term. */
  function Brownian(c: Config, t: real, d: real, delta: real): (r: real)
    requires Defined(c, t)
    ensures t > 2.0 * c.R * c.dt ==> r >= d
    ensures delta == 0.0 ==> r == d
  {
    d + Localisation(c, t, delta)
  }

  /** `ModelConfined`: the confinement term plus the localisation term. */
  function Confined(c: Config, t: real, dMicro: real, delta: real, tau: real, nm: Numerics): (r: real)
    requires Defined(c, t) && tau != 0.0
    ensures dMicro == 0.0 ==> r == Immobile(c, t, delta)
  {
    Confinement(t, dMicro, tau, nm) + Localisation(c, t, delta)
  }

  /** `ModelHop`: a macroscopic coefficient, the confinement term and the localisation term. */
  function Hop(c: Config, t: real, dMacro: real, dMicro: real, delta: real, tau: real, nm: Numerics): (r: real)
    requires Defined(c, t) && tau != 0.0
    ensures dMicro == 0.0 ==> r == Brownian(c, t, dMacro, delta)
  {
    dMacro + Confinement(t, dMicro, tau, nm) + Localisation(c, t, delta)
  }

  /** `ModelImmobile`: the localisation term alone. */
  function Immobile(c: Config, t: real, delta: real): (r: real)
    requires Defined(c, t)
    ensures t > 2.0 * c.R * c.dt ==> r >= 0.0
    ensures delta == 0.0 ==> r == 0.0
  {
    Localisation(c, t, delta)
  }

  /** `ModelHopModified`: `alpha` weighs the macroscopic coefficient against the microscopic
      saturation term. */
  function HopModified(t: real, dMacro: real, dMicro: real, alpha: real, tau: real, nm: Numerics): (r: real)
    requires tau != 0.0
    ensures dMicro == 0.0 ==> r == alpha * dMacro
    ensures alpha == 1.0 ==> r == dMacro
  {
    alpha * dMacro + (1.0 - alpha) * dMicro * (1.0 - nm.exp(-t / tau))
  }

  /** `ModelLinear`: `4*D*t + 2*delta2`. */
  function Linear(t: real, d: real, delta2: real): (r: real)
    ensures t == 0.0 || d == 0.0 ==> r == 2.0 * delta2
  {
    4.0 * d * t + 2.0 * delta2
  }

  /** `ModelPower`: `4*D*t**alpha + 2*delta2`. */
  function Power(t: real, d: real, delta2: real, alpha: real, nm: Numerics): (r: real)
    ensures d == 0.0 ==> r == 2.0 * delta2
    ensures Sane(nm) && alpha == 1.0 ==> r == Linear(t, d, delta2)
  {
    4.0 * d * nm.pow(t, alpha) + 2.0 * delta2
  }

  /** An upper bound: `np.inf` for every parameter. */
  datatype Bound = Infinity | Finite(v: real)

  /** `upper` is a scalar `np.inf` broadcast over all parameters, except for `ModelImmobile`,
      whose `upper` is the one-element list `[np.inf]`. */
  datatype Upper = Scalar(b: Bound) | PerParameter(bs: seq<Bound>)

  /** The five Dapp model classes. */
  datatype DappModel = BrownianModel | ConfinedModel | HopModel | ImmobileModel | HopModifiedModel
  {
    /** Number of fit parameters (`__call__`'s arguments after `t`). */
    function Arity(): nat
    {
      match this
      case BrownianModel => 2
      case ConfinedModel => 3
      case HopModel => 4
      case ImmobileModel => 1
      case HopModifiedModel => 4
    }

    function Lower(): seq<real>
    {
      match this
      case BrownianModel => [0.0, 0.0]
      case ConfinedModel => [0.0, 0.0, 0.0]
      case HopModel => [0.0, 0.0, 0.0, 0.0]
      case ImmobileModel => [0.0]
      case HopModifiedModel => [0.0, 0.0, 0.0, 0.0]
    }

    function Upper(): Upper
    {
      match this
      case ImmobileModel => PerParameter([Infinity])
      case _ => Scalar(Infinity)
    }

    function Initial(): seq<real>
    {
      match this
      case BrownianModel => [0.5e-12, 2.0e-9]
      case ConfinedModel => [0.5e-12, 2.0e-9, 1.0e-3]
      case HopModel => [0.5e-12, 0.5e-12, 2.0e-9, 1.0e-3]
      case ImmobileModel => [0.5e-12]
      case HopModifiedModel => [0.5e-12, 0.5e-12, 0.0, 1.0e-3]
    }

    /** The time points and parameters at which `__call__` evaluates without dividing by 0. */
    predicate Admits(c: Config, t: real, p: seq<real>)
    {
      && |p| == Arity()
      && (this != HopModifiedModel ==> Defined(c, t))
      && (this == ConfinedModel ==> p[2] != 0.0)
      && (this == HopModel ==> p[3] != 0.0)
      && (this == HopModifiedModel ==> p[3] != 0.0)
    }

    /** `model(t, *p)`. */
    function Eval(c: Config, t: real, p: seq<real>, nm: Numerics): (r: real)
      requires Admits(c, t, p)
      ensures this == BrownianModel && t > 2.0 * c.R * c.dt ==> r >= p[0]
      ensures this == ImmobileModel ==> r == Brownian(c, t, 0.0, p[0])
      ensures this == HopModel ==> r == p[0] + Confined(c, t, p[1], p[2], p[3], nm)
      ensures this == HopModifiedModel && p[2] == 1.0 ==> r == p[0]
    {
      match this
      case BrownianModel => Brownian(c, t, p[0], p[1])
      case ConfinedModel => Confined(c, t, p[0], p[1], p[2], nm)
      case HopModel => Hop(c, t, p[0], p[1], p[2], p[3], nm)
      case ImmobileModel => Immobile(c, t, p[0])
      case HopModifiedModel => HopModified(t, p[0], p[1], p[2], p[3], nm)
    }
  }

  /** Every Dapp model has as many lower bounds and initial guesses as parameters, all lower
      bounds are 0, every upper bound is unbounded, and every initial guess lies within the
      bounds. */
  lemma CatalogueConsistent(m: DappModel)
    ensures |m.Lower()| == m.Arity() == |m.Initial()|
    ensures 1 <= m.Arity() <= 4
    ensures forall i :: 0 <= i < |m.Lower()| ==> m.Lower()[i] == 0.0 <= m.Initial()[i]
    ensures m.Upper().Scalar? ==> m.Upper().b == Infinity
    ensures m.Upper().PerParameter? ==> |m.Upper().bs| == m.Arity() && Infinity in m.Upper().bs
  {
  }

  /** A freshly constructed model (`R = dt = 0`) has the plain localisation term
      `delta**2 / (2t)`. */
  lemma FreshLocalisation(t: real, delta: real)
    requires t != 0.0
    ensures Defined(FreshConfig, t)
    ensures Localisation(FreshConfig, t, delta) == Square(delta) / (2.0 * t)
  {
  }

  /** The localisation term equals `delta**2 / (2t - 4 R dt)`: the correction for point
      scanning shifts the time by `2 R dt`. */
  lemma LocalisationShift(c: Config, t: real, delta: real)
    requires Defined(c, t)
    ensures Localisation(c, t, delta) == Square(delta) / (2.0 * t - 4.0 * c.R * c.dt)
  {
    ShiftedDenominator(c, t);
  }

  /** An immobile particle is a Brownian one with `D = 0`. */
  lemma ImmobileIsStillBrownian(c: Config, t: real, delta: real)
    requires Defined(c, t)
    ensures Immobile(c, t, delta) == Brownian(c, t, 0.0, delta)
  {
  }

  /** Hop diffusion is confined diffusion plus a macroscopic diffusion coefficient. */
  lemma HopIsConfinedPlusMacro(c: Config, t: real, dMacro: real, dMicro: real, delta: real, tau: real, nm: Numerics)
    requires Defined(c, t) && tau != 0.0
    ensures Hop(c, t, dMacro, dMicro, delta, tau, nm) == dMacro + Confined(c, t, dMicro, delta, tau, nm)
  {
  }

  /** The modified hop model interpolates: `alpha = 1` gives `D_macro`, `alpha = 0` gives the
      microscopic saturation term. */
  lemma HopModifiedEnds(t: real, dMacro: real, dMicro: real, tau: real, nm: Numerics)
    requires tau != 0.0
    ensures HopModified(t, dMacro, dMicro, 1.0, tau, nm) == dMacro
    ensures HopModified(t, dMacro, dMicro, 0.0, tau, nm) == dMicro * (1.0 - nm.exp(-t / tau))
  {
  }

  /** The linear MSD model starts at the localisation offset `2 delta2` and does not decrease
      for a non-negative diffusion coefficient. */
  lemma LinearShape(d: real, delta2: real, t1: real, t2: real)
    requires d >= 0.0 && t1 <= t2
    ensures Linear(0.0, d, delta2) == 2.0 * delta2
    ensures Linear(t1, d, delta2) <= Linear(t2, d, delta2)
  {
    assert 4.0 * d * t2 - 4.0 * d * t1 == 4.0 * d * (t2 - t1);
  }

  /** The power-law model with exponent 1 is the linear model. */
  lemma PowerWithUnitExponent(t: real, d: real, delta2: real, nm: Numerics)
    requires Sane(nm)
    ensures Power(t, d, delta2, 1.0, nm) == Linear(t, d, delta2)
  {
  }
}
