/**
 * The random variations of device properties and placements.
 *
 * A device class may declare design tables (mean, scale and distribution
 * type per property, keyed by the device kind).  A property whose scale is
 * positive gets a random value from a normal, uniform or gamma distribution
 * whose parameters are computed from the mean and the scale; a property
 * whose scale is not positive gets exactly its mean.
 *
 * The random number generator is not modelled: `RandomState` stands for
 * scipy's global generator, and the n-th value it hands out for a
 * distribution is `variate(d, n)`, an arbitrary function fixed for the run.
 */
module Sampling {

  /** scipy.stats distributions with their `loc`/`scale` (and gamma `a`) parameters. */
  datatype Distribution =
    | Normal(loc: real, scale: real)
    | Uniform(loc: real, scale: real)
    | Gamma(a: real, loc: real, scale: real)

  /** The parameter domain in which scipy draws a value instead of failing. */
  predicate InDomain(d: Distribution) {
    match d
    case Normal(_, s) => s >= 0.0
    case Uniform(_, s) => s >= 0.0
    case Gamma(a, _, s) => a > 0.0 && s > 0.0
  }

  /**
   * The distribution a property with this mean, scale and distribution
   * name is drawn from; names other than 'uniform' and 'gamma' mean normal.
   */
  function SamplingDistribution(mean: real, scale: real, varType: string): Distribution
    requires varType == "gamma" ==> mean != 0.0 && scale != 0.0
  {
    if varType == "uniform" then Uniform(mean - scale, 2.0 * scale)
    else if varType == "gamma" then Gamma(mean * mean / (scale * scale), 0.0, scale * scale / mean)
    else Normal(mean, scale)
  }

  /** The uniform draw covers exactly [mean - scale, mean + scale]. */
  lemma UniformInterval(mean: real, scale: real)
    ensures var d := SamplingDistribution(mean, scale, "uniform");
      d.Uniform? && d.loc == mean - scale && d.loc + d.scale == mean + scale
  {
  }

  /**
   * The gamma draw has shape a = mean^2/scale^2 and scale theta = scale^2/mean,
   * so its mean a*theta is the design mean and its variance a*theta^2 is the
   * square of the design scale.
   */
  lemma GammaMoments(mean: real, scale: real)
    requires mean > 0.0 && scale > 0.0
    ensures var d := SamplingDistribution(mean, scale, "gamma");
      d.Gamma? && d.loc == 0.0 && d.a * d.scale == mean && d.a * d.scale * d.scale == scale * scale
  {
    var a := mean * mean / (scale * scale);
    var theta := scale * scale / mean;
    assert a * (scale * scale) == mean * mean;
    assert theta * mean == scale * scale;
    calc {
      a * theta * mean;
      a * (theta * mean);
      a * (scale * scale);
      mean * mean;
    }
    assert a * theta == mean;
    calc {
      a * theta * theta;
      mean * theta;
      scale * scale;
    }
  }

  /** Any distribution name other than 'uniform' and 'gamma' falls back to the normal draw. */
  lemma NormalFallback(mean: real, scale: real, varType: string)
    requires varType != "uniform" && varType != "gamma"
    ensures SamplingDistribution(mean, scale, varType) == Normal(mean, scale)
  {
  }

  /** With a positive scale and, for gamma, a positive mean, scipy can draw. */
  lemma SamplingInDomain(mean: real, scale: real, varType: string)
    requires scale > 0.0
    requires varType == "gamma" ==> mean > 0.0
    ensures InDomain(SamplingDistribution(mean, scale, varType))
  {
    if varType == "gamma" {
      var m2 := PositiveProduct(mean, mean);
      var s2 := PositiveProduct(scale, scale);
      PositiveQuotient(m2, s2);
      PositiveQuotient(s2, mean);
    }
  }

  lemma PositiveProduct(a: real, b: real) returns (p: real)
    requires a > 0.0 && b > 0.0
    ensures p == a * b && p > 0.0
  {
    p := a * b;
  }

  lemma PositiveQuotient(a: real, b: real)
    requires a > 0.0 && b > 0.0
    ensures a / b > 0.0
  {
  }

  /** scipy's global random generator: a counter over a fixed stream of variates. */
  class RandomState {
    const variate: (Distribution, nat) -> real
    var drawn: nat

    constructor (variate: (Distribution, nat) -> real)
      ensures this.variate == variate && drawn == 0
    {
      this.variate := variate;
      drawn := 0;
    }

    /** `stats.<dist>.rvs(...)`: the next variate of the stream. */
    method Rvs(d: Distribution) returns (v: real)
      requires InDomain(d)
      modifies this
      ensures v == variate(d, old(drawn)) && drawn == old(drawn) + 1
    {
      v := variate(d, drawn);
      drawn := drawn + 1;
    }
  }

  /** `v` is a value the generator can hand out for `d`. */
  ghost predicate IsDraw(v: real, d: Distribution, rng: RandomState) {
    exists n: nat :: v == rng.variate(d, n)
  }

  /** scipy's law for a degenerate normal: with deviation 0 every draw is the location itself. */
  ghost predicate ExactWhenFixed(rng: RandomState) {
    forall m: real, n: nat :: rng.variate(Normal(m, 0.0), n) == m
  }

  /** Under that law, a draw from a normal with deviation 0 can only be its location. */
  lemma FixedDraw(v: real, m: real, rng: RandomState)
    requires ExactWhenFixed(rng)
    ensures IsDraw(v, Normal(m, 0.0), rng) <==> v == m
  {
    if v == m {
      assert v == rng.variate(Normal(m, 0.0), 0);
    }
  }

  /**
   * The class-level design tables of a device class: per kind, the mean and
   * scale of each property and the distribution name of some of them.
   */
  datatype DesignTables = DesignTables(
    mean: map<string, map<string, real>>,
    scale: map<string, map<string, real>>,
    variation: map<string, map<string, string>>)

  /**
   * What drawing the properties of `kind` needs from the tables: for every
   * property with a mean, a scale table for the kind holding its scale, and,
   * for every property whose scale is positive, a distribution table for
   * the kind and, when that names gamma, a positive mean.  Without these
   * the source raises KeyError, ZeroDivisionError or a scipy domain error.
   */
  predicate TablesOk(t: DesignTables, kind: string) {
    kind in t.mean ==>
      forall key :: key in t.mean[kind] ==>
        kind in t.scale && key in t.scale[kind] &&
        (t.scale[kind][key] > 0.0 ==>
           kind in t.variation &&
           (key in t.variation[kind] && t.variation[kind][key] == "gamma" ==> t.mean[kind][key] > 0.0))
  }

  /** The distribution name of a property: its entry in the table, or 'norm'. */
  function VarType(vars: map<string, string>, key: string): string
  {
    if key in vars then vars[key] else "norm"
  }

  /**
   * The true value of one property: its mean when its scale is not
   * positive, otherwise a value the generator can hand out for its
   * sampling distribution.
   */
  ghost predicate TrueValue(t: DesignTables, kind: string, key: string, v: real, rng: RandomState)
    requires TablesOk(t, kind) && kind in t.mean && key in t.mean[kind]
  {
    var mean, scale := t.mean[kind][key], t.scale[kind][key];
    (scale <= 0.0 ==> v == mean) &&
    (scale > 0.0 ==> IsDraw(v, SamplingDistribution(mean, scale, VarType(t.variation[kind], key)), rng))
  }

  /** The true values drawn from the design means: the same keys, each with its true value. */
  ghost predicate TrueProperties(t: DesignTables, kind: string, truth: map<string, real>, rng: RandomState)
    requires TablesOk(t, kind) && kind in t.mean
  {
    truth.Keys == t.mean[kind].Keys &&
    forall key :: key in truth ==> TrueValue(t, kind, key, truth[key], rng)
  }
}
