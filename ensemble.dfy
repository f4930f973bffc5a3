/** The ensemble calculators of `Calculators/mixing_modified.py`: a linear
    combination of member calculators (average, sum, two-member mix) that can
    replace the weighted mean by the variance-gradient or metadynamics bias
    built from the members' spread, and the bookkeeping of the calculator that
    runs one member in a worker process. Member results, the members'
    `calculation_required` answers and `np.exp` are parameters. */
module Ensemble {
  import opened Wrappers
  import opened Geometry
  import Stats

  /** The exceptions the calculators raise. */
  datatype CalcError =
    | NoCalculators                    // ValueError: empty member list
    | NoCommonProperty                 // PropertyNotImplementedError: empty intersection
    | WeightCountMismatch              // ValueError: one weight per member
    | UnknownForceMode(mode: string)   // ValueError from `list.index`
    | UnsupportedProperty              // PropertyNotImplementedError in `calculate`
    | NoAtoms                          // ZeroDivisionError in `2./len(forces)`
    | NotMetadynamics                  // RuntimeError in `reset_varscale`
    | ConfigurationChanged             // ValueError: species or cell changed
    | PositionsShape(rows: nat, given: nat) // ValueError: positions do not broadcast to the shared buffer
    | PropertyNotImplemented(p: string) // NotImplementedError in the worker front end
    | SubprocessFailed                 // RuntimeError in `multiprocsync`

  // ---------------------------------------------------------------------
  // Configuration
  // ---------------------------------------------------------------------

  /** The force modes, in the order whose index is stored as `forcemode`. */
  const ModeNames: seq<string> := ["average", "vargrad", "meta", "metamix"]

  /** `ModeNames.index(name)`, or `None` where Python raises ValueError. */
  function ModeIndex(name: string): (r: Option<nat>)
    ensures r.None? <==> name !in ModeNames
    ensures r.Some? ==> (r.value < |ModeNames| && ModeNames[r.value] == name
      && forall k :: 0 <= k < r.value ==> ModeNames[k] != name)
  {
    if name == "average" then Some(0)
    else if name == "vargrad" then Some(1)
    else if name == "meta" then Some(2)
    else if name == "metamix" then Some(3)
    else None
  }

  /** `set.intersection` of the members' implemented properties. */
  function CommonProperties(props: seq<set<string>>): (r: set<string>)
    requires |props| >= 1
    ensures forall p :: p in r <==> forall i :: 0 <= i < |props| ==> p in props[i]
  {
    if |props| == 1 then props[0]
    else CommonProperties(props[..|props| - 1]) * props[|props| - 1]
  }

  /** The checks of `LinearCombinationCalculator.__init__`, in the order the
      constructor makes them; on success the implemented properties and the
      force-mode index. */
  function Configure(members: seq<set<string>>, weights: seq<real>, forcemode: string): (r: Result<(set<string>, nat), CalcError>)
    ensures members == [] ==> r == Err(NoCalculators)
    ensures members != [] && CommonProperties(members) == {} ==> r == Err(NoCommonProperty)
    ensures members != [] && CommonProperties(members) != {} && |weights| != |members| ==> r == Err(WeightCountMismatch)
    ensures r.Ok? <==> members != [] && CommonProperties(members) != {} && |weights| == |members| && forcemode in ModeNames
    ensures r.Ok? ==> (r.value.1 < |ModeNames| && ModeNames[r.value.1] == forcemode && r.value.0 != {}
      && forall p :: p in r.value.0 <==> forall i :: 0 <= i < |members| ==> p in members[i])
  {
    if members == [] then Err(NoCalculators)
    else if CommonProperties(members) == {} then Err(NoCommonProperty)
    else if |weights| != |members| then Err(WeightCountMismatch)
    else match ModeIndex(forcemode)
      case None => Err(UnknownForceMode(forcemode))
      case Some(m) => Ok((CommonProperties(members), m))
  }

  /** `[1 / n] * n`, the weights of `AverageCalculator`. */
  function AverageWeights(n: nat): (w: seq<real>)
    requires n > 0
    ensures |w| == n && forall i :: 0 <= i < n ==> w[i] == 1.0 / n as real
  {
    seq(n, i => 1.0 / n as real)
  }

  /** `[1.] * n`, the weights of `SumCalculator`. */
  function UnitWeights(n: nat): (w: seq<real>)
    ensures |w| == n && forall i :: 0 <= i < n ==> w[i] == 1.0
  {
    seq(n, i => 1.0)
  }

  // ---------------------------------------------------------------------
  // Weighted reductions over the members, in member order
  // ---------------------------------------------------------------------

  /** Σ wᵢ·xᵢ. */
  function WSum(ws: seq<real>, xs: seq<real>): real
    requires |ws| == |xs|
  {
    if xs == [] then 0.0
    else WSum(ws[..|ws| - 1], xs[..|xs| - 1]) + ws[|ws| - 1] * xs[|xs| - 1]
  }

  /** The field Σ wᵢ·Fᵢ. */
  function WSumF(ws: seq<real>, fs: seq<Field>, n: nat): (r: Field)
    requires |ws| == |fs| && forall i :: 0 <= i < |fs| ==> |fs[i]| == n
    ensures |r| == n
  {
    if fs == [] then Zeros(n)
    else AddF(WSumF(ws[..|ws| - 1], fs[..|fs| - 1], n), ScaleF(ws[|ws| - 1], fs[|fs| - 1]))
  }

  /** Σ wᵢ·(Eᵢ − m)², the square of `std_energy`. */
  function WSpread(ws: seq<real>, es: seq<real>, m: real): real
    requires |ws| == |es|
  {
    if es == [] then 0.0
    else WSpread(ws[..|ws| - 1], es[..|es| - 1], m) + SpreadTerm(ws[|ws| - 1], es[|es| - 1], m)
  }

  /** One member's share wᵢ·(Eᵢ − m)² of the energy spread. */
  function SpreadTerm(w: real, x: real, m: real): real {
    w * ((x - m) * (x - m))
  }

  /** One member's share wᵢ·‖Fᵢ − F‖² of the force spread. */
  function SpreadTermF(w: real, g: Field, f: Field): real
    requires |g| == |f|
  {
    w * Norm2F(SubF(g, f))
  }

  /** Σ wᵢ·‖Fᵢ − F‖² (Frobenius), the square of `std_forces`. */
  function WSpreadF(ws: seq<real>, fs: seq<Field>, f: Field): real
    requires |ws| == |fs| && forall i :: 0 <= i < |fs| ==> |fs[i]| == |f|
  {
    if fs == [] then 0.0
    else WSpreadF(ws[..|ws| - 1], fs[..|fs| - 1], f) + SpreadTermF(ws[|ws| - 1], fs[|fs| - 1], f)
  }

  /** The spreads of the first `i + 1` members add member `i`'s shares to
      those of the first `i`. */
  lemma SpreadPrefix(ws: seq<real>, es: seq<real>, fs: seq<Field>, e: real, f: Field, i: nat)
    requires |ws| == |es| == |fs| && forall i :: 0 <= i < |fs| ==> |fs[i]| == |f|
    requires i < |ws|
    ensures WSpread(ws[..i + 1], es[..i + 1], e) == WSpread(ws[..i], es[..i], e) + SpreadTerm(ws[i], es[i], e)
    ensures WSpreadF(ws[..i + 1], fs[..i + 1], f) == WSpreadF(ws[..i], fs[..i], f) + SpreadTermF(ws[i], fs[i], f)
  {
    assert ws[..i + 1][..i] == ws[..i] && es[..i + 1][..i] == es[..i] && fs[..i + 1][..i] == fs[..i];
    assert ws[..i + 1][i] == ws[i] && es[..i + 1][i] == es[i] && fs[..i + 1][i] == fs[i];
  }

  /** Σ wᵢ·(Eᵢ − E)·(Fᵢ − F): the energy–force covariance, half the gradient
      of the ensemble variance before the per-atom normalisation. */
  function WCovF(ws: seq<real>, es: seq<real>, fs: seq<Field>, e: real, f: Field): (r: Field)
    requires |ws| == |es| == |fs| && forall i :: 0 <= i < |fs| ==> |fs[i]| == |f|
    ensures |r| == |f|
  {
    if fs == [] then Zeros(|f|)
    else
      var k := |fs| - 1;
      AddF(WCovF(ws[..k], es[..k], fs[..k], e, f), CovTerm(ws[k], es[k], fs[k], e, f))
  }

  /** One member's term wᵢ·(Eᵢ − E)·(Fᵢ − F). */
  function CovTerm(w: real, ei: real, fi: Field, e: real, f: Field): (r: Field)
    requires |fi| == |f|
    ensures |r| == |f|
  {
    ScaleF(w * (ei - e), SubF(fi, f))
  }

  lemma CovarianceStep(ws: seq<real>, es: seq<real>, fs: seq<Field>, e: real, f: Field)
    requires |ws| == |es| == |fs| > 0 && forall i :: 0 <= i < |fs| ==> |fs[i]| == |f|
    ensures var k := |fs| - 1;
      WCovF(ws, es, fs, e, f) == AddF(WCovF(ws[..k], es[..k], fs[..k], e, f), CovTerm(ws[k], es[k], fs[k], e, f))
  {
  }

  lemma CovariancePrefix(ws: seq<real>, es: seq<real>, fs: seq<Field>, e: real, f: Field, i: nat)
    requires |ws| == |es| == |fs| && forall i :: 0 <= i < |fs| ==> |fs[i]| == |f|
    requires i < |ws|
    ensures WCovF(ws[..i + 1], es[..i + 1], fs[..i + 1], e, f)
      == AddF(WCovF(ws[..i], es[..i], fs[..i], e, f), CovTerm(ws[i], es[i], fs[i], e, f))
  {
    assert ws[..i + 1][..i] == ws[..i] && es[..i + 1][..i] == es[..i] && fs[..i + 1][..i] == fs[..i];
    assert ws[..i + 1][i] == ws[i] && es[..i + 1][i] == es[i] && fs[..i + 1][i] == fs[i];
    CovarianceStep(ws[..i + 1], es[..i + 1], fs[..i + 1], e, f);
  }

  /** The per-atom bias height `metascale * np.exp(-varnorm / varscale)`. */
  function BiasHeight(varnorm: real, varscale: real, metascale: real, exp: real -> real): real
    requires varscale != 0.0
  {
    metascale * exp(-varnorm / varscale)
  }

  /** The factor `len(forces) * height / varscale` applied to the variance gradient. */
  function ForceCoefficient(h: real, n: real, varscale: real): real
    requires varscale != 0.0
  {
    h * n / varscale
  }

  /** Lines 204-217: the results of force modes 1 (vargrad), 2 (meta) and
      3 (metamix) from the weighted mean `(eave, fave)`, the energy spread and
      the covariance field, for `natoms` atoms; `exp` is `np.exp`. */
  function Bias(mode: nat, eave: real, fave: Field, spread: real, cov: Field, varscale: real, metascale: real, exp: real -> real): (r: (real, Field))
    requires 1 <= mode <= 3 && |fave| > 0 && |cov| == |fave|
    requires mode >= 2 ==> varscale != 0.0
    ensures |r.1| == |fave|
  {
    var n := |fave| as real;
    var grad := ScaleF(2.0 / n, cov);
    var varnorm := spread / n;
    if mode == 1 then (varnorm, grad)
    else
      var h := BiasHeight(varnorm, varscale, metascale, exp);
      var c := ForceCoefficient(h, n, varscale);
      if mode == 2 then (h * n, ScaleF(-c, grad))
      else (eave + h * n, SubF(fave, ScaleF(c, grad)))
  }

  // ---------------------------------------------------------------------
  // The loops of `calculate`
  // ---------------------------------------------------------------------

  /** Lines 169-171: the members whose `calculation_required` answered True. */
  method StaleMembers(required: seq<bool>) returns (waited: seq<nat>)
    ensures forall i :: i in waited <==> 0 <= i < |required| && required[i]
    ensures forall a, b :: 0 <= a < b < |waited| ==> waited[a] < waited[b]
  {
    waited := [];
    for i := 0 to |required|
      invariant forall j :: j in waited <==> 0 <= j < i && required[j]
      invariant forall a, b :: 0 <= a < b < |waited| ==> waited[a] < waited[b]
      invariant forall a :: 0 <= a < |waited| ==> waited[a] < i
    {
      if required[i] {
        waited := waited + [i];
      }
    }
  }

  /** Every member asked to recompute has a worker that reports success. */
  predicate Replied(required: seq<bool>, replies: seq<bool>)
    requires |required| == |replies|
  {
    forall i :: 0 <= i < |required| && required[i] ==> replies[i]
  }

  /** Lines 174-175: `multiprocsync` of each waited member in turn; false is
      the RuntimeError of the first one whose worker failed. */
  method SyncAll(waited: seq<nat>, replies: seq<bool>) returns (ok: bool)
    requires forall k :: 0 <= k < |waited| ==> waited[k] < |replies|
    ensures ok <==> forall k :: 0 <= k < |waited| ==> replies[waited[k]]
  {
    for k := 0 to |waited|
      invariant forall j :: 0 <= j < k ==> replies[waited[j]]
    {
      if !replies[waited[k]] {
        return false;
      }
    }
    ok := true;
  }

  /** Lines 179-184 for 'energy': the first member's term is stored where no
      result exists, later terms are added. */
  method AccumulateEnergy(start: Option<real>, ws: seq<real>, es: seq<real>) returns (e: Option<real>)
    requires |ws| == |es|
    ensures es == [] ==> e == start
    ensures es != [] ==> e == Some(CombinedEnergy(start, ws, es))
  {
    e := start;
    for i := 0 to |es|
      invariant i == 0 ==> e == start
      invariant i > 0 ==> e == Some(start.GetOr(0.0) + WSum(ws[..i], es[..i]))
    {
      assert ws[..i + 1][..i] == ws[..i] && es[..i + 1][..i] == es[..i];
      assert WSum(ws[..i + 1], es[..i + 1]) == WSum(ws[..i], es[..i]) + ws[i] * es[i];
      if e.None? {
        e := Some(ws[i] * es[i]);
      } else {
        e := Some(e.value + ws[i] * es[i]);
      }
    }
    assert ws[..|ws|] == ws && es[..|es|] == es;
  }

  /** Lines 179-184 for 'forces'. */
  method AccumulateForces(start: Option<Field>, ws: seq<real>, fs: seq<Field>, n: nat) returns (f: Option<Field>)
    requires |ws| == |fs| && forall i :: 0 <= i < |fs| ==> |fs[i]| == n
    requires start.Some? ==> |start.value| == n
    ensures fs == [] ==> f == start
    ensures fs != [] ==> f == Some(CombinedForces(start, ws, fs, n))
  {
    f := start;
    for i := 0 to |fs|
      invariant i == 0 ==> f == start
      invariant i > 0 ==> f == Some(AddF(start.GetOr(Zeros(n)), WSumF(ws[..i], fs[..i], n)))
    {
      assert ws[..i + 1][..i] == ws[..i] && fs[..i + 1][..i] == fs[..i];
      var term := ScaleF(ws[i], fs[i]);
      var acc := WSumF(ws[..i], fs[..i], n);
      assert WSumF(ws[..i + 1], fs[..i + 1], n) == AddF(acc, term);
      AddFZeros(term);
      if f.None? {
        assert acc == Zeros(n);
        f := Some(term);
      } else {
        AddFAssoc(start.GetOr(Zeros(n)), acc, term);
        f := Some(AddF(f.value, term));
      }
    }
    assert ws[..|ws|] == ws && fs[..|fs|] == fs;
  }

  /** Lines 187-193: the weighted squared spread of the energies and of the
      force fields about the combined result. */
  method Spreads(ws: seq<real>, es: seq<real>, fs: seq<Field>, e: real, f: Field) returns (ve: real, vf: real)
    requires |ws| == |es| == |fs| && forall i :: 0 <= i < |fs| ==> |fs[i]| == |f|
    ensures ve == WSpread(ws, es, e) && vf == WSpreadF(ws, fs, f)
  {
    ve, vf := 0.0, 0.0;
    for i := 0 to |ws|
      invariant ve == WSpread(ws[..i], es[..i], e)
      invariant vf == WSpreadF(ws[..i], fs[..i], f)
    {
      SpreadPrefix(ws, es, fs, e, f, i);
      ve := ve + SpreadTerm(ws[i], es[i], e);
      vf := vf + SpreadTermF(ws[i], fs[i], f);
    }
    assert ws[..|ws|] == ws && es[..|es|] == es && fs[..|fs|] == fs;
  }

  /** Lines 200-202: the covariance field, from `np.zeros_like(Fave)`. */
  method Covariance(ws: seq<real>, es: seq<real>, fs: seq<Field>, e: real, f: Field) returns (c: Field)
    requires |ws| == |es| == |fs| && forall i :: 0 <= i < |fs| ==> |fs[i]| == |f|
    ensures c == WCovF(ws, es, fs, e, f)
  {
    c := Zeros(|f|);
    for i := 0 to |ws|
      invariant c == WCovF(ws[..i], es[..i], fs[..i], e, f)
    {
      CovariancePrefix(ws, es, fs, e, f, i);
      c := AddF(c, CovTerm(ws[i], es[i], fs[i], e, f));
    }
    assert ws[..|ws|] == ws && es[..|es|] == es && fs[..|fs|] == fs;
  }

  // ---------------------------------------------------------------------
  // LinearCombinationCalculator and its subclasses
  // ---------------------------------------------------------------------

  /** Every requested property is one the combination implements. */
  predicate Supported(properties: seq<string>, implemented: set<string>) {
    forall p :: p in properties ==> p in implemented
  }

  /** The combined energy: the previous result (or nothing) plus Σ wᵢ·Eᵢ. */
  function CombinedEnergy(start: Option<real>, ws: seq<real>, es: seq<real>): (e: real)
    requires |ws| == |es|
    ensures ws == UnitWeights(|es|) ==> e == start.GetOr(0.0) + Stats.Sum(es)
    ensures es != [] && ws == AverageWeights(|es|) ==> e == start.GetOr(0.0) + Stats.Sum(es) / |es| as real
  {
    SumCalculatorSums(es);
    if es != [] then
      AverageWeightsScale(es);
      start.GetOr(0.0) + WSum(ws, es)
    else
      start.GetOr(0.0) + WSum(ws, es)
  }

  /** The combined forces: the previous result (or zeros) plus Σ wᵢ·Fᵢ. */
  function CombinedForces(start: Option<Field>, ws: seq<real>, fs: seq<Field>, n: nat): (f: Field)
    requires |ws| == |fs| && forall i :: 0 <= i < |fs| ==> |fs[i]| == n
    requires start.Some? ==> |start.value| == n
    ensures |f| == n
  {
    AddF(start.GetOr(Zeros(n)), WSumF(ws, fs, n))
  }

  class LinearCombination {
    /** Number of member calculators. */
    const size: nat
    /** `implemented_properties`: what every member implements. */
    const implemented: set<string>
    var weights: seq<real>
    /** Index into `ModeNames`. */
    const forcemode: nat
    var varscale: real
    const metascale: real
    /** `results['energy']` and `results['forces']`. */
    var energy: Option<real>
    var forces: Option<Field>
    /** `std_energy ** 2` and `std_forces ** 2`; `None` before the first spread. */
    var varEnergy: Option<real>
    var varForces: Option<real>
    /** `Eave` and `Fave`, the weighted mean kept by the bias modes. */
    var eave: Option<real>
    var fave: Option<Field>

    ghost predicate Valid()
      reads this
    {
      size > 0 && |weights| == size && forcemode < |ModeNames| && implemented != {}
    }

    constructor (size: nat, implemented: set<string>, weights: seq<real>, forcemode: nat, varscale: real, metascale: real)
      requires size > 0 && |weights| == size && forcemode < |ModeNames| && implemented != {}
      ensures Valid()
      ensures this.size == size && this.implemented == implemented && this.weights == weights
      ensures this.forcemode == forcemode && this.varscale == varscale && this.metascale == metascale
      ensures energy == None && forces == None && varEnergy == None && varForces == None
      ensures eave == None && fave == None
    {
      this.size := size;
      this.implemented := implemented;
      this.weights := weights;
      this.forcemode := forcemode;
      this.varscale := varscale;
      this.metascale := metascale;
      energy, forces := None, None;
      varEnergy, varForces := None, None;
      eave, fave := None, None;
    }

    /** `calculate` (lines 157-217). `required[i]` is member i's answer to
        `calculation_required`, `replies[i]` what its worker answers to
        `multiprocsync`, and `memberEnergy[i]`, `memberForces[i]` its results
        once it has been brought up to date; `waited` lists the members that
        were asked to recompute. */
    method Calculate(properties: seq<string>, required: seq<bool>, replies: seq<bool>, memberEnergy: seq<real>, memberForces: seq<Field>, natoms: nat, exp: real -> real)
      returns (r: Outcome<CalcError>, waited: seq<nat>)
      requires Valid()
      requires |required| == |replies| == |memberEnergy| == |memberForces| == size
      requires forall i :: 0 <= i < size ==> |memberForces[i]| == natoms
      requires forces.Some? ==> |forces.value| == natoms
      requires forcemode >= 2 ==> varscale != 0.0
      modifies this`energy, this`forces, this`varEnergy, this`varForces, this`eave, this`fave
      ensures Valid()
      ensures !Supported(properties, implemented) ==>
        r == Fail(UnsupportedProperty) && waited == [] && unchanged(this)
      ensures Supported(properties, implemented) ==>
        forall i :: i in waited <==> 0 <= i < size && required[i]
      ensures Supported(properties, implemented) && !Replied(required, replies) ==>
        r == Fail(SubprocessFailed) && unchanged(this)
      ensures var ok := Supported(properties, implemented) && Replied(required, replies);
        ok && (waited == [] || forcemode == 0) ==>
        r == Pass && eave == old(eave) && fave == old(fave)
        && energy == Some(CombinedEnergy(old(energy), weights, memberEnergy))
        && forces == Some(CombinedForces(old(forces), weights, memberForces, natoms))
      ensures Supported(properties, implemented) && Replied(required, replies) && waited == [] ==>
        varEnergy == old(varEnergy) && varForces == old(varForces)
      ensures Supported(properties, implemented) && Replied(required, replies) && waited != [] ==>
        var e := CombinedEnergy(old(energy), weights, memberEnergy);
        var f := CombinedForces(old(forces), weights, memberForces, natoms);
        varEnergy == Some(WSpread(weights, memberEnergy, e)) && varForces == Some(WSpreadF(weights, memberForces, f))
      ensures Supported(properties, implemented) && Replied(required, replies) && waited != [] && forcemode > 0 ==>
        eave == Some(CombinedEnergy(old(energy), weights, memberEnergy))
        && fave == Some(CombinedForces(old(forces), weights, memberForces, natoms))
      ensures Supported(properties, implemented) && Replied(required, replies) && waited != [] && forcemode > 0 && natoms == 0 ==>
        r == Fail(NoAtoms) && energy == eave && forces == fave
      ensures Supported(properties, implemented) && Replied(required, replies) && waited != [] && forcemode > 0 && natoms > 0 ==>
        var e := CombinedEnergy(old(energy), weights, memberEnergy);
        var f := CombinedForces(old(forces), weights, memberForces, natoms);
        var b := Bias(forcemode, e, f, WSpread(weights, memberEnergy, e),
                      WCovF(weights, memberEnergy, memberForces, e, f), varscale, metascale, exp);
        r == Pass && energy == Some(b.0) && forces == Some(b.1)
    {
      if !Supported(properties, implemented) {
        r, waited := Fail(UnsupportedProperty), [];
        return;
      }
      waited := StaleMembers(required);
      assert forall k :: 0 <= k < |waited| ==> waited[k] in waited;
      var synced := SyncAll(waited, replies);
      if !synced {
        r := Fail(SubprocessFailed);
        return;
      }
      var oe := AccumulateEnergy(energy, weights, memberEnergy);
      var of := AccumulateForces(forces, weights, memberForces, natoms);
      energy, forces := oe, of;
      r := Pass;
      if |waited| > 0 {
        r := Disperse(memberEnergy, memberForces, natoms, exp);
      }
    }

    /** Lines 186-217, once the combined result holds `energy` and `forces`:
        the spreads, and in force modes 1-3 the mean kept aside and the
        results replaced by the bias. */
    method Disperse(memberEnergy: seq<real>, memberForces: seq<Field>, natoms: nat, exp: real -> real) returns (r: Outcome<CalcError>)
      requires Valid()
      requires |memberEnergy| == |memberForces| == size
      requires forall i :: 0 <= i < size ==> |memberForces[i]| == natoms
      requires energy.Some? && forces.Some? && |forces.value| == natoms
      requires forcemode >= 2 ==> varscale != 0.0
      modifies this`energy, this`forces, this`varEnergy, this`varForces, this`eave, this`fave
      ensures var e, f := old(energy).value, old(forces).value;
        varEnergy == Some(WSpread(weights, memberEnergy, e)) && varForces == Some(WSpreadF(weights, memberForces, f))
      ensures forcemode == 0 ==>
        r == Pass && energy == old(energy) && forces == old(forces) && eave == old(eave) && fave == old(fave)
      ensures forcemode > 0 ==> eave == old(energy) && fave == old(forces)
      ensures forcemode > 0 && natoms == 0 ==> r == Fail(NoAtoms) && energy == old(energy) && forces == old(forces)
      ensures forcemode > 0 && natoms > 0 ==>
        var e, f := old(energy).value, old(forces).value;
        var b := Bias(forcemode, e, f, WSpread(weights, memberEnergy, e),
                      WCovF(weights, memberEnergy, memberForces, e, f), varscale, metascale, exp);
        r == Pass && energy == Some(b.0) && forces == Some(b.1)
    {
      var e, f := energy.value, forces.value;
      var ve, vf := Spreads(weights, memberEnergy, memberForces, e, f);
      varEnergy, varForces := Some(ve), Some(vf);
      r := Pass;
      if forcemode > 0 {
        eave, fave := energy, forces;
        var c := Covariance(weights, memberEnergy, memberForces, e, f);
        if natoms == 0 {
          return Fail(NoAtoms);
        }
        var b := Bias(forcemode, e, f, ve, c, varscale, metascale, exp);
        energy, forces := Some(b.0), Some(b.1);
      }
    }

    /** `reset_varscale` (lines 219-222). */
    method ResetVarscale(v: real) returns (r: Outcome<CalcError>)
      modifies this`varscale
      ensures forcemode < 2 ==> r == Fail(NotMetadynamics) && varscale == old(varscale)
      ensures forcemode >= 2 ==> r == Pass && varscale == v
    {
      if forcemode < 2 {
        return Fail(NotMetadynamics);
      }
      varscale := v;
      r := Pass;
    }

    /** `reset` (lines 224-229): the combined results are cleared; the
        spreads and the stored mean survive, as in the source. */
    method Reset()
      modifies this`energy, this`forces
      ensures energy == None && forces == None
    {
      energy, forces := None, None;
    }

    /** `MixedCalculator.set_weights` (lines 272-274). */
    method SetWeights(w1: real, w2: real)
      requires Valid() && size == 2
      modifies this`weights
      ensures Valid() && weights == [w1, w2]
    {
      weights := [w1, w2];
    }
  }

  /** `LinearCombinationCalculator(calcs, weights, forcemode=…, varscale=…,
      metascale=…)`, where `members[i]` is member i's implemented properties. */
  method NewLinearCombination(members: seq<set<string>>, weights: seq<real>, forcemode: string := "average",
                              varscale: real := 0.05, metascale: real := 0.5)
    returns (r: Result<LinearCombination, CalcError>)
    ensures r.Err? <==> Configure(members, weights, forcemode).Err?
    ensures r.Err? ==> r.error == Configure(members, weights, forcemode).error
    ensures r.Ok? ==> var c := r.value;
      fresh(c) && c.Valid() && c.size == |members| && c.weights == weights
      && (c.implemented, c.forcemode) == Configure(members, weights, forcemode).value
      && c.varscale == varscale && c.metascale == metascale
      && c.energy == None && c.forces == None && c.varEnergy == None && c.varForces == None
  {
    var cfg := Configure(members, weights, forcemode);
    if cfg.Err? {
      return Err(cfg.error);
    }
    var c := new LinearCombination(|members|, cfg.value.0, weights, cfg.value.1, varscale, metascale);
    r := Ok(c);
  }

  /** `AverageCalculator(calcs, **kwargs)` (lines 318-334). */
  method NewAverage(members: seq<set<string>>, forcemode: string := "average",
                    varscale: real := 0.05, metascale: real := 0.5)
    returns (r: Result<LinearCombination, CalcError>)
    ensures members == [] ==> r == Err(NoCalculators)
    ensures members != [] ==> (r.Err? <==> Configure(members, AverageWeights(|members|), forcemode).Err?)
    ensures r.Ok? ==> (fresh(r.value) && r.value.Valid() && r.value.weights == AverageWeights(|members|)
      && r.value.energy == None && r.value.forces == None)
  {
    if |members| == 0 {
      return Err(NoCalculators);
    }
    r := NewLinearCombination(members, AverageWeights(|members|), forcemode, varscale, metascale);
  }

  /** `SumCalculator(calcs)` (lines 301-311). */
  method NewSum(members: seq<set<string>>) returns (r: Result<LinearCombination, CalcError>)
    ensures r.Err? <==> Configure(members, UnitWeights(|members|), "average").Err?
    ensures r.Ok? ==> (fresh(r.value) && r.value.Valid() && r.value.weights == UnitWeights(|members|)
      && r.value.forcemode == 0 && r.value.energy == None && r.value.forces == None)
  {
    r := NewLinearCombination(members, UnitWeights(|members|));
  }

  /** `MixedCalculator(calc1, calc2, weight1, weight2)` (lines 269-270). */
  method NewMixed(calc1: set<string>, calc2: set<string>, w1: real, w2: real) returns (r: Result<LinearCombination, CalcError>)
    ensures r.Err? <==> calc1 * calc2 == {}
    ensures r.Err? ==> r.error == NoCommonProperty
    ensures r.Ok? ==> (fresh(r.value) && r.value.Valid() && r.value.size == 2 && r.value.weights == [w1, w2]
      && r.value.implemented == calc1 * calc2 && r.value.forcemode == 0)
  {
    assert [calc1, calc2][..1] == [calc1];
    assert CommonProperties([calc1, calc2]) == calc1 * calc2;
    r := NewLinearCombination([calc1, calc2], [w1, w2]);
  }

  // ---------------------------------------------------------------------
  // What the combination means
  // ---------------------------------------------------------------------

  /** With equal weights c the weighted sum is c times the plain sum. */
  lemma {:induction false} WSumOfEqualWeights(ws: seq<real>, xs: seq<real>, c: real)
    requires |ws| == |xs| && forall i :: 0 <= i < |ws| ==> ws[i] == c
    ensures WSum(ws, xs) == c * Stats.Sum(xs)
  {
    if xs != [] {
      WSumOfEqualWeights(ws[..|ws| - 1], xs[..|xs| - 1], c);
    }
  }

  /** A `SumCalculator` adds its members' energies. */
  lemma SumCalculatorSums(xs: seq<real>)
    ensures WSum(UnitWeights(|xs|), xs) == Stats.Sum(xs)
  {
    WSumOfEqualWeights(UnitWeights(|xs|), xs, 1.0);
  }

  lemma ReciprocalTimes(x: real, n: real)
    requires n > 0.0
    ensures (1.0 / n) * x == x / n
  {
  }

  /** An `AverageCalculator` returns the mean of its members' energies. */
  lemma AverageCalculatorAverages(xs: seq<real>)
    requires xs != []
    ensures Stats.Mean(xs) == Some(WSum(AverageWeights(|xs|), xs))
  {
    AverageWeightsScale(xs);
  }

  lemma AverageWeightsScale(xs: seq<real>)
    requires xs != []
    ensures WSum(AverageWeights(|xs|), xs) == Stats.Sum(xs) / |xs| as real
  {
    WSumOfEqualWeights(AverageWeights(|xs|), xs, 1.0 / |xs| as real);
    ReciprocalTimes(Stats.Sum(xs), |xs| as real);
  }

  /** The weighted sum of one value repeated is that value times the total weight. */
  lemma {:induction false} WSumOfAgreement(ws: seq<real>, xs: seq<real>, c: real)
    requires |ws| == |xs| && forall i :: 0 <= i < |xs| ==> xs[i] == c
    ensures WSum(ws, xs) == c * Stats.Sum(ws)
  {
    if xs != [] {
      WSumOfAgreement(ws[..|ws| - 1], xs[..|xs| - 1], c);
    }
  }

  lemma {:induction false} SumOfConstant(xs: seq<real>, c: real)
    requires forall i :: 0 <= i < |xs| ==> xs[i] == c
    ensures Stats.Sum(xs) == |xs| as real * c
  {
    if xs != [] {
      SumOfConstant(xs[..|xs| - 1], c);
    }
  }

  /** Averaging members that all report the same energy gives that energy. */
  lemma AverageOfAgreeingMembers(es: seq<real>, c: real)
    requires es != [] && forall i :: 0 <= i < |es| ==> es[i] == c
    ensures WSum(AverageWeights(|es|), es) == c
  {
    var n := |es| as real;
    WSumOfAgreement(AverageWeights(|es|), es, c);
    SumOfConstant(AverageWeights(|es|), 1.0 / n);
    assert n * (1.0 / n) == 1.0;
  }

  /** The energy spread is non-negative when no weight is negative. */
  lemma {:induction false} SpreadNonNegative(ws: seq<real>, es: seq<real>, m: real)
    requires |ws| == |es| && forall i :: 0 <= i < |ws| ==> ws[i] >= 0.0
    ensures WSpread(ws, es, m) >= 0.0
  {
    if es != [] {
      var k := |es| - 1;
      SpreadNonNegative(ws[..k], es[..k], m);
      var d := es[k] - m;
      assert d * d >= 0.0;
      assert ws[k] * (d * d) >= 0.0;
    }
  }

  /** The force spread is non-negative when no weight is negative. */
  lemma {:induction false} SpreadFNonNegative(ws: seq<real>, fs: seq<Field>, f: Field)
    requires |ws| == |fs| && forall i :: 0 <= i < |fs| ==> |fs[i]| == |f|
    requires forall i :: 0 <= i < |ws| ==> ws[i] >= 0.0
    ensures WSpreadF(ws, fs, f) >= 0.0
  {
    if fs != [] {
      var k := |fs| - 1;
      SpreadFNonNegative(ws[..k], fs[..k], f);
      Norm2FNonNegative(SubF(fs[k], f));
      assert ws[k] * Norm2F(SubF(fs[k], f)) >= 0.0;
    }
  }

  /** Members that agree with the mean have no energy spread. */
  lemma {:induction false} SpreadOfAgreement(ws: seq<real>, es: seq<real>, m: real)
    requires |ws| == |es| && forall i :: 0 <= i < |es| ==> es[i] == m
    ensures WSpread(ws, es, m) == 0.0
  {
    if es != [] {
      SpreadOfAgreement(ws[..|ws| - 1], es[..|es| - 1], m);
    }
  }

  /** Members whose forces agree with the mean field have no force spread. */
  lemma {:induction false} SpreadFOfAgreement(ws: seq<real>, fs: seq<Field>, f: Field)
    requires |ws| == |fs| && forall i :: 0 <= i < |fs| ==> fs[i] == f
    ensures WSpreadF(ws, fs, f) == 0.0
  {
    if fs != [] {
      var k := |fs| - 1;
      SpreadFOfAgreement(ws[..k], fs[..k], f);
      SubFSelf(f);
      Norm2FOfZeros(|f|);
    }
  }

  /** Members that agree on the energy give a zero covariance, so the vargrad
      force vanishes. */
  lemma {:induction false} CovarianceOfAgreement(ws: seq<real>, es: seq<real>, fs: seq<Field>, e: real, f: Field)
    requires |ws| == |es| == |fs| && forall i :: 0 <= i < |fs| ==> |fs[i]| == |f|
    requires forall i :: 0 <= i < |es| ==> es[i] == e
    ensures WCovF(ws, es, fs, e, f) == Zeros(|f|)
  {
    if fs != [] {
      var k := |fs| - 1;
      CovarianceOfAgreement(ws[..k], es[..k], fs[..k], e, f);
      CovarianceStep(ws, es, fs, e, f);
      CovTermOfAgreement(ws[k], fs[k], e, f);
      AddFZeros(Zeros(|f|));
    }
  }

  lemma CovTermOfAgreement(w: real, fi: Field, e: real, f: Field)
    requires |fi| == |f|
    ensures CovTerm(w, e, fi, e, f) == Zeros(|f|)
  {
    assert w * (e - e) == 0.0;
    ScaleFByZero(SubF(fi, f));
  }

  /** In vargrad mode the reported energy is the per-atom variance, never negative. */
  lemma VargradEnergyNonNegative(eave: real, fave: Field, spread: real, cov: Field, varscale: real, metascale: real, exp: real -> real)
    requires |fave| > 0 && |cov| == |fave| && spread >= 0.0
    ensures Bias(1, eave, fave, spread, cov, varscale, metascale, exp).0 >= 0.0
  {
    var n := |fave| as real;
    assert spread / n >= 0.0;
  }

  /** Metamix adds the metadynamics bias to the ensemble mean: its energy and
      forces are the mean's plus those of mode 2. */
  lemma MetamixIsMeanPlusMeta(eave: real, fave: Field, spread: real, cov: Field, varscale: real, metascale: real, exp: real -> real)
    requires |fave| > 0 && |cov| == |fave| && varscale != 0.0
    ensures var mix := Bias(3, eave, fave, spread, cov, varscale, metascale, exp);
      var meta := Bias(2, eave, fave, spread, cov, varscale, metascale, exp);
      mix.0 == eave + meta.0 && mix.1 == AddF(fave, meta.1)
  {
    var n := |fave| as real;
    var h := BiasHeight(spread / n, varscale, metascale, exp);
    SubScaledIsAddNegated(fave, ScaleF(2.0 / n, cov), ForceCoefficient(h, n, varscale));
  }

  /** Three members with weights 0.2, 0.3, 0.5 and energies 1, 2, 3: the
      combined energy is 2.3 and the squared spread 0.61. */
  lemma ThreeMemberExample()
    ensures WSum([0.2, 0.3, 0.5], [1.0, 2.0, 3.0]) == 2.3
    ensures WSpread([0.2, 0.3, 0.5], [1.0, 2.0, 3.0], 2.3) == 0.61
  {
    assert [0.2, 0.3, 0.5][..2] == [0.2, 0.3] && [1.0, 2.0, 3.0][..2] == [1.0, 2.0];
    assert [0.2, 0.3][..1] == [0.2] && [1.0, 2.0][..1] == [1.0];
    assert [0.2][..0] == [] && [1.0][..0] == [];
  }

  // ---------------------------------------------------------------------
  // MultiProcessCalculator: the front end of a worker-process member
  // ---------------------------------------------------------------------

  /** The properties the worker front end implements. */
  predicate WorkerProperty(p: string) {
    p == "energy" || p == "forces"
  }

  /** `s.index(x)`. */
  function FirstIndex<T(==)>(s: seq<T>, x: T): (k: nat)
    requires x in s
    ensures k < |s| && s[k] == x && forall j :: 0 <= j < k ==> s[j] != x
  {
    if s[0] == x then 0 else 1 + FirstIndex(s[1..], x)
  }

  /** `del properties[properties.index(x)]`. */
  function RemoveFirst<T(==)>(s: seq<T>, x: T): (r: seq<T>)
    requires x in s
    ensures |r| == |s| - 1 && multiset(r) + multiset{x} == multiset(s)
  {
    var k := FirstIndex(s, x);
    assert s == s[..k] + [s[k]] + s[k + 1..];
    s[..k] + s[k + 1..]
  }

  /** The index of the first property the worker does not implement, or |s|. */
  function FirstUnknown(s: seq<string>): (k: nat)
    ensures k <= |s| && (forall j :: 0 <= j < k ==> WorkerProperty(s[j]))
    ensures k < |s| ==> !WorkerProperty(s[k])
  {
    if s == [] || !WorkerProperty(s[0]) then 0 else 1 + FirstUnknown(s[1..])
  }

  /** NumPy's `self.spos[:][:] = atoms.positions` into a buffer of `n` rows:
      `given` fits when it has `n` rows, or one row that is broadcast to all;
      `None` is the ValueError of any other shape. */
  function Broadcast(given: Field, n: nat): (r: Option<Field>)
    ensures r.Some? <==> |given| == n || |given| == 1
    ensures r.Some? ==> |r.value| == n && forall i :: 0 <= i < n ==> r.value[i] == given[if |given| == 1 then 0 else i]
  {
    if |given| == n then Some(given)
    else if |given| == 1 then Some(seq(n, _ => given[0]))
    else None
  }

  class MultiProcess {
    /** The configuration the worker was started with: atomic numbers and cell. */
    const workerNumbers: seq<int>
    const workerCell: seq<Vec3>
    /** `self.atoms`: set by the constructor and replaced, by the base
        class's `calculate`, with a copy of the configuration of each call. */
    var numbers: seq<int>
    var cell: seq<Vec3>
    /** The shared position buffer the worker reads; its number of rows is
        the starting configuration's. */
    var positions: Field
    /** `results['energy']` (0.0 until `multiprocsync`) and whether
        `results['forces']` (the shared force buffer) is present. */
    var energy: Option<real>
    var hasForces: bool
    /** "Go" signals sent down the pipe. */
    var requests: nat

    constructor (numbers: seq<int>, cell: seq<Vec3>, positions: Field)
      ensures workerNumbers == numbers && workerCell == cell
      ensures this.numbers == numbers && this.cell == cell && this.positions == positions
      ensures energy == None && !hasForces && requests == 0
    {
      workerNumbers, workerCell := numbers, cell;
      this.numbers := numbers;
      this.cell := cell;
      this.positions := positions;
      energy, hasForces, requests := None, false, 0;
    }

    predicate HasResult(p: string)
      reads this
    {
      (p == "energy" && energy.Some?) || (p == "forces" && hasForces)
    }

    /** Lines 87-95 from the state before the call to now, once the
        configuration test has passed: the positions are copied into the
        shared buffer (NumPy's ValueError, with nothing changed, when they do
        not broadcast to its rows); `energy` is dropped from the list when
        `forces` is also asked for; one request is sent per implemented
        property before the first unknown one, which raises
        NotImplementedError. `props` is the list after the call, which the
        source edits in place. */
    twostate predicate Sent(positions': Field, properties: seq<string>, new r: Outcome<CalcError>, new props: seq<string>)
      reads this
    {
      var b := Broadcast(positions', |old(positions)|);
      var sent := if "energy" in properties && "forces" in properties then RemoveFirst(properties, "energy") else properties;
      var k := FirstUnknown(sent);
      if b.None? then
        r == Fail(PositionsShape(|old(positions)|, |positions'|)) && props == properties
        && positions == old(positions) && energy == old(energy) && hasForces == old(hasForces) && requests == old(requests)
      else
        props == sent && positions == b.value
        && requests == old(requests) + k
        && (k == 0 ==> energy == old(energy) && hasForces == old(hasForces))
        && (k > 0 ==> energy == Some(0.0) && hasForces)
        && r == (if k < |sent| then Fail(PropertyNotImplemented(sent[k])) else Pass)
    }

    /** No results change and nothing is sent. */
    twostate predicate Idle()
      reads this
    {
      positions == old(positions) && energy == old(energy) && hasForces == old(hasForces) && requests == old(requests)
    }

    /** `calculate` (lines 78-95) as written, for a configuration with the
        given atomic numbers, cell and positions. The base class's
        `calculate` (line 81) first stores a copy of that configuration as
        `self.atoms`, so the species and cell test of line 85 compares the
        configuration with its own copy and cannot raise: a changed species
        or cell reaches the worker unnoticed, and a changed atom count is
        caught only by NumPy's copy of the positions. */
    method Calculate(numbers': seq<int>, cell': seq<Vec3>, positions': Field, properties: seq<string>, systemChanges: set<string>)
      returns (r: Outcome<CalcError>, props: seq<string>)
      requires |positions'| == |numbers'|
      modifies this`numbers, this`cell, this`positions, this`energy, this`hasForces, this`requests
      ensures numbers == numbers' && cell == cell'
      ensures var needed := systemChanges != {} || exists p :: p in properties && !old(HasResult(p));
        if !needed then r == Pass && props == properties && Idle()
        else Sent(positions', properties, r, props)
    {
      var needed := systemChanges != {} || exists p :: p in properties && !HasResult(p);
      numbers, cell := numbers', cell';
      if !needed {
        return Pass, properties;
      }
      r, props := Send(positions', properties);
    }

    /** `calculate` with the test of line 85 made against the configuration
        the worker was started with, which is what its message says it
        guards: a species or cell change (which includes a change of atom
        count) raises the ValueError before anything is written or sent. */
    method CalculateChecked(numbers': seq<int>, cell': seq<Vec3>, positions': Field, properties: seq<string>, systemChanges: set<string>)
      returns (r: Outcome<CalcError>, props: seq<string>)
      requires |positions'| == |numbers'|
      modifies this`numbers, this`cell, this`positions, this`energy, this`hasForces, this`requests
      ensures numbers == numbers' && cell == cell'
      ensures var needed := systemChanges != {} || exists p :: p in properties && !old(HasResult(p));
        var changed := numbers' != workerNumbers || cell' != workerCell;
        if !needed then r == Pass && props == properties && Idle()
        else if changed then r == Fail(ConfigurationChanged) && props == properties && Idle()
        else Sent(positions', properties, r, props)
    {
      var needed := systemChanges != {} || exists p :: p in properties && !HasResult(p);
      numbers, cell := numbers', cell';
      if !needed {
        return Pass, properties;
      }
      if numbers' != workerNumbers || cell' != workerCell {
        return Fail(ConfigurationChanged), properties;
      }
      r, props := Send(positions', properties);
    }

    /** Lines 87-95: the copy of the positions and the requests. */
    method Send(positions': Field, properties: seq<string>) returns (r: Outcome<CalcError>, props: seq<string>)
      modifies this`positions, this`energy, this`hasForces, this`requests
      ensures Sent(positions', properties, r, props)
    {
      props := properties;
      var b := Broadcast(positions', |positions|);
      if b.None? {
        return Fail(PositionsShape(|positions|, |positions'|)), props;
      }
      positions := b.value;
      if "energy" in props && "forces" in props {
        props := RemoveFirst(props, "energy");
      }
      var i := 0;
      while i < |props|
        invariant i <= FirstUnknown(props) && positions == b.value
        invariant requests == old(requests) + i
        invariant i == 0 ==> energy == old(energy) && hasForces == old(hasForces)
        invariant i > 0 ==> energy == Some(0.0) && hasForces
        decreases |props| - i
      {
        if !WorkerProperty(props[i]) {
          return Fail(PropertyNotImplemented(props[i])), props;
        }
        // calculate_energy_and_forces (lines 101-104)
        requests := requests + 1;
        energy, hasForces := Some(0.0), true;
        i := i + 1;
      }
      r := Pass;
    }

    /** `multiprocsync` (lines 106-109): `reply` is what the worker sent back
        and `shared` the energy it left in shared memory. */
    method Sync(reply: bool, shared: real) returns (r: Outcome<CalcError>)
      modifies this`energy
      ensures !reply ==> r == Fail(SubprocessFailed) && energy == old(energy)
      ensures reply ==> r == Pass && energy == Some(shared)
    {
      if !reply {
        return Fail(SubprocessFailed);
      }
      energy := Some(shared);
      r := Pass;
    }
  }

  /** A worker started on one hydrogen atom is asked for the energy of one
      platinum atom in the same cell. As written the call goes through and
      one request is sent to the worker, which still computes hydrogen;
      checked against the worker's configuration it raises the ValueError. */
  method SpeciesChangeGoesUnnoticed() returns (asWritten: Outcome<CalcError>, sent: nat, corrected: Outcome<CalcError>)
    ensures asWritten == Pass && sent == 1 && corrected == Fail(ConfigurationChanged)
  {
    var cell := [Vec3(5.0, 0.0, 0.0), Vec3(0.0, 5.0, 0.0), Vec3(0.0, 0.0, 5.0)];
    var m := new MultiProcess([1], cell, [Zero]);
    var props;
    asWritten, props := m.Calculate([78], cell, [Zero], ["energy"], {"numbers"});
    sent := m.requests;
    var c := new MultiProcess([1], cell, [Zero]);
    corrected, props := c.CalculateChecked([78], cell, [Zero], ["energy"], {"numbers"});
  }
}
