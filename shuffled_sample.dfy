/** Range-wise spike detection over `node_sd[step, atom]` and a random
    sample of the spike steps: every atom belongs to at most one of four
    index ranges (surface Pt, intermediate Pt, surface H, gas-phase H), each
    range has the average over steps of `mean + 3 std` of its atoms as its
    threshold, per atom the steps above its range's threshold are recorded,
    and at most 100 of the distinct recorded steps are sampled after a
    shuffle. */
module ShuffledSample {
  import opened Wrappers
  import opened Stats
  import opened Spikes

  /** `node_sd` is a `steps x atoms` array. */
  predicate Rectangular(m: seq<seq<real>>, atoms: nat) {
    forall s :: 0 <= s < |m| ==> |m[s]| == atoms
  }

  /** Atom `a` belongs to range `i` (`range_1` .. `range_4` are 0 .. 3). */
  predicate InRange(i: nat, a: nat) {
    if i == 0 then a < 16 || 48 <= a < 64
    else if i == 1 then 16 <= a < 48
    else if i == 2 then 64 <= a < 96
    else if i == 3 then 96 <= a < 144
    else false
  }

  /** The `if atom in range_1 ... elif ... range_4` chain: the first range
      holding `a`. */
  function RangeOf(a: nat): (r: Option<nat>)
    ensures r.Some? ==> r.value < 4 && InRange(r.value, a)
    ensures r.None? ==> forall i :: !InRange(i, a)
  {
    if InRange(0, a) then Some(0)
    else if InRange(1, a) then Some(1)
    else if InRange(2, a) then Some(2)
    else if InRange(3, a) then Some(3)
    else None
  }

  /** The ranges are pairwise disjoint, so the order of the tests does not
      matter, and they cover exactly the atoms below 144. */
  lemma RangesPartition(a: nat, i: nat, j: nat)
    ensures InRange(i, a) && InRange(j, a) ==> i == j
    ensures RangeOf(a).Some? <==> a < 144
    ensures InRange(i, a) <==> RangeOf(a) == Some(i)
  {
  }

  /** The atom indices of range `i`, in the order NumPy reads them. */
  function Members(i: nat): (r: seq<nat>)
    requires i < 4
    ensures forall x :: x in r <==> InRange(i, x)
  {
    var r := if i == 0 then seq(16, k requires 0 <= k < 16 => k) + seq(16, k requires 0 <= k < 16 => 48 + k)
      else if i == 1 then seq(32, k requires 0 <= k < 32 => 16 + k)
      else if i == 2 then seq(32, k requires 0 <= k < 32 => 64 + k)
      else seq(48, k requires 0 <= k < 48 => 96 + k);
    assert forall x :: InRange(i, x) ==> x in r by {
      forall x: nat | InRange(i, x)
        ensures x in r
      {
        if i == 0 && x >= 48 {
          assert r[x - 32] == x;
        } else if i == 0 {
          assert r[x] == x;
        } else if i == 1 {
          assert r[x - 16] == x;
        } else if i == 2 {
          assert r[x - 64] == x;
        } else {
          assert r[x - 96] == x;
        }
      }
    }
    r
  }

  /** One more than the largest index of range `i`: the number of atoms
      `node_sd[:, range_i]` needs. */
  function Bound(i: nat): nat
    requires i < 4
  {
    if i == 0 then 64 else if i == 1 then 48 else if i == 2 then 96 else 144
  }

  lemma BoundIsTight(i: nat)
    requires i < 4
    ensures forall x :: x in Members(i) ==> x < Bound(i)
    ensures Bound(i) - 1 in Members(i)
  {
    assert InRange(i, Bound(i) - 1);
  }

  /** What keeps a range from having a threshold: an index past the last
      atom (IndexError) or no steps (NumPy's NaN mean). */
  datatype SampleError = IndexError | NoSteps

  /** `mean + 3 * std` over the atoms of range `i` in one step's row. */
  function StepThreshold(row: seq<real>, i: nat, sqrt: real -> real): real
    requires i < 4 && Bound(i) <= |row|
  {
    BoundIsTight(i);
    var xs := seq(|Members(i)|, k requires 0 <= k < |Members(i)| => row[Members(i)[k]]);
    Mean(xs).value + 3.0 * sqrt(Variance(xs).value)
  }

  /** `calculate_average_threshold(range_i)` for a `steps x atoms` array. */
  function Threshold(m: seq<seq<real>>, atoms: nat, i: nat, sqrt: real -> real): (r: Result<real, SampleError>)
    requires i < 4 && Rectangular(m, atoms)
    ensures r.Err? <==> atoms < Bound(i) || m == []
    ensures r.Err? && m != [] ==> r.error == IndexError
  {
    if atoms < Bound(i) then Err(IndexError)
    else
      var ts := seq(|m|, s requires 0 <= s < |m| => StepThreshold(m[s], i, sqrt));
      match Mean(ts)
      case None => Err(NoSteps)
      case Some(t) => Ok(t)
  }

  /** The steps of `0 .. n-1` at which atom `b` is above `t`, in order. */
  function Above(m: seq<seq<real>>, b: nat, t: real, n: nat): seq<nat>
    requires n <= |m| && forall s :: 0 <= s < |m| ==> b < |m[s]|
  {
    if n == 0 then []
    else if m[n - 1][b] > t then Above(m, b, t, n - 1) + [n - 1]
    else Above(m, b, t, n - 1)
  }

  /** `Above` lists, in increasing order, exactly the steps before `n` at
      which atom `b` is above `t`. */
  lemma {:induction false} AboveFacts(m: seq<seq<real>>, b: nat, t: real, n: nat)
    requires n <= |m| && forall s :: 0 <= s < |m| ==> b < |m[s]|
    ensures forall x: nat :: x in Above(m, b, t, n) <==> x < n && m[x][b] > t
    ensures Increasing(Above(m, b, t, n))
  {
    if n > 0 {
      AboveFacts(m, b, t, n - 1);
      var prev := Above(m, b, t, n - 1);
      forall k | 0 <= k < |prev|
        ensures prev[k] < n - 1
      {
        assert prev[k] in prev;
      }
    }
  }

  /** How many steps atom `b` has been checked in when the loops stand at
      step `s`, atom `a`. */
  function Progress(b: nat, s: nat, a: nat): nat {
    if b < a then s + 1 else s
  }

  /** The dictionary `all_occurrences_range_i` when the loops stand at step
      `s`, atom `a` and the range's threshold is `t`: an entry per atom of the
      range with a step above `t`, listing those steps in order. */
  function Dict(m: seq<seq<real>>, atoms: nat, t: Result<real, SampleError>, i: nat, s: nat, a: nat): (d: map<nat, seq<nat>>)
    requires Rectangular(m, atoms) && s <= |m| && a <= atoms && (a == 0 || s < |m|)
    ensures forall b :: b in d ==> b < atoms && RangeOf(b) == Some(i) && d[b] != []
    ensures t.Err? ==> d == map[]
  {
    match t
    case Err(_) => map[]
    case Ok(t) =>
      map b | 0 <= b < atoms && RangeOf(b) == Some(i) && Above(m, b, t, Progress(b, s, a)) != []
        :: Above(m, b, t, Progress(b, s, a))
  }

  /** The thresholds of the four ranges. */
  function Thresholds(m: seq<seq<real>>, atoms: nat, sqrt: real -> real): (ts: seq<Result<real, SampleError>>)
    requires Rectangular(m, atoms)
    ensures |ts| == 4
  {
    seq(4, i requires 0 <= i < 4 => Threshold(m, atoms, i, sqrt))
  }

  /** The four dictionaries at step `s`, atom `a`, under thresholds `ts`. */
  function Dicts(m: seq<seq<real>>, atoms: nat, ts: seq<Result<real, SampleError>>, s: nat, a: nat): (r: seq<map<nat, seq<nat>>>)
    requires Rectangular(m, atoms) && |ts| == 4 && s <= |m| && a <= atoms && (a == 0 || s < |m|)
    ensures |r| == 4
  {
    seq(4, i requires 0 <= i < 4 => Dict(m, atoms, ts[i], i, s, a))
  }

  /** Every atom checked so far lies in a range whose atoms all exist, so
      its threshold was computed. */
  predicate Clean(atoms: nat, s: nat, a: nat) {
    forall b :: 0 <= b < atoms && RangeOf(b).Some? && Progress(b, s, a) > 0 ==> Bound(RangeOf(b).value) <= atoms
  }

  /** Some atom lies in a range reaching past the last atom: indexing
      `node_sd[:, range_i]` raises the IndexError. */
  predicate Fails(atoms: nat) {
    exists b :: 0 <= b < atoms && RangeOf(b).Some? && atoms < Bound(RangeOf(b).value)
  }

  /** The four dictionaries the loops build over a `steps x atoms` array, or
      the IndexError of the first range without a threshold. */
  function Collected(m: seq<seq<real>>, atoms: nat, sqrt: real -> real): (r: Result<seq<map<nat, seq<nat>>>, SampleError>)
    requires Rectangular(m, atoms)
    ensures r.Ok? ==> |r.value| == 4
    ensures r.Err? ==> r.error == IndexError && m != []
    ensures !Fails(atoms) ==> r.Ok?
  {
    if m != [] && Fails(atoms) then Err(IndexError) else Ok(Dicts(m, atoms, Thresholds(m, atoms, sqrt), |m|, 0))
  }

  /** Checking atom `a` in step `s` leaves the dictionaries of the other
      ranges as they are. */
  lemma DictOtherRange(m: seq<seq<real>>, atoms: nat, t: Result<real, SampleError>, i: nat, s: nat, a: nat)
    requires Rectangular(m, atoms) && s < |m| && a < atoms && RangeOf(a) != Some(i)
    ensures Dict(m, atoms, t, i, s, a + 1) == Dict(m, atoms, t, i, s, a)
  {
    if t.Ok? {
      var d := Dict(m, atoms, t, i, s, a);
      var e := Dict(m, atoms, t, i, s, a + 1);
      forall b: nat
        ensures (b in e <==> b in d) && (b in e ==> e[b] == d[b])
      {
        if RangeOf(b) == Some(i) {
          assert Progress(b, s, a + 1) == Progress(b, s, a);
        }
      }
    }
  }

  /** Checking atom `a` of range `i` in step `s` appends `s` to its entry,
      creating it, when the atom is above the threshold, and changes nothing
      else. */
  lemma DictOwnRange(m: seq<seq<real>>, atoms: nat, t: real, i: nat, s: nat, a: nat)
    requires Rectangular(m, atoms) && s < |m| && a < atoms && RangeOf(a) == Some(i)
    ensures var d := Dict(m, atoms, Ok(t), i, s, a);
      var cur := if a in d then d[a] else [];
      Dict(m, atoms, Ok(t), i, s, a + 1) == if m[s][a] > t then d[a := cur + [s]] else d
  {
    var d := Dict(m, atoms, Ok(t), i, s, a);
    var e := Dict(m, atoms, Ok(t), i, s, a + 1);
    var cur := if a in d then d[a] else [];
    assert cur == Above(m, a, t, s);
    var d' := if m[s][a] > t then d[a := cur + [s]] else d;
    assert Above(m, a, t, s + 1) == if m[s][a] > t then cur + [s] else cur;
    forall b: nat
      ensures (b in e <==> b in d') && (b in e ==> e[b] == d'[b])
    {
      if RangeOf(b) == Some(i) && b != a {
        assert Progress(b, s, a + 1) == Progress(b, s, a);
      }
    }
  }

  /** Finishing the atoms of step `s` is starting step `s + 1`. */
  lemma NextStep(m: seq<seq<real>>, atoms: nat, ts: seq<Result<real, SampleError>>, s: nat)
    requires Rectangular(m, atoms) && |ts| == 4 && s < |m|
    ensures Dicts(m, atoms, ts, s, atoms) == Dicts(m, atoms, ts, s + 1, 0)
    ensures Clean(atoms, s, atoms) ==> Clean(atoms, s + 1, 0)
  {
    forall i | 0 <= i < 4
      ensures Dict(m, atoms, ts[i], i, s, atoms) == Dict(m, atoms, ts[i], i, s + 1, 0)
    {
    }
  }

  /** The four dictionaries that start out empty. */
  lemma Start(m: seq<seq<real>>, atoms: nat, ts: seq<Result<real, SampleError>>)
    requires Rectangular(m, atoms) && |ts| == 4
    ensures Dicts(m, atoms, ts, 0, 0) == [map[], map[], map[], map[]]
  {
    forall i | 0 <= i < 4
      ensures Dict(m, atoms, ts[i], i, 0, 0) == map[]
    {
    }
  }

  /** After every step has been checked cleanly, no range lacks its atoms. */
  lemma CleanEnd(atoms: nat, steps: nat)
    requires steps > 0 && Clean(atoms, steps, 0)
    ensures !Fails(atoms)
  {
    forall b | 0 <= b < atoms && RangeOf(b).Some?
      ensures Bound(RangeOf(b).value) <= atoms
    {
      assert Progress(b, steps, 0) > 0;
    }
  }

  /** The loops fail exactly for the atom counts that cut a range short:
      64, 96 and 144 atoms and more complete the ranges they reach. */
  lemma FailsExactly(atoms: nat)
    ensures Fails(atoms) <==> 0 < atoms < 64 || 64 < atoms < 96 || 96 < atoms < 144
  {
    if 0 < atoms < 64 {
      assert RangeOf(0) == Some(0);
    } else if 64 < atoms < 96 {
      assert RangeOf(64) == Some(2);
    } else if 96 < atoms < 144 {
      assert RangeOf(96) == Some(3);
    } else {
      forall b | 0 <= b < atoms && RangeOf(b).Some?
        ensures Bound(RangeOf(b).value) <= atoms
      {
      }
    }
  }

  /** The `for step ... for atom ...` loops. `calculate_average_threshold`
      is recomputed for every atom checked, as in the script. */
  method CollectOccurrences(m: seq<seq<real>>, atoms: nat, sqrt: real -> real)
    returns (r: Result<seq<map<nat, seq<nat>>>, SampleError>)
    requires Rectangular(m, atoms)
    ensures r == Collected(m, atoms, sqrt)
  {
    ghost var ts := Thresholds(m, atoms, sqrt);
    var occ: seq<map<nat, seq<nat>>> := [map[], map[], map[], map[]];
    Start(m, atoms, ts);
    var step := 0;
    while step < |m|
      invariant step <= |m|
      invariant occ == Dicts(m, atoms, ts, step, 0)
      invariant Clean(atoms, step, 0)
    {
      var next := CheckStep(m, atoms, sqrt, ts, step, occ);
      if next.Err? {
        return Err(IndexError);
      }
      occ := next.value;
      step := step + 1;
    }
    if m != [] {
      CleanEnd(atoms, |m|);
    }
    r := Ok(occ);
  }

  /** The inner `for atom in range(atoms)` loop for one step. */
  method CheckStep(m: seq<seq<real>>, atoms: nat, sqrt: real -> real, ghost ts: seq<Result<real, SampleError>>,
                   step: nat, occ0: seq<map<nat, seq<nat>>>)
    returns (r: Result<seq<map<nat, seq<nat>>>, SampleError>)
    requires Rectangular(m, atoms) && ts == Thresholds(m, atoms, sqrt) && step < |m|
    requires occ0 == Dicts(m, atoms, ts, step, 0) && Clean(atoms, step, 0)
    ensures r.Err? ==> Fails(atoms)
    ensures r.Ok? ==> r.value == Dicts(m, atoms, ts, step + 1, 0) && Clean(atoms, step + 1, 0)
  {
    var occ := occ0;
    for atom := 0 to atoms
      invariant occ == Dicts(m, atoms, ts, step, atom)
      invariant Clean(atoms, step, atom)
    {
      var next := CheckAtom(m, atoms, sqrt, ts, step, atom, occ);
      if next.Err? {
        return Err(IndexError);
      }
      occ := next.value;
    }
    NextStep(m, atoms, ts, step);
    r := Ok(occ);
  }

  /** The body of the loops for step `step` and atom `atom`: the `if/elif`
      chain, the threshold of the atom's range and the append to its list. */
  method CheckAtom(m: seq<seq<real>>, atoms: nat, sqrt: real -> real, ghost ts: seq<Result<real, SampleError>>,
                   step: nat, atom: nat, occ: seq<map<nat, seq<nat>>>)
    returns (r: Result<seq<map<nat, seq<nat>>>, SampleError>)
    requires Rectangular(m, atoms) && ts == Thresholds(m, atoms, sqrt) && step < |m| && atom < atoms
    requires occ == Dicts(m, atoms, ts, step, atom) && Clean(atoms, step, atom)
    ensures r.Err? ==> Fails(atoms)
    ensures r.Ok? ==> r.value == Dicts(m, atoms, ts, step, atom + 1) && Clean(atoms, step, atom + 1)
  {
    var g := RangeOf(atom);
    if g.None? {
      forall i | 0 <= i < 4 {
        DictOtherRange(m, atoms, ts[i], i, step, atom);
      }
      return Ok(occ);
    }
    var i := g.value;
    var th := Threshold(m, atoms, i, sqrt);
    if th.Err? {
      return Err(IndexError);
    }
    assert ts[i] == th;
    forall j | 0 <= j < 4 && j != i {
      DictOtherRange(m, atoms, ts[j], j, step, atom);
    }
    DictOwnRange(m, atoms, th.value, i, step, atom);
    var d := occ[i];
    if m[step][atom] > th.value {
      var cur := if atom in d then d[atom] else [];
      var d': map<nat, seq<nat>> := d[atom := cur + [step]];
      r := Ok(occ[i := d']);
    } else {
      r := Ok(occ);
    }
    assert r.value == Dicts(m, atoms, ts, step, atom + 1);
  }

  /** The steps held by the dictionaries `occ[0 .. n-1]`. */
  function StepsUpTo(occ: seq<map<nat, seq<nat>>>, n: nat): set<nat>
    requires n <= |occ|
  {
    if n == 0 then {} else StepsUpTo(occ, n - 1) + StepsIn(occ[n - 1], occ[n - 1].Keys)
  }

  /** The steps held by the entries `keys` of one dictionary. */
  function StepsIn(d: map<nat, seq<nat>>, keys: set<nat>): set<nat> {
    set b, x | b in keys && b in d && x in d[b] :: x
  }

  /** `all_steps`: the union of every recorded list. */
  function AllSteps(occ: seq<map<nat, seq<nat>>>): set<nat> {
    StepsUpTo(occ, |occ|)
  }

  lemma StepsInStep(d: map<nat, seq<nat>>, done: set<nat>, b: nat)
    requires b in d
    ensures StepsIn(d, done + {b}) == StepsIn(d, done) + Elements(d[b])
  {
  }

  /** The `all_steps.update(steps)` loops over the four dictionaries. */
  method UnionSteps(occ: seq<map<nat, seq<nat>>>) returns (all: set<nat>)
    ensures all == AllSteps(occ)
  {
    all := {};
    var i := 0;
    while i < |occ|
      invariant i <= |occ|
      invariant all == StepsUpTo(occ, i)
    {
      var steps := DictSteps(occ[i]);
      all := all + steps;
      i := i + 1;
    }
  }

  /** The inner loop over `atom_occurrences.values()`, in any order. */
  method DictSteps(d: map<nat, seq<nat>>) returns (all: set<nat>)
    ensures all == StepsIn(d, d.Keys)
  {
    all := {};
    var todo := d.Keys;
    ghost var done: set<nat> := {};
    while todo != {}
      invariant todo + done == d.Keys && todo !! done
      invariant all == StepsIn(d, done)
      decreases |todo|
    {
      var b :| b in todo;
      StepsInStep(d, done, b);
      all := all + Elements(d[b]);
      todo := todo - {b};
      done := done + {b};
    }
  }

  /** Atom `b` of step `x` lies in one of the ranges and is above that
      range's threshold. */
  predicate AboveThreshold(m: seq<seq<real>>, atoms: nat, sqrt: real -> real, x: nat, b: nat)
    requires Rectangular(m, atoms) && x < |m| && b < atoms
  {
    RangeOf(b).Some? && Threshold(m, atoms, RangeOf(b).value, sqrt).Ok?
      && m[x][b] > Threshold(m, atoms, RangeOf(b).value, sqrt).value
  }

  /** The final dictionary of range `i` has an entry exactly for the atoms
      of the range that exceed its threshold in some step, and that entry
      lists, in increasing order, exactly the steps in which they do. */
  lemma DictFacts(m: seq<seq<real>>, atoms: nat, sqrt: real -> real, i: nat, b: nat)
    requires Rectangular(m, atoms) && i < 4
    requires Collected(m, atoms, sqrt).Ok?
    ensures var d := Collected(m, atoms, sqrt).value[i];
      var t := Threshold(m, atoms, i, sqrt);
      (b in d <==> b < atoms && InRange(i, b) && t.Ok? && exists x: nat :: x < |m| && m[x][b] > t.value)
      && (b in d ==> Increasing(d[b]) && forall x: nat :: x in d[b] <==> x < |m| && m[x][b] > t.value)
  {
    var d := Collected(m, atoms, sqrt).value[i];
    var t := Threshold(m, atoms, i, sqrt);
    assert Thresholds(m, atoms, sqrt)[i] == t;
    assert d == Dict(m, atoms, t, i, |m|, 0);
    RangesPartition(b, i, i);
    if b < atoms && InRange(i, b) && t.Ok? {
      assert Progress(b, |m|, 0) == |m|;
      var r := Above(m, b, t.value, |m|);
      AboveFacts(m, b, t.value, |m|);
      assert b in d <==> r != [];
      if exists x: nat :: x < |m| && m[x][b] > t.value {
        var x: nat :| x < |m| && m[x][b] > t.value;
        assert x in r;
      }
      if r != [] {
        assert r[0] in r;
      }
    }
  }

  lemma {:induction false} StepsUpToMembers(occ: seq<map<nat, seq<nat>>>, n: nat, x: nat)
    requires n <= |occ|
    ensures x in StepsUpTo(occ, n) <==> exists i, b :: 0 <= i < n && b in occ[i] && x in occ[i][b]
  {
    if n > 0 {
      StepsUpToMembers(occ, n - 1, x);
    }
  }

  /** A step is in `all_steps` exactly when some atom of one of the ranges is
      above its range's threshold in that step. */
  lemma AllStepsAreSpikes(m: seq<seq<real>>, atoms: nat, sqrt: real -> real, x: nat)
    requires Rectangular(m, atoms)
    requires Collected(m, atoms, sqrt).Ok?
    ensures x in AllSteps(Collected(m, atoms, sqrt).value) <==>
      (x < |m| && exists b :: 0 <= b < atoms && AboveThreshold(m, atoms, sqrt, x, b))
  {
    var occ := Collected(m, atoms, sqrt).value;
    StepsUpToMembers(occ, 4, x);
    if x in AllSteps(occ) {
      var i, b :| 0 <= i < 4 && b in occ[i] && x in occ[i][b];
      DictFacts(m, atoms, sqrt, i, b);
      RangesPartition(b, i, i);
      assert AboveThreshold(m, atoms, sqrt, x, b);
    }
    if x < |m| && exists b :: 0 <= b < atoms && AboveThreshold(m, atoms, sqrt, x, b) {
      var b :| 0 <= b < atoms && AboveThreshold(m, atoms, sqrt, x, b);
      var i := RangeOf(b).value;
      DictFacts(m, atoms, sqrt, i, b);
      assert x in occ[i][b];
    }
  }

  /** An atom outside all four ranges is never recorded. */
  lemma OutsideNeverRecorded(m: seq<seq<real>>, atoms: nat, sqrt: real -> real, b: nat)
    requires Rectangular(m, atoms) && b >= 144
    requires Collected(m, atoms, sqrt).Ok?
    ensures forall i :: 0 <= i < 4 ==> b !in Collected(m, atoms, sqrt).value[i]
  {
  }

  /** No element twice. */
  predicate Distinct(r: seq<nat>) {
    forall i, j :: 0 <= i < j < |r| ==> r[i] != r[j]
  }

  /** When `shuffled` lists each step of `all` once (what `list` and
      `random.shuffle` produce), the sample holds `min(100, |all|)` distinct
      steps of `all`. */
  lemma SampleFacts(all: set<nat>, shuffled: seq<nat>)
    requires Distinct(shuffled) && Elements(shuffled) == all
    ensures var r := FirstHundred(shuffled);
      Distinct(r) && (forall x :: x in r ==> x in all)
      && |r| == (if |all| < 100 then |all| else 100)
  {
    DistinctCount(shuffled);
    var r := FirstHundred(shuffled);
    forall x | x in r
      ensures x in all
    {
      var k :| 0 <= k < |r| && r[k] == x;
      assert shuffled[k] == x;
    }
  }

  lemma {:induction false} DistinctCount(r: seq<nat>)
    requires Distinct(r)
    ensures |Elements(r)| == |r|
  {
    if r != [] {
      var init := r[..|r| - 1];
      DistinctCount(init);
      assert r[|r| - 1] !in Elements(init) by {
        forall x | x in init
          ensures x != r[|r| - 1]
        {
          var k :| 0 <= k < |init| && init[k] == x;
          assert r[k] == x;
        }
      }
    }
  }

  /** The script after reading `node_sd` (`m`, `steps x atoms`): the sample
      of the spike steps, listed by `shuffle` (`list` and `random.shuffle`). */
  function SampledSteps(m: seq<seq<real>>, atoms: nat, sqrt: real -> real, shuffle: set<nat> -> seq<nat>): (r: Result<seq<nat>, SampleError>)
    requires Rectangular(m, atoms)
    ensures r.Err? <==> m != [] && Fails(atoms)
  {
    match Collected(m, atoms, sqrt)
    case Err(e) => Err(e)
    case Ok(occ) => Ok(FirstHundred(shuffle(AllSteps(occ))))
  }

  /** When `shuffle` lists each step of its set once, the script samples
      `min(100, |all_steps|)` distinct steps, each a step in which some atom
      of a range is above its range's threshold. */
  lemma SampledStepsAreSpikes(m: seq<seq<real>>, atoms: nat, sqrt: real -> real, shuffle: set<nat> -> seq<nat>)
    requires Rectangular(m, atoms)
    requires SampledSteps(m, atoms, sqrt, shuffle).Ok?
    requires var all := AllSteps(Collected(m, atoms, sqrt).value);
      Distinct(shuffle(all)) && Elements(shuffle(all)) == all
    ensures var all := AllSteps(Collected(m, atoms, sqrt).value);
      var r := SampledSteps(m, atoms, sqrt, shuffle).value;
      Distinct(r) && |r| == (if |all| < 100 then |all| else 100)
      && forall x :: x in r ==> x < |m| && exists b :: 0 <= b < atoms && AboveThreshold(m, atoms, sqrt, x, b)
  {
    var all := AllSteps(Collected(m, atoms, sqrt).value);
    SampleFacts(all, shuffle(all));
    var r := SampledSteps(m, atoms, sqrt, shuffle).value;
    forall x | x in r
      ensures x < |m| && exists b :: 0 <= b < atoms && AboveThreshold(m, atoms, sqrt, x, b)
    {
      AllStepsAreSpikes(m, atoms, sqrt, x);
    }
  }
}
