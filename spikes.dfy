/** Spike detection over the per-atom uncertainties `node_sd[step, atom]` of
    an MD run: every (atom, step) whose value exceeds the mean plus three
    standard deviations of the whole array, the sorted distinct steps of those
    spikes, and the first hundred of them. */
module Spikes {
  import opened Wrappers
  import opened Stats

  /** The array's values in row-major order (what `numpy.mean` and
      `numpy.std` reduce over). */
  function Flatten(m: seq<seq<real>>): seq<real> {
    if m == [] then [] else Flatten(m[..|m| - 1]) + m[|m| - 1]
  }

  /** `mean + 3 * std` of the whole array; `None` for an empty array (NaN). */
  function Threshold(m: seq<seq<real>>, sqrt: real -> real): (r: Option<real>)
    ensures r.Some? <==> Flatten(m) != []
  {
    var xs := Flatten(m);
    match Mean(xs)
    case None => None
    case Some(mean) => Some(mean + 3.0 * sqrt(Variance(xs).value))
  }

  /** One recorded spike, stored as the tuple `(atom, step)`. */
  datatype Occurrence = Occurrence(atom: nat, step: nat)

  /** The spikes among atoms `0 .. k-1` of the row of step `step`. */
  function RowSpikes(row: seq<real>, step: nat, t: real, k: nat): (r: seq<Occurrence>)
    requires k <= |row|
    ensures forall o :: o in r <==> (o.step == step && o.atom < k && row[o.atom] > t)
  {
    if k == 0 then []
    else
      var prev := RowSpikes(row, step, t, k - 1);
      if row[k - 1] > t then prev + [Occurrence(k - 1, step)] else prev
  }

  /** The spikes among steps `0 .. n-1`, step-major. */
  function Occurrences(m: seq<seq<real>>, t: real, n: nat): (r: seq<Occurrence>)
    requires n <= |m|
    ensures forall o :: o in r ==> o.step < n && o.atom < |m[o.step]| && m[o.step][o.atom] > t
  {
    if n == 0 then [] else Occurrences(m, t, n - 1) + RowSpikes(m[n - 1], n - 1, t, |m[n - 1]|)
  }

  /** `(atom, step)` is recorded exactly when `node_sd[step, atom]` is
      above the threshold. */
  lemma {:induction false} OccurrencesIff(m: seq<seq<real>>, t: real, n: nat, o: Occurrence)
    requires n <= |m|
    ensures o in Occurrences(m, t, n) <==> (o.step < n && o.atom < |m[o.step]| && m[o.step][o.atom] > t)
  {
    if n > 0 {
      OccurrencesIff(m, t, n - 1, o);
    }
  }

  /** Step-major, atom-minor order: `o` comes strictly before `p`. */
  predicate Before(o: Occurrence, p: Occurrence) {
    o.step < p.step || (o.step == p.step && o.atom < p.atom)
  }

  predicate InOrder(os: seq<Occurrence>) {
    forall i, j :: 0 <= i < j < |os| ==> Before(os[i], os[j])
  }

  lemma {:induction false} RowSpikesInOrder(row: seq<real>, step: nat, t: real, k: nat)
    requires k <= |row|
    ensures InOrder(RowSpikes(row, step, t, k))
    ensures forall o :: o in RowSpikes(row, step, t, k) ==> o.atom < k
  {
    if k > 0 {
      RowSpikesInOrder(row, step, t, k - 1);
    }
  }

  /** The occurrences are listed in step-major, atom-minor order. */
  lemma {:induction false} OccurrencesInOrder(m: seq<seq<real>>, t: real, n: nat)
    requires n <= |m|
    ensures InOrder(Occurrences(m, t, n))
    ensures forall o :: o in Occurrences(m, t, n) ==> o.step < n
  {
    if n > 0 {
      OccurrencesInOrder(m, t, n - 1);
      var prev := Occurrences(m, t, n - 1);
      var row := RowSpikes(m[n - 1], n - 1, t, |m[n - 1]|);
      RowSpikesInOrder(m[n - 1], n - 1, t, |m[n - 1]|);
      var all := prev + row;
      forall i, j | 0 <= i < j < |all|
        ensures Before(all[i], all[j])
      {
        if j < |prev| {
          assert all[i] == prev[i] && all[j] == prev[j];
        } else if i >= |prev| {
          assert all[i] == row[i - |prev|] && all[j] == row[j - |prev|];
        } else {
          assert all[i] == prev[i] && all[i] in prev;
          assert all[j] == row[j - |prev|] && all[j] in row;
        }
      }
    }
  }

  /** The `for step ... for atom ...` loops filling `all_occurrences`. */
  method FindSpikes(m: seq<seq<real>>, t: real) returns (occ: seq<Occurrence>)
    ensures occ == Occurrences(m, t, |m|)
  {
    occ := [];
    var step := 0;
    while step < |m|
      invariant step <= |m|
      invariant occ == Occurrences(m, t, step)
    {
      occ := ScanRow(m[step], step, t, occ);
      step := step + 1;
    }
  }

  /** The inner `for atom in range(atoms)` loop for one step, appending to
      `occ`. */
  method ScanRow(row: seq<real>, step: nat, t: real, occ0: seq<Occurrence>) returns (occ: seq<Occurrence>)
    ensures occ == occ0 + RowSpikes(row, step, t, |row|)
  {
    occ := occ0;
    var atom := 0;
    while atom < |row|
      invariant atom <= |row|
      invariant occ == occ0 + RowSpikes(row, step, t, atom)
    {
      RowSpikesStep(row, step, t, atom);
      if row[atom] > t {
        occ := occ + [Occurrence(atom, step)];
      }
      atom := atom + 1;
    }
  }

  lemma RowSpikesStep(row: seq<real>, step: nat, t: real, k: nat)
    requires k < |row|
    ensures RowSpikes(row, step, t, k + 1)
      == if row[k] > t then RowSpikes(row, step, t, k) + [Occurrence(k, step)] else RowSpikes(row, step, t, k)
  {
  }

  /** Strictly increasing: sorted and free of duplicates. */
  predicate Increasing(r: seq<nat>) {
    forall i, j :: 0 <= i < j < |r| ==> r[i] < r[j]
  }

  /** `x` put into its place in an increasing sequence (nothing if present). */
  function Insert(r: seq<nat>, x: nat): (q: seq<nat>)
    requires Increasing(r)
    ensures Increasing(q)
    ensures forall y :: y in q <==> y in r || y == x
  {
    if r == [] then [x]
    else if x < r[0] then
      ConsIncreasing(x, r);
      [x] + r
    else if x == r[0] then r
    else
      var tail := Insert(r[1..], x);
      RestAboveFirst(r);
      assert tail != [] ==> tail[0] in tail;
      ConsIncreasing(r[0], tail);
      assert r == [r[0]] + r[1..];
      [r[0]] + tail
  }

  /** Putting a smaller element in front keeps a sequence increasing. */
  lemma ConsIncreasing(a: nat, t: seq<nat>)
    requires Increasing(t) && (t != [] ==> a < t[0])
    ensures Increasing([a] + t)
  {
    var q := [a] + t;
    forall i, j | 0 <= i < j < |q|
      ensures q[i] < q[j]
    {
      assert q[j] == t[j - 1];
      if i == 0 {
        if j > 1 {
          assert t[0] < t[j - 1];
        }
      } else {
        assert q[i] == t[i - 1];
      }
    }
  }

  /** Everything after the head of an increasing sequence is above it. */
  lemma RestAboveFirst(r: seq<nat>)
    requires Increasing(r) && r != []
    ensures forall y :: y in r[1..] ==> r[0] < y
  {
    forall y | y in r[1..]
      ensures r[0] < y
    {
      var k :| 0 <= k < |r[1..]| && r[1..][k] == y;
      assert r[k + 1] == y;
    }
  }

  /** The set of steps of a list of occurrences. */
  function StepSet(os: seq<Occurrence>): set<nat> {
    set o | o in os :: o.step
  }

  /** `sorted({step for _, step in all_occurrences})`. */
  function UniqueSteps(os: seq<Occurrence>): (r: seq<nat>)
    ensures Increasing(r)
    ensures forall x :: x in r <==> x in StepSet(os)
  {
    if os == [] then []
    else
      var prev := UniqueSteps(os[..|os| - 1]);
      assert forall o :: o in os <==> o in os[..|os| - 1] || o == os[|os| - 1] by {
        assert os == os[..|os| - 1] + [os[|os| - 1]];
      }
      Insert(prev, os[|os| - 1].step)
  }

  lemma FirstIsLeast(r: seq<nat>, x: nat)
    requires Increasing(r) && x in r
    ensures r[0] <= x
  {
    var k :| 0 <= k < |r| && r[k] == x;
    assert k == 0 || r[0] < r[k];
  }

  lemma RestIsAboveFirst(r: seq<nat>, x: nat)
    requires Increasing(r) && x in r && x != r[0]
    ensures x in r[1..] && r[0] < x
  {
    var k :| 0 <= k < |r| && r[k] == x;
    assert k != 0;
    assert r[1..][k - 1] == x;
  }

  /** There is only one increasing enumeration of a set, so `UniqueSteps`
      is what `sorted` returns. */
  lemma {:induction false} IncreasingIsUnique(r: seq<nat>, q: seq<nat>)
    requires Increasing(r) && Increasing(q)
    requires forall x :: x in r <==> x in q
    ensures r == q
    decreases |r|
  {
    assert (r != [] ==> r[0] in q) && (q != [] ==> q[0] in r);
    if r != [] && q != [] {
      FirstIsLeast(q, r[0]);
      FirstIsLeast(r, q[0]);
      forall x
        ensures x in r[1..] <==> x in q[1..]
      {
        if x in r[1..] {
          assert x in r && r[0] < x;
          RestIsAboveFirst(q, x);
        }
        if x in q[1..] {
          assert x in q && q[0] < x;
          RestIsAboveFirst(r, x);
        }
      }
      IncreasingIsUnique(r[1..], q[1..]);
      assert r == [r[0]] + r[1..] && q == [q[0]] + q[1..];
    }
  }

  /** The set of the elements of `r`. */
  function Elements(r: seq<nat>): (e: set<nat>)
    ensures forall x :: x in e <==> x in r
  {
    if r == [] then {}
    else
      assert r == r[..|r| - 1] + [r[|r| - 1]];
      Elements(r[..|r| - 1]) + {r[|r| - 1]}
  }

  /** An increasing sequence lists each of its elements once, so
      `unique_step_count` is the number of distinct spike steps. */
  lemma {:induction false} IncreasingCount(r: seq<nat>)
    requires Increasing(r)
    ensures |Elements(r)| == |r|
  {
    if r != [] {
      var init := r[..|r| - 1];
      var last := r[|r| - 1];
      IncreasingCount(init);
      forall x | x in init
        ensures x < last
      {
        var k :| 0 <= k < |init| && init[k] == x;
        assert r[k] == x;
      }
      assert last !in Elements(init);
    }
  }

  /** `unique_steps[:100]`. */
  function FirstHundred(r: seq<nat>): (p: seq<nat>)
    ensures |p| == if |r| < 100 then |r| else 100
    ensures p == r[..|p|]
  {
    if |r| <= 100 then r else r[..100]
  }

  /** What the script prints: the occurrences, the unique steps, their
      count and the first hundred of them. */
  datatype Report = Report(occurrences: seq<Occurrence>, uniqueSteps: seq<nat>, count: nat, first: seq<nat>)

  /** The script on the array `m`; `sqrt` is the square root. */
  function Analyse(m: seq<seq<real>>, sqrt: real -> real): (r: Report)
    ensures r.count == |r.uniqueSteps| && |r.first| <= 100 && |r.first| <= |r.uniqueSteps| && r.first == r.uniqueSteps[..|r.first|]
  {
    var occ := match Threshold(m, sqrt)
      case None => []
      case Some(t) => Occurrences(m, t, |m|);
    var u := UniqueSteps(occ);
    Report(occ, u, |u|, FirstHundred(u))
  }

  /** The report's count is the number of distinct spike steps, and its
      prefix holds the smallest `min(100, count)` of them in order. */
  lemma AnalyseFacts(m: seq<seq<real>>, sqrt: real -> real)
    ensures var r := Analyse(m, sqrt);
      r.count == |StepSet(r.occurrences)| && Increasing(r.first)
      && (forall x :: x in r.uniqueSteps <==> x in StepSet(r.occurrences))
      && |r.first| == (if r.count < 100 then r.count else 100)
  {
    var r := Analyse(m, sqrt);
    IncreasingCount(r.uniqueSteps);
    assert Elements(r.uniqueSteps) == StepSet(r.occurrences);
  }
}
