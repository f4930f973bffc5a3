/** What the structure-generation scripts do to an ASE `Atoms` object in
    place, and the helpers every one of them defines: the cell strain, the
    top-layer moves, the minimum pair distance of the seed bulk and the
    one-element check. ASE's own work (building slabs and bulks, adding
    adsorbates, rattling, the closeness test and the position rescaling done
    by `set_cell(..., scale_atoms=True)`) is passed in as parameters. */
module Slab {
  import opened Wrappers
  import opened Geometry
  import opened Stats

  /** A structure as a value: three cell rows and the atom positions. */
  datatype Structure = Structure(cell: seq<Vec3>, positions: seq<Vec3>)

  /** `set_cell(cell, scale_atoms=True)` on the positions: the new positions
      for the old cell, the new cell and the old positions. */
  type Rescale = (seq<Vec3>, seq<Vec3>, seq<Vec3>) -> seq<Vec3>

  /** The cell with its first `k` rows scaled by `s`. */
  function StrainedCell(cell: seq<Vec3>, s: real, k: nat): (r: seq<Vec3>)
    requires |cell| == 3
    ensures |r| == 3
  {
    seq(3, i requires 0 <= i < 3 => if i < k then Scale(s, cell[i]) else cell[i])
  }

  lemma ScaleInverse(s: real, v: Vec3)
    requires s != 0.0
    ensures Scale(1.0 / s, Scale(s, v)) == v
  {
    var t := 1.0 / s;
    assert t * s == 1.0;
    assert t * (s * v.x) == (t * s) * v.x;
    assert t * (s * v.y) == (t * s) * v.y;
    assert t * (s * v.z) == (t * s) * v.z;
  }

  /** Straining the same rows by `1/s` undoes a strain by `s`. */
  lemma StrainInverse(cell: seq<Vec3>, s: real, k: nat)
    requires |cell| == 3 && s != 0.0
    ensures StrainedCell(StrainedCell(cell, s, k), 1.0 / s, k) == cell
  {
    var r := StrainedCell(StrainedCell(cell, s, k), 1.0 / s, k);
    forall i | 0 <= i < 3
      ensures r[i] == cell[i]
    {
      if i < k {
        ScaleInverse(s, cell[i]);
      }
    }
  }

  /** Two strains of the same rows make one strain by the product. */
  lemma StrainCompose(cell: seq<Vec3>, s: real, t: real, k: nat)
    requires |cell| == 3
    ensures StrainedCell(StrainedCell(cell, s, k), t, k) == StrainedCell(cell, t * s, k)
  {
    var r := StrainedCell(StrainedCell(cell, s, k), t, k);
    forall i | 0 <= i < 3
      ensures r[i] == StrainedCell(cell, t * s, k)[i]
    {
      if i < k {
        var v := cell[i];
        assert t * (s * v.x) == (t * s) * v.x;
        assert t * (s * v.y) == (t * s) * v.y;
        assert t * (s * v.z) == (t * s) * v.z;
      }
    }
  }

  /** `1e-2`: atoms this close in z to the reference atom are in its layer. */
  const LayerTolerance: real := 0.01

  /** The positions after `move_top_layer(atoms, disp)`: every atom within
      the tolerance of the last atom's height is raised by `disp`. Only
      heights change, only in the top layer, and always for the last atom,
      which defines that layer. */
  function TopLayerMoved(pos: seq<Vec3>, disp: real): (r: seq<Vec3>)
    requires pos != []
    ensures |r| == |pos| && r[|pos| - 1].z == pos[|pos| - 1].z + disp
    ensures forall i :: 0 <= i < |pos| ==>
      r[i].x == pos[i].x && r[i].y == pos[i].y
      && r[i].z == if Abs(pos[i].z - pos[|pos| - 1].z) < LayerTolerance then pos[i].z + disp else pos[i].z
  {
    var z := pos[|pos| - 1].z;
    seq(|pos|, i requires 0 <= i < |pos| =>
      if Abs(pos[i].z - z) < LayerTolerance then Vec3(pos[i].x, pos[i].y, pos[i].z + disp) else pos[i])
  }

  /** The draws of `np.random.random(3)`: each component in [0, 1). */
  predicate InUnitCube(r: Vec3) {
    0.0 <= r.x < 1.0 && 0.0 <= r.y < 1.0 && 0.0 <= r.z < 1.0
  }

  /** `surfvec`: each component in [-0.2, 0.2), the height then raised to at
      least -0.08. */
  function SurfaceShift(r: Vec3): (v: Vec3)
    requires InUnitCube(r)
    ensures -0.2 <= v.x < 0.2 && -0.2 <= v.y < 0.2 && -0.08 <= v.z < 0.2
  {
    var v := Vec3((r.x - 0.5) * 2.0 * 0.2, (r.y - 0.5) * 2.0 * 0.2, (r.z - 0.5) * 2.0 * 0.2);
    v.(z := if v.z >= -0.08 then v.z else -0.08)
  }

  /** `adsvec`: each component in [-1.5, 1.5), the height then raised to at
      least -0.2. */
  function AdsorbateShift(r: Vec3): (v: Vec3)
    requires InUnitCube(r)
    ensures -1.5 <= v.x < 1.5 && -1.5 <= v.y < 1.5 && -0.2 <= v.z < 1.5
  {
    var v := Vec3((r.x - 0.5) * 2.0 * 1.5, (r.y - 0.5) * 2.0 * 1.5, (r.z - 0.5) * 2.0 * 1.5);
    v.(z := if v.z >= -0.2 then v.z else -0.2)
  }

  /** The adsorbate lies this far above the reference layer. */
  const AdsorbateGap: real := 0.2

  /** The positions after the random `move_top_layer(atoms)`: the layer of the
      second-to-last atom moves by `sv`, atoms more than 0.2 above it by `av`,
      all others stay. */
  function Jiggled(pos: seq<Vec3>, sv: Vec3, av: Vec3): (r: seq<Vec3>)
    requires |pos| >= 2
    ensures |r| == |pos| && r[|pos| - 2] == Add(pos[|pos| - 2], sv)
    ensures forall i :: 0 <= i < |pos| && pos[i].z <= pos[|pos| - 2].z - LayerTolerance ==> r[i] == pos[i]
  {
    var z := pos[|pos| - 2].z;
    seq(|pos|, i requires 0 <= i < |pos| =>
      if Abs(pos[i].z - z) < LayerTolerance then Add(pos[i], sv)
      else if pos[i].z - z > AdsorbateGap then Add(pos[i], av)
      else pos[i])
  }

  /** With the random draws in range, no atom moves more than 1.5 along x or
      y, none moves down by more than 0.2, the reference layer moves by at
      most 0.2 along x and y and down by at most 0.08, and atoms below the
      layer or within 0.2 above it (outside the layer) stay. */
  lemma JiggledBounds(pos: seq<Vec3>, r1: Vec3, r2: Vec3)
    requires |pos| >= 2 && InUnitCube(r1) && InUnitCube(r2)
    ensures var r := Jiggled(pos, SurfaceShift(r1), AdsorbateShift(r2)); var z := pos[|pos| - 2].z;
      |r| == |pos| && forall i :: 0 <= i < |pos| ==>
        Abs(r[i].x - pos[i].x) <= 1.5 && Abs(r[i].y - pos[i].y) <= 1.5 && r[i].z - pos[i].z >= -0.2
        && (Abs(pos[i].z - z) < LayerTolerance ==>
             Abs(r[i].x - pos[i].x) <= 0.2 && Abs(r[i].y - pos[i].y) <= 0.2 && r[i].z - pos[i].z >= -0.08)
        && (Abs(pos[i].z - z) >= LayerTolerance && pos[i].z - z <= AdsorbateGap ==> r[i] == pos[i])
  {
    var sv := SurfaceShift(r1);
    var av := AdsorbateShift(r2);
    var r := Jiggled(pos, sv, av);
    forall i | 0 <= i < |pos|
      ensures Abs(r[i].x - pos[i].x) <= 1.5 && Abs(r[i].y - pos[i].y) <= 1.5 && r[i].z - pos[i].z >= -0.2
    {
    }
  }

  /** The displacement of atom `k` once the first `done` atoms are handled. */
  function JiggleDelta(pos: seq<Vec3>, k: nat, done: nat, sv: Vec3, av: Vec3): Vec3
    requires 2 <= |pos| && k < |pos|
  {
    var z := pos[|pos| - 2].z;
    if k < done && Abs(pos[k].z - z) < LayerTolerance then sv
    else if k < done && pos[k].z - z > AdsorbateGap then av
    else Zero
  }

  /** Handling atom `i` changes only its own displacement, from zero to its
      shift. */
  lemma JiggleDeltaNext(pos: seq<Vec3>, i: nat, sv: Vec3, av: Vec3)
    requires 2 <= |pos| && i < |pos|
    ensures JiggleDelta(pos, i, i, sv, av) == Zero
    ensures var z := pos[|pos| - 2].z;
      JiggleDelta(pos, i, i + 1, sv, av)
      == if Abs(pos[i].z - z) < LayerTolerance then Add(Zero, sv)
         else if pos[i].z - z > AdsorbateGap then Add(Zero, av)
         else Zero
    ensures forall k :: 0 <= k < |pos| && k != i ==> JiggleDelta(pos, k, i + 1, sv, av) == JiggleDelta(pos, k, i, sv, av)
  {
    assert Add(Zero, sv) == sv && Add(Zero, av) == av;
  }

  /** Adding the complete displacement array gives the jiggled positions. */
  lemma JiggledByDelta(pos: seq<Vec3>, delta: seq<Vec3>, sv: Vec3, av: Vec3)
    requires 2 <= |pos| == |delta|
    requires forall k :: 0 <= k < |pos| ==> delta[k] == JiggleDelta(pos, k, |pos|, sv, av)
    ensures AddF(pos, delta) == Jiggled(pos, sv, av)
  {
    var r := AddF(pos, delta);
    forall k | 0 <= k < |pos|
      ensures r[k] == Jiggled(pos, sv, av)[k]
    {
      assert delta[k] == JiggleDelta(pos, k, |pos|, sv, av);
    }
  }

  /** `1e80`, the starting minimum. */
  const Huge: real := 1.0e80

  /** `np.dot(delta, delta)` for `delta = a - b`. */
  function SquaredDistance(a: Vec3, b: Vec3): real {
    Norm2(Sub(a, b))
  }

  /** The running minimum once atom `i` has been compared with the partners
      from `j` on, starting from `m`. */
  function RowMin(pos: seq<Vec3>, i: nat, j: nat, m: real): real
    requires i < |pos|
    decreases |pos| - j
  {
    if j >= |pos| then m
    else RowMin(pos, i, j + 1, if SquaredDistance(pos[i], pos[j]) < m then SquaredDistance(pos[i], pos[j]) else m)
  }

  /** The running minimum once the atoms from `i` on have been compared with
      their later partners, starting from `m`. */
  function PairMin(pos: seq<Vec3>, i: nat, m: real): real
    decreases |pos| - i
  {
    if i >= |pos| then m else PairMin(pos, i + 1, RowMin(pos, i, i + 1, m))
  }

  /** `mindist` before its square root. */
  function MinSquared(pos: seq<Vec3>): real {
    PairMin(pos, 0, Huge)
  }

  /** `m` is the least squared distance of a pair `i < j`, or `1e80` when no
      pair is closer. */
  predicate IsMinimum(pos: seq<Vec3>, m: real) {
    m <= Huge
    && (forall i, j :: 0 <= i < j < |pos| ==> m <= SquaredDistance(pos[i], pos[j]))
    && (m == Huge || exists i, j :: 0 <= i < j < |pos| && m == SquaredDistance(pos[i], pos[j]))
  }

  lemma {:induction false} RowMinFacts(pos: seq<Vec3>, i: nat, j: nat, m: real)
    requires i < |pos|
    ensures var r := RowMin(pos, i, j, m);
      r <= m && (forall k :: j <= k < |pos| ==> r <= SquaredDistance(pos[i], pos[k]))
      && (r == m || exists k :: j <= k < |pos| && r == SquaredDistance(pos[i], pos[k]))
    decreases |pos| - j
  {
    if j < |pos| {
      var l := SquaredDistance(pos[i], pos[j]);
      RowMinFacts(pos, i, j + 1, if l < m then l else m);
    }
  }

  lemma {:induction false} PairMinFacts(pos: seq<Vec3>, i: nat, m: real)
    ensures var r := PairMin(pos, i, m);
      r <= m && (forall a, b :: i <= a < b < |pos| ==> r <= SquaredDistance(pos[a], pos[b]))
      && (r == m || exists a, b :: i <= a < b < |pos| && r == SquaredDistance(pos[a], pos[b]))
    decreases |pos| - i
  {
    if i < |pos| {
      var m' := RowMin(pos, i, i + 1, m);
      RowMinFacts(pos, i, i + 1, m);
      PairMinFacts(pos, i + 1, m');
      var r := PairMin(pos, i, m);
      forall a, b | i <= a < b < |pos|
        ensures r <= SquaredDistance(pos[a], pos[b])
      {
      }
      if r != m {
        if r == m' {
          var k :| i + 1 <= k < |pos| && m' == SquaredDistance(pos[i], pos[k]);
          assert i <= i < k < |pos|;
        }
      }
    }
  }

  /** The minimum search finds the least squared pair distance. */
  lemma MinSquaredIsMinimum(pos: seq<Vec3>)
    ensures IsMinimum(pos, MinSquared(pos))
  {
    PairMinFacts(pos, 0, Huge);
  }

  /** At most one value is the minimum, so the search is determined by it. */
  lemma MinimumUnique(pos: seq<Vec3>, m: real, m': real)
    requires IsMinimum(pos, m) && IsMinimum(pos, m')
    ensures m == m'
  {
    if m != Huge {
      var i, j :| 0 <= i < j < |pos| && m == SquaredDistance(pos[i], pos[j]);
      assert m' <= m;
    }
    if m' != Huge {
      var i, j :| 0 <= i < j < |pos| && m' == SquaredDistance(pos[i], pos[j]);
      assert m <= m';
    }
  }

  /** The inner loop of the minimum search: `mindist = min(l, mindist)` over
      the partners `j > i` of atom `i`. */
  method RowMinimum(pos: seq<Vec3>, i: nat, m0: real) returns (m: real)
    requires i < |pos|
    ensures m == RowMin(pos, i, i + 1, m0)
  {
    m := m0;
    for j := i + 1 to |pos|
      invariant RowMin(pos, i, j, m) == RowMin(pos, i, i + 1, m0)
    {
      var l := SquaredDistance(pos[i], pos[j]);
      if l < m {
        m := l;
      }
    }
  }

  /** The double loop over the pairs `i < j` of the repeated seed bulk. */
  method MinSquaredDistance(pos: seq<Vec3>) returns (m: real)
    ensures m == MinSquared(pos)
  {
    m := Huge;
    for i := 0 to |pos|
      invariant PairMin(pos, i, m) == MinSquared(pos)
    {
      m := RowMinimum(pos, i, m);
    }
  }

  /** Why the seed element cannot be found. */
  datatype SeedError =
    | NoAtoms           // `at[0]` of an empty structure (IndexError)
    | NotMonometallic   // more than one element symbol (ValueError)

  lemma SymbolSetSize(syms: seq<string>)
    requires syms != []
    ensures |set x | x in syms| > 1 <==> exists i :: 0 <= i < |syms| && syms[i] != syms[0]
  {
    var all := set x | x in syms;
    if exists i :: 0 <= i < |syms| && syms[i] != syms[0] {
      var i :| 0 <= i < |syms| && syms[i] != syms[0];
      assert syms[i] in all - {syms[0]};
      assert |all - {syms[0]}| == |all| - 1;
    } else {
      assert all == {syms[0]};
    }
  }

  /** `el = at[0].symbol` and the `len(test) > 1` check: the element of a
      structure made of one element. */
  function Element(syms: seq<string>): (r: Result<string, SeedError>)
    ensures r.Ok? <==> syms != [] && forall i :: 0 <= i < |syms| ==> syms[i] == syms[0]
    ensures r.Ok? ==> r.value == syms[0]
    ensures r == Err(NoAtoms) <==> syms == []
  {
    if syms == [] then Err(NoAtoms)
    else
      SymbolSetSize(syms);
      if |set x | x in syms| > 1 then Err(NotMonometallic) else Ok(syms[0])
  }

  /** What all the generation scripts take from the seed bulk: its element,
      `mindist` squared and the fcc lattice constant `sqrt(2) * mindist`. */
  datatype Seed = Seed(element: string, minSquared: real, lattice: real)

  /** The seed of a bulk with symbols `syms` whose 2x2x2 repetition has the
      positions `repeated`; `sqrt` is `x ** 0.5`. */
  function Seeded(syms: seq<string>, repeated: seq<Vec3>, sqrt: real -> real): (r: Result<Seed, SeedError>)
    ensures r.Err? <==> Element(syms).Err?
    ensures r.Ok? ==> r.value.element == Element(syms).value
  {
    match Element(syms)
    case Err(e) => Err(e)
    case Ok(el) => Ok(Seed(el, MinSquared(repeated), sqrt(2.0) * sqrt(MinSquared(repeated))))
  }

  /** A seed exists exactly when the element check passes (see `Element`);
      it carries that element and the least squared pair distance. */
  lemma SeededFacts(syms: seq<string>, repeated: seq<Vec3>, sqrt: real -> real)
    ensures var r := Seeded(syms, repeated, sqrt);
      (r.Err? <==> Element(syms).Err?) && (r.Err? ==> r.error == Element(syms).error)
      && (r.Ok? ==> Element(syms) == Ok(r.value.element) && IsMinimum(repeated, r.value.minSquared)
                    && r.value.lattice == sqrt(2.0) * sqrt(r.value.minSquared))
  {
    MinSquaredIsMinimum(repeated);
  }

  /** The common start of every generation script. */
  method FindSeed(syms: seq<string>, repeated: seq<Vec3>, sqrt: real -> real) returns (r: Result<Seed, SeedError>)
    ensures r == Seeded(syms, repeated, sqrt)
  {
    var el := Element(syms);
    if el.Err? {
      assert Seeded(syms, repeated, sqrt) == Err(el.error);
      return Err(el.error);
    }
    var mindist := MinSquaredDistance(repeated);
    var fcclatt := sqrt(2.0) * sqrt(mindist);
    assert Seeded(syms, repeated, sqrt).Ok?;
    assert Seeded(syms, repeated, sqrt).value.lattice == fcclatt;
    r := Ok(Seed(el.value, mindist, fcclatt));
  }

  /** The adsorption sites of an fcc(111) surface, in `fcc111sites` order. */
  datatype Site = Ontop | Bridge | Fcc | Hcp

  const Sites: seq<Site> := [Ontop, Bridge, Fcc, Hcp]

  /** `add_adsorbate(surface, molecule, height, site)` on the positions: the
      new positions for the cell, the old positions and the molecule. */
  type Adsorb = (seq<Vec3>, seq<Vec3>, seq<Vec3>, real, Site) -> seq<Vec3>

  /** `rattle(stdev=0.1, seed=n)` on the positions. */
  type Rattle = (seq<Vec3>, nat) -> seq<Vec3>

  /** `set_cell(..., scale_atoms=True)` keeps the number of atoms. */
  ghost predicate KeepsAtoms(rescale: Rescale) {
    forall c, c', p :: |rescale(c, c', p)| == |p|
  }

  /** A structure strained along its first `k` cell rows. */
  function Strained(a: Structure, s: real, k: nat, rescale: Rescale): (r: Structure)
    requires |a.cell| == 3
    ensures r.cell == StrainedCell(a.cell, s, k) && |r.cell| == 3
    ensures KeepsAtoms(rescale) ==> |r.positions| == |a.positions|
  {
    var c := StrainedCell(a.cell, s, k);
    Structure(c, rescale(a.cell, c, a.positions))
  }

  /** A structure with its top layer raised by `disp`. */
  function Raised(a: Structure, disp: real): Structure
    requires a.positions != []
  {
    Structure(a.cell, TopLayerMoved(a.positions, disp))
  }

  /** A structure with an adsorbate added. */
  function Adsorbed(a: Structure, mol: seq<Vec3>, height: real, site: Site, adsorb: Adsorb): Structure {
    Structure(a.cell, adsorb(a.cell, a.positions, mol, height, site))
  }

  /** A structure rattled with seed `n`. */
  function Rattled(a: Structure, n: nat, rattle: Rattle): (r: Structure)
    ensures r.cell == a.cell
  {
    Structure(a.cell, rattle(a.positions, n))
  }

  /** The structures of `xs` that `keep` accepts, in order: the `if ...:
      inp_structs.append(surface)` of the filtering scripts. */
  function Kept(xs: seq<Structure>, keep: Structure -> bool): (r: seq<Structure>)
    ensures |r| <= |xs|
  {
    if xs == [] then []
    else Kept(xs[..|xs| - 1], keep) + (if keep(xs[|xs| - 1]) then [xs[|xs| - 1]] else [])
  }

  /** The kept structures are exactly the listed ones that pass `keep`. */
  lemma {:induction false} KeptMembers(xs: seq<Structure>, keep: Structure -> bool)
    ensures forall x :: x in Kept(xs, keep) <==> x in xs && keep(x)
  {
    if xs != [] {
      var init := xs[..|xs| - 1];
      KeptMembers(init, keep);
      assert xs == init + [xs[|xs| - 1]];
    }
  }

  /** Filtering a concatenation filters each part. */
  lemma {:induction false} KeptAppend(xs: seq<Structure>, ys: seq<Structure>, keep: Structure -> bool)
    ensures Kept(xs + ys, keep) == Kept(xs, keep) + Kept(ys, keep)
    decreases |ys|
  {
    if ys != [] {
      var zs := ys[..|ys| - 1];
      assert (xs + ys)[..|xs + ys| - 1] == xs + zs;
      KeptAppend(xs, zs, keep);
    } else {
      assert xs + ys == xs;
    }
  }

  /** Appending to a list in two steps appends the two parts at once. */
  lemma AppendTwice(xs: seq<Structure>, ys: seq<Structure>, zs: seq<Structure>)
    ensures xs + ys + zs == xs + (ys + zs)
  {
  }

  /** Filtering a list with one more element. */
  lemma KeptSnoc(xs: seq<Structure>, x: Structure, keep: Structure -> bool)
    ensures Kept(xs + [x], keep) == Kept(xs, keep) + (if keep(x) then [x] else [])
  {
    assert (xs + [x])[..|xs + [x]| - 1] == xs;
  }

  /** The database log of a script that writes its whole list `snap(k)`
      again after each step `k` = 1 .. `n`. */
  function Rewrites(snap: nat -> seq<Structure>, n: nat): (r: seq<Structure>)
    ensures forall k :: 1 <= k <= n ==> |snap(k)| <= |r|
  {
    if n == 0 then [] else Rewrites(snap, n - 1) + snap(n)
  }

  /** The log only grows. */
  lemma {:induction false} RewritesPrefix(snap: nat -> seq<Structure>, m: nat, n: nat)
    requires m <= n
    ensures Rewrites(snap, m) <= Rewrites(snap, n)
    decreases n - m
  {
    if m < n {
      RewritesPrefix(snap, m, n - 1);
      assert Rewrites(snap, n - 1) <= Rewrites(snap, n);
    }
  }

  /** The log after step `n` ends with the list as it stands then. */
  lemma RewritesEnd(snap: nat -> seq<Structure>, n: nat)
    requires n > 0
    ensures var log := Rewrites(snap, n);
      |snap(n)| <= |log| && log[|log| - |snap(n)|..] == snap(n)
  {
    assert Rewrites(snap, n) == Rewrites(snap, n - 1) + snap(n);
  }

  /** When the list after step `m` starts the list after step `m + 1`, the
      log holds it twice in a row after the writes of the steps before `m`. */
  lemma RewritesRepeat(snap: nat -> seq<Structure>, m: nat, n: nat)
    requires 1 <= m < n && snap(m) <= snap(m + 1)
    ensures Rewrites(snap, m - 1) + snap(m) + snap(m) <= Rewrites(snap, n)
  {
    var prior := Rewrites(snap, m - 1);
    assert Rewrites(snap, m + 1) == prior + snap(m) + snap(m + 1);
    RewritesPrefix(snap, m + 1, n);
    RepeatInLog(prior, snap(m), snap(m + 1), Rewrites(snap, n));
  }

  /** A log that starts with `prior + kept + next`, where `kept` is a prefix
      of `next`, starts with `prior + kept + kept`. */
  lemma RepeatInLog(prior: seq<Structure>, kept: seq<Structure>, next: seq<Structure>, log: seq<Structure>)
    requires kept <= next && prior + kept + next <= log
    ensures prior + kept + kept <= log
  {
    var whole := prior + kept + next;
    assert whole[..|prior| + 2 * |kept|] == prior + kept + kept;
  }

  /** `for inp in inp_structs: db.write(inp)`, the writes appended to the
      log `written0`. */
  method WriteAll(written0: seq<Structure>, structs: seq<Structure>) returns (written: seq<Structure>)
    ensures written == written0 + structs
  {
    written := written0;
    for w := 0 to |structs|
      invariant written == written0 + structs[..w]
    {
      written := written + [structs[w]];
      assert structs[..w + 1] == structs[..w] + [structs[w]];
    }
    assert structs[..|structs|] == structs;
  }

  /** The displacement loop of the random `move_top_layer(atoms)`: starting
      from zeros, the reference layer's atoms get `sv` added and the atoms
      above it `av`. */
  method JiggleDeltas(pos: seq<Vec3>, sv: Vec3, av: Vec3) returns (delta: seq<Vec3>)
    requires |pos| >= 2
    ensures |delta| == |pos|
    ensures forall k :: 0 <= k < |pos| ==> delta[k] == JiggleDelta(pos, k, |pos|, sv, av)
  {
    var n := |pos|;
    var z := pos[n - 2].z;
    var d := new Vec3[n](_ => Zero);
    for i := 0 to n
      modifies d
      invariant forall k :: 0 <= k < n ==> d[k] == JiggleDelta(pos, k, i, sv, av)
    {
      JiggleDeltaNext(pos, i, sv, av);
      assert d[i] == Zero;
      if Abs(pos[i].z - z) < LayerTolerance {
        d[i] := Add(d[i], sv);
      } else if pos[i].z - z > AdsorbateGap {
        d[i] := Add(d[i], av);
      }
    }
    delta := d[..];
  }

  /** An ASE `Atoms` object as the strain and move helpers see it. */
  class Atoms {
    var cell: seq<Vec3>
    var positions: seq<Vec3>

    predicate Valid()
      reads this
    {
      |cell| == 3
    }

    function Value(): Structure
      reads this
    {
      Structure(cell, positions)
    }

    constructor (s: Structure)
      requires |s.cell| == 3
      ensures Valid() && Value() == s
    {
      cell := s.cell;
      positions := s.positions;
    }

    /** `strain_atoms` of the slab scripts (`strain_atoms_xy` of the bulk
        script): rows 0 and 1 of the cell scaled by `s`, row 2 kept, the
        positions rescaled with the cell. */
    method StrainXY(s: real, rescale: Rescale)
      requires Valid()
      modifies this
      ensures Valid() && cell == StrainedCell(old(cell), s, 2)
      ensures positions == rescale(old(cell), cell, old(positions))
      ensures Value() == Strained(old(Value()), s, 2, rescale)
    {
      var c := cell;
      c := c[0 := Scale(s, c[0])];
      c := c[1 := Scale(s, c[1])];
      positions := rescale(cell, c, positions);
      cell := c;
    }

    /** `strain_atoms` of the bulk script: all three rows scaled by `s`. */
    method StrainAll(s: real, rescale: Rescale)
      requires Valid()
      modifies this
      ensures Valid() && cell == StrainedCell(old(cell), s, 3)
      ensures positions == rescale(old(cell), cell, old(positions))
      ensures Value() == Strained(old(Value()), s, 3, rescale)
    {
      var c := cell;
      c := c[0 := Scale(s, c[0])];
      c := c[1 := Scale(s, c[1])];
      c := c[2 := Scale(s, c[2])];
      positions := rescale(cell, c, positions);
      cell := c;
    }

    /** `add_adsorbate(self, mol, height, site)`: the cell is kept. */
    method AddAdsorbate(mol: seq<Vec3>, height: real, site: Site, adsorb: Adsorb)
      requires Valid()
      modifies this
      ensures Valid() && cell == old(cell)
      ensures positions == adsorb(old(cell), old(positions), mol, height, site)
      ensures Value() == Adsorbed(old(Value()), mol, height, site, adsorb)
    {
      positions := adsorb(cell, positions, mol, height, site);
    }

    /** `rattle(stdev=0.1, seed=n)`: the cell is kept. */
    method Rattle(n: nat, rattle: Rattle)
      requires Valid()
      modifies this
      ensures Valid() && cell == old(cell)
      ensures positions == rattle(old(positions), n)
      ensures Value() == Rattled(old(Value()), n, rattle)
    {
      positions := rattle(positions, n);
    }

    /** `move_top_layer(atoms, disp)`; `false` is the IndexError of a
        structure without atoms, which is left as it was. */
    method MoveTopLayer(disp: real) returns (ok: bool)
      requires Valid()
      modifies this
      ensures Valid() && cell == old(cell)
      ensures ok <==> old(positions) != []
      ensures positions == if ok then TopLayerMoved(old(positions), disp) else old(positions)
    {
      var n := |positions|;
      if n == 0 {
        return false;
      }
      var z := positions[n - 1].z;
      var delta := new Vec3[n](_ => Zero);
      for i := 0 to n
        modifies delta
        invariant forall k :: 0 <= k < n ==> delta[k] == if k < i && Abs(positions[k].z - z) < LayerTolerance then Vec3(0.0, 0.0, disp) else Zero
      {
        if Abs(positions[i].z - z) < LayerTolerance {
          delta[i] := Vec3(0.0, 0.0, disp);
        }
      }
      positions := AddF(positions, delta[..]);
      ok := true;
    }

    /** The random `move_top_layer(atoms)` of the unstructured script, with
        `r1` and `r2` the two draws of `np.random.random(3)`; `false` is the
        IndexError of a structure with fewer than two atoms. */
    method JiggleTopLayer(r1: Vec3, r2: Vec3) returns (ok: bool)
      requires Valid() && InUnitCube(r1) && InUnitCube(r2)
      modifies this
      ensures Valid() && cell == old(cell)
      ensures ok <==> |old(positions)| >= 2
      ensures positions == if ok then Jiggled(old(positions), SurfaceShift(r1), AdsorbateShift(r2)) else old(positions)
    {
      var n := |positions|;
      if n < 2 {
        return false;
      }
      var z := positions[n - 2].z;
      var surfvec := SurfaceShift(r1);
      var adsvec := AdsorbateShift(r2);
      var delta := JiggleDeltas(positions, surfvec, adsvec);
      JiggledByDelta(positions, delta, surfvec, adsvec);
      positions := AddF(positions, delta);
      ok := true;
    }
  }
}
