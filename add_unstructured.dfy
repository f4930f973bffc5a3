/** `add_unstructured_fcc111.py`: a (1x1x3) fcc(111) slab of the seed
    element with the adsorbate added at each site and height, strained in
    the plane, and then its top layer and adsorbate moved by random vectors;
    ten repetitions per strain, of which only the structures with no atoms
    too close are kept. After every strain the whole list kept so far is
    written to the database again. The adsorbate, the undefined name `a` of
    the script, is the parameter `mol`. */
module AddUnstructured {
  import opened Wrappers
  import opened Geometry
  import opened Slab

  const FewerStrains: seq<real> := [0.95, 0.975, 1.0, 1.025, 1.05]
  const OnTopHeights: seq<real> := [1.4, 1.6, 1.8, 2.0, 2.5, 5.0]
  const BridgeHeights: seq<real> := [0.6, 0.8, 1.0, 1.2, 1.5, 3.0, 5.0]
  const HollowHeights: seq<real> := [0.4, 0.6, 0.8, 1.0, 1.5, 3.0, 5.0]

  /** `for j in range(10)`: every strain is tried ten times. */
  const Repetitions: nat := 10

  /** The height table a site uses: `ontoph`, `bridgeh`, or `hollowh` for
      both hollow sites. */
  function Heights(site: Site): (r: seq<real>)
    ensures |r| == if site == Ontop then 6 else 7
  {
    match site
    case Ontop => OnTopHeights
    case Bridge => BridgeHeights
    case _ => HollowHeights
  }

  /** The two draws of `np.random.random(3)` in `move_top_layer`: the one
      for the surface layer and the one for the adsorbate. */
  datatype Draw = Draw(surface: Vec3, adsorbate: Vec3)

  /** ASE's part of the script and the inputs: the adsorbate, the random
      draws by structure number, `add_adsorbate`, the rescaling of
      `set_cell` and `atoms_too_close` with the `blmin` of the structure. */
  datatype Tools = Tools(mol: seq<Vec3>, draw: nat -> Draw, adsorb: Adsorb,
                         rescale: Rescale, tooClose: Structure -> bool)

  /** What these are known to do: the adsorbate has an atom, the draws lie in
      [0, 1), `add_adsorbate` appends the adsorbate's atoms and rescaling
      keeps the number of atoms. */
  ghost predicate ValidTools(w: Tools) {
    |w.mol| >= 1
    && (forall n :: InUnitCube(w.draw(n).surface) && InUnitCube(w.draw(n).adsorbate))
    && (forall c, p, m, h, site :: |w.adsorb(c, p, m, h, site)| == |p| + |m|)
    && KeepsAtoms(w.rescale)
  }

  /** The slab `t` with the adsorbate added at `site` and `h`, strained by
      `s`. */
  function Placed(t: Structure, s: real, site: Site, h: real, w: Tools): Structure
    requires |t.cell| == 3
  {
    Strained(Adsorbed(t, w.mol, h, site, w.adsorb), s, 2, w.rescale)
  }

  /** With the tools as ASE provides them the placed structure has the
      slab's atoms and the adsorbate's. */
  lemma PlacedSize(t: Structure, s: real, site: Site, h: real, w: Tools)
    requires |t.cell| == 3 && ValidTools(w)
    ensures |Placed(t, s, site, h, w).positions| == |t.positions| + |w.mol|
  {
    var a := Adsorbed(t, w.mol, h, site, w.adsorb);
    assert |a.positions| == |t.positions| + |w.mol|;
  }

  /** One structure: placed, then its top layer and adsorbate moved with the
      draw `d`. */
  function Candidate(t: Structure, s: real, site: Site, h: real, d: Draw, w: Tools): Structure
    requires |t.cell| == 3 && |Placed(t, s, site, h, w).positions| >= 2
    requires InUnitCube(d.surface) && InUnitCube(d.adsorbate)
  {
    var a := Placed(t, s, site, h, w);
    Structure(a.cell, Jiggled(a.positions, SurfaceShift(d.surface), AdsorbateShift(d.adsorbate)))
  }

  /** The acceptance test: no atoms too close. */
  function Keep(w: Tools): Structure -> bool {
    c => !w.tooClose(c)
  }

  /** Structure number `n` at strain `s`, `site` and height `h`. */
  type Make = (real, Site, real, nat) -> Structure

  /** The script's structures on the slab `t` with the tools `w`. */
  function Maker(t: Structure, w: Tools): Make
    requires |t.cell| == 3 && |t.positions| >= 1 && ValidTools(w)
  {
    (s: real, site: Site, h: real, n: nat) =>
      PlacedSize(t, s, site, h, w); Candidate(t, s, site, h, w.draw(n), w)
  }

  /** The tables the loops run over: the strains, the sites in order and the
      heights tried at each site. */
  datatype Plan = Plan(strains: seq<real>, sites: seq<Placement>)

  /** A site with the heights tried at it. */
  datatype Placement = Placement(site: Site, heights: seq<real>)

  /** Where the structures of the site number `j` start within one
      repetition. */
  function Offset(p: Plan, j: nat): nat
    requires j <= |p.sites|
  {
    if j == 0 then 0 else Offset(p, j - 1) + |p.sites[j - 1].heights|
  }

  /** Four sites with 27 heights in all. */
  predicate Shaped(p: Plan) {
    |p.sites| == 4
    && |p.sites[0].heights| + |p.sites[1].heights| + |p.sites[2].heights| + |p.sites[3].heights| == 27
  }

  /** A repetition of a shaped plan makes 27 structures. */
  lemma ShapedOffset(p: Plan)
    requires Shaped(p)
    ensures Offset(p, |p.sites|) == 27
  {
    assert Offset(p, 1) == |p.sites[0].heights|;
    assert Offset(p, 2) == Offset(p, 1) + |p.sites[1].heights|;
    assert Offset(p, 3) == Offset(p, 2) + |p.sites[2].heights|;
  }

  /** A site with its own height table. */
  function At(site: Site): (r: Placement)
    ensures r.site == site && r.heights == Heights(site)
  {
    Placement(site, Heights(site))
  }

  /** The tables of the script: 6 + 7 + 7 + 7 = 27 heights per repetition. */
  const Script: Plan := Plan(FewerStrains, [At(Ontop), At(Bridge), At(Fcc), At(Hcp)])

  lemma ScriptShaped()
    ensures Shaped(Script) && |Script.strains| == 5
  {
  }

  /** The structures at the first `n` heights of `heights` at one site,
      numbered from `base` on. */
  function HeightsUpTo(make: Make, s: real, site: Site, heights: seq<real>, base: nat, n: nat): (r: seq<Structure>)
    requires n <= |heights|
    ensures |r| == n
  {
    if n == 0 then [] else HeightsUpTo(make, s, site, heights, base, n - 1) + [make(s, site, heights[n - 1], base + n - 1)]
  }

  /** The structures at the first `n` sites of one repetition. */
  function SitesUpTo(make: Make, p: Plan, s: real, base: nat, n: nat): (r: seq<Structure>)
    requires n <= |p.sites|
    ensures |r| == Offset(p, n)
  {
    if n == 0 then []
    else
      var site := p.sites[n - 1].site;
      var heights := p.sites[n - 1].heights;
      SitesUpTo(make, p, s, base, n - 1) + HeightsUpTo(make, s, site, heights, base + Offset(p, n - 1), |heights|)
  }

  /** The first `n` repetitions of one strain. */
  function RepeatsUpTo(make: Make, p: Plan, s: real, base: nat, n: nat): (r: seq<Structure>)
    requires Shaped(p)
    ensures |r| == 27 * n
  {
    ShapedOffset(p);
    if n == 0 then [] else RepeatsUpTo(make, p, s, base, n - 1) + SitesUpTo(make, p, s, base + 27 * (n - 1), |p.sites|)
  }

  /** All structures of the first `n` strains, in the order they are made. */
  function StrainsUpTo(make: Make, p: Plan, n: nat): (r: seq<Structure>)
    requires Shaped(p) && n <= |p.strains|
    ensures |r| == 270 * n
  {
    if n == 0 then [] else StrainsUpTo(make, p, n - 1) + RepeatsUpTo(make, p, p.strains[n - 1], 270 * (n - 1), Repetitions)
  }

  /** `inp_structs` after the first `n` strains: the structures that pass
      `keep`, in order. */
  function Accepted(make: Make, p: Plan, keep: Structure -> bool, n: nat): (r: seq<Structure>)
    requires Shaped(p) && n <= |p.strains|
    ensures |r| <= 270 * n && forall x :: x in r ==> keep(x)
  {
    KeptMembers(StrainsUpTo(make, p, n), keep);
    Kept(StrainsUpTo(make, p, n), keep)
  }

  /** The list after each number of strains, as the writes see it. */
  function Snapshot(make: Make, p: Plan, keep: Structure -> bool): nat -> seq<Structure> {
    (k: nat) => if Shaped(p) && k <= |p.strains| then Accepted(make, p, keep, k) else []
  }

  /** The database writes after the first `n` strains: after each strain the
      whole of `inp_structs` is written. */
  function Writes(make: Make, p: Plan, keep: Structure -> bool, n: nat): (r: seq<Structure>)
    requires Shaped(p) && n <= |p.strains|
    ensures n > 0 ==> |Accepted(make, p, keep, n)| <= |r|
  {
    assert n > 0 ==> Snapshot(make, p, keep)(n) == Accepted(make, p, keep, n);
    Rewrites(Snapshot(make, p, keep), n)
  }

  /** Height number `k` of site number `j` counts `SiteSlot(p, j, k)` from
      the repetition's first structure, ... */
  function SiteSlot(p: Plan, j: nat, k: nat): nat
    requires j <= |p.sites|
  {
    Offset(p, j) + k
  }

  /** ... `RepSlot(p, r, j, k)` from the strain's first structure at
      repetition `r`, ... */
  function RepSlot(p: Plan, r: nat, j: nat, k: nat): nat
    requires j <= |p.sites|
  {
    27 * r + SiteSlot(p, j, k)
  }

  /** ... and its number overall is `DrawNo(p, i, r, j, k)` at strain
      number `i`. */
  function DrawNo(p: Plan, i: nat, r: nat, j: nat, k: nat): nat
    requires j <= |p.sites|
  {
    270 * i + RepSlot(p, r, j, k)
  }

  /** The sites before site number `m` end where it starts. */
  lemma {:induction false} OffsetBelow(p: Plan, j: nat, m: nat)
    requires j < m <= |p.sites|
    ensures Offset(p, j) + |p.sites[j].heights| <= Offset(p, m)
    decreases m - j
  {
    if j + 1 < m {
      OffsetBelow(p, j + 1, m);
    }
  }

  /** Every slot of the sites before site number `m` lies before where
      that site starts. */
  lemma SlotsBelow(p: Plan, m: nat)
    requires m <= |p.sites|
    ensures forall j, k {:trigger SiteSlot(p, j, k)} :: 0 <= j < m && 0 <= k < |p.sites[j].heights| ==> SiteSlot(p, j, k) < Offset(p, m)
  {
    forall j, k | 0 <= j < m && 0 <= k < |p.sites[j].heights|
      ensures SiteSlot(p, j, k) < Offset(p, m)
    {
      OffsetBelow(p, j, m);
    }
  }

  lemma {:induction false} HeightsUpToAt(make: Make, s: real, site: Site, heights: seq<real>, base: nat, n: nat)
    requires n <= |heights|
    ensures forall k :: 0 <= k < n ==> HeightsUpTo(make, s, site, heights, base, n)[k] == make(s, site, heights[k], base + k)
  {
    if n > 0 {
      HeightsUpToAt(make, s, site, heights, base, n - 1);
    }
  }

  lemma {:induction false} SitesUpToAt(make: Make, p: Plan, s: real, base: nat, n: nat)
    requires n <= |p.sites|
    ensures forall j, k :: 0 <= j < n && 0 <= k < |p.sites[j].heights| ==> SiteSlot(p, j, k) < Offset(p, n)
    ensures forall j, k {:trigger SitesUpTo(make, p, s, base, n)[SiteSlot(p, j, k)]} :: 0 <= j < n && 0 <= k < |p.sites[j].heights| ==>
      SitesUpTo(make, p, s, base, n)[SiteSlot(p, j, k)] == make(s, p.sites[j].site, p.sites[j].heights[k], base + SiteSlot(p, j, k))
  {
    if n > 0 {
      SitesUpToAt(make, p, s, base, n - 1);
      var site := p.sites[n - 1].site;
      var heights := p.sites[n - 1].heights;
      HeightsUpToAt(make, s, site, heights, base + Offset(p, n - 1), |heights|);
      var prev := SitesUpTo(make, p, s, base, n - 1);
      var last := HeightsUpTo(make, s, site, heights, base + Offset(p, n - 1), |heights|);
      assert SitesUpTo(make, p, s, base, n) == prev + last;
      assert |prev| == Offset(p, n - 1);
      SlotsBelow(p, n - 1);
      SlotsBelow(p, n);
      forall j, k {:trigger SitesUpTo(make, p, s, base, n)[SiteSlot(p, j, k)]} | 0 <= j < n && 0 <= k < |p.sites[j].heights|
        ensures SitesUpTo(make, p, s, base, n)[SiteSlot(p, j, k)] == make(s, p.sites[j].site, p.sites[j].heights[k], base + SiteSlot(p, j, k))
      {
        if j < n - 1 {
          assert SiteSlot(p, j, k) < |prev|;
          assert SitesUpTo(make, p, s, base, n)[SiteSlot(p, j, k)] == prev[SiteSlot(p, j, k)];
          assert prev[SiteSlot(p, j, k)] == make(s, p.sites[j].site, p.sites[j].heights[k], base + SiteSlot(p, j, k));
        } else {
          assert j == n - 1;
          assert SitesUpTo(make, p, s, base, n)[SiteSlot(p, j, k)] == last[k];
          assert last[k] == make(s, site, heights[k], base + Offset(p, n - 1) + k);
        }
      }
    }
  }

  lemma {:induction false} RepeatsUpToAt(make: Make, p: Plan, s: real, base: nat, n: nat)
    requires Shaped(p)
    ensures forall r, j, k :: 0 <= r < n && 0 <= j < |p.sites| && 0 <= k < |p.sites[j].heights| ==> RepSlot(p, r, j, k) < 27 * n
    ensures forall r, j, k {:trigger RepeatsUpTo(make, p, s, base, n)[RepSlot(p, r, j, k)]} :: 0 <= r < n && 0 <= j < |p.sites| && 0 <= k < |p.sites[j].heights| ==>
      RepeatsUpTo(make, p, s, base, n)[RepSlot(p, r, j, k)] == make(s, p.sites[j].site, p.sites[j].heights[k], base + RepSlot(p, r, j, k))
  {
    if n > 0 {
      RepeatsUpToAt(make, p, s, base, n - 1);
      SitesUpToAt(make, p, s, base + 27 * (n - 1), |p.sites|);
      var prev := RepeatsUpTo(make, p, s, base, n - 1);
      var last := SitesUpTo(make, p, s, base + 27 * (n - 1), |p.sites|);
      assert RepeatsUpTo(make, p, s, base, n) == prev + last;
      SlotsBelow(p, |p.sites|);
      ShapedOffset(p);
      forall r, j, k {:trigger RepeatsUpTo(make, p, s, base, n)[RepSlot(p, r, j, k)]} | 0 <= r < n && 0 <= j < |p.sites| && 0 <= k < |p.sites[j].heights|
        ensures RepeatsUpTo(make, p, s, base, n)[RepSlot(p, r, j, k)] == make(s, p.sites[j].site, p.sites[j].heights[k], base + RepSlot(p, r, j, k))
      {
        if r < n - 1 {
          assert RepeatsUpTo(make, p, s, base, n)[RepSlot(p, r, j, k)] == prev[RepSlot(p, r, j, k)];
        } else {
          assert RepeatsUpTo(make, p, s, base, n)[RepSlot(p, r, j, k)] == last[SiteSlot(p, j, k)];
        }
      }
    }
  }

  lemma {:induction false} StrainsUpToAt(make: Make, p: Plan, n: nat)
    requires Shaped(p) && n <= |p.strains|
    ensures forall i, r, j, k :: 0 <= i < n && 0 <= r < Repetitions && 0 <= j < |p.sites| && 0 <= k < |p.sites[j].heights| ==>
      DrawNo(p, i, r, j, k) < 270 * n
    ensures forall i, r, j, k {:trigger StrainsUpTo(make, p, n)[DrawNo(p, i, r, j, k)]} :: 0 <= i < n && 0 <= r < Repetitions && 0 <= j < |p.sites| && 0 <= k < |p.sites[j].heights| ==>
      StrainsUpTo(make, p, n)[DrawNo(p, i, r, j, k)] == make(p.strains[i], p.sites[j].site, p.sites[j].heights[k], DrawNo(p, i, r, j, k))
  {
    if n > 0 {
      StrainsUpToAt(make, p, n - 1);
      var s := p.strains[n - 1];
      RepeatsUpToAt(make, p, s, 270 * (n - 1), Repetitions);
      var prev := StrainsUpTo(make, p, n - 1);
      var last := RepeatsUpTo(make, p, s, 270 * (n - 1), Repetitions);
      assert StrainsUpTo(make, p, n) == prev + last;
      SlotsBelow(p, |p.sites|);
      ShapedOffset(p);
      forall i, r, j, k {:trigger StrainsUpTo(make, p, n)[DrawNo(p, i, r, j, k)]} | 0 <= i < n && 0 <= r < Repetitions && 0 <= j < |p.sites| && 0 <= k < |p.sites[j].heights|
        ensures StrainsUpTo(make, p, n)[DrawNo(p, i, r, j, k)] == make(p.strains[i], p.sites[j].site, p.sites[j].heights[k], DrawNo(p, i, r, j, k))
      {
        if i < n - 1 {
          assert StrainsUpTo(make, p, n)[DrawNo(p, i, r, j, k)] == prev[DrawNo(p, i, r, j, k)];
        } else {
          assert StrainsUpTo(make, p, n)[DrawNo(p, i, r, j, k)] == last[RepSlot(p, r, j, k)];
        }
      }
    }
  }

  /** With `p` the script's tables there are 5 x 10 x 27 = 1350 structures,
      strain-major, then repetition, site and height, and each structure
      uses the draws of its own number. */
  lemma StructuresInOrder(t: Structure, w: Tools, p: Plan)
    requires |t.cell| == 3 && |t.positions| >= 1 && ValidTools(w) && Shaped(p)
    ensures |StrainsUpTo(Maker(t, w), p, |p.strains|)| == 270 * |p.strains|
    ensures forall i, r, j, k :: 0 <= i < |p.strains| && 0 <= r < Repetitions && 0 <= j < |p.sites| && 0 <= k < |p.sites[j].heights| ==>
      DrawNo(p, i, r, j, k) < 270 * |p.strains|
    ensures forall i, r, j, k :: 0 <= i < |p.strains| && 0 <= r < Repetitions && 0 <= j < |p.sites| && 0 <= k < |p.sites[j].heights| ==>
      StrainsUpTo(Maker(t, w), p, |p.strains|)[DrawNo(p, i, r, j, k)]
      == Candidate(t, p.strains[i], p.sites[j].site, p.sites[j].heights[k], w.draw(DrawNo(p, i, r, j, k)), w)
  {
    StrainsUpToAt(Maker(t, w), p, |p.strains|);
  }

  /** A structure is kept exactly when it is one of the candidates and has
      no atoms too close. */
  lemma AcceptedAreThosePassing(t: Structure, w: Tools, p: Plan, n: nat)
    requires |t.cell| == 3 && |t.positions| >= 1 && ValidTools(w) && Shaped(p) && n <= |p.strains|
    ensures |Accepted(Maker(t, w), p, Keep(w), n)| <= 270 * n
    ensures forall c :: c in Accepted(Maker(t, w), p, Keep(w), n) <==>
      (c in StrainsUpTo(Maker(t, w), p, n) && !w.tooClose(c))
  {
    KeptMembers(StrainsUpTo(Maker(t, w), p, n), Keep(w));
  }

  /** The list only grows: what was kept after `m` strains starts the list
      after `n >= m` strains. */
  lemma {:induction false} AcceptedGrows(make: Make, p: Plan, keep: Structure -> bool, m: nat, n: nat)
    requires Shaped(p) && m <= n <= |p.strains|
    ensures Accepted(make, p, keep, m) <= Accepted(make, p, keep, n)
    decreases n - m
  {
    if m < n {
      AcceptedGrows(make, p, keep, m, n - 1);
      KeptAppend(StrainsUpTo(make, p, n - 1), RepeatsUpTo(make, p, p.strains[n - 1], 270 * (n - 1), Repetitions), keep);
    }
  }

  /** Each write holds the previous one as a prefix. */
  lemma SnapshotsGrow(make: Make, p: Plan, keep: Structure -> bool, m: nat)
    requires Shaped(p) && m < |p.strains|
    ensures Snapshot(make, p, keep)(m) == Accepted(make, p, keep, m)
    ensures Snapshot(make, p, keep)(m) <= Snapshot(make, p, keep)(m + 1)
  {
    assert Snapshot(make, p, keep)(m + 1) == Accepted(make, p, keep, m + 1);
    AcceptedGrows(make, p, keep, m, m + 1);
  }

  /** The database after `n` strains ends with the list as it stands then. */
  lemma WritesEndWithAccepted(make: Make, p: Plan, keep: Structure -> bool, n: nat)
    requires Shaped(p) && 0 < n <= |p.strains|
    ensures var final := Accepted(make, p, keep, n); var log := Writes(make, p, keep, n);
      |final| <= |log| && log[|log| - |final|..] == final
  {
    RewritesEnd(Snapshot(make, p, keep), n);
    assert Snapshot(make, p, keep)(n) == Accepted(make, p, keep, n);
  }

  /** The rewrite schedule stores a structure more than once: what was kept
      after strain `m` is written after strain `m` and again, at the head of
      the next write, after strain `m + 1`. */
  lemma WritesRepeat(make: Make, p: Plan, keep: Structure -> bool, m: nat, n: nat)
    requires Shaped(p) && 1 <= m < n <= |p.strains|
    ensures var kept := Accepted(make, p, keep, m);
      Writes(make, p, keep, m - 1) + kept + kept <= Writes(make, p, keep, n)
  {
    SnapshotsGrow(make, p, keep, m);
    RewritesRepeat(Snapshot(make, p, keep), m, n);
  }

  /** One structure: the slab built, the adsorbate added, the strain and the
      random move with draw number `n`, appended to `structs0` when no atoms
      are too close. */
  method Attempt(el: string, fcclatt: real, s: real, site: Site, h: real, n: nat,
                 fcc111: (string, real) -> Structure, w: Tools, structs0: seq<Structure>)
    returns (structs: seq<Structure>)
    requires |fcc111(el, fcclatt).cell| == 3 && |fcc111(el, fcclatt).positions| >= 1 && ValidTools(w)
    ensures var c := Maker(fcc111(el, fcclatt), w)(s, site, h, n);
      structs == structs0 + (if Keep(w)(c) then [c] else [])
  {
    var d := w.draw(n);
    var surface := new Atoms(fcc111(el, fcclatt));
    surface.AddAdsorbate(w.mol, h, site, w.adsorb);
    surface.StrainXY(s, w.rescale);
    PlacedSize(fcc111(el, fcclatt), s, site, h, w);
    var moved := surface.JiggleTopLayer(d.surface, d.adsorbate);
    var c := surface.Value();
    structs := structs0;
    if !w.tooClose(c) {
      structs := structs + [c];
    }
  }

  lemma KeptNextHeight(make: Make, s: real, site: Site, heights: seq<real>, base: nat, k: nat, keep: Structure -> bool,
                       structs0: seq<Structure>, before: seq<Structure>, after: seq<Structure>)
    requires k < |heights|
    requires before == structs0 + Kept(HeightsUpTo(make, s, site, heights, base, k), keep)
    requires var c := make(s, site, heights[k], base + k); after == before + (if keep(c) then [c] else [])
    ensures after == structs0 + Kept(HeightsUpTo(make, s, site, heights, base, k + 1), keep)
  {
    var prev := HeightsUpTo(make, s, site, heights, base, k);
    var c := make(s, site, heights[k], base + k);
    assert HeightsUpTo(make, s, site, heights, base, k + 1) == prev + [c];
    KeptSnoc(prev, c, keep);
    AppendTwice(structs0, Kept(prev, keep), if keep(c) then [c] else []);
  }

  /** The height loop of site number `j` of a repetition starting at
      `base`, appending the kept structures. */
  method HeightLoop(el: string, fcclatt: real, s: real, p: Plan, j: nat, base: nat,
                    fcc111: (string, real) -> Structure, w: Tools, structs0: seq<Structure>)
    returns (structs: seq<Structure>)
    requires |fcc111(el, fcclatt).cell| == 3 && |fcc111(el, fcclatt).positions| >= 1 && ValidTools(w)
    requires j < |p.sites|
    ensures structs == structs0 + Kept(HeightsUpTo(Maker(fcc111(el, fcclatt), w), s, p.sites[j].site, p.sites[j].heights, base + Offset(p, j), |p.sites[j].heights|), Keep(w))
  {
    var site := p.sites[j].site;
    var heights := p.sites[j].heights;
    var first := base + Offset(p, j);
    structs := structs0;
    for k := 0 to |heights|
      invariant structs == structs0 + Kept(HeightsUpTo(Maker(fcc111(el, fcclatt), w), s, site, heights, first, k), Keep(w))
    {
      ghost var before := structs;
      structs := Attempt(el, fcclatt, s, site, heights[k], first + k, fcc111, w, structs);
      KeptNextHeight(Maker(fcc111(el, fcclatt), w), s, site, heights, first, k, Keep(w), structs0, before, structs);
    }
  }

  lemma KeptNextSite(make: Make, p: Plan, s: real, base: nat, j: nat, keep: Structure -> bool,
                     structs0: seq<Structure>, before: seq<Structure>, after: seq<Structure>)
    requires j < |p.sites|
    requires before == structs0 + Kept(SitesUpTo(make, p, s, base, j), keep)
    requires after == before + Kept(HeightsUpTo(make, s, p.sites[j].site, p.sites[j].heights, base + Offset(p, j), |p.sites[j].heights|), keep)
    ensures after == structs0 + Kept(SitesUpTo(make, p, s, base, j + 1), keep)
  {
    var site := p.sites[j].site;
    var heights := p.sites[j].heights;
    var prev := SitesUpTo(make, p, s, base, j);
    var last := HeightsUpTo(make, s, site, heights, base + Offset(p, j), |heights|);
    assert SitesUpTo(make, p, s, base, j + 1) == prev + last;
    KeptAppend(prev, last, keep);
    AppendTwice(structs0, Kept(prev, keep), Kept(last, keep));
  }

  /** The site loop of one repetition, each site with its own height table,
      appending the kept structures. */
  method SiteLoop(el: string, fcclatt: real, s: real, p: Plan, base: nat,
                  fcc111: (string, real) -> Structure, w: Tools, structs0: seq<Structure>)
    returns (structs: seq<Structure>)
    requires |fcc111(el, fcclatt).cell| == 3 && |fcc111(el, fcclatt).positions| >= 1 && ValidTools(w)
    ensures structs == structs0 + Kept(SitesUpTo(Maker(fcc111(el, fcclatt), w), p, s, base, |p.sites|), Keep(w))
  {
    structs := structs0;
    for j := 0 to |p.sites|
      invariant structs == structs0 + Kept(SitesUpTo(Maker(fcc111(el, fcclatt), w), p, s, base, j), Keep(w))
    {
      ghost var before := structs;
      structs := HeightLoop(el, fcclatt, s, p, j, base, fcc111, w, structs);
      KeptNextSite(Maker(fcc111(el, fcclatt), w), p, s, base, j, Keep(w), structs0, before, structs);
    }
  }

  lemma KeptNextRepeat(make: Make, p: Plan, s: real, base: nat, r: nat, keep: Structure -> bool,
                       structs0: seq<Structure>, before: seq<Structure>, after: seq<Structure>)
    requires Shaped(p)
    requires before == structs0 + Kept(RepeatsUpTo(make, p, s, base, r), keep)
    requires after == before + Kept(SitesUpTo(make, p, s, base + 27 * r, |p.sites|), keep)
    ensures after == structs0 + Kept(RepeatsUpTo(make, p, s, base, r + 1), keep)
  {
    var prev := RepeatsUpTo(make, p, s, base, r);
    var last := SitesUpTo(make, p, s, base + 27 * r, |p.sites|);
    assert RepeatsUpTo(make, p, s, base, r + 1) == prev + last;
    KeptAppend(prev, last, keep);
    AppendTwice(structs0, Kept(prev, keep), Kept(last, keep));
  }

  /** The ten repetitions of one strain, appending the kept structures. */
  method RepeatLoop(el: string, fcclatt: real, s: real, p: Plan, base: nat,
                    fcc111: (string, real) -> Structure, w: Tools, structs0: seq<Structure>)
    returns (structs: seq<Structure>)
    requires |fcc111(el, fcclatt).cell| == 3 && |fcc111(el, fcclatt).positions| >= 1 && ValidTools(w)
    requires Shaped(p)
    ensures structs == structs0 + Kept(RepeatsUpTo(Maker(fcc111(el, fcclatt), w), p, s, base, Repetitions), Keep(w))
  {
    structs := structs0;
    for r := 0 to Repetitions
      invariant structs == structs0 + Kept(RepeatsUpTo(Maker(fcc111(el, fcclatt), w), p, s, base, r), Keep(w))
    {
      ghost var before := structs;
      structs := SiteLoop(el, fcclatt, s, p, base + 27 * r, fcc111, w, structs);
      KeptNextRepeat(Maker(fcc111(el, fcclatt), w), p, s, base, r, Keep(w), structs0, before, structs);
    }
  }

  lemma KeptNextStrain(make: Make, p: Plan, keep: Structure -> bool, i: nat,
                       before: seq<Structure>, after: seq<Structure>)
    requires Shaped(p) && i < |p.strains|
    requires before == Accepted(make, p, keep, i)
    requires after == before + Kept(RepeatsUpTo(make, p, p.strains[i], 270 * i, Repetitions), keep)
    ensures after == Accepted(make, p, keep, i + 1)
    ensures Writes(make, p, keep, i + 1) == Writes(make, p, keep, i) + after
  {
    assert Snapshot(make, p, keep)(i + 1) == Accepted(make, p, keep, i + 1);
    KeptAppend(StrainsUpTo(make, p, i), RepeatsUpTo(make, p, p.strains[i], 270 * i, Repetitions), keep);
  }

  /** The strain loop, writing the whole list to the database after each
      strain. */
  method StrainLoop(el: string, fcclatt: real, p: Plan,
                    fcc111: (string, real) -> Structure, w: Tools)
    returns (structs: seq<Structure>, written: seq<Structure>)
    requires |fcc111(el, fcclatt).cell| == 3 && |fcc111(el, fcclatt).positions| >= 1 && ValidTools(w)
    requires Shaped(p)
    ensures structs == Accepted(Maker(fcc111(el, fcclatt), w), p, Keep(w), |p.strains|)
    ensures written == Writes(Maker(fcc111(el, fcclatt), w), p, Keep(w), |p.strains|)
  {
    structs := [];
    written := [];
    for i := 0 to |p.strains|
      invariant structs == Accepted(Maker(fcc111(el, fcclatt), w), p, Keep(w), i)
      invariant written == Writes(Maker(fcc111(el, fcclatt), w), p, Keep(w), i)
    {
      ghost var before := structs;
      structs := RepeatLoop(el, fcclatt, p.strains[i], p, 270 * i, fcc111, w, structs);
      KeptNextStrain(Maker(fcc111(el, fcclatt), w), p, Keep(w), i, before, structs);
      written := WriteAll(written, structs);
    }
  }

  /** `generate_slabs`: the seed, then the strain loop over the script's
      tables; returns the final `inp_structs` and the log of database
      writes. */
  method GenerateSlabs(syms: seq<string>, repeated: seq<Vec3>, sqrt: real -> real,
                       fcc111: (string, real) -> Structure, w: Tools)
    returns (r: Result<(seq<Structure>, seq<Structure>), SeedError>)
    requires forall el, a :: |fcc111(el, a).cell| == 3 && |fcc111(el, a).positions| >= 1
    requires ValidTools(w)
    ensures r == match Seeded(syms, repeated, sqrt)
                 case Err(e) => Err(e)
                 case Ok(seed) =>
                   var make := Maker(fcc111(seed.element, seed.lattice), w);
                   Ok((Accepted(make, Script, Keep(w), 5), Writes(make, Script, Keep(w), 5)))
  {
    var seed := FindSeed(syms, repeated, sqrt);
    if seed.Err? {
      return Err(seed.error);
    }
    ScriptShaped();
    var structs, written := StrainLoop(seed.value.element, seed.value.lattice, Script, fcc111, w);
    r := Ok((structs, written));
  }
}
