/** `add_H2_fcc111.py`: a (1x1x3) fcc(111) slab of the seed element with an
    H2 molecule, randomly stretched and rotated, added at each site and
    height, then strained in the plane; five attempts per (strain, site,
    height), of which only those with both H atoms clear of the surface and
    no atoms too close are kept. After every strain the whole list kept so
    far is written to the database again. */
module AddH2 {
  import opened Wrappers
  import opened Geometry
  import opened Slab

  const Strains: seq<real> := [0.93, 0.96, 0.99, 1.0, 1.01, 1.04, 1.07]
  const OnTopHeights: seq<real> := [1.4, 1.6, 1.8, 2.0, 2.5, 3.0]
  const BridgeHeights: seq<real> := [0.6, 0.8, 1.0, 1.2, 1.5, 3.0]
  const HollowHeights: seq<real> := [0.4, 0.6, 0.8, 1.0, 1.5, 3.0]

  /** `for j in range(5)`: the `j += 1` in its body does not change the
      count, since `range` rebinds `j` on every pass. */
  const Attempts: nat := 5

  /** Both H atoms must lie more than this above the surface atom. */
  const Clearance: real := 0.2

  /** The height table a site uses. */
  function Heights(site: Site): (r: seq<real>)
    ensures |r| == 6
  {
    match site
    case Ontop => OnTopHeights
    case Bridge => BridgeHeights
    case _ => HollowHeights
  }

  /** The tables the loops run over: the strains, the sites in order and the
      heights tried at each site. */
  datatype Plan = Plan(strains: seq<real>, sites: seq<Site>, heights: Site -> seq<real>)

  /** Four sites with six heights each: every strain makes 4 x 6 x 5 = 120
      attempts. */
  predicate Shaped(p: Plan) {
    |p.sites| == 4 && forall site :: |p.heights(site)| == 6
  }

  /** The tables of the script. */
  const Script: Plan := Plan(Strains, Sites, Heights)

  lemma ScriptShaped()
    ensures Shaped(Script) && |Script.strains| == 7
  {
  }

  /** The random numbers of one attempt: the bond stretch, the rotation axis
      before normalisation and the rotation angle as a fraction of 90
      degrees. */
  datatype Draw = Draw(stretch: real, axis: Vec3, angle: real)

  /** Normalising the axis, `rotate(angle, axis)` and `gather_atoms_by_tag`
      on the molecule's positions. */
  type Orient = (seq<Vec3>, Vec3, real) -> seq<Vec3>

  /** ASE's part of the script: `molecule('H2')`, the random draws by attempt
      number, the rotation, `add_adsorbate`, the rescaling of `set_cell` and
      `atoms_too_close` with the `blmin` of the structure. */
  datatype Tools = Tools(h2: seq<Vec3>, draw: nat -> Draw, orient: Orient, adsorb: Adsorb,
                         rescale: Rescale, tooClose: Structure -> bool)

  /** What these are known to do: H2 has two atoms, rotating keeps the molecule's atoms, `add_adsorbate` appends them and
      rescaling keeps the number of atoms. */
  ghost predicate ValidTools(w: Tools) {
    |w.h2| == 2
    && (forall m, ax, ang :: |w.orient(m, ax, ang)| == |m|)
    && (forall c, p, m, h, site :: |w.adsorb(c, p, m, h, site)| == |p| + |m|)
    && KeepsAtoms(w.rescale)
  }

  /** `(2.5-0.5)*np.random.random() - 1.75`: the bond is stretched by an
      amount in [-1.75, 0.25). */
  function BondShift(r: real): (d: real)
    ensures 0.0 <= r < 1.0 ==> -1.75 <= d < 0.25
  {
    (2.5 - 0.5) * r - 1.75
  }

  /** `rndmol[1].position[2] += ...`: only the second atom's height moves. */
  function Stretched(mol: seq<Vec3>, r: real): (m: seq<Vec3>)
    requires |mol| == 2
    ensures |m| == 2 && m[0] == mol[0] && m[1].x == mol[1].x && m[1].y == mol[1].y
    ensures 0.0 <= r < 1.0 ==> -1.75 <= m[1].z - mol[1].z < 0.25
  {
    mol[1 := mol[1].(z := mol[1].z + BondShift(r))]
  }

  /** One attempt: the molecule stretched and rotated, added to the slab `t`
      at `site` and `h`, then the structure strained by `s`. */
  function Candidate(t: Structure, s: real, site: Site, h: real, d: Draw, w: Tools): Structure
    requires |t.cell| == 3 && |w.h2| == 2
  {
    var mol := w.orient(Stretched(w.h2, d.stretch), d.axis, d.angle * 90.0);
    Strained(Adsorbed(t, mol, h, site, w.adsorb), s, 2, w.rescale)
  }

  /** The acceptance test: the two last atoms (the H atoms) both more than
      0.2 above the third-to-last (a surface atom), and no atoms too close. */
  predicate Passes(c: Structure, tooClose: Structure -> bool) {
    var n := |c.positions|;
    n >= 3
    && c.positions[n - 2].z - c.positions[n - 3].z > Clearance
    && c.positions[n - 1].z - c.positions[n - 3].z > Clearance
    && !tooClose(c)
  }

  function Keep(w: Tools): Structure -> bool {
    c => Passes(c, w.tooClose)
  }

  /** With the tools as ASE provides them every candidate has the slab's atoms
      and two more, so the three atoms the test reads exist. */
  lemma CandidateHasMolecule(t: Structure, s: real, site: Site, h: real, d: Draw, w: Tools)
    requires |t.cell| == 3 && ValidTools(w)
    ensures |Candidate(t, s, site, h, d, w).positions| == |t.positions| + 2
  {
    var mol := w.orient(Stretched(w.h2, d.stretch), d.axis, d.angle * 90.0);
    assert |mol| == 2;
    var a := Adsorbed(t, mol, h, site, w.adsorb);
    assert |a.positions| == |t.positions| + 2;
  }

  /** Attempt number `n` at strain `s`, `site` and height `h`. */
  type Make = (real, Site, real, nat) -> Structure

  /** The script's attempts on the slab `t` with the tools `w`. */
  function Maker(t: Structure, w: Tools): Make
    requires |t.cell| == 3 && |w.h2| == 2
  {
    (s: real, site: Site, h: real, n: nat) => Candidate(t, s, site, h, w.draw(n), w)
  }

  /** The first `n` attempts at one height, numbered from `base` on. */
  function AttemptsUpTo(make: Make, s: real, site: Site, h: real, base: nat, n: nat): (r: seq<Structure>)
    ensures |r| == n
  {
    if n == 0 then [] else AttemptsUpTo(make, s, site, h, base, n - 1) + [make(s, site, h, base + n - 1)]
  }

  /** The attempts at the first `n` heights of `heights` at one site. */
  function HeightsUpTo(make: Make, s: real, site: Site, heights: seq<real>, base: nat, n: nat): (r: seq<Structure>)
    requires n <= |heights|
    ensures |r| == 5 * n
  {
    if n == 0 then []
    else HeightsUpTo(make, s, site, heights, base, n - 1) + AttemptsUpTo(make, s, site, heights[n - 1], base + 5 * (n - 1), Attempts)
  }

  /** The attempts at the first `n` sites of one strain. */
  function SitesUpTo(make: Make, p: Plan, s: real, base: nat, n: nat): (r: seq<Structure>)
    requires Shaped(p) && n <= |p.sites|
    ensures |r| == 30 * n
  {
    if n == 0 then []
    else SitesUpTo(make, p, s, base, n - 1) + HeightsUpTo(make, s, p.sites[n - 1], p.heights(p.sites[n - 1]), base + 30 * (n - 1), |p.heights(p.sites[n - 1])|)
  }

  /** All attempts of the first `n` strains, in the order they are made. */
  function StrainsUpTo(make: Make, p: Plan, n: nat): (r: seq<Structure>)
    requires Shaped(p) && n <= |p.strains|
    ensures |r| == 120 * n
  {
    if n == 0 then [] else StrainsUpTo(make, p, n - 1) + SitesUpTo(make, p, p.strains[n - 1], 120 * (n - 1), |p.sites|)
  }

  /** `inp_structs` after the first `n` strains: the attempts that pass
      `keep`, in order. */
  function Accepted(make: Make, p: Plan, keep: Structure -> bool, n: nat): (r: seq<Structure>)
    requires Shaped(p) && n <= |p.strains|
    ensures |r| <= 120 * n && forall x :: x in r ==> keep(x)
  {
    KeptMembers(StrainsUpTo(make, p, n), keep);
    Kept(StrainsUpTo(make, p, n), keep)
  }

  /** The list after each number of strains, as the writes see it. */
  function Snapshot(make: Make, p: Plan, keep: Structure -> bool): nat -> seq<Structure> {
    (k: nat) => if Shaped(p) && k <= |p.strains| then Accepted(make, p, keep, k) else []
  }

  /** The database writes after the first `n` strains: after each strain the
      whole of `inp_structs` is written. */
  function Writes(make: Make, p: Plan, keep: Structure -> bool, n: nat): (r: seq<Structure>)
    requires Shaped(p) && n <= |p.strains|
    ensures n > 0 ==> |Accepted(make, p, keep, n)| <= |r|
  {
    assert n > 0 ==> Snapshot(make, p, keep)(n) == Accepted(make, p, keep, n);
    Rewrites(Snapshot(make, p, keep), n)
  }

  lemma {:induction false} AttemptsUpToAt(make: Make, s: real, site: Site, h: real, base: nat, n: nat)
    ensures forall a :: 0 <= a < n ==> AttemptsUpTo(make, s, site, h, base, n)[a] == make(s, site, h, base + a)
  {
    if n > 0 {
      AttemptsUpToAt(make, s, site, h, base, n - 1);
    }
  }

  /** Attempt `a` at height number `k` of a site counts `Slot(k, a)` from
      the site's first attempt, ... */
  function Slot(k: nat, a: nat): nat {
    5 * k + a
  }

  /** ... and `SiteSlot(j, k, a)` from the strain's first attempt, ... */
  function SiteSlot(j: nat, k: nat, a: nat): nat {
    30 * j + Slot(k, a)
  }

  /** ... and its number overall is `AttemptNo(i, j, k, a)` at strain number
      `i`. */
  function AttemptNo(i: nat, j: nat, k: nat, a: nat): nat {
    120 * i + SiteSlot(j, k, a)
  }

  lemma {:induction false} HeightsUpToAt(make: Make, s: real, site: Site, heights: seq<real>, base: nat, n: nat)
    requires n <= |heights|
    ensures forall k, a :: 0 <= k < n && 0 <= a < Attempts ==>
      HeightsUpTo(make, s, site, heights, base, n)[Slot(k, a)] == make(s, site, heights[k], base + Slot(k, a))
  {
    if n > 0 {
      HeightsUpToAt(make, s, site, heights, base, n - 1);
      var h := heights[n - 1];
      AttemptsUpToAt(make, s, site, h, base + 5 * (n - 1), Attempts);
      var prev := HeightsUpTo(make, s, site, heights, base, n - 1);
      var last := AttemptsUpTo(make, s, site, h, base + 5 * (n - 1), Attempts);
      assert HeightsUpTo(make, s, site, heights, base, n) == prev + last;
      forall k, a | 0 <= k < n && 0 <= a < Attempts
        ensures HeightsUpTo(make, s, site, heights, base, n)[Slot(k, a)] == make(s, site, heights[k], base + Slot(k, a))
      {
        if k < n - 1 {
          assert HeightsUpTo(make, s, site, heights, base, n)[Slot(k, a)] == prev[Slot(k, a)];
        } else {
          assert HeightsUpTo(make, s, site, heights, base, n)[Slot(k, a)] == last[a];
        }
      }
    }
  }

  lemma {:induction false} SitesUpToAt(make: Make, p: Plan, s: real, base: nat, n: nat)
    requires Shaped(p) && n <= |p.sites|
    ensures forall j, k, a :: 0 <= j < n && 0 <= k < 6 && 0 <= a < Attempts ==>
      SitesUpTo(make, p, s, base, n)[SiteSlot(j, k, a)] == make(s, p.sites[j], p.heights(p.sites[j])[k], base + SiteSlot(j, k, a))
  {
    if n > 0 {
      SitesUpToAt(make, p, s, base, n - 1);
      var site := p.sites[n - 1];
      HeightsUpToAt(make, s, site, p.heights(site), base + 30 * (n - 1), |p.heights(site)|);
      var prev := SitesUpTo(make, p, s, base, n - 1);
      var last := HeightsUpTo(make, s, site, p.heights(site), base + 30 * (n - 1), |p.heights(site)|);
      assert SitesUpTo(make, p, s, base, n) == prev + last;
      forall j, k, a | 0 <= j < n && 0 <= k < 6 && 0 <= a < Attempts
        ensures SitesUpTo(make, p, s, base, n)[SiteSlot(j, k, a)] == make(s, p.sites[j], p.heights(p.sites[j])[k], base + SiteSlot(j, k, a))
      {
        if j < n - 1 {
          assert SitesUpTo(make, p, s, base, n)[SiteSlot(j, k, a)] == prev[SiteSlot(j, k, a)];
        } else {
          assert SitesUpTo(make, p, s, base, n)[SiteSlot(j, k, a)] == last[Slot(k, a)];
        }
      }
    }
  }

  /** Attempt number `AttemptNo(i, j, k, a)` lies in the block of strain
      `i`, at `SiteSlot(j, k, a)` from its start. */
  lemma AttemptNoSplit(i: nat, j: nat, k: nat, a: nat)
    requires j < 4 && k < 6 && a < Attempts
    ensures 120 * i <= AttemptNo(i, j, k, a) < 120 * i + 120
    ensures AttemptNo(i, j, k, a) == 120 * i + SiteSlot(j, k, a)
  {
  }

  lemma {:induction false} StrainsUpToAt(make: Make, p: Plan, n: nat)
    requires Shaped(p) && n <= |p.strains|
    ensures forall i, j, k, a {:trigger StrainsUpTo(make, p, n)[AttemptNo(i, j, k, a)]} :: 0 <= i < n && 0 <= j < 4 && 0 <= k < 6 && 0 <= a < Attempts ==>
      StrainsUpTo(make, p, n)[AttemptNo(i, j, k, a)] == make(p.strains[i], p.sites[j], p.heights(p.sites[j])[k], AttemptNo(i, j, k, a))
  {
    if n > 0 {
      StrainsUpToAt(make, p, n - 1);
      var s := p.strains[n - 1];
      SitesUpToAt(make, p, s, 120 * (n - 1), |p.sites|);
      var prev := StrainsUpTo(make, p, n - 1);
      var last := SitesUpTo(make, p, s, 120 * (n - 1), |p.sites|);
      assert StrainsUpTo(make, p, n) == prev + last;
      forall i, j, k, a | 0 <= i < n && 0 <= j < 4 && 0 <= k < 6 && 0 <= a < Attempts
        ensures StrainsUpTo(make, p, n)[AttemptNo(i, j, k, a)] == make(p.strains[i], p.sites[j], p.heights(p.sites[j])[k], AttemptNo(i, j, k, a))
      {
        AttemptNoSplit(i, j, k, a);
        if i < n - 1 {
          assert StrainsUpTo(make, p, n)[AttemptNo(i, j, k, a)] == prev[AttemptNo(i, j, k, a)];
        } else {
          assert StrainsUpTo(make, p, n)[AttemptNo(i, j, k, a)] == last[SiteSlot(j, k, a)];
        }
      }
    }
  }

  /** With `p` the script's tables there are 7 x 4 x 6 x 5 = 840 attempts,
      strain-major, then site, height and attempt, and each attempt uses the
      draw of its own number. */
  lemma AttemptsInOrder(t: Structure, w: Tools, p: Plan)
    requires |t.cell| == 3 && |w.h2| == 2 && Shaped(p)
    ensures |StrainsUpTo(Maker(t, w), p, |p.strains|)| == 120 * |p.strains|
    ensures forall i, j, k, a :: 0 <= i < |p.strains| && 0 <= j < 4 && 0 <= k < 6 && 0 <= a < Attempts ==>
      StrainsUpTo(Maker(t, w), p, |p.strains|)[AttemptNo(i, j, k, a)]
      == Candidate(t, p.strains[i], p.sites[j], p.heights(p.sites[j])[k], w.draw(AttemptNo(i, j, k, a)), w)
  {
    StrainsUpToAt(Maker(t, w), p, |p.strains|);
  }

  /** A structure is kept exactly when it is one of the attempts and passes
      the height and closeness test. */
  lemma AcceptedAreThosePassing(t: Structure, w: Tools, p: Plan, n: nat)
    requires |t.cell| == 3 && |w.h2| == 2 && Shaped(p) && n <= |p.strains|
    ensures |Accepted(Maker(t, w), p, Keep(w), n)| <= 120 * n
    ensures forall c :: c in Accepted(Maker(t, w), p, Keep(w), n) <==>
      (c in StrainsUpTo(Maker(t, w), p, n) && Passes(c, w.tooClose))
  {
    KeptMembers(StrainsUpTo(Maker(t, w), p, n), Keep(w));
  }

  /** The list only grows: what was kept after `m` strains starts the list
      after `n >= m` strains. */
  lemma {:induction false} AcceptedGrows(make: Make, p: Plan, keep: Structure -> bool, m: nat, n: nat)
    requires Shaped(p) && m <= n <= |p.strains|
    ensures Accepted(make, p, keep, m) <= Accepted(make, p, keep, n)
    decreases n - m
  {
    if m < n {
      AcceptedGrows(make, p, keep, m, n - 1);
      KeptAppend(StrainsUpTo(make, p, n - 1), SitesUpTo(make, p, p.strains[n - 1], 120 * (n - 1), |p.sites|), keep);
    }
  }

  /** Each write holds the previous one as a prefix. */
  lemma SnapshotsGrow(make: Make, p: Plan, keep: Structure -> bool, m: nat)
    requires Shaped(p) && m < |p.strains|
    ensures Snapshot(make, p, keep)(m) == Accepted(make, p, keep, m)
    ensures Snapshot(make, p, keep)(m) <= Snapshot(make, p, keep)(m + 1)
  {
    assert Snapshot(make, p, keep)(m + 1) == Accepted(make, p, keep, m + 1);
    AcceptedGrows(make, p, keep, m, m + 1);
  }

  /** The database after `n` strains ends with the list as it stands then. */
  lemma WritesEndWithAccepted(make: Make, p: Plan, keep: Structure -> bool, n: nat)
    requires Shaped(p) && 0 < n <= |p.strains|
    ensures var final := Accepted(make, p, keep, n); var log := Writes(make, p, keep, n);
      |final| <= |log| && log[|log| - |final|..] == final
  {
    RewritesEnd(Snapshot(make, p, keep), n);
    assert Snapshot(make, p, keep)(n) == Accepted(make, p, keep, n);
  }

  /** The rewrite schedule stores a structure more than once: what was kept
      after strain `m` is written after strain `m` and again, at the head of
      the next write, after strain `m + 1`. */
  lemma WritesRepeat(make: Make, p: Plan, keep: Structure -> bool, m: nat, n: nat)
    requires Shaped(p) && 1 <= m < n <= |p.strains|
    ensures var kept := Accepted(make, p, keep, m);
      Writes(make, p, keep, m - 1) + kept + kept <= Writes(make, p, keep, n)
  {
    SnapshotsGrow(make, p, keep, m);
    RewritesRepeat(Snapshot(make, p, keep), m, n);
  }

  /** One pass of the attempt loop: the molecule stretched with draw `n`,
      rotated and added, the structure strained, and appended to `structs0`
      when it passes the acceptance test. */
  method Attempt(el: string, fcclatt: real, s: real, site: Site, h: real, n: nat,
                 fcc111: (string, real) -> Structure, w: Tools, structs0: seq<Structure>)
    returns (structs: seq<Structure>)
    requires |fcc111(el, fcclatt).cell| == 3 && |fcc111(el, fcclatt).positions| >= 1 && ValidTools(w)
    ensures var c := Maker(fcc111(el, fcclatt), w)(s, site, h, n);
      structs == structs0 + (if Keep(w)(c) then [c] else [])
  {
    var d := w.draw(n);
    var rndmol := w.h2;
    rndmol := rndmol[1 := rndmol[1].(z := rndmol[1].z + ((2.5 - 0.5) * d.stretch - 1.75))];
    rndmol := w.orient(rndmol, d.axis, d.angle * 90.0);
    var atoms := new Atoms(fcc111(el, fcclatt));
    atoms.AddAdsorbate(rndmol, h, site, w.adsorb);
    atoms.StrainXY(s, w.rescale);
    var surface := atoms.Value();
    CandidateHasMolecule(fcc111(el, fcclatt), s, site, h, d, w);
    var k := |surface.positions|;
    var z := surface.positions[k - 3].z;
    var z1 := surface.positions[k - 2].z;
    var z2 := surface.positions[k - 1].z;
    structs := structs0;
    if z1 - z > Clearance {
      if z2 - z > Clearance {
        if !w.tooClose(surface) {
          structs := structs + [surface];
        }
      }
    }
  }

  lemma KeptNextAttempt(make: Make, s: real, site: Site, h: real, base: nat, a: nat, keep: Structure -> bool,
                        structs0: seq<Structure>, before: seq<Structure>, after: seq<Structure>)
    requires before == structs0 + Kept(AttemptsUpTo(make, s, site, h, base, a), keep)
    requires var c := make(s, site, h, base + a); after == before + (if keep(c) then [c] else [])
    ensures after == structs0 + Kept(AttemptsUpTo(make, s, site, h, base, a + 1), keep)
  {
    var prev := AttemptsUpTo(make, s, site, h, base, a);
    var c := make(s, site, h, base + a);
    assert AttemptsUpTo(make, s, site, h, base, a + 1) == prev + [c];
    KeptSnoc(prev, c, keep);
    AppendTwice(structs0, Kept(prev, keep), if keep(c) then [c] else []);
  }

  /** The five attempts at one height, appending the kept ones. */
  method AttemptLoop(el: string, fcclatt: real, s: real, site: Site, h: real, base: nat,
                     fcc111: (string, real) -> Structure, w: Tools, structs0: seq<Structure>)
    returns (structs: seq<Structure>)
    requires |fcc111(el, fcclatt).cell| == 3 && |fcc111(el, fcclatt).positions| >= 1 && ValidTools(w)
    ensures structs == structs0 + Kept(AttemptsUpTo(Maker(fcc111(el, fcclatt), w), s, site, h, base, Attempts), Keep(w))
  {
    structs := structs0;
    for a := 0 to Attempts
      invariant structs == structs0 + Kept(AttemptsUpTo(Maker(fcc111(el, fcclatt), w), s, site, h, base, a), Keep(w))
    {
      ghost var before := structs;
      structs := Attempt(el, fcclatt, s, site, h, base + a, fcc111, w, structs);
      KeptNextAttempt(Maker(fcc111(el, fcclatt), w), s, site, h, base, a, Keep(w), structs0, before, structs);
    }
  }

  lemma KeptNextHeight(make: Make, s: real, site: Site, heights: seq<real>, base: nat, k: nat, keep: Structure -> bool,
                       structs0: seq<Structure>, before: seq<Structure>, after: seq<Structure>)
    requires k < |heights|
    requires before == structs0 + Kept(HeightsUpTo(make, s, site, heights, base, k), keep)
    requires after == before + Kept(AttemptsUpTo(make, s, site, heights[k], base + 5 * k, Attempts), keep)
    ensures after == structs0 + Kept(HeightsUpTo(make, s, site, heights, base, k + 1), keep)
  {
    var prev := HeightsUpTo(make, s, site, heights, base, k);
    var last := AttemptsUpTo(make, s, site, heights[k], base + 5 * k, Attempts);
    assert HeightsUpTo(make, s, site, heights, base, k + 1) == prev + last;
    KeptAppend(prev, last, keep);
    AppendTwice(structs0, Kept(prev, keep), Kept(last, keep));
  }

  /** The height loop of one site over its `heights`, appending the kept
      attempts. */
  method HeightLoop(el: string, fcclatt: real, s: real, site: Site, heights: seq<real>, base: nat,
                    fcc111: (string, real) -> Structure, w: Tools, structs0: seq<Structure>)
    returns (structs: seq<Structure>)
    requires |fcc111(el, fcclatt).cell| == 3 && |fcc111(el, fcclatt).positions| >= 1 && ValidTools(w)
    ensures structs == structs0 + Kept(HeightsUpTo(Maker(fcc111(el, fcclatt), w), s, site, heights, base, |heights|), Keep(w))
  {
    structs := structs0;
    for k := 0 to |heights|
      invariant structs == structs0 + Kept(HeightsUpTo(Maker(fcc111(el, fcclatt), w), s, site, heights, base, k), Keep(w))
    {
      ghost var before := structs;
      structs := AttemptLoop(el, fcclatt, s, site, heights[k], base + 5 * k, fcc111, w, structs);
      KeptNextHeight(Maker(fcc111(el, fcclatt), w), s, site, heights, base, k, Keep(w), structs0, before, structs);
    }
  }

  lemma KeptNextSite(make: Make, p: Plan, s: real, base: nat, j: nat, keep: Structure -> bool,
                     structs0: seq<Structure>, before: seq<Structure>, after: seq<Structure>)
    requires Shaped(p) && j < |p.sites|
    requires before == structs0 + Kept(SitesUpTo(make, p, s, base, j), keep)
    requires after == before + Kept(HeightsUpTo(make, s, p.sites[j], p.heights(p.sites[j]), base + 30 * j, |p.heights(p.sites[j])|), keep)
    ensures after == structs0 + Kept(SitesUpTo(make, p, s, base, j + 1), keep)
  {
    var prev := SitesUpTo(make, p, s, base, j);
    var last := HeightsUpTo(make, s, p.sites[j], p.heights(p.sites[j]), base + 30 * j, |p.heights(p.sites[j])|);
    assert SitesUpTo(make, p, s, base, j + 1) == prev + last;
    KeptAppend(prev, last, keep);
    AppendTwice(structs0, Kept(prev, keep), Kept(last, keep));
  }

  /** The site loop of one strain, each site with its own height table,
      appending the kept attempts. */
  method SiteLoop(el: string, fcclatt: real, s: real, p: Plan, base: nat,
                  fcc111: (string, real) -> Structure, w: Tools, structs0: seq<Structure>)
    returns (structs: seq<Structure>)
    requires |fcc111(el, fcclatt).cell| == 3 && |fcc111(el, fcclatt).positions| >= 1 && ValidTools(w)
    requires Shaped(p)
    ensures structs == structs0 + Kept(SitesUpTo(Maker(fcc111(el, fcclatt), w), p, s, base, |p.sites|), Keep(w))
  {
    structs := structs0;
    for j := 0 to |p.sites|
      invariant structs == structs0 + Kept(SitesUpTo(Maker(fcc111(el, fcclatt), w), p, s, base, j), Keep(w))
    {
      ghost var before := structs;
      var site := p.sites[j];
      structs := HeightLoop(el, fcclatt, s, site, p.heights(site), base + 30 * j, fcc111, w, structs);
      KeptNextSite(Maker(fcc111(el, fcclatt), w), p, s, base, j, Keep(w), structs0, before, structs);
    }
  }

  lemma KeptNextStrain(make: Make, p: Plan, keep: Structure -> bool, i: nat,
                       before: seq<Structure>, after: seq<Structure>)
    requires Shaped(p) && i < |p.strains|
    requires before == Accepted(make, p, keep, i)
    requires after == before + Kept(SitesUpTo(make, p, p.strains[i], 120 * i, |p.sites|), keep)
    ensures after == Accepted(make, p, keep, i + 1)
    ensures Writes(make, p, keep, i + 1) == Writes(make, p, keep, i) + after
  {
    assert Snapshot(make, p, keep)(i + 1) == Accepted(make, p, keep, i + 1);
    KeptAppend(StrainsUpTo(make, p, i), SitesUpTo(make, p, p.strains[i], 120 * i, |p.sites|), keep);
  }

  /** The strain loop, writing the whole list to the database after each
      strain. */
  method StrainLoop(el: string, fcclatt: real, p: Plan,
                    fcc111: (string, real) -> Structure, w: Tools)
    returns (structs: seq<Structure>, written: seq<Structure>)
    requires |fcc111(el, fcclatt).cell| == 3 && |fcc111(el, fcclatt).positions| >= 1 && ValidTools(w)
    requires Shaped(p)
    ensures structs == Accepted(Maker(fcc111(el, fcclatt), w), p, Keep(w), |p.strains|)
    ensures written == Writes(Maker(fcc111(el, fcclatt), w), p, Keep(w), |p.strains|)
  {
    structs := [];
    written := [];
    for i := 0 to |p.strains|
      invariant structs == Accepted(Maker(fcc111(el, fcclatt), w), p, Keep(w), i)
      invariant written == Writes(Maker(fcc111(el, fcclatt), w), p, Keep(w), i)
    {
      ghost var before := structs;
      structs := SiteLoop(el, fcclatt, p.strains[i], p, 120 * i, fcc111, w, structs);
      KeptNextStrain(Maker(fcc111(el, fcclatt), w), p, Keep(w), i, before, structs);
      written := WriteAll(written, structs);
    }
  }

  /** `generate_slabs`: the seed, then the strain loop over the script's
      tables; returns the final `inp_structs` and the log of database
      writes. */
  method GenerateSlabs(syms: seq<string>, repeated: seq<Vec3>, sqrt: real -> real,
                       fcc111: (string, real) -> Structure, w: Tools)
    returns (r: Result<(seq<Structure>, seq<Structure>), SeedError>)
    requires forall el, a :: |fcc111(el, a).cell| == 3 && |fcc111(el, a).positions| >= 1
    requires ValidTools(w)
    ensures r == match Seeded(syms, repeated, sqrt)
                 case Err(e) => Err(e)
                 case Ok(seed) =>
                   var make := Maker(fcc111(seed.element, seed.lattice), w);
                   Ok((Accepted(make, Script, Keep(w), 7), Writes(make, Script, Keep(w), 7)))
  {
    var seed := FindSeed(syms, repeated, sqrt);
    if seed.Err? {
      return Err(seed.error);
    }
    ScriptShaped();
    var structs, written := StrainLoop(seed.value.element, seed.value.lattice, Script, fcc111, w);
    r := Ok((structs, written));
  }
}
