/** `add_H_fcc111.py`: a (1x1x3) fcc(111) slab of the seed element with one
    H atom added at each site and each height of that site's table, then
    strained in the plane, over every strain. The slab `build.fcc111(el, a=a,
    size=(1,1,3), vacuum=10.0)` is the parameter `fcc111` and
    `add_adsorbate` is the parameter `adsorb`. */
module AddH {
  import opened Wrappers
  import opened Geometry
  import opened Slab

  const Strains: seq<real> := [0.93, 0.96, 0.98, 0.99, 1.0, 1.01, 1.02, 1.04, 1.07]
  const OnTopHeights: seq<real> := [1.4, 1.6, 1.8, 2.0, 2.5, 5.0]
  const BridgeHeights: seq<real> := [0.6, 0.8, 1.0, 1.2, 1.5, 3.0, 5.0]
  const HollowHeights: seq<real> := [0.4, 0.6, 0.8, 1.0, 1.5, 3.0, 5.0]

  /** `ads = 'H'`: `add_adsorbate` places a single atom. */
  const Hydrogen: seq<Vec3> := [Zero]

  /** The height table a site uses: `ontoph`, `bridgeh`, or `hollowh` for
      both hollow sites. */
  function Heights(site: Site): (r: seq<real>)
    ensures site == Ontop ==> r == OnTopHeights
    ensures site == Bridge ==> r == BridgeHeights
    ensures site == Fcc || site == Hcp ==> r == HollowHeights
  {
    match site
    case Ontop => OnTopHeights
    case Bridge => BridgeHeights
    case _ => HollowHeights
  }

  /** Where the structures of site `Sites[j]` start within one strain: the
      on-top table has 6 heights, the others 7. */
  function SiteOffset(j: nat): nat
    requires j <= |Sites|
  {
    if j == 0 then 0 else 7 * j - 1
  }

  /** The structure for one strain, site and height. */
  function Candidate(t: Structure, s: real, site: Site, h: real, adsorb: Adsorb, rescale: Rescale): Structure
    requires |t.cell| == 3
  {
    Strained(Adsorbed(t, Hydrogen, h, site, adsorb), s, 2, rescale)
  }

  /** The height loop of one site. */
  function PerSite(t: Structure, s: real, site: Site, adsorb: Adsorb, rescale: Rescale): seq<Structure>
    requires |t.cell| == 3
  {
    seq(|Heights(site)|, k requires 0 <= k < |Heights(site)| => Candidate(t, s, site, Heights(site)[k], adsorb, rescale))
  }

  /** The site loop of one strain over the first `n` sites. */
  function SitesUpTo(t: Structure, s: real, n: nat, adsorb: Adsorb, rescale: Rescale): (r: seq<Structure>)
    requires |t.cell| == 3 && n <= |Sites|
    ensures |r| == SiteOffset(n)
  {
    if n == 0 then [] else SitesUpTo(t, s, n - 1, adsorb, rescale) + PerSite(t, s, Sites[n - 1], adsorb, rescale)
  }

  /** The strain loop over the first `n` strains. */
  function StrainsUpTo(t: Structure, n: nat, adsorb: Adsorb, rescale: Rescale): (r: seq<Structure>)
    requires |t.cell| == 3 && n <= |Strains|
    ensures |r| == 27 * n
  {
    if n == 0 then [] else StrainsUpTo(t, n - 1, adsorb, rescale) + SitesUpTo(t, Strains[n - 1], |Sites|, adsorb, rescale)
  }

  /** `inp_structs` of `generate_slabs` for the slab `t`. */
  function Slabs(t: Structure, adsorb: Adsorb, rescale: Rescale): (r: seq<Structure>)
    requires |t.cell| == 3
    ensures |r| == 27 * |Strains|
  {
    StrainsUpTo(t, |Strains|, adsorb, rescale)
  }

  /** One strain's structures are the four sites' height loops in order. */
  lemma SitesInOrder(t: Structure, s: real, adsorb: Adsorb, rescale: Rescale)
    requires |t.cell| == 3
    ensures SitesUpTo(t, s, |Sites|, adsorb, rescale)
      == PerSite(t, s, Ontop, adsorb, rescale) + PerSite(t, s, Bridge, adsorb, rescale)
         + PerSite(t, s, Fcc, adsorb, rescale) + PerSite(t, s, Hcp, adsorb, rescale)
  {
    assert SitesUpTo(t, s, 1, adsorb, rescale) == PerSite(t, s, Ontop, adsorb, rescale);
    assert SitesUpTo(t, s, 2, adsorb, rescale) == SitesUpTo(t, s, 1, adsorb, rescale) + PerSite(t, s, Bridge, adsorb, rescale);
    assert SitesUpTo(t, s, 3, adsorb, rescale) == SitesUpTo(t, s, 2, adsorb, rescale) + PerSite(t, s, Fcc, adsorb, rescale);
  }

  lemma SitesUpToAt(t: Structure, s: real, adsorb: Adsorb, rescale: Rescale)
    requires |t.cell| == 3
    ensures forall j, k :: 0 <= j < |Sites| && 0 <= k < |Heights(Sites[j])| ==>
      SitesUpTo(t, s, |Sites|, adsorb, rescale)[SiteOffset(j) + k] == Candidate(t, s, Sites[j], Heights(Sites[j])[k], adsorb, rescale)
  {
    SitesInOrder(t, s, adsorb, rescale);
    var r := SitesUpTo(t, s, |Sites|, adsorb, rescale);
    var a, b, c, d := PerSite(t, s, Ontop, adsorb, rescale), PerSite(t, s, Bridge, adsorb, rescale),
                      PerSite(t, s, Fcc, adsorb, rescale), PerSite(t, s, Hcp, adsorb, rescale);
    assert r == a + b + c + d;
    forall j, k | 0 <= j < |Sites| && 0 <= k < |Heights(Sites[j])|
      ensures r[SiteOffset(j) + k] == Candidate(t, s, Sites[j], Heights(Sites[j])[k], adsorb, rescale)
    {
      if j == 0 {
        assert r[k] == a[k];
      } else if j == 1 {
        assert r[6 + k] == b[k];
      } else if j == 2 {
        assert r[13 + k] == c[k];
      } else {
        assert r[20 + k] == d[k];
      }
    }
  }

  lemma {:induction false} StrainsUpToAt(t: Structure, n: nat, adsorb: Adsorb, rescale: Rescale)
    requires |t.cell| == 3 && n <= |Strains|
    ensures forall i, m :: 0 <= i < n && 0 <= m < 27 ==>
      StrainsUpTo(t, n, adsorb, rescale)[27 * i + m] == SitesUpTo(t, Strains[i], |Sites|, adsorb, rescale)[m]
  {
    if n > 0 {
      StrainsUpToAt(t, n - 1, adsorb, rescale);
      var prev := StrainsUpTo(t, n - 1, adsorb, rescale);
      forall i, m | 0 <= i < n && 0 <= m < 27
        ensures StrainsUpTo(t, n, adsorb, rescale)[27 * i + m] == SitesUpTo(t, Strains[i], |Sites|, adsorb, rescale)[m]
      {
        if i < n - 1 {
          assert 27 * i + m < |prev|;
        } else {
          assert 27 * i + m == |prev| + m;
        }
      }
    }
  }

  /** Strain-major, then site in `fcc111sites` order, then height: 9 x 27 =
      243 structures, so every (strain, site, height) combination is kept. */
  lemma SlabsInOrder(t: Structure, adsorb: Adsorb, rescale: Rescale)
    requires |t.cell| == 3
    ensures |Slabs(t, adsorb, rescale)| == 243
    ensures forall i, j, k :: 0 <= i < |Strains| && 0 <= j < |Sites| && 0 <= k < |Heights(Sites[j])| ==>
      Slabs(t, adsorb, rescale)[27 * i + SiteOffset(j) + k] == Candidate(t, Strains[i], Sites[j], Heights(Sites[j])[k], adsorb, rescale)
  {
    StrainsUpToAt(t, |Strains|, adsorb, rescale);
    forall i, j, k | 0 <= i < |Strains| && 0 <= j < |Sites| && 0 <= k < |Heights(Sites[j])|
      ensures Slabs(t, adsorb, rescale)[27 * i + SiteOffset(j) + k] == Candidate(t, Strains[i], Sites[j], Heights(Sites[j])[k], adsorb, rescale)
    {
      SitesUpToAt(t, Strains[i], adsorb, rescale);
      assert SiteOffset(j) + k < 27;
    }
  }

  /** One structure: the slab built, the H atom added, then strained. */
  method AdsorbedSlab(el: string, fcclatt: real, s: real, site: Site, h: real,
                      fcc111: (string, real) -> Structure, adsorb: Adsorb, rescale: Rescale)
    returns (v: Structure)
    requires |fcc111(el, fcclatt).cell| == 3
    ensures v == Candidate(fcc111(el, fcclatt), s, site, h, adsorb, rescale)
  {
    var surface := new Atoms(fcc111(el, fcclatt));
    surface.AddAdsorbate(Hydrogen, h, site, adsorb);
    surface.StrainXY(s, rescale);
    v := surface.Value();
  }

  /** The height loop of one site, appending to `structs0`. */
  method HeightLoop(el: string, fcclatt: real, s: real, site: Site, fcc111: (string, real) -> Structure, adsorb: Adsorb,
                    rescale: Rescale, structs0: seq<Structure>)
    returns (structs: seq<Structure>)
    requires |fcc111(el, fcclatt).cell| == 3
    ensures structs == structs0 + PerSite(fcc111(el, fcclatt), s, site, adsorb, rescale)
  {
    ghost var row := PerSite(fcc111(el, fcclatt), s, site, adsorb, rescale);
    var heights := Heights(site);
    structs := structs0;
    for k := 0 to |heights|
      invariant structs == structs0 + row[..k]
    {
      var surface := AdsorbedSlab(el, fcclatt, s, site, heights[k], fcc111, adsorb, rescale);
      structs := structs + [surface];
      assert row[..k + 1] == row[..k] + [surface];
    }
    assert row[..|heights|] == row;
  }

  /** The site loop of one strain, appending to `structs0`. */
  method SiteLoop(el: string, fcclatt: real, s: real, fcc111: (string, real) -> Structure, adsorb: Adsorb,
                  rescale: Rescale, structs0: seq<Structure>)
    returns (structs: seq<Structure>)
    requires |fcc111(el, fcclatt).cell| == 3
    ensures structs == structs0 + SitesUpTo(fcc111(el, fcclatt), s, |Sites|, adsorb, rescale)
  {
    structs := structs0;
    for j := 0 to |Sites|
      invariant structs == structs0 + SitesUpTo(fcc111(el, fcclatt), s, j, adsorb, rescale)
    {
      ghost var prev := SitesUpTo(fcc111(el, fcclatt), s, j, adsorb, rescale);
      ghost var last := PerSite(fcc111(el, fcclatt), s, Sites[j], adsorb, rescale);
      structs := HeightLoop(el, fcclatt, s, Sites[j], fcc111, adsorb, rescale, structs);
      AppendTwice(structs0, prev, last);
      assert SitesUpTo(fcc111(el, fcclatt), s, j + 1, adsorb, rescale) == prev + last;
    }
  }

  /** `generate_slabs`: the seed, then the strain loop building `inp_structs`. */
  method GenerateSlabs(syms: seq<string>, repeated: seq<Vec3>, sqrt: real -> real,
                       fcc111: (string, real) -> Structure, adsorb: Adsorb, rescale: Rescale)
    returns (r: Result<seq<Structure>, SeedError>)
    requires forall el, a :: |fcc111(el, a).cell| == 3
    ensures r == match Seeded(syms, repeated, sqrt)
                 case Err(e) => Err(e)
                 case Ok(seed) => Ok(Slabs(fcc111(seed.element, seed.lattice), adsorb, rescale))
  {
    var seed := FindSeed(syms, repeated, sqrt);
    if seed.Err? {
      return Err(seed.error);
    }
    var el := seed.value.element;
    var fcclatt := seed.value.lattice;
    ghost var t := fcc111(el, fcclatt);
    var structs: seq<Structure> := [];
    for i := 0 to |Strains|
      invariant structs == StrainsUpTo(t, i, adsorb, rescale)
    {
      structs := SiteLoop(el, fcclatt, Strains[i], fcc111, adsorb, rescale, structs);
    }
    r := Ok(structs);
  }
}
