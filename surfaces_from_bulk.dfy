/** `surfaces_from_bulk.py`: clean fcc(111) slabs of the seed element, first
    strained in the surface plane over many strains, then over fewer strains
    each combined with a set of top-layer displacements. The slab built by
    `build.fcc111` for the seed's element and lattice constant is the
    parameter `fcc111`. */
module SurfacesFromBulk {
  import opened Wrappers
  import opened Geometry
  import opened Slab

  const Strains: seq<real> := [0.93, 0.96, 0.97, 0.98, 0.99, 1.0, 1.01, 1.02, 1.03, 1.04, 1.07]
  const FewerStrains: seq<real> := [0.95, 0.975, 1.0, 1.025, 1.05]
  const TopLayerMoves: seq<real> := [-0.1, -0.05, 0.05, 0.1, 0.3, 1.0]

  /** What the model needs of a slab: three cell rows and at least one atom. */
  predicate IsSlab(t: Structure) {
    |t.cell| == 3 && t.positions != []
  }

  /** The first loop: the slab strained by each of `Strains`. */
  function Unmoved(t: Structure, rescale: Rescale): (r: seq<Structure>)
    requires IsSlab(t)
    ensures forall i :: 0 <= i < |r| ==> |r[i].cell| == 3 && (KeepsAtoms(rescale) ==> |r[i].positions| == |t.positions|)
  {
    seq(|Strains|, i requires 0 <= i < |Strains| => Strained(t, Strains[i], 2, rescale))
  }

  /** The inner loop of the second phase: one strain, every top-layer move. */
  function MovedFor(t: Structure, s: real, rescale: Rescale): (r: seq<Structure>)
    requires IsSlab(t) && KeepsAtoms(rescale)
    ensures forall i :: 0 <= i < |r| ==> IsSlab(r[i]) && |r[i].positions| == |t.positions|
  {
    seq(|TopLayerMoves|, j requires 0 <= j < |TopLayerMoves| => Raised(Strained(t, s, 2, rescale), TopLayerMoves[j]))
  }

  /** The second phase over the first `n` of `FewerStrains`. */
  function MovedUpTo(t: Structure, n: nat, rescale: Rescale): (r: seq<Structure>)
    requires IsSlab(t) && KeepsAtoms(rescale) && n <= |FewerStrains|
    ensures forall i :: 0 <= i < |r| ==> IsSlab(r[i]) && |r[i].positions| == |t.positions|
  {
    if n == 0 then [] else MovedUpTo(t, n - 1, rescale) + MovedFor(t, FewerStrains[n - 1], rescale)
  }

  /** `inp_structs` of `generate_slabs` for the slab `t`: 41 slabs, each
      with three cell rows and the atoms of `t`. */
  function Slabs(t: Structure, rescale: Rescale): (r: seq<Structure>)
    requires IsSlab(t) && KeepsAtoms(rescale)
    ensures |r| == 41
    ensures forall i :: 0 <= i < |r| ==> IsSlab(r[i]) && |r[i].positions| == |t.positions|
  {
    MovedUpToAt(t, |FewerStrains|, rescale);
    Unmoved(t, rescale) + MovedUpTo(t, |FewerStrains|, rescale)
  }

  lemma {:induction false} MovedUpToAt(t: Structure, n: nat, rescale: Rescale)
    requires IsSlab(t) && KeepsAtoms(rescale) && n <= |FewerStrains|
    ensures |MovedUpTo(t, n, rescale)| == 6 * n
    ensures forall i, j :: 0 <= i < n && 0 <= j < 6 ==>
      MovedUpTo(t, n, rescale)[6 * i + j] == MovedFor(t, FewerStrains[i], rescale)[j]
  {
    if n > 0 {
      MovedUpToAt(t, n - 1, rescale);
      var prev := MovedUpTo(t, n - 1, rescale);
      var last := MovedFor(t, FewerStrains[n - 1], rescale);
      assert MovedUpTo(t, n, rescale) == prev + last;
      forall i, j | 0 <= i < n && 0 <= j < 6
        ensures MovedUpTo(t, n, rescale)[6 * i + j] == MovedFor(t, FewerStrains[i], rescale)[j]
      {
        if i < n - 1 {
          assert 6 * i + j < |prev|;
        } else {
          assert 6 * i + j == |prev| + j;
        }
      }
    }
  }

  /** The slabs come as 11 strained ones, then the 5 x 6 (strain, move)
      pairs in strain-major order: 41 structures. */
  lemma SlabsInOrder(t: Structure, rescale: Rescale)
    requires IsSlab(t) && KeepsAtoms(rescale)
    ensures |Slabs(t, rescale)| == 41
    ensures forall i :: 0 <= i < 11 ==> Slabs(t, rescale)[i] == Strained(t, Strains[i], 2, rescale)
    ensures forall i, j :: 0 <= i < 5 && 0 <= j < 6 ==>
      Slabs(t, rescale)[11 + 6 * i + j] == Raised(Strained(t, FewerStrains[i], 2, rescale), TopLayerMoves[j])
  {
    MovedUpToAt(t, |FewerStrains|, rescale);
    var r := Slabs(t, rescale);
    forall i, j | 0 <= i < 5 && 0 <= j < 6
      ensures r[11 + 6 * i + j] == Raised(Strained(t, FewerStrains[i], 2, rescale), TopLayerMoves[j])
    {
      assert r[11 + 6 * i + j] == MovedUpTo(t, |FewerStrains|, rescale)[6 * i + j];
      assert |MovedFor(t, FewerStrains[i], rescale)| == 6;
      assert MovedFor(t, FewerStrains[i], rescale)[j] == Raised(Strained(t, FewerStrains[i], 2, rescale), TopLayerMoves[j]);
    }
  }

  /** Every slab keeps the template's third cell row and scales the first two
      by one common factor. */
  lemma SlabsStrainInPlane(t: Structure, rescale: Rescale)
    requires IsSlab(t) && KeepsAtoms(rescale)
    ensures forall k :: 0 <= k < |Slabs(t, rescale)| ==>
      exists s :: s in Strains + FewerStrains && Slabs(t, rescale)[k].cell == StrainedCell(t.cell, s, 2)
  {
    SlabsInOrder(t, rescale);
    var r := Slabs(t, rescale);
    forall k | 0 <= k < |r|
      ensures exists s :: s in Strains + FewerStrains && r[k].cell == StrainedCell(t.cell, s, 2)
    {
      if k < 11 {
        assert Strains[k] in Strains + FewerStrains;
      } else {
        var i := (k - 11) / 6;
        var j := (k - 11) % 6;
        assert k == 11 + 6 * i + j;
        assert r[k] == Raised(Strained(t, FewerStrains[i], 2, rescale), TopLayerMoves[j]);
        assert FewerStrains[i] in Strains + FewerStrains;
      }
    }
  }

  /** The slab of the first loop: built, then strained. */
  method StrainedSlab(el: string, fcclatt: real, s: real, fcc111: (string, real) -> Structure, rescale: Rescale)
    returns (v: Structure)
    requires IsSlab(fcc111(el, fcclatt))
    ensures v == Strained(fcc111(el, fcclatt), s, 2, rescale)
  {
    var surface := new Atoms(fcc111(el, fcclatt));
    surface.StrainXY(s, rescale);
    v := surface.Value();
  }

  /** The slab of the second loop: built, strained, top layer moved. */
  method MovedSlab(el: string, fcclatt: real, s: real, top: real, fcc111: (string, real) -> Structure, rescale: Rescale)
    returns (v: Structure)
    requires IsSlab(fcc111(el, fcclatt)) && KeepsAtoms(rescale)
    ensures v == Raised(Strained(fcc111(el, fcclatt), s, 2, rescale), top)
  {
    var surface := new Atoms(fcc111(el, fcclatt));
    surface.StrainXY(s, rescale);
    var ok := surface.MoveTopLayer(top);
    v := surface.Value();
  }

  /** The first loop of `generate_slabs`. */
  method StrainLoop(el: string, fcclatt: real, fcc111: (string, real) -> Structure, rescale: Rescale)
    returns (structs: seq<Structure>)
    requires IsSlab(fcc111(el, fcclatt))
    ensures structs == Unmoved(fcc111(el, fcclatt), rescale)
  {
    ghost var t := fcc111(el, fcclatt);
    structs := [];
    for i := 0 to |Strains|
      invariant structs == seq(i, k requires 0 <= k < i => Strained(t, Strains[k], 2, rescale))
    {
      var surface := StrainedSlab(el, fcclatt, Strains[i], fcc111, rescale);
      structs := structs + [surface];
    }
  }

  /** The second loop of `generate_slabs`, appending to `structs0`. */
  method MoveLoop(el: string, fcclatt: real, fcc111: (string, real) -> Structure, rescale: Rescale, structs0: seq<Structure>)
    returns (structs: seq<Structure>)
    requires IsSlab(fcc111(el, fcclatt)) && KeepsAtoms(rescale)
    ensures structs == structs0 + MovedUpTo(fcc111(el, fcclatt), |FewerStrains|, rescale)
  {
    ghost var t := fcc111(el, fcclatt);
    structs := structs0;
    for i := 0 to |FewerStrains|
      invariant structs == structs0 + MovedUpTo(t, i, rescale)
    {
      ghost var row := MovedFor(t, FewerStrains[i], rescale);
      for j := 0 to |TopLayerMoves|
        invariant structs == structs0 + MovedUpTo(t, i, rescale) + row[..j]
      {
        var surface := MovedSlab(el, fcclatt, FewerStrains[i], TopLayerMoves[j], fcc111, rescale);
        structs := structs + [surface];
        assert row[..j + 1] == row[..j] + [surface];
      }
      assert row[..|TopLayerMoves|] == row;
    }
  }

  /** `generate_slabs`: the seed, then the two loops building `inp_structs`;
      `fcc111(el, a)` is the slab `build.fcc111(el, a=a, size=(2,1,3),
      vacuum=10.0)`. */
  method GenerateSlabs(syms: seq<string>, repeated: seq<Vec3>, sqrt: real -> real,
                       fcc111: (string, real) -> Structure, rescale: Rescale)
    returns (r: Result<seq<Structure>, SeedError>)
    requires forall el, a :: IsSlab(fcc111(el, a))
    requires KeepsAtoms(rescale)
    ensures r == match Seeded(syms, repeated, sqrt)
                 case Err(e) => Err(e)
                 case Ok(seed) => Ok(Slabs(fcc111(seed.element, seed.lattice), rescale))
  {
    var seed := FindSeed(syms, repeated, sqrt);
    if seed.Err? {
      return Err(seed.error);
    }
    var structs := StrainLoop(seed.value.element, seed.value.lattice, fcc111, rescale);
    structs := MoveLoop(seed.value.element, seed.value.lattice, fcc111, rescale, structs);
    r := Ok(structs);
  }
}
