/** `bulk.py`: 8-atom fcc supercells of the seed element, strained in the
    plane or in all three directions, then over fewer strains rattled with
    seeds drawn by `random.sample`. The supercell `build.bulk(el, 'fcc',
    a=a).repeat(2)` is the parameter `supercell`, and the ten draws of
    `random.sample(list(range(50)), k=7)` are the parameter `samples`, in the
    order the loops make them. */
module BulkSeed {
  import opened Wrappers
  import opened Geometry
  import opened Slab

  const Strains: seq<real> := [0.93, 0.96, 0.97, 0.98, 0.99, 1.0, 1.01, 1.02, 1.03, 1.04, 1.07]
  const FewerStrains: seq<real> := [0.95, 0.975, 1.0, 1.025, 1.05]

  /** The `k` and the range of `random.sample(list(range(50)), k=7)`. */
  const SampleSize: nat := 7
  const SampleRange: nat := 50

  /** A draw of `random.sample`: 7 distinct values below 50. */
  predicate IsSample(xs: seq<nat>) {
    |xs| == SampleSize
    && (forall i :: 0 <= i < |xs| ==> xs[i] < SampleRange)
    && (forall i, j :: 0 <= i < j < |xs| ==> xs[i] != xs[j])
  }

  /** The ten draws: five for the in-plane phase, five for the full one. */
  predicate AreSamples(samples: seq<seq<nat>>) {
    |samples| == 2 * |FewerStrains| && forall d :: 0 <= d < |samples| ==> IsSample(samples[d])
  }

  /** `k == 2` is `strain_atoms_xy`, `k == 3` is `strain_atoms`. */
  predicate IsStrainKind(k: nat) {
    k == 2 || k == 3
  }

  /** The first or the second loop: one supercell per strain. */
  function StrainedFor(t: Structure, k: nat, rescale: Rescale): (r: seq<Structure>)
    requires |t.cell| == 3
    ensures forall i :: 0 <= i < |r| ==> |r[i].cell| == 3
  {
    seq(|Strains|, i requires 0 <= i < |Strains| => Strained(t, Strains[i], k, rescale))
  }

  /** The inner loop of the third or fourth phase: one strain, the seeds of
      one draw. */
  function RattledFor(t: Structure, s: real, k: nat, seeds: seq<nat>, rescale: Rescale, rattle: Rattle): (r: seq<Structure>)
    requires |t.cell| == 3
    ensures forall i :: 0 <= i < |r| ==> |r[i].cell| == 3
  {
    seq(|seeds|, j requires 0 <= j < |seeds| => Rattled(Strained(t, s, k, rescale), seeds[j], rattle))
  }

  /** The third or fourth phase over the first `n` of `FewerStrains`. */
  function RattledUpTo(t: Structure, k: nat, n: nat, draws: seq<seq<nat>>, rescale: Rescale, rattle: Rattle): (r: seq<Structure>)
    requires |t.cell| == 3 && n <= |FewerStrains| && n <= |draws|
    ensures forall i :: 0 <= i < |r| ==> |r[i].cell| == 3
  {
    if n == 0 then []
    else RattledUpTo(t, k, n - 1, draws, rescale, rattle) + RattledFor(t, FewerStrains[n - 1], k, draws[n - 1], rescale, rattle)
  }

  /** `inp_structs` of `generate_bulk` for the supercell `t`: 92
      structures, each with three cell rows. */
  function Bulks(t: Structure, samples: seq<seq<nat>>, rescale: Rescale, rattle: Rattle): (r: seq<Structure>)
    requires |t.cell| == 3 && AreSamples(samples)
    ensures |r| == 92 && forall i :: 0 <= i < |r| ==> |r[i].cell| == 3
  {
    RattledUpToAt(t, 2, |FewerStrains|, samples[..5], rescale, rattle);
    RattledUpToAt(t, 3, |FewerStrains|, samples[5..], rescale, rattle);
    StrainedFor(t, 2, rescale) + StrainedFor(t, 3, rescale)
    + RattledUpTo(t, 2, |FewerStrains|, samples[..5], rescale, rattle)
    + RattledUpTo(t, 3, |FewerStrains|, samples[5..], rescale, rattle)
  }

  lemma {:induction false} RattledUpToAt(t: Structure, k: nat, n: nat, draws: seq<seq<nat>>, rescale: Rescale, rattle: Rattle)
    requires |t.cell| == 3 && n <= |FewerStrains| && n <= |draws|
    requires forall d :: 0 <= d < |draws| ==> |draws[d]| == SampleSize
    ensures |RattledUpTo(t, k, n, draws, rescale, rattle)| == 7 * n
    ensures forall i, j :: 0 <= i < n && 0 <= j < 7 ==>
      RattledUpTo(t, k, n, draws, rescale, rattle)[7 * i + j] == RattledFor(t, FewerStrains[i], k, draws[i], rescale, rattle)[j]
  {
    if n > 0 {
      RattledUpToAt(t, k, n - 1, draws, rescale, rattle);
      var prev := RattledUpTo(t, k, n - 1, draws, rescale, rattle);
      assert |draws[n - 1]| == 7;
      forall i, j | 0 <= i < n && 0 <= j < 7
        ensures RattledUpTo(t, k, n, draws, rescale, rattle)[7 * i + j] == RattledFor(t, FewerStrains[i], k, draws[i], rescale, rattle)[j]
      {
        if i < n - 1 {
          assert 7 * i + j < |prev|;
        } else {
          assert 7 * i + j == |prev| + j;
        }
      }
    }
  }

  /** 11 supercells strained in the plane, 11 strained in all directions,
      5 x 7 strained in the plane and rattled, 5 x 7 strained in all
      directions and rattled: 92 structures, each rattle seed taken from its
      own strain's draw. */
  lemma BulksInOrder(t: Structure, samples: seq<seq<nat>>, rescale: Rescale, rattle: Rattle)
    requires |t.cell| == 3 && AreSamples(samples)
    ensures |Bulks(t, samples, rescale, rattle)| == 92
    ensures forall i :: 0 <= i < 11 ==>
      Bulks(t, samples, rescale, rattle)[i] == Strained(t, Strains[i], 2, rescale)
      && Bulks(t, samples, rescale, rattle)[11 + i] == Strained(t, Strains[i], 3, rescale)
    ensures forall i, j :: 0 <= i < 5 && 0 <= j < 7 ==>
      Bulks(t, samples, rescale, rattle)[22 + 7 * i + j] == Rattled(Strained(t, FewerStrains[i], 2, rescale), samples[i][j], rattle)
    ensures forall i, j :: 5 <= i < 10 && 0 <= j < 7 ==>
      Bulks(t, samples, rescale, rattle)[57 + 7 * (i - 5) + j] == Rattled(Strained(t, FewerStrains[i - 5], 3, rescale), samples[i][j], rattle)
  {
    var lo := samples[..5];
    var hi := samples[5..];
    RattledUpToAt(t, 2, |FewerStrains|, lo, rescale, rattle);
    RattledUpToAt(t, 3, |FewerStrains|, hi, rescale, rattle);
    var r := Bulks(t, samples, rescale, rattle);
    forall i, j | 0 <= i < 5 && 0 <= j < 7
      ensures r[22 + 7 * i + j] == Rattled(Strained(t, FewerStrains[i], 2, rescale), samples[i][j], rattle)
    {
      assert r[22 + 7 * i + j] == RattledFor(t, FewerStrains[i], 2, lo[i], rescale, rattle)[j];
      assert lo[i] == samples[i];
    }
    forall i, j | 5 <= i < 10 && 0 <= j < 7
      ensures r[57 + 7 * (i - 5) + j] == Rattled(Strained(t, FewerStrains[i - 5], 3, rescale), samples[i][j], rattle)
    {
      assert r[57 + 7 * (i - 5) + j] == RattledFor(t, FewerStrains[i - 5], 3, hi[i - 5], rescale, rattle)[j];
      assert hi[i - 5] == samples[i];
    }
  }

  /** The seeds of one strain's rattled supercells are 7 distinct values
      below 50, so no two of them are rattled alike. */
  lemma RattleSeedsDistinct(samples: seq<seq<nat>>, d: nat, j: nat, j': nat)
    requires AreSamples(samples) && d < |samples| && j < 7 && j' < 7 && j != j'
    ensures samples[d][j] != samples[d][j'] && samples[d][j] < 50
  {
    assert IsSample(samples[d]);
    if j < j' {
      assert samples[d][j] != samples[d][j'];
    } else {
      assert samples[d][j'] != samples[d][j];
    }
  }

  /** A supercell built, then strained. */
  method StrainedBulk(el: string, fcclatt: real, s: real, k: nat, supercell: (string, real) -> Structure, rescale: Rescale)
    returns (v: Structure)
    requires |supercell(el, fcclatt).cell| == 3 && IsStrainKind(k)
    ensures v == Strained(supercell(el, fcclatt), s, k, rescale)
  {
    var bulk := new Atoms(supercell(el, fcclatt));
    if k == 2 {
      bulk.StrainXY(s, rescale);
    } else {
      bulk.StrainAll(s, rescale);
    }
    v := bulk.Value();
  }

  /** A supercell built, strained, then rattled with seed `n`. */
  method RattledBulk(el: string, fcclatt: real, s: real, k: nat, n: nat,
                     supercell: (string, real) -> Structure, rescale: Rescale, rattle: Rattle)
    returns (v: Structure)
    requires |supercell(el, fcclatt).cell| == 3 && IsStrainKind(k)
    ensures v == Rattled(Strained(supercell(el, fcclatt), s, k, rescale), n, rattle)
  {
    var bulk := new Atoms(supercell(el, fcclatt));
    if k == 2 {
      bulk.StrainXY(s, rescale);
    } else {
      bulk.StrainAll(s, rescale);
    }
    bulk.Rattle(n, rattle);
    v := bulk.Value();
  }

  /** The first (`k == 2`) or second (`k == 3`) loop, appending to `structs0`. */
  method StrainLoop(el: string, fcclatt: real, k: nat, supercell: (string, real) -> Structure, rescale: Rescale,
                    structs0: seq<Structure>)
    returns (structs: seq<Structure>)
    requires |supercell(el, fcclatt).cell| == 3 && IsStrainKind(k)
    ensures structs == structs0 + StrainedFor(supercell(el, fcclatt), k, rescale)
  {
    ghost var t := supercell(el, fcclatt);
    structs := structs0;
    for i := 0 to |Strains|
      invariant structs == structs0 + seq(i, m requires 0 <= m < i => Strained(t, Strains[m], k, rescale))
    {
      var bulk := StrainedBulk(el, fcclatt, Strains[i], k, supercell, rescale);
      structs := structs + [bulk];
    }
  }

  /** The third (`k == 2`) or fourth (`k == 3`) loop with its five draws,
      appending to `structs0`. */
  method RattleLoop(el: string, fcclatt: real, k: nat, draws: seq<seq<nat>>,
                    supercell: (string, real) -> Structure, rescale: Rescale, rattle: Rattle, structs0: seq<Structure>)
    returns (structs: seq<Structure>)
    requires |supercell(el, fcclatt).cell| == 3 && IsStrainKind(k) && |draws| == |FewerStrains|
    ensures structs == structs0 + RattledUpTo(supercell(el, fcclatt), k, |FewerStrains|, draws, rescale, rattle)
  {
    ghost var t := supercell(el, fcclatt);
    structs := structs0;
    for i := 0 to |FewerStrains|
      invariant structs == structs0 + RattledUpTo(t, k, i, draws, rescale, rattle)
    {
      var seeds := draws[i];
      ghost var row := RattledFor(t, FewerStrains[i], k, seeds, rescale, rattle);
      for j := 0 to |seeds|
        invariant structs == structs0 + RattledUpTo(t, k, i, draws, rescale, rattle) + row[..j]
      {
        var bulk := RattledBulk(el, fcclatt, FewerStrains[i], k, seeds[j], supercell, rescale, rattle);
        structs := structs + [bulk];
        assert row[..j + 1] == row[..j] + [bulk];
      }
      assert row[..|seeds|] == row;
    }
  }

  /** `generate_bulk`: the seed, then the four loops building `inp_structs`. */
  method GenerateBulk(syms: seq<string>, repeated: seq<Vec3>, sqrt: real -> real, samples: seq<seq<nat>>,
                      supercell: (string, real) -> Structure, rescale: Rescale, rattle: Rattle)
    returns (r: Result<seq<Structure>, SeedError>)
    requires forall el, a :: |supercell(el, a).cell| == 3
    requires AreSamples(samples)
    ensures r == match Seeded(syms, repeated, sqrt)
                 case Err(e) => Err(e)
                 case Ok(seed) => Ok(Bulks(supercell(seed.element, seed.lattice), samples, rescale, rattle))
  {
    var seed := FindSeed(syms, repeated, sqrt);
    if seed.Err? {
      return Err(seed.error);
    }
    var el := seed.value.element;
    var fcclatt := seed.value.lattice;
    ghost var t := supercell(el, fcclatt);
    var structs := StrainLoop(el, fcclatt, 2, supercell, rescale, []);
    assert structs == StrainedFor(t, 2, rescale);
    structs := StrainLoop(el, fcclatt, 3, supercell, rescale, structs);
    structs := RattleLoop(el, fcclatt, 2, samples[..5], supercell, rescale, rattle, structs);
    structs := RattleLoop(el, fcclatt, 3, samples[5..], supercell, rescale, rattle, structs);
    r := Ok(structs);
  }
}
