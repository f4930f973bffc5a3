/** Finite-displacement training structures: for every XSF structure that
    was not itself generated, every atom and every axis whose force is worth
    training against, the structure is written twice, with the atom moved by
    `-0.05` and by `+0.05` Angstrom along that axis, and with the energy
    changed by the first-order force projection. */
module DisplacedXsf {
  import opened Wrappers
  import opened Text
  import opened Geometry
  import opened Stats
  import opened Units

  /** `delta`: the displacement in Angstrom. */
  const Delta: real := 0.05

  /** `force_threshold`: in-plane forces below it are not trained against. */
  const ForceThreshold: real := 0.001

  /** The file names this script writes carry `_FFF_`; inputs carrying it are
      skipped. */
  predicate IsGenerated(name: string) {
    Find(name, "_FFF_") > -1
  }

  /** A structure as read from its XSF file: the cell rows, positions and
      forces ASE reports, and the file's first line. */
  datatype Input = Input(cell: seq<Vec3>, positions: Field, forces: Field, firstLine: string)

  /** What a written XSF file holds: its name, the energy of its comment
      line, the `PRIMVEC` rows and a position and force per atom. */
  datatype Xsf = Xsf(name: string, energy: real, cell: seq<Vec3>, positions: Field, forces: Field)

  /** The loop indices `(iatom, j, k)` of one written file. */
  datatype Triple = Triple(atom: nat, axis: nat, sign: int)

  /** Axis `j` of atom `i` is displaced: it is `z`, or its force is not tiny. */
  predicate Trained(f: Field, i: nat, j: nat)
    requires i < |f| && j < 3
  {
    !(j < 2 && Abs(Comp(f[i], j)) < ForceThreshold)
  }

  /** The `for k in (-1, 1)` loop of one axis. */
  function AxisTriples(f: Field, i: nat, j: nat): seq<Triple>
    requires i < |f| && j < 3
  {
    if Trained(f, i, j) then [Triple(i, j, -1), Triple(i, j, 1)] else []
  }

  /** The triples of axes `0 .. n-1` of atom `i`. */
  function AtomTriples(f: Field, i: nat, n: nat): (r: seq<Triple>)
    requires i < |f| && n <= 3
    ensures forall p :: 0 <= p < |r| ==> r[p].atom == i && r[p].axis < n
  {
    if n == 0 then [] else AtomTriples(f, i, n - 1) + AxisTriples(f, i, n - 1)
  }

  /** The triples of atoms `0 .. n-1`, in loop order. */
  function Triples(f: Field, n: nat): (r: seq<Triple>)
    requires n <= |f|
    ensures forall p :: 0 <= p < |r| ==> r[p].atom < n && r[p].axis < 3
  {
    if n == 0 then [] else Triples(f, n - 1) + AtomTriples(f, n - 1, 3)
  }

  /** A file is written for `(i, j, k)` exactly when atom `i` exists, axis
      `j` is trained and `k` is -1 or +1. */
  predicate Written(f: Field, n: nat, t: Triple)
    requires n <= |f|
  {
    t.atom < n && t.axis < 3 && (t.sign == -1 || t.sign == 1) && Trained(f, t.atom, t.axis)
  }

  lemma {:induction false} AtomTriplesMembers(f: Field, i: nat, n: nat, t: Triple)
    requires i < |f| && n <= 3
    ensures t in AtomTriples(f, i, n) <==>
      t.atom == i && t.axis < n && (t.sign == -1 || t.sign == 1) && Trained(f, i, t.axis)
  {
    if n > 0 {
      AtomTriplesMembers(f, i, n - 1, t);
    }
  }

  lemma {:induction false} TriplesMembers(f: Field, n: nat, t: Triple)
    requires n <= |f|
    ensures t in Triples(f, n) <==> Written(f, n, t)
  {
    if n > 0 {
      TriplesMembers(f, n - 1, t);
      AtomTriplesMembers(f, n - 1, 3, t);
    }
  }

  /** The loop order: atom-major, then axis, then `k = -1` before `k = +1`. */
  predicate Before(s: Triple, t: Triple) {
    s.atom < t.atom || (s.atom == t.atom && (s.axis < t.axis || (s.axis == t.axis && s.sign < t.sign)))
  }

  predicate InOrder(ts: seq<Triple>) {
    forall p, q :: 0 <= p < q < |ts| ==> Before(ts[p], ts[q])
  }

  lemma ConcatInOrder(a: seq<Triple>, b: seq<Triple>)
    requires InOrder(a) && InOrder(b)
    requires forall s, t :: s in a && t in b ==> Before(s, t)
    ensures InOrder(a + b)
  {
    var c := a + b;
    forall p, q | 0 <= p < q < |c|
      ensures Before(c[p], c[q])
    {
      if q < |a| {
        assert c[p] == a[p] && c[q] == a[q];
      } else if p >= |a| {
        assert c[p] == b[p - |a|] && c[q] == b[q - |a|];
      } else {
        assert c[p] == a[p] && c[q] == b[q - |a|];
        assert a[p] in a && b[q - |a|] in b;
      }
    }
  }

  lemma {:induction false} AtomTriplesInOrder(f: Field, i: nat, n: nat)
    requires i < |f| && n <= 3
    ensures InOrder(AtomTriples(f, i, n))
  {
    if n > 0 {
      AtomTriplesInOrder(f, i, n - 1);
      forall s, t | s in AtomTriples(f, i, n - 1) && t in AxisTriples(f, i, n - 1)
        ensures Before(s, t)
      {
        AtomTriplesMembers(f, i, n - 1, s);
      }
      ConcatInOrder(AtomTriples(f, i, n - 1), AxisTriples(f, i, n - 1));
    }
  }

  /** The files are written in strictly increasing `(iatom, j, k)` order, so
      no triple is written twice. */
  lemma {:induction false} TriplesInOrder(f: Field, n: nat)
    requires n <= |f|
    ensures InOrder(Triples(f, n))
  {
    if n > 0 {
      TriplesInOrder(f, n - 1);
      AtomTriplesInOrder(f, n - 1, 3);
      forall s, t | s in Triples(f, n - 1) && t in AtomTriples(f, n - 1, 3)
        ensures Before(s, t)
      {
        TriplesMembers(f, n - 1, s);
        AtomTriplesMembers(f, n - 1, 3, t);
      }
      ConcatInOrder(Triples(f, n - 1), AtomTriples(f, n - 1, 3));
    }
  }

  /** `displace`: zeros of shape `(n, 3)` with `c` at `[i][j]`. */
  function Displacement(n: nat, i: nat, j: nat, c: real): (d: Field)
    requires i < n && j < 3
    ensures |d| == n && forall a :: 0 <= a < n ==> d[a] == if a == i then Axis(j, c) else Zero
  {
    seq(n, a requires 0 <= a < n => if a == i then Axis(j, c) else Zero)
  }

  lemma {:induction false} DotOfDisplacementPrefix(n: nat, i: nat, j: nat, c: real, f: Field, k: nat)
    requires i < n && j < 3 && |f| == n && k <= n
    ensures DotF(Displacement(n, i, j, c)[..k], f[..k]) == if i < k then c * Comp(f[i], j) else 0.0
  {
    if k > 0 {
      var d := Displacement(n, i, j, c);
      DotOfDisplacementPrefix(n, i, j, c, f, k - 1);
      assert d[..k][..k - 1] == d[..k - 1];
      assert f[..k][..k - 1] == f[..k - 1];
      assert d[..k][k - 1] == d[k - 1] && f[..k][k - 1] == f[k - 1];
      if k - 1 == i {
        assert Dot(d[i], f[i]) == c * Comp(f[i], j);
      } else {
        assert d[k - 1] == Zero;
      }
    }
  }

  /** `np.dot(displace.flat, forces.flat)` picks the one displaced component. */
  lemma DotOfDisplacement(n: nat, i: nat, j: nat, c: real, f: Field)
    requires i < n && j < 3 && |f| == n
    ensures DotF(Displacement(n, i, j, c), f) == c * Comp(f[i], j)
  {
    DotOfDisplacementPrefix(n, i, j, c, f, n);
    assert Displacement(n, i, j, c)[..n] == Displacement(n, i, j, c);
    assert f[..n] == f;
  }

  /** `xsf.replace('.xsf', '_FFF_%d_%d_%d.xsf' % (iatom, j, k))`. */
  function OutputName(name: string, t: Triple): (r: string)
    ensures |name| <= |r|
  {
    Replace(name, ".xsf", "_FFF_" + NatToString(t.atom) + "_" + NatToString(t.axis) + "_" + IntToString(t.sign) + ".xsf")
  }

  /** For a name `<stem>.xsf` with no other `.xsf`, the output name is
      `<stem>_FFF_i_j_k.xsf`, which the script skips on a later run. */
  lemma OutputNameOfStem(stem: string, t: Triple)
    requires forall k: nat :: !IsAt(stem, ".xsf", k)
    ensures var suffix := "_FFF_" + NatToString(t.atom) + "_" + NatToString(t.axis) + "_" + IntToString(t.sign) + ".xsf";
      OutputName(stem + ".xsf", t) == stem + suffix
    ensures IsGenerated(OutputName(stem + ".xsf", t))
  {
    var suffix := "_FFF_" + NatToString(t.atom) + "_" + NatToString(t.axis) + "_" + IntToString(t.sign) + ".xsf";
    ReplaceSuffix(stem, ".xsf", suffix);
    var r := stem + suffix;
    assert suffix[..5] == "_FFF_";
    assert r[|stem|..|stem| + 5] == suffix[..5];
    assert IsAt(r, "_FFF_", |stem|);
  }

  /** `newpos = pos + displace` for the triple `t`: atom `iatom` moves by
      `0.05 k` along `j`; no other atom moves. */
  function MovedPositions(pos: Field, t: Triple): (q: Field)
    requires t.atom < |pos| && t.axis < 3
    ensures |q| == |pos| && forall a :: 0 <= a < |pos| ==>
      q[a] == if a == t.atom then Add(pos[a], Axis(t.axis, Delta * (t.sign as real))) else pos[a]
  {
    var d := Displacement(|pos|, t.atom, t.axis, Delta * (t.sign as real));
    var q := AddF(pos, d);
    assert forall a :: 0 <= a < |pos| && a != t.atom ==> q[a] == Add(pos[a], Zero) == pos[a];
    q
  }

  /** `newenergy = energy - np.dot(displace.flat, forces.flat)`: the energy is
      lowered by the work `0.05 k F[iatom][j]` of the move. */
  function ShiftedEnergy(energy: real, f: Field, t: Triple): (e: real)
    requires t.atom < |f| && t.axis < 3
    ensures e == energy - Delta * (t.sign as real) * Comp(f[t.atom], t.axis)
  {
    DotOfDisplacement(|f|, t.atom, t.axis, Delta * (t.sign as real), f);
    energy - DotF(Displacement(|f|, t.atom, t.axis, Delta * (t.sign as real)), f)
  }

  /** The file for `(iatom, j, k)` of a structure with energy `energy` and
      Hartree-scaled forces `f`: it keeps the cell, moves atom `iatom` by
      `0.05 k` along `j` and nothing else, lowers the energy by the work
      `0.05 k F[iatom][j]`, and has zero forces. */
  function Displaced(name: string, inp: Input, energy: real, f: Field, t: Triple): (x: Xsf)
    requires |inp.positions| == |f| && t.atom < |f| && t.axis < 3
    ensures x.name == OutputName(name, t) && x.cell == inp.cell
      && x.energy == energy - Delta * (t.sign as real) * Comp(f[t.atom], t.axis)
      && |x.positions| == |f| && x.forces == Zeros(|f|)
      && forall a :: 0 <= a < |f| ==>
        x.positions[a] == if a == t.atom then Add(inp.positions[a], Axis(t.axis, Delta * (t.sign as real))) else inp.positions[a]
  {
    Xsf(OutputName(name, t), ShiftedEnergy(energy, f, t), inp.cell, MovedPositions(inp.positions, t), Zeros(|f|))
  }

  /** `float(fi.readline().split()[-2])`; `None` is the IndexError of a first
      line with fewer than two tokens. */
  function FirstEnergy(line: string, num: string -> real): (r: Option<real>)
    ensures r.Some? <==> |Words(line)| >= 2
  {
    var t := Words(line);
    if |t| >= 2 then Some(num(t[|t| - 2])) else None
  }

  /** The failure of one structure: the first line of this file has no
      energy token. */
  datatype XsfError = MissingEnergy(name: string)

  /** The files written for the structure in file `name`. */
  function Files(name: string, inp: Input, num: string -> real): (r: Result<seq<Xsf>, XsfError>)
    requires |inp.positions| == |inp.forces|
    ensures r.Err? <==> FirstEnergy(inp.firstLine, num).None?
  {
    var f := Converted(inp.forces);
    match FirstEnergy(inp.firstLine, num)
    case None => Err(MissingEnergy(name))
    case Some(e) =>
      var ts := Triples(f, |f|);
      Ok(seq(|ts|, p requires 0 <= p < |ts| => Displaced(name, inp, e, f, ts[p])))
  }

  /** Every written file is the displacement of a distinct written triple, in
      loop order, and every written triple has its file. */
  lemma FilesAreWrittenTriples(name: string, inp: Input, num: string -> real)
    requires |inp.positions| == |inp.forces|
    requires Files(name, inp, num).Ok?
    ensures var f := Converted(inp.forces);
      var fs := Files(name, inp, num).value;
      var ts := Triples(f, |f|);
      |fs| == |ts| && InOrder(ts)
      && (forall t :: t in ts <==> Written(f, |f|, t))
      && forall p :: 0 <= p < |fs| ==> fs[p] == Displaced(name, inp, FirstEnergy(inp.firstLine, num).value, f, ts[p])
  {
    var f := Converted(inp.forces);
    TriplesInOrder(f, |f|);
    forall t
      ensures t in Triples(f, |f|) <==> Written(f, |f|, t)
    {
      TriplesMembers(f, |f|, t);
    }
  }

  /** A structure with all forces tiny is still displaced along `z`, twice
      per atom. */
  lemma ZAlwaysDisplaced(f: Field, i: nat)
    requires i < |f|
    ensures Written(f, |f|, Triple(i, 2, -1)) && Written(f, |f|, Triple(i, 2, 1))
  {
  }

  /** `out` holds the files of the triples `ts`, in order. */
  predicate FilesOf(out: seq<Xsf>, name: string, inp: Input, e: real, f: Field, ts: seq<Triple>) {
    |inp.positions| == |f| && |out| == |ts|
    && forall p :: 0 <= p < |ts| ==> ts[p].atom < |f| && ts[p].axis < 3 && out[p] == Displaced(name, inp, e, f, ts[p])
  }

  lemma FilesOfAppend(out: seq<Xsf>, name: string, inp: Input, e: real, f: Field, ts: seq<Triple>, t: Triple)
    requires FilesOf(out, name, inp, e, f, ts) && t.atom < |f| && t.axis < 3
    ensures FilesOf(out + [Displaced(name, inp, e, f, t)], name, inp, e, f, ts + [t])
  {
    var out' := out + [Displaced(name, inp, e, f, t)];
    var ts' := ts + [t];
    forall p | 0 <= p < |ts'|
      ensures ts'[p].atom < |f| && ts'[p].axis < 3 && out'[p] == Displaced(name, inp, e, f, ts'[p])
    {
      if p < |ts| {
        assert ts'[p] == ts[p] && out'[p] == out[p];
      }
    }
  }

  /** The triple loops for one structure: `for iatom`, `for j` with its
      `continue`, `for k in (-1, 1)`. */
  method GenerateFrom(name: string, inp: Input, num: string -> real) returns (r: Result<seq<Xsf>, XsfError>)
    requires |inp.positions| == |inp.forces|
    ensures r == Files(name, inp, num)
  {
    var f := Converted(inp.forces);
    var energy := FirstEnergy(inp.firstLine, num);
    if energy.None? {
      return Err(MissingEnergy(name));
    }
    var e := energy.value;
    var out: seq<Xsf> := [];
    var iatom := 0;
    while iatom < |f|
      invariant iatom <= |f|
      invariant FilesOf(out, name, inp, e, f, Triples(f, iatom))
    {
      out := AtomFiles(name, inp, e, f, iatom, out);
      iatom := iatom + 1;
    }
    ghost var ts := Triples(f, |f|);
    assert out == seq(|ts|, p requires 0 <= p < |ts| => Displaced(name, inp, e, f, ts[p]));
    r := Ok(out);
  }

  /** The `for j in range(3)` loop of one atom, appending to `out0`. */
  method AtomFiles(name: string, inp: Input, e: real, f: Field, iatom: nat, out0: seq<Xsf>) returns (out: seq<Xsf>)
    requires iatom < |f| && FilesOf(out0, name, inp, e, f, Triples(f, iatom))
    ensures FilesOf(out, name, inp, e, f, Triples(f, iatom + 1))
  {
    out := out0;
    var j := 0;
    while j < 3
      invariant j <= 3
      invariant FilesOf(out, name, inp, e, f, Triples(f, iatom) + AtomTriples(f, iatom, j))
    {
      assert (Triples(f, iatom) + AtomTriples(f, iatom, j)) + AxisTriples(f, iatom, j)
        == Triples(f, iatom) + AtomTriples(f, iatom, j + 1);
      if j < 2 && Abs(Comp(f[iatom], j)) < ForceThreshold {
        j := j + 1;
        continue;
      }
      out := AxisFiles(name, inp, e, f, iatom, j, Triples(f, iatom) + AtomTriples(f, iatom, j), out);
      j := j + 1;
    }
  }

  /** The `for k in (-1, 1)` loop of one trained axis, appending to `out0`,
      which holds the files of `before`. */
  method AxisFiles(name: string, inp: Input, e: real, f: Field, iatom: nat, j: nat,
                   ghost before: seq<Triple>, out0: seq<Xsf>) returns (out: seq<Xsf>)
    requires iatom < |f| && j < 3 && Trained(f, iatom, j)
    requires FilesOf(out0, name, inp, e, f, before)
    ensures FilesOf(out, name, inp, e, f, before + AxisTriples(f, iatom, j))
  {
    out := out0;
    var signs := [-1, 1];
    ghost var axis := AxisTriples(f, iatom, j);
    var s := 0;
    while s < 2
      invariant s <= 2
      invariant FilesOf(out, name, inp, e, f, before + axis[..s])
    {
      FilesOfAppend(out, name, inp, e, f, before + axis[..s], Triple(iatom, j, signs[s]));
      assert before + axis[..s + 1] == (before + axis[..s]) + [Triple(iatom, j, signs[s])];
      out := out + [Displaced(name, inp, e, f, Triple(iatom, j, signs[s]))];
      s := s + 1;
    }
    assert axis[..2] == axis;
  }

  /** The files written for the names `0 .. n-1` of the glob, or the first
      failure. Generated inputs contribute nothing: a glob of them only
      writes no file. */
  function AllFiles(names: seq<string>, read: string -> Input, num: string -> real, n: nat): (r: Result<seq<Xsf>, XsfError>)
    requires n <= |names|
    requires forall x :: |read(x).positions| == |read(x).forces|
    ensures (forall k :: 0 <= k < n ==> IsGenerated(names[k])) ==> r == Ok([])
  {
    if n == 0 then Ok([])
    else
      match AllFiles(names, read, num, n - 1)
      case Err(e) => Err(e)
      case Ok(acc) =>
        if IsGenerated(names[n - 1]) then Ok(acc)
        else
          match Files(names[n - 1], read(names[n - 1]), num)
          case Err(e) => Err(e)
          case Ok(fs) => Ok(acc + fs)
  }

  lemma {:induction false} AllFilesErrorPersists(names: seq<string>, read: string -> Input, num: string -> real, n: nat, m: nat)
    requires n <= m <= |names|
    requires forall x :: |read(x).positions| == |read(x).forces|
    requires AllFiles(names, read, num, n).Err?
    ensures AllFiles(names, read, num, m) == AllFiles(names, read, num, n)
    decreases m - n
  {
    if n < m {
      AllFilesErrorPersists(names, read, num, n, m - 1);
    }
  }

  /** The script: `for xsf in xsfs`, skipping generated names. `read` is
      `io.read` together with the first line of the file. */
  method GenerateAll(names: seq<string>, read: string -> Input, num: string -> real) returns (r: Result<seq<Xsf>, XsfError>)
    requires forall x :: |read(x).positions| == |read(x).forces|
    ensures r == AllFiles(names, read, num, |names|)
  {
    var out: seq<Xsf> := [];
    var n := 0;
    while n < |names|
      invariant n <= |names|
      invariant AllFiles(names, read, num, n) == Ok(out)
    {
      var xsf := names[n];
      if Find(xsf, "_FFF_") > -1 {
        n := n + 1;
        continue;
      }
      var fs := GenerateFrom(xsf, read(xsf), num);
      if fs.Err? {
        AllFilesErrorPersists(names, read, num, n + 1, |names|);
        return fs;
      }
      out := out + fs.value;
      n := n + 1;
    }
    r := Ok(out);
  }
}
