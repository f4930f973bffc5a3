/** Force errors of an aenet potential: for every structure in `predict.out`
    the predicted forces are read from the block below the structure's
    header, the reference forces come from the structure file, and the
    largest, root-mean-square and mean per-atom error norms are formed. */
module ForceErrors {
  import opened Wrappers
  import opened Text
  import opened Geometry
  import opened Stats
  import opened PredictOut
  import opened Units

  /** The failures of `get_all_values`. */
  datatype ParseError =
    | Scan(scan: ScanError)   // an IndexError while scanning
    | BadRow(line: nat)       // a force row that does not broadcast to 3 components

  /** Python's `line.find(pat) < 0` is false. */
  predicate Contains(s: string, pat: string) {
    Find(s, pat) != -1
  }

  /** The first line at or after `j` containing `pat`: where a
      `while lines[a+i].find(pat) < 0: i += 1` loop stops; `None` is its
      IndexError. */
  function NextContaining(lines: seq<string>, j: nat, pat: string): (r: Option<nat>)
    ensures r.Some? ==> (j <= r.value < |lines| && Contains(lines[r.value], pat)
      && forall k :: j <= k < r.value ==> !Contains(lines[k], pat))
    ensures r.None? ==> forall k :: j <= k < |lines| ==> !Contains(lines[k], pat)
    decreases |lines| - j
  {
    if j >= |lines| then None
    else if Contains(lines[j], pat) then Some(j)
    else NextContaining(lines, j + 1, pat)
  }

  /** One cursor-advancing `while` loop of the parser. */
  method SkipUntil(lines: seq<string>, j: nat, pat: string) returns (r: Option<nat>)
    ensures r == NextContaining(lines, j, pat)
  {
    var i := j;
    while i < |lines| && !Contains(lines[i], pat)
      invariant j <= i
      invariant forall k :: j <= k < i && k < |lines| ==> !Contains(lines[k], pat)
      decreases |lines| - i
    {
      i := i + 1;
    }
    if i >= |lines| {
      return None;
    }
    r := Some(i);
  }

  /** One force row assigned to `pred_forces[j][:]` from the tokens `t` of
      line `k`: the last three numbers (`split()[-3:]`), or a lone number
      NumPy broadcasts to all three components; two tokens or none do not
      broadcast. */
  function ForceRow(t: seq<string>, k: nat, num: string -> real): (r: Result<Vec3, ParseError>)
    ensures r.Ok? <==> |t| >= 3 || |t| == 1
    ensures r.Err? ==> r.error == BadRow(k)
  {
    if |t| >= 3 then Ok(Vec3(num(t[|t| - 3]), num(t[|t| - 2]), num(t[|t| - 1])))
    else if |t| == 1 then Ok(Vec3(num(t[0]), num(t[0]), num(t[0])))
    else Err(BadRow(k))
  }

  /** The first `n` force rows from line `start` on, for the header at `a`;
      `toks` are the tokens of the lines. */
  function Rows(toks: seq<seq<string>>, a: nat, start: nat, n: nat, num: string -> real): (r: Result<seq<Vec3>, ParseError>)
    ensures r.Ok? ==> |r.value| == n && (n == 0 || start + n <= |toks|)
  {
    if n == 0 then Ok([])
    else
      match Rows(toks, a, start, n - 1, num)
      case Err(e) => Err(e)
      case Ok(rows) =>
        var k := start + n - 1;
        if k >= |toks| then Err(Scan(PastEnd(a)))
        else
          match ForceRow(toks[k], k, num)
          case Err(e) => Err(e)
          case Ok(v) => Ok(rows + [v])
  }

  /** Row `j` of the block is the row read from line `start + j`. */
  lemma {:induction false} RowsAreLines(toks: seq<seq<string>>, a: nat, start: nat, n: nat, num: string -> real)
    requires Rows(toks, a, start, n, num).Ok?
    ensures forall j :: 0 <= j < n ==> ForceRow(toks[start + j], start + j, num) == Ok(Rows(toks, a, start, n, num).value[j])
  {
    if n > 0 {
      RowsAreLines(toks, a, start, n - 1, num);
      var rows := Rows(toks, a, start, n, num).value;
      var init := Rows(toks, a, start, n - 1, num).value;
      var k := start + n - 1;
      assert rows == init + [ForceRow(toks[k], k, num).value];
      forall j | 0 <= j < n
        ensures ForceRow(toks[start + j], start + j, num) == Ok(rows[j])
      {
        if j < n - 1 {
          assert rows[j] == init[j];
        }
      }
    }
  }

  /** The block fails exactly when it runs past the end, or on its first
      line that is not a force row. */
  lemma {:induction false} RowsFailure(toks: seq<seq<string>>, a: nat, start: nat, n: nat, num: string -> real)
    requires Rows(toks, a, start, n, num).Err?
    ensures var e := Rows(toks, a, start, n, num).error;
      (e == Scan(PastEnd(a)) && start + n > |toks|)
      || (e.BadRow? && start <= e.line < start + n && e.line < |toks| && ForceRow(toks[e.line], e.line, num).Err?)
  {
    if Rows(toks, a, start, n - 1, num).Err? {
      RowsFailure(toks, a, start, n - 1, num);
    }
  }

  lemma RowsStep(toks: seq<seq<string>>, a: nat, start: nat, j: nat, num: string -> real, acc: seq<Vec3>)
    requires Rows(toks, a, start, j, num) == Ok(acc)
    ensures Rows(toks, a, start, j + 1, num) ==
      if start + j >= |toks| then Err(Scan(PastEnd(a)))
      else
        match ForceRow(toks[start + j], start + j, num)
        case Err(e) => Err(e)
        case Ok(v) => Ok(acc + [v])
  {
  }

  lemma {:induction false} RowsErrorPersists(toks: seq<seq<string>>, a: nat, start: nat, n: nat, m: nat, num: string -> real)
    requires n <= m
    requires Rows(toks, a, start, n, num).Err?
    ensures Rows(toks, a, start, m, num) == Rows(toks, a, start, n, num)
    decreases m - n
  {
    if n < m {
      RowsErrorPersists(toks, a, start, n, m - 1, num);
    }
  }

  /** The four values stored for one structure. */
  datatype Structure = Structure(predicted: real, reference: real, predictedForces: Field, referenceForces: Field)

  /** The block below the header at line `a` with structure path `path`:
      the `corresponding atomic forces` line, the `-----` line, one row per
      atom of the reference structure, and token 3 of the next
      `Total energy` line. `toks` are the tokens of `lines`; the reference
      energy is read from `firstLine(path)`, the first line of the structure
      file, before anything else, and `refForces(path)` are its forces. */
  function ParseStructure(lines: seq<string>, toks: seq<seq<string>>, a: nat, path: string, num: string -> real,
                          firstLine: string -> string, refForces: string -> Field): (r: Result<Structure, ParseError>)
    requires |toks| == |lines|
    ensures r.Ok? ==> (|r.value.predictedForces| == |refForces(path)| == |r.value.referenceForces|
      && r.value.referenceForces == Converted(refForces(path))
      && ReferenceEnergy(firstLine(path), a, num) == Ok(r.value.reference))
    ensures ReferenceEnergy(firstLine(path), a, num).Err? ==> r == Err(Scan(NoReference(a)))
  {
    match ReferenceEnergy(firstLine(path), a, num)
    case Err(e) => Err(Scan(e))
    case Ok(refValue) => ForceBlock(lines, toks, a, num, refValue, Converted(refForces(path)))
  }

  /** The block below the header at line `a` once the reference energy
      `refValue` and the converted reference forces `reference` are known. */
  function ForceBlock(lines: seq<string>, toks: seq<seq<string>>, a: nat, num: string -> real,
                      refValue: real, reference: Field): (r: Result<Structure, ParseError>)
    requires |toks| == |lines|
    ensures r.Ok? ==> (|r.value.predictedForces| == |reference| && r.value.referenceForces == reference
      && r.value.reference == refValue)
  {
    var natoms := |reference|;
    match NextContaining(lines, a, "corresponding atomic forces")
    case None => Err(Scan(PastEnd(a)))
    case Some(i1) =>
      match NextContaining(lines, i1, "-----")
      case None => Err(Scan(PastEnd(a)))
      case Some(i2) =>
        match Rows(toks, a, i2 + 1, natoms, num)
        case Err(e) => Err(e)
        case Ok(rows) =>
          match NextContaining(lines, i2 + 1 + natoms, "Total energy")
          case None => Err(Scan(PastEnd(a)))
          case Some(i3) =>
            var t := toks[i3];
            if |t| <= 3 then Err(Scan(MissingToken(i3)))
            else Ok(Structure(num(t[3]), refValue, rows, reference))
  }


  /** The `for j in range(len(pred_forces))` loop: the preallocated
      `pred_forces` array of `n` rows filled row by row from line `start`. */
  method ReadRows(toks: seq<seq<string>>, a: nat, start: nat, n: nat, num: string -> real)
    returns (r: Result<seq<Vec3>, ParseError>)
    ensures r == Rows(toks, a, start, n, num)
  {
    var predForces := new Vec3[n](_ => Zero);
    ghost var rows: seq<Vec3> := [];
    var i := start;
    var j := 0;
    while j < n
      invariant j <= n && i == start + j
      invariant Rows(toks, a, start, j, num) == Ok(rows)
      invariant predForces[..j] == rows
    {
      RowsStep(toks, a, start, j, num, rows);
      if i >= |toks| {
        RowsErrorPersists(toks, a, start, j + 1, n, num);
        return Err(Scan(PastEnd(a)));
      }
      var row := ForceRow(toks[i], i, num);
      if row.Err? {
        RowsErrorPersists(toks, a, start, j + 1, n, num);
        return Err(row.error);
      }
      predForces[j] := row.value;
      rows := rows + [row.value];
      assert predForces[..j + 1] == predForces[..j] + [row.value];
      i := i + 1;
      j := j + 1;
    }
    assert predForces[..] == predForces[..n];
    r := Ok(predForces[..]);
  }

  /** The parser body for one structure, advancing its cursor through the
      force block to the `Total energy` line. */
  method ReadStructure(lines: seq<string>, toks: seq<seq<string>>, a: nat, path: string, num: string -> real,
                       firstLine: string -> string, refForces: string -> Field) returns (r: Result<Structure, ParseError>)
    requires |toks| == |lines|
    ensures r == ParseStructure(lines, toks, a, path, num, firstLine, refForces)
  {
    var refValue := ReferenceEnergy(firstLine(path), a, num);
    if refValue.Err? {
      return Err(Scan(refValue.error));
    }
    r := ReadForceBlock(lines, toks, a, num, refValue.value, Converted(refForces(path)));
  }

  method ReadForceBlock(lines: seq<string>, toks: seq<seq<string>>, a: nat, num: string -> real,
                        refValue: real, reference: Field) returns (r: Result<Structure, ParseError>)
    requires |toks| == |lines|
    ensures r == ForceBlock(lines, toks, a, num, refValue, reference)
  {
    var natoms := |reference|;
    var i1 := SkipUntil(lines, a, "corresponding atomic forces");
    if i1.None? {
      return Err(Scan(PastEnd(a)));
    }
    var i2 := SkipUntil(lines, i1.value, "-----");
    if i2.None? {
      return Err(Scan(PastEnd(a)));
    }
    var start := i2.value + 1;
    var rows := ReadRows(toks, a, start, natoms, num);
    if rows.Err? {
      return Err(rows.error);
    }
    var i := start + natoms;
    var i3 := SkipUntil(lines, i, "Total energy");
    if i3.None? {
      return Err(Scan(PastEnd(a)));
    }
    var t := toks[i3.value];
    if |t| <= 3 {
      return Err(Scan(MissingToken(i3.value)));
    }
    r := Ok(Structure(num(t[3]), refValue, rows.value, reference));
  }


  /** The structures of lines `0 .. n-1` in file order, or the first error. */
  function Structures(lines: seq<string>, toks: seq<seq<string>>, n: nat, num: string -> real,
                      firstLine: string -> string, refForces: string -> Field): (r: Result<seq<Structure>, ParseError>)
    requires n <= |lines| == |toks|
    ensures r.Ok? ==> |r.value| <= n
  {
    if n == 0 then Ok([])
    else
      match Structures(lines, toks, n - 1, num, firstLine, refForces)
      case Err(e) => Err(e)
      case Ok(acc) =>
        match Header(toks[n - 1], n - 1)
        case Err(e) => Err(Scan(e))
        case Ok(None) => Ok(acc)
        case Ok(Some(path)) =>
          match ParseStructure(lines, toks, n - 1, path, num, firstLine, refForces)
          case Err(e) => Err(e)
          case Ok(s) => Ok(acc + [s])
  }

  /** `get_all_values` on a whole file. */
  function AllValues(lines: seq<string>, num: string -> real, firstLine: string -> string, refForces: string -> Field)
    : (r: Result<seq<Structure>, ParseError>)
    ensures r.Ok? ==> (|r.value| == HeaderCount(Tokens(lines), |lines|)
      && forall k :: 0 <= k < |r.value| ==> |r.value[k].predictedForces| == |r.value[k].referenceForces|)
  {
    var toks := Tokens(lines);
    var r := Structures(lines, toks, |lines|, num, firstLine, refForces);
    if r.Ok? then OneStructurePerHeader(lines, toks, |lines|, num, firstLine, refForces); r else r
  }

  /** The number of structure headers among lines `0 .. n-1`. */
  function HeaderCount(toks: seq<seq<string>>, n: nat): nat
    requires n <= |toks|
  {
    if n == 0 then 0
    else
      var h := Header(toks[n - 1], n - 1);
      HeaderCount(toks, n - 1) + if h.Ok? && h.value.Some? then 1 else 0
  }

  /** One structure per header, and in each the predicted and the reference
      forces have one row per atom of the structure file. */
  lemma {:induction false} OneStructurePerHeader(lines: seq<string>, toks: seq<seq<string>>, n: nat, num: string -> real,
                                                firstLine: string -> string, refForces: string -> Field)
    requires n <= |lines| == |toks|
    requires Structures(lines, toks, n, num, firstLine, refForces).Ok?
    ensures var ss := Structures(lines, toks, n, num, firstLine, refForces).value;
      |ss| == HeaderCount(toks, n)
      && forall k :: 0 <= k < |ss| ==> |ss[k].predictedForces| == |ss[k].referenceForces|
  {
    if n > 0 {
      OneStructurePerHeader(lines, toks, n - 1, num, firstLine, refForces);
    }
  }

  lemma {:induction false} StructuresErrorPersists(lines: seq<string>, toks: seq<seq<string>>, n: nat, m: nat, num: string -> real,
                                                  firstLine: string -> string, refForces: string -> Field)
    requires n <= m <= |lines| == |toks|
    requires Structures(lines, toks, n, num, firstLine, refForces).Err?
    ensures Structures(lines, toks, m, num, firstLine, refForces) == Structures(lines, toks, n, num, firstLine, refForces)
    decreases m - n
  {
    if n < m {
      StructuresErrorPersists(lines, toks, n, m - 1, num, firstLine, refForces);
    }
  }

  lemma StructuresStep(lines: seq<string>, toks: seq<seq<string>>, a: nat, num: string -> real, firstLine: string -> string,
                       refForces: string -> Field, acc: seq<Structure>, h: Option<string>)
    requires a < |lines| == |toks|
    requires Structures(lines, toks, a, num, firstLine, refForces) == Ok(acc)
    requires Header(toks[a], a) == Ok(h)
    ensures h.None? ==> Structures(lines, toks, a + 1, num, firstLine, refForces) == Ok(acc)
    ensures h.Some? ==> (Structures(lines, toks, a + 1, num, firstLine, refForces) ==
      match ParseStructure(lines, toks, a, h.value, num, firstLine, refForces)
      case Err(e) => Err(e)
      case Ok(s) => Ok(acc + [s]))
  {
  }

  /** `get_all_values`: energies and forces of every structure. Splitting a
      line into tokens has no effect, so each line is split once up front. */
  method GetAllValues(lines: seq<string>, num: string -> real, firstLine: string -> string, refForces: string -> Field)
    returns (r: Result<seq<Structure>, ParseError>)
    ensures r == AllValues(lines, num, firstLine, refForces)
  {
    var toks := Tokens(lines);
    r := ScanStructures(lines, toks, num, firstLine, refForces);
  }

  /** The `for a, line in enumerate(lines)` loop of `get_all_values` over
      lines with tokens `toks`. */
  method ScanStructures(lines: seq<string>, toks: seq<seq<string>>, num: string -> real,
                        firstLine: string -> string, refForces: string -> Field)
    returns (r: Result<seq<Structure>, ParseError>)
    requires |toks| == |lines|
    ensures r == Structures(lines, toks, |lines|, num, firstLine, refForces)
  {
    r := Ok([]);
    var a := 0;
    while a < |lines|
      invariant a <= |lines|
      invariant r == Structures(lines, toks, a, num, firstLine, refForces)
    {
      if r.Err? {
        StructuresErrorPersists(lines, toks, a, |lines|, num, firstLine, refForces);
        return;
      }
      r := ScanLine(lines, toks, a, num, firstLine, refForces, r.value);
      a := a + 1;
    }
  }

  /** One pass of the loop: line `a` read as a header or not, and a
      header's structure parsed. */
  method ScanLine(lines: seq<string>, toks: seq<seq<string>>, a: nat, num: string -> real,
                  firstLine: string -> string, refForces: string -> Field, structures: seq<Structure>)
    returns (r: Result<seq<Structure>, ParseError>)
    requires a < |lines| == |toks|
    requires Structures(lines, toks, a, num, firstLine, refForces) == Ok(structures)
    ensures r == Structures(lines, toks, a + 1, num, firstLine, refForces)
  {
    var h := Header(toks[a], a);
    if h.Err? {
      return Err(Scan(h.error));
    }
    StructuresStep(lines, toks, a, num, firstLine, refForces, structures, h.value);
    if h.value.None? {
      return Ok(structures);
    }
    var s := ReadStructure(lines, toks, a, h.value.value, num, firstLine, refForces);
    if s.Err? {
      return Err(s.error);
    }
    r := Ok(structures + [s.value]);
  }


  /** `numpy.linalg.norm(diff, axis=1)`: the length of each atom's force
      error; `sqrt` is the square root. */
  function ErrorNorms(p: Field, q: Field, sqrt: real -> real): (d: seq<real>)
    requires |p| == |q|
    ensures |d| == |p| && forall i :: 0 <= i < |p| ==> d[i] == sqrt(Norm2(Sub(p[i], q[i])))
  {
    seq(|p|, i requires 0 <= i < |p| => sqrt(Norm2(Sub(p[i], q[i]))))
  }

  /** The three errors of one structure. */
  datatype StructureError = StructureError(max: real, rms: real, mae: real)

  /** Largest, root-mean-square and mean per-atom error norm; `None` for a
      structure without atoms (where `numpy.max` raises ValueError). */
  function ErrorsOf(p: Field, q: Field, sqrt: real -> real): (r: Option<StructureError>)
    requires |p| == |q|
    ensures r.Some? <==> p != []
  {
    if p == [] then None
    else Some(NormErrors(ErrorNorms(p, q, sqrt), sqrt))
  }

  /** `np.max(d)`, `np.sqrt(np.mean(d**2))` and `np.mean(d)` of the per-atom
      error norms `d`. */
  function NormErrors(d: seq<real>, sqrt: real -> real): (e: StructureError)
    requires d != []
    ensures (exists i :: 0 <= i < |d| && e.max == d[i]) && forall i :: 0 <= i < |d| ==> d[i] <= e.max
    ensures e.mae <= e.max
  {
    MeanAtMostMax(d);
    var n := |d| as real;
    StructureError(Max(d), sqrt(Sum(Squares(d)) / n), Sum(d) / n)
  }

  /** With a square root that is non-negative on non-negative arguments,
      0 <= mae <= max and rms >= 0; the maximum is the error of some atom and
      bounds the error of every atom. */
  lemma ErrorBounds(p: Field, q: Field, sqrt: real -> real)
    requires |p| == |q| && p != []
    requires forall x :: x >= 0.0 ==> sqrt(x) >= 0.0
    ensures var e := ErrorsOf(p, q, sqrt).value;
      0.0 <= e.mae <= e.max && e.rms >= 0.0
      && (exists i :: 0 <= i < |p| && e.max == sqrt(Norm2(Sub(p[i], q[i]))))
      && forall i :: 0 <= i < |p| ==> sqrt(Norm2(Sub(p[i], q[i]))) <= e.max
  {
    var d := ErrorNorms(p, q, sqrt);
    forall i | 0 <= i < |d|
      ensures d[i] >= 0.0
    {
      Norm2NonNegative(Sub(p[i], q[i]));
    }
    SumNonNegative(d);
    SumNonNegative(Squares(d));
    QuotientNonNegative(Sum(d), |d|);
    QuotientNonNegative(Sum(Squares(d)), |d|);
  }

  lemma QuotientNonNegative(x: real, n: nat)
    requires x >= 0.0 && n > 0
    ensures x / n as real >= 0.0
  {
  }

  /** Exact forces have zero errors, for a square root with sqrt(0) = 0. */
  lemma ExactForcesHaveZeroErrors(p: Field, sqrt: real -> real)
    requires p != []
    requires sqrt(0.0) == 0.0
    ensures ErrorsOf(p, p, sqrt) == Some(StructureError(0.0, 0.0, 0.0))
  {
    var d := ErrorNorms(p, p, sqrt);
    forall i | 0 <= i < |d|
      ensures d[i] == 0.0
    {
      assert Sub(p[i], p[i]) == Zero;
    }
    SumOfZeros(d);
    SumOfZeros(Squares(d));
    var m := Max(d);
    var i :| 0 <= i < |d| && d[i] == m;
    assert m == 0.0;
  }

  /** `get_force_errors`: the three errors of every structure written by
      index into preallocated arrays. `Fail(k)` is the ValueError of the
      first structure `k` without atoms. */
  method GetForceErrors(pforces: seq<Field>, rforces: seq<Field>, sqrt: real -> real)
    returns (r: Outcome<nat>, maxForces: array<real>, rmsForces: array<real>, maeForces: array<real>)
    requires |pforces| == |rforces|
    requires forall i :: 0 <= i < |pforces| ==> |pforces[i]| == |rforces[i]|
    ensures fresh(maxForces) && fresh(rmsForces) && fresh(maeForces)
    ensures maxForces.Length == rmsForces.Length == maeForces.Length == |pforces|
    ensures r.Pass? <==> forall i :: 0 <= i < |pforces| ==> pforces[i] != []
    ensures r.Fail? ==> (r.error < |pforces| && pforces[r.error] == []
      && forall i :: 0 <= i < r.error ==> pforces[i] != [])
    ensures r.Pass? ==> forall i :: 0 <= i < |pforces| ==>
      ErrorsOf(pforces[i], rforces[i], sqrt) == Some(StructureError(maxForces[i], rmsForces[i], maeForces[i]))
  {
    maxForces := new real[|pforces|];
    rmsForces := new real[|pforces|];
    maeForces := new real[|pforces|];
    r := FillErrors(pforces, rforces, sqrt, maxForces, rmsForces, maeForces);
  }

  /** The loop of `get_force_errors` over the structures, filling the three
      arrays. */
  method FillErrors(pforces: seq<Field>, rforces: seq<Field>, sqrt: real -> real,
                    maxForces: array<real>, rmsForces: array<real>, maeForces: array<real>)
    returns (r: Outcome<nat>)
    requires |pforces| == |rforces|
    requires forall i :: 0 <= i < |pforces| ==> |pforces[i]| == |rforces[i]|
    requires maxForces.Length == rmsForces.Length == maeForces.Length == |pforces|
    requires maxForces != rmsForces && rmsForces != maeForces && maeForces != maxForces
    modifies maxForces, rmsForces, maeForces
    ensures r.Pass? <==> forall i :: 0 <= i < |pforces| ==> pforces[i] != []
    ensures r.Fail? ==> (r.error < |pforces| && pforces[r.error] == []
      && forall i :: 0 <= i < r.error ==> pforces[i] != [])
    ensures r.Pass? ==> forall i :: 0 <= i < |pforces| ==>
      ErrorsOf(pforces[i], rforces[i], sqrt) == Some(StructureError(maxForces[i], rmsForces[i], maeForces[i]))
  {
    for i := 0 to |pforces|
      invariant forall k :: 0 <= k < i ==> (pforces[k] != []
        && ErrorsOf(pforces[k], rforces[k], sqrt) == Some(StructureError(maxForces[k], rmsForces[k], maeForces[k])))
    {
      if pforces[i] == [] {
        return Fail(i);
      }
      var e := ErrorsOf(pforces[i], rforces[i], sqrt).value;
      maxForces[i] := e.max;
      rmsForces[i] := e.rms;
      maeForces[i] := e.mae;
    }
    r := Pass;
  }

  /** `main`'s averages over the structures of the three errors. */
  function Averages(errors: seq<StructureError>): (r: Option<StructureError>)
    ensures r.Some? <==> errors != []
  {
    if errors == [] then None
    else
      var n := |errors| as real;
      Some(StructureError(
        Sum(seq(|errors|, i requires 0 <= i < |errors| => errors[i].max)) / n,
        Sum(seq(|errors|, i requires 0 <= i < |errors| => errors[i].rms)) / n,
        Sum(seq(|errors|, i requires 0 <= i < |errors| => errors[i].mae)) / n))
  }

  /** The average MAE is at most the average largest error. */
  lemma AverageMaeAtMostAverageMax(errors: seq<StructureError>)
    requires errors != []
    requires forall i :: 0 <= i < |errors| ==> errors[i].mae <= errors[i].max
    ensures Averages(errors).value.mae <= Averages(errors).value.max
  {
    var maxes := seq(|errors|, i requires 0 <= i < |errors| => errors[i].max);
    var maes := seq(|errors|, i requires 0 <= i < |errors| => errors[i].mae);
    SumMonotone(maes, maxes);
    QuotientMonotone(Sum(maes), Sum(maxes), |errors| as real);
  }
}
