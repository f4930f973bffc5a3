/** Per-atom energy errors of an aenet potential: the atom counts, predicted
    and reference energies are read from `predict.out`, the energies are
    divided by the atom counts with NumPy broadcasting, and the ME / MAE / MSE
    of the per-atom energies are formed. */
module EnergyErrors {
  import opened Wrappers
  import opened Text
  import opened Stats
  import opened PredictOut

  /** What the atom-count test says about a line with tokens `t` at index `a`:
      token 4 of a `Number of atoms` line, nothing, or the IndexError of a line
      too short for the tokens the test reads. */
  function CountAt(t: seq<string>, a: nat): (r: Result<Option<string>, ScanError>)
    ensures r.Ok? && r.value.Some? <==> (|t| > 4 && t[0] == "Number" && t[1] == "of" && t[2] == "atoms")
    ensures r.Ok? && r.value.Some? ==> r.value.value == t[4]
    ensures r.Err? <==> |t| > 1 && t[0] == "Number" && t[1] == "of" && (|t| == 2 || (t[2] == "atoms" && |t| <= 4))
    ensures r.Err? ==> r.error == MissingToken(a)
  {
    if |t| > 1 && t[0] == "Number" && t[1] == "of" then
      if |t| <= 2 then Err(MissingToken(a))
      else if t[2] != "atoms" then Ok(None)
      else if |t| <= 4 then Err(MissingToken(a))
      else Ok(Some(t[4]))
    else Ok(None)
  }

  /** The atom-count tokens and the entries of lines `0 .. n-1`, or the first
      error; on each line the count test comes before the header test. */
  function Scanned(lines: seq<string>, n: nat, num: string -> real, firstLine: string -> string): (r: Result<(seq<string>, seq<Entry>), ScanError>)
    requires n <= |lines|
    ensures r.Ok? ==> |r.value.0| <= n && |r.value.1| <= n
  {
    if n == 0 then Ok(([], []))
    else
      match Scanned(lines, n - 1, num, firstLine)
      case Err(e) => Err(e)
      case Ok(acc) =>
        match CountAt(Words(lines[n - 1]), n - 1)
        case Err(e) => Err(e)
        case Ok(c) =>
          match EntryAt(lines, n - 1, num, firstLine)
          case Err(e) => Err(e)
          case Ok(x) =>
            var counts := if c.Some? then acc.0 + [c.value] else acc.0;
            var entries := if x.Some? then acc.1 + [x.value] else acc.1;
            Ok((counts, entries))
  }

  /** Line `a` is a `Number of atoms` line with a count token. */
  predicate IsCount(lines: seq<string>, a: nat)
    requires a < |lines|
  {
    var c := CountAt(Words(lines[a]), a);
    c.Ok? && c.value.Some?
  }

  /** The indices of the `Number of atoms` lines among lines `0 .. n-1`, in
      file order. */
  function CountLines(lines: seq<string>, n: nat): (r: seq<nat>)
    requires n <= |lines|
    ensures forall i :: 0 <= i < |r| ==> r[i] < n
  {
    if n == 0 then []
    else CountLines(lines, n - 1) + if IsCount(lines, n - 1) then [n - 1] else []
  }

  /** The count-line indices increase strictly, and a line before `n` is
      among them exactly when it is a `Number of atoms` line. */
  lemma {:induction false} CountLinesAreTheCounts(lines: seq<string>, n: nat)
    requires n <= |lines|
    ensures var ks := CountLines(lines, n);
      (forall i, j :: 0 <= i < j < |ks| ==> ks[i] < ks[j])
      && forall a :: 0 <= a < n ==> (a in ks <==> IsCount(lines, a))
  {
    CountLinesIncrease(lines, n);
    CountLinesMembers(lines, n);
  }

  // The ordering half of the lemma above.
  lemma {:induction false} CountLinesIncrease(lines: seq<string>, n: nat)
    requires n <= |lines|
    ensures forall i, j :: 0 <= i < j < |CountLines(lines, n)| ==> CountLines(lines, n)[i] < CountLines(lines, n)[j]
  {
    if n > 0 {
      CountLinesIncrease(lines, n - 1);
      var prev := CountLines(lines, n - 1);
      var tail := if IsCount(lines, n - 1) then [n - 1] else [];
      assert CountLines(lines, n) == prev + tail;
      forall i, j | 0 <= i < j < |prev + tail|
        ensures (prev + tail)[i] < (prev + tail)[j]
      {
        if j >= |prev| {
          assert (prev + tail)[j] == n - 1 && (prev + tail)[i] == prev[i];
        } else {
          assert (prev + tail)[i] == prev[i] && (prev + tail)[j] == prev[j];
        }
      }
    }
  }

  // The membership half of the lemma above.
  lemma {:induction false} CountLinesMembers(lines: seq<string>, n: nat)
    requires n <= |lines|
    ensures forall a :: 0 <= a < n ==> (a in CountLines(lines, n) <==> IsCount(lines, a))
  {
    if n > 0 {
      CountLinesMembers(lines, n - 1);
      var prev := CountLines(lines, n - 1);
      var tail := if IsCount(lines, n - 1) then [n - 1] else [];
      assert CountLines(lines, n) == prev + tail;
      forall a | 0 <= a < n
        ensures a in prev + tail <==> IsCount(lines, a)
      {
        assert a in prev + tail <==> a in prev || a in tail;
      }
    }
  }

  /** The entries found by this scan are those of the shared header scan,
      and the counts are one per `Number of atoms` line, in file order: count
      `i` is token 4 of the `i`-th such line. */
  lemma {:induction false} ScannedEntries(lines: seq<string>, n: nat, num: string -> real, firstLine: string -> string)
    requires n <= |lines|
    requires Scanned(lines, n, num, firstLine).Ok?
    ensures Entries(lines, n, num, firstLine) == Ok(Scanned(lines, n, num, firstLine).value.1)
    ensures var cs := Scanned(lines, n, num, firstLine).value.0;
      var ks := CountLines(lines, n);
      |cs| == |ks| && forall i :: 0 <= i < |cs| ==> CountAt(Words(lines[ks[i]]), ks[i]) == Ok(Some(cs[i]))
    ensures var cs := Scanned(lines, n, num, firstLine).value.0;
      |cs| <= n && forall i :: 0 <= i < |cs| ==> exists a :: 0 <= a < n && CountAt(Words(lines[a]), a) == Ok(Some(cs[i]))
  {
    if n > 0 {
      ScannedEntries(lines, n - 1, num, firstLine);
      CountLinesAreTheCounts(lines, n);
      var prev := Scanned(lines, n - 1, num, firstLine).value;
      var c := CountAt(Words(lines[n - 1]), n - 1).value;
      var cs := Scanned(lines, n, num, firstLine).value.0;
      var ks := CountLines(lines, n);
      assert cs == if c.Some? then prev.0 + [c.value] else prev.0;
      assert ks == CountLines(lines, n - 1) + if c.Some? then [n - 1] else [];
      forall i | 0 <= i < |cs|
        ensures exists a :: 0 <= a < n && CountAt(Words(lines[a]), a) == Ok(Some(cs[i]))
      {
        assert CountAt(Words(lines[ks[i]]), ks[i]) == Ok(Some(cs[i]));
      }
    }
  }

  lemma ScannedStep(lines: seq<string>, a: nat, num: string -> real, firstLine: string -> string,
                    cs: seq<string>, es: seq<Entry>, c: Option<string>, x: Option<Entry>)
    requires a < |lines|
    requires Scanned(lines, a, num, firstLine) == Ok((cs, es))
    requires CountAt(Words(lines[a]), a) == Ok(c) && EntryAt(lines, a, num, firstLine) == Ok(x)
    ensures Scanned(lines, a + 1, num, firstLine)
      == Ok((if c.Some? then cs + [c.value] else cs, if x.Some? then es + [x.value] else es))
  {
  }

  /** Once the scan fails, longer prefixes fail with the same error. */
  lemma {:induction false} ScanErrorPersists(lines: seq<string>, n: nat, m: nat, num: string -> real, firstLine: string -> string)
    requires n <= m <= |lines|
    requires Scanned(lines, n, num, firstLine).Err?
    ensures Scanned(lines, m, num, firstLine) == Scanned(lines, n, num, firstLine)
    decreases m - n
  {
    if n < m {
      ScanErrorPersists(lines, n, m - 1, num, firstLine);
    }
  }

  /** `get_all_values`: the atom-count tokens (`natoms`) and, per structure,
      the predicted and reference energies. */
  method GetAllValues(lines: seq<string>, num: string -> real, firstLine: string -> string)
    returns (r: Result<(seq<string>, seq<Entry>), ScanError>)
    ensures r == Scanned(lines, |lines|, num, firstLine)
  {
    var natoms: seq<string> := [];
    var entries: seq<Entry> := [];
    var a := 0;
    while a < |lines|
      invariant a <= |lines|
      invariant Scanned(lines, a, num, firstLine) == Ok((natoms, entries))
    {
      var step := ScanLine(lines, a, num, firstLine, natoms, entries);
      if step.Err? {
        ScanErrorPersists(lines, a + 1, |lines|, num, firstLine);
        return step;
      }
      natoms, entries := step.value.0, step.value.1;
      a := a + 1;
    }
    r := Ok((natoms, entries));
  }

  /** One pass of the loop of `get_all_values` over line `a`: the count test,
      then the header test, each appending what it finds. */
  method ScanLine(lines: seq<string>, a: nat, num: string -> real, firstLine: string -> string,
                  natoms: seq<string>, entries: seq<Entry>)
    returns (r: Result<(seq<string>, seq<Entry>), ScanError>)
    requires a < |lines|
    requires Scanned(lines, a, num, firstLine) == Ok((natoms, entries))
    ensures r == Scanned(lines, a + 1, num, firstLine)
  {
    var t := Words(lines[a]);
    var count := CountAt(t, a);
    if count.Err? {
      return Err(count.error);
    }
    var entry := ReadEntry(lines, a, num, firstLine);
    if entry.Err? {
      return Err(entry.error);
    }
    ScannedStep(lines, a, num, firstLine, natoms, entries, count.value, entry.value);
    var counts := if count.value.Some? then natoms + [count.value.value] else natoms;
    var found := if entry.value.Some? then entries + [entry.value.value] else entries;
    r := Ok((counts, found));
  }

  /** The length of NumPy's broadcast of shapes `(n,)` and `(m,)`; `None` is
      the ValueError of incompatible shapes. */
  function BroadcastLength(n: nat, m: nat): (r: Option<nat>)
    ensures r.Some? <==> n == m || n == 1 || m == 1
    ensures r.Some? ==> (n == 1 || r.value == n) && (m == 1 || r.value == m)
  {
    if n == m then Some(n)
    else if n == 1 then Some(m)
    else if m == 1 then Some(n)
    else None
  }

  /** The element of an operand of length `n` that broadcasting pairs with
      index `i` of the result. */
  function Source(n: nat, i: nat): nat {
    if n == 1 then 0 else i
  }

  /** The failures of `main`. */
  datatype EnergyError =
    | Scan(scan: ScanError)
    | Shapes(values: nat, counts: nat)   // the arrays do not broadcast
    | ZeroCount                          // an atom count of zero (NumPy gives inf or NaN)

  /** `values / counts` element-wise, with broadcasting. */
  function PerAtom(values: seq<real>, counts: seq<real>): (r: Result<seq<real>, EnergyError>)
    ensures r.Err? && r.error.Shapes? <==> BroadcastLength(|values|, |counts|).None?
    ensures r.Ok? ==> (BroadcastLength(|values|, |counts|) == Some(|r.value|)
      && forall i :: 0 <= i < |r.value| ==> Source(|counts|, i) < |counts| && counts[Source(|counts|, i)] != 0.0)
    ensures r.Err? && r.error.ZeroCount? ==> 0.0 in counts
  {
    match BroadcastLength(|values|, |counts|)
    case None => Err(Shapes(|values|, |counts|))
    case Some(n) =>
      if exists i :: 0 <= i < n && counts[Source(|counts|, i)] == 0.0 then Err(ZeroCount)
      else Ok(seq(n, i requires 0 <= i < n => values[Source(|values|, i)] / counts[Source(|counts|, i)]))
  }

  /** Multiplying each per-atom value back by its atom count gives the value. */
  lemma PerAtomInverse(values: seq<real>, counts: seq<real>)
    requires PerAtom(values, counts).Ok?
    ensures var r := PerAtom(values, counts).value;
      forall i :: 0 <= i < |r| ==> r[i] * counts[Source(|counts|, i)] == values[Source(|values|, i)]
  {
    var r := PerAtom(values, counts).value;
    forall i | 0 <= i < |r|
      ensures r[i] * counts[Source(|counts|, i)] == values[Source(|values|, i)]
    {
      QuotientTimesDivisor(values[Source(|values|, i)], counts[Source(|counts|, i)]);
    }
  }

  lemma QuotientTimesDivisor(x: real, c: real)
    requires c != 0.0
    ensures (x / c) * c == x
  {
  }

  /** With one atom count per structure (the well-formed file) each value is
      divided by its own count. */
  lemma PerAtomOfMatchingShapes(values: seq<real>, counts: seq<real>)
    requires |values| == |counts|
    requires forall i :: 0 <= i < |counts| ==> counts[i] != 0.0
    ensures PerAtom(values, counts).Ok?
    ensures PerAtom(values, counts).value == seq(|values|, i requires 0 <= i < |values| => values[i] / counts[i])
  {
  }

  /** `main`: the per-atom predicted and reference energies and their
      ME / MAE / MSE (`None` when there are none). `num` is the float
      conversion applied to the count tokens. */
  function EnergyErrors(lines: seq<string>, num: string -> real, firstLine: string -> string): (r: Result<(seq<real>, seq<real>, Option<ErrorMetrics>), EnergyError>)
    ensures r.Ok? ==> |r.value.0| == |r.value.1|
  {
    match Scanned(lines, |lines|, num, firstLine)
    case Err(e) => Err(Scan(e))
    case Ok(scan) =>
      var counts := seq(|scan.0|, i requires 0 <= i < |scan.0| => num(scan.0[i]));
      var predicted := seq(|scan.1|, i requires 0 <= i < |scan.1| => scan.1[i].predicted);
      var refs := seq(|scan.1|, i requires 0 <= i < |scan.1| => scan.1[i].reference);
      match PerAtom(predicted, counts)
      case Err(e) => Err(e)
      case Ok(p) =>
        match PerAtom(refs, counts)
        case Err(e) => Err(e)
        case Ok(q) => Ok((p, q, CalcErrors(p, q)))
  }

  /** An exact potential has zero per-atom ME, MAE and MSE. */
  lemma ExactPotentialHasZeroErrors(lines: seq<string>, num: string -> real, firstLine: string -> string)
    requires Scanned(lines, |lines|, num, firstLine).Ok?
    requires var es := Scanned(lines, |lines|, num, firstLine).value.1;
      forall i :: 0 <= i < |es| ==> es[i].predicted == es[i].reference
    requires EnergyErrors(lines, num, firstLine).Ok?
    ensures var r := EnergyErrors(lines, num, firstLine).value;
      r.0 == r.1 && (r.0 != [] ==> r.2 == Some(ErrorMetrics(0.0, 0.0, 0.0)))
  {
    var scan := Scanned(lines, |lines|, num, firstLine).value;
    var predicted := seq(|scan.1|, i requires 0 <= i < |scan.1| => scan.1[i].predicted);
    var refs := seq(|scan.1|, i requires 0 <= i < |scan.1| => scan.1[i].reference);
    assert predicted == refs;
    var r := EnergyErrors(lines, num, firstLine).value;
    if r.0 != [] {
      ErrorMetricsOfExactPrediction(r.0);
    }
  }
}
