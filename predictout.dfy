/** The scanning of aenet's `predict.out` shared by the energy and
    adsorption-energy error scripts: structure headers `File name : <path>`
    and the `Total energy` line that follows each of them. A file is its list
    of lines; tokens are Python's `str.split()`. */
module PredictOut {
  import opened Wrappers
  import opened Text

  /** The IndexErrors the scanners can raise. */
  datatype ScanError =
    | MissingToken(line: nat)   // a token the script indexes is absent from this line
    | PastEnd(header: nat)      // the search that began at this header ran off the end
    | NoReference(header: nat)  // the structure file of this header has no energy token

  /** Line tokens 0 and 1 read `File name`. */
  predicate NamesFile(t: seq<string>) {
    |t| > 1 && t[0] == "File" && t[1] == "name"
  }

  /** What a line with tokens `t` at index `a` says as a header: a structure
      path (token 3, not a `.ann` potential), nothing, or the IndexError of a
      `File name` line without a fourth token. */
  function Header(t: seq<string>, a: nat): (r: Result<Option<string>, ScanError>)
    ensures r.Err? <==> NamesFile(t) && |t| <= 3
    ensures r.Err? ==> r.error == MissingToken(a)
    ensures r.Ok? && r.value.Some? <==> NamesFile(t) && |t| > 3 && Find(t[3], ".ann") == -1
    ensures r.Ok? && r.value.Some? ==> r.value.value == t[3]
  {
    if !NamesFile(t) then Ok(None)
    else if |t| <= 3 then Err(MissingToken(a))
    else if Find(t[3], ".ann") == -1 then Ok(Some(t[3]))
    else Ok(None)
  }

  /** A line with more than two tokens, the first being `Total`. */
  predicate IsTotal(t: seq<string>) {
    |t| > 2 && t[0] == "Total"
  }

  /** The first line at or after `j` that is a `Total` line. */
  function NextTotal(lines: seq<string>, j: nat): (r: Option<nat>)
    ensures r.Some? ==> (j <= r.value < |lines| && IsTotal(Words(lines[r.value]))
      && forall k :: j <= k < r.value ==> !IsTotal(Words(lines[k])))
    ensures r.None? ==> forall k :: j <= k < |lines| ==> !IsTotal(Words(lines[k]))
    decreases |lines| - j
  {
    if j >= |lines| then None
    else if IsTotal(Words(lines[j])) then Some(j)
    else NextTotal(lines, j + 1)
  }

  /** The predicted energy for the header at line `a`: token 3 of the next
      `Total` line, read with `num` (Python's `float`). */
  function Predicted(lines: seq<string>, a: nat, num: string -> real): (r: Result<real, ScanError>)
    ensures r == Err(PastEnd(a)) <==> NextTotal(lines, a + 1).None?
    ensures r.Ok? ==> var k := NextTotal(lines, a + 1).value;
      |Words(lines[k])| > 3 && r.value == num(Words(lines[k])[3])
    ensures r.Err? && r.error.MissingToken? ==> var k := NextTotal(lines, a + 1).value;
      r.error.line == k && |Words(lines[k])| <= 3
  {
    match NextTotal(lines, a + 1)
    case None => Err(PastEnd(a))
    case Some(k) =>
      var t := Words(lines[k]);
      if |t| > 3 then Ok(num(t[3])) else Err(MissingToken(k))
  }

  /** The `while abort == False` search below a header. */
  method PredictedValue(lines: seq<string>, a: nat, num: string -> real) returns (r: Result<real, ScanError>)
    ensures r == Predicted(lines, a, num)
  {
    var j := a + 1;
    while j < |lines| && !IsTotal(Words(lines[j]))
      invariant a + 1 <= j
      invariant forall k :: a + 1 <= k < j && k < |lines| ==> !IsTotal(Words(lines[k]))
      decreases |lines| - j
    {
      j := j + 1;
    }
    if j >= |lines| {
      return Err(PastEnd(a));
    }
    var t := Words(lines[j]);
    if |t| <= 3 {
      return Err(MissingToken(j));
    }
    r := Ok(num(t[3]));
  }

  /** `float(lin[0].split()[-2])` on a structure file whose first line is
      `first` (the empty string for a file without lines): the last token but
      one, or the IndexError of a first line with fewer than two tokens,
      charged to the header at line `a`. */
  function ReferenceEnergy(first: string, a: nat, num: string -> real): (r: Result<real, ScanError>)
    ensures r.Ok? <==> |Words(first)| >= 2
    ensures r.Ok? ==> r.value == num(Words(first)[|Words(first)| - 2])
    ensures r.Err? ==> r.error == NoReference(a)
  {
    var t := Words(first);
    if |t| >= 2 then Ok(num(t[|t| - 2])) else Err(NoReference(a))
  }

  /** One structure: its path, the predicted energy and the reference energy
      read from the structure file. */
  datatype Entry = Entry(path: string, predicted: real, reference: real)

  /** Line `a` is a structure header: `File name : <path>` with a path that
      is not a `.ann` potential. */
  predicate IsHeader(lines: seq<string>, a: nat)
    requires a < |lines|
  {
    var h := Header(Words(lines[a]), a);
    h.Ok? && h.value.Some?
  }

  /** What line `a` contributes: an entry for a structure header, nothing for
      any other line. `firstLine(path)` is the first line of the structure
      file. The reference energy is read before the prediction is searched
      for, so a structure file without an energy wins over a missing `Total`
      line. */
  function EntryAt(lines: seq<string>, a: nat, num: string -> real, firstLine: string -> string): (r: Result<Option<Entry>, ScanError>)
    requires a < |lines|
    ensures r.Ok? && r.value.Some? ==> (Header(Words(lines[a]), a) == Ok(Some(r.value.value.path))
      && ReferenceEnergy(firstLine(r.value.value.path), a, num) == Ok(r.value.value.reference)
      && Predicted(lines, a, num) == Ok(r.value.value.predicted))
    ensures r == Ok(None) <==> Header(Words(lines[a]), a) == Ok(None)
    ensures IsHeader(lines, a) && ReferenceEnergy(firstLine(Header(Words(lines[a]), a).value.value), a, num).Err? ==>
      r == Err(NoReference(a))
  {
    match Header(Words(lines[a]), a)
    case Err(e) => Err(e)
    case Ok(None) => Ok(None)
    case Ok(Some(p)) =>
      match ReferenceEnergy(firstLine(p), a, num)
      case Err(e) => Err(e)
      case Ok(ref) =>
        match Predicted(lines, a, num)
        case Err(e) => Err(e)
        case Ok(v) => Ok(Some(Entry(p, v, ref)))
  }

  /** The header branch of the scripts' `for a, line in enumerate(lines)`
      loop: the entry line `a` gives, reading the reference energy and then
      scanning down to the `Total` line. */
  method ReadEntry(lines: seq<string>, a: nat, num: string -> real, firstLine: string -> string)
    returns (r: Result<Option<Entry>, ScanError>)
    requires a < |lines|
    ensures r == EntryAt(lines, a, num, firstLine)
  {
    var t := Words(lines[a]);
    if !NamesFile(t) {
      return Ok(None);
    }
    if |t| <= 3 {
      return Err(MissingToken(a));
    }
    if Find(t[3], ".ann") != -1 {
      return Ok(None);
    }
    var path := t[3];
    var refValue := ReferenceEnergy(firstLine(path), a, num);
    if refValue.Err? {
      return Err(refValue.error);
    }
    var pred := PredictedValue(lines, a, num);
    if pred.Err? {
      return Err(pred.error);
    }
    r := Ok(Some(Entry(path, pred.value, refValue.value)));
  }

  /** The entries of lines `0 .. n-1` in file order, or the first error. */
  function Entries(lines: seq<string>, n: nat, num: string -> real, firstLine: string -> string): (r: Result<seq<Entry>, ScanError>)
    requires n <= |lines|
    ensures r.Ok? ==> |r.value| <= n
  {
    if n == 0 then Ok([])
    else
      match Entries(lines, n - 1, num, firstLine)
      case Err(e) => Err(e)
      case Ok(es) =>
        match EntryAt(lines, n - 1, num, firstLine)
        case Err(e) => Err(e)
        case Ok(None) => Ok(es)
        case Ok(Some(x)) => Ok(es + [x])
  }

  /** The indices of the structure headers among lines `0 .. n-1`, in file
      order. */
  function HeaderLines(lines: seq<string>, n: nat): (r: seq<nat>)
    requires n <= |lines|
    ensures forall i :: 0 <= i < |r| ==> r[i] < n
  {
    if n == 0 then []
    else HeaderLines(lines, n - 1) + if IsHeader(lines, n - 1) then [n - 1] else []
  }

  /** The header indices increase strictly, and a line before `n` is among
      them exactly when it is a structure header. */
  lemma {:induction false} HeaderLinesAreTheHeaders(lines: seq<string>, n: nat)
    requires n <= |lines|
    ensures var hs := HeaderLines(lines, n);
      (forall i, j :: 0 <= i < j < |hs| ==> hs[i] < hs[j])
      && forall a :: 0 <= a < n ==> (a in hs <==> IsHeader(lines, a))
  {
    HeaderLinesIncrease(lines, n);
    HeaderLinesMembers(lines, n);
  }

  // The ordering half of the lemma above.
  lemma {:induction false} HeaderLinesIncrease(lines: seq<string>, n: nat)
    requires n <= |lines|
    ensures forall i, j :: 0 <= i < j < |HeaderLines(lines, n)| ==> HeaderLines(lines, n)[i] < HeaderLines(lines, n)[j]
  {
    if n > 0 {
      HeaderLinesIncrease(lines, n - 1);
      var prev := HeaderLines(lines, n - 1);
      var tail := if IsHeader(lines, n - 1) then [n - 1] else [];
      assert HeaderLines(lines, n) == prev + tail;
      forall i, j | 0 <= i < j < |prev + tail|
        ensures (prev + tail)[i] < (prev + tail)[j]
      {
        if j >= |prev| {
          assert (prev + tail)[j] == n - 1 && (prev + tail)[i] == prev[i];
        } else {
          assert (prev + tail)[i] == prev[i] && (prev + tail)[j] == prev[j];
        }
      }
    }
  }

  // The membership half of the lemma above.
  lemma {:induction false} HeaderLinesMembers(lines: seq<string>, n: nat)
    requires n <= |lines|
    ensures forall a :: 0 <= a < n ==> (a in HeaderLines(lines, n) <==> IsHeader(lines, a))
  {
    if n > 0 {
      HeaderLinesMembers(lines, n - 1);
      var prev := HeaderLines(lines, n - 1);
      var tail := if IsHeader(lines, n - 1) then [n - 1] else [];
      assert HeaderLines(lines, n) == prev + tail;
      forall a | 0 <= a < n
        ensures a in prev + tail <==> IsHeader(lines, a)
      {
        assert a in prev + tail <==> a in prev || a in tail;
      }
    }
  }

  /** A successful scan has one entry per structure header, in file order:
      entry `i` is what the `i`-th header gives. In particular every entry
      comes from a header and there are at most as many as lines. */
  lemma {:induction false} EntriesAreHeaders(lines: seq<string>, n: nat, num: string -> real, firstLine: string -> string)
    requires n <= |lines|
    requires Entries(lines, n, num, firstLine).Ok?
    ensures var es := Entries(lines, n, num, firstLine).value;
      var hs := HeaderLines(lines, n);
      |es| == |hs| && forall i :: 0 <= i < |es| ==> EntryAt(lines, hs[i], num, firstLine) == Ok(Some(es[i]))
    ensures var es := Entries(lines, n, num, firstLine).value;
      |es| <= n && forall i :: 0 <= i < |es| ==> exists a :: 0 <= a < n && EntryAt(lines, a, num, firstLine) == Ok(Some(es[i]))
  {
    if n > 0 {
      EntriesAreHeaders(lines, n - 1, num, firstLine);
      HeaderLinesAreTheHeaders(lines, n);
    }
  }

  /** Every structure header before line `n` gives an entry. */
  lemma {:induction false} HeadersAreEntries(lines: seq<string>, n: nat, num: string -> real, firstLine: string -> string, a: nat)
    requires a < n <= |lines|
    requires Entries(lines, n, num, firstLine).Ok?
    requires IsHeader(lines, a)
    ensures EntryAt(lines, a, num, firstLine).Ok? && EntryAt(lines, a, num, firstLine).value.Some?
    ensures EntryAt(lines, a, num, firstLine).value.value in Entries(lines, n, num, firstLine).value
  {
    if a < n - 1 {
      HeadersAreEntries(lines, n - 1, num, firstLine, a);
    }
  }
}
