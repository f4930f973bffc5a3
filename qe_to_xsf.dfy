/** `createxsffromqe.py`: a Quantum Espresso run (`pwfilename.out` and the
    `pwfilename.inp` beside it) becomes one XSF structure. The atom count is
    read from the output, the cell and the crystal coordinates from the input,
    and the energy and forces from the output after the atom-count line,
    converted from Rydberg and Bohr to eV and Angstrom; the energy is
    referenced to one isolated atom per species. Files are lists of lines;
    `read(path)` stands for opening and reading a file, and `num` for Python's
    `float` on one token. */
module QeToXsf {
  import opened Wrappers
  import opened Text
  import opened Geometry
  import opened Units

  /** The ways the script stops early. */
  datatype QeError =
    | Usage                           // exit(1): wrong arguments
    | NotCrystal(line: nat)           // exit(2): ATOMIC_POSITIONS not in crystal units, at this input line
    | NoAtomCount                     // `natoms` never assigned (NameError)
    | BadAtomCount(line: nat)         // `int()` of the last token of this output line fails
    | BadPositionLine(line: nat)      // this input line does not unpack into four tokens (ValueError)
    | DigitLabel(line: nat)           // the label on this input line is all digits (IndexError)
    | PastEnd                         // an index ran past the end of the remaining output (IndexError)
    | MissingToken(line: nat)         // `split()[-2]` of this line of the remaining output (IndexError)
    | UnknownSpecies(species: string) // `atomic_reference` of a species it does not list (KeyError)
    | BadCell(rows: nat)              // `set_cell` of a cell that is not three rows of three (ValueError)
    | MissingForce(atom: nat)         // the XSF line of this atom has no force row or one of fewer than three components (IndexError)

  const AtomCountMarker: string := "number of atoms/cell"
  const CellMarker: string := "CELL_PARAMETERS"
  const PositionsMarker: string := "ATOMIC_POSITIONS"
  const CrystalMarker: string := "crystal"
  const EnergyMarker: string := "!    total energy"
  const SmearingMarker: string := "smearing contrib. (-TS)"
  const ForceMarker: string := "force ="

  /** `s.find(sub) > -1`. */
  predicate Contains(s: string, sub: string) {
    Find(s, sub) > -1
  }

  predicate EndsWith(s: string, suffix: string) {
    |suffix| <= |s| && s[|s| - |suffix|..] == suffix
  }

  /** Python's `s[-4:]`: the last four characters, or all of a shorter `s`. */
  function LastFour(s: string): (r: string)
    ensures |r| == if |s| < 4 then |s| else 4
    ensures r == s[|s| - |r|..]
  {
    if |s| <= 4 then s else s[|s| - 4..]
  }

  /** The argument check: the script goes on exactly when it has two
      arguments and the first does not end in `.inp`. */
  function UsageOk(argv: seq<string>): (ok: bool)
    ensures ok <==> |argv| == 3 && !EndsWith(argv[1], ".inp")
  {
    !(|argv| != 3 || (|argv| == 3 && LastFour(argv[1]) == ".inp"))
  }

  const HydrogenReference: real := -16.77118161
  const PlatinumReference: real := -2889.448072

  /** `atomic_reference`: the energy of one reference atom, in eV; `None` is
      the KeyError of any species but H and Pt. */
  function AtomicReference(species: string): (r: Option<real>)
    ensures r.Some? <==> species == "H" || species == "Pt"
  {
    if species == "H" then Some(HydrogenReference)
    else if species == "Pt" then Some(PlatinumReference)
    else None
  }

  /** The number of times `x` occurs in `xs`. */
  function Count(xs: seq<string>, x: string): nat {
    if xs == [] then 0 else Count(xs[..|xs| - 1], x) + (if xs[|xs| - 1] == x then 1 else 0)
  }

  /** The sum of the reference energies of `syms[..n]`, or the KeyError of
      the first species without one. */
  function ReferenceTotal(syms: seq<string>, n: nat): (r: Result<real, QeError>)
    requires n <= |syms|
    ensures r.Err? ==> r.error.UnknownSpecies?
  {
    if n == 0 then Ok(0.0)
    else
      match ReferenceTotal(syms, n - 1)
      case Err(e) => Err(e)
      case Ok(total) =>
        match AtomicReference(syms[n - 1])
        case None => Err(UnknownSpecies(syms[n - 1]))
        case Some(v) => Ok(total + v)
  }

  /** The total is defined exactly when every species is H or Pt; it is then
      one hydrogen reference per H and one platinum reference per Pt, and
      otherwise the error names a species that is neither. */
  lemma {:induction false} ReferenceTotalCounts(syms: seq<string>, n: nat)
    requires n <= |syms|
    ensures ReferenceTotal(syms, n).Ok? <==> forall k :: 0 <= k < n ==> syms[k] == "H" || syms[k] == "Pt"
    ensures ReferenceTotal(syms, n).Ok? ==> (ReferenceTotal(syms, n).value
      == (Count(syms[..n], "H") as real) * HydrogenReference + (Count(syms[..n], "Pt") as real) * PlatinumReference)
    ensures ReferenceTotal(syms, n).Err? ==>
      exists k :: 0 <= k < n && ReferenceTotal(syms, n).error == UnknownSpecies(syms[k]) && syms[k] != "H" && syms[k] != "Pt"
  {
    if n > 0 {
      ReferenceTotalCounts(syms, n - 1);
      assert syms[..n][..n - 1] == syms[..n - 1];
      assert syms[..n][n - 1] == syms[n - 1];
    }
  }

  /** `for s in syms: energy -= atomic_reference(s)`: `energy` less the
      reference energies of all of `syms`, or the KeyError of the first
      species that is neither H nor Pt. */
  function Referenced(energy: real, syms: seq<string>): (r: Result<real, QeError>)
    ensures r.Ok? <==> forall k :: 0 <= k < |syms| ==> syms[k] == "H" || syms[k] == "Pt"
    ensures r.Ok? ==> r.value == energy - ((Count(syms, "H") as real) * HydrogenReference + (Count(syms, "Pt") as real) * PlatinumReference)
  {
    ReferenceTotalCounts(syms, |syms|);
    assert syms[..|syms|] == syms;
    match ReferenceTotal(syms, |syms|)
    case Err(e) => Err(e)
    case Ok(total) => Ok(energy - total)
  }

  method SubtractReferences(energy: real, syms: seq<string>) returns (r: Result<real, QeError>)
    ensures r == Referenced(energy, syms)
  {
    var e := energy;
    for n := 0 to |syms|
      invariant ReferenceTotal(syms, n).Ok? && e == energy - ReferenceTotal(syms, n).value
    {
      var v := AtomicReference(syms[n]);
      if v.None? {
        ReferenceErrorPersists(syms, n + 1, |syms|);
        return Err(UnknownSpecies(syms[n]));
      }
      e := e - v.value;
    }
    r := Ok(e);
  }

  /** Once a reference is missing, longer prefixes fail with the same error. */
  lemma {:induction false} ReferenceErrorPersists(syms: seq<string>, n: nat, m: nat)
    requires n <= m <= |syms|
    requires ReferenceTotal(syms, n).Err?
    ensures ReferenceTotal(syms, m) == ReferenceTotal(syms, n)
    decreases m - n
  {
    if n < m {
      ReferenceErrorPersists(syms, n, m - 1);
    }
  }

  /** The first line at or after `j` containing `sub`. */
  function NextContaining(lines: seq<string>, sub: string, j: nat): (r: Option<nat>)
    ensures r.Some? ==> (j <= r.value < |lines| && Contains(lines[r.value], sub)
      && forall k :: j <= k < r.value ==> !Contains(lines[k], sub))
    ensures r.None? ==> forall k :: j <= k < |lines| ==> !Contains(lines[k], sub)
    decreases |lines| - j
  {
    if j >= |lines| then None
    else if Contains(lines[j], sub) then Some(j)
    else NextContaining(lines, sub, j + 1)
  }

  /** The cursor loops `while output[j].find(sub) < 0: j += 1` and the
      `readline` search for the atom count: advance to the first line at or
      after `j` containing `sub`, or run off the end. */
  method Seek(lines: seq<string>, sub: string, j: nat) returns (r: Option<nat>)
    ensures r == NextContaining(lines, sub, j)
  {
    var k := j;
    while k < |lines| && !Contains(lines[k], sub)
      invariant j <= k
      invariant NextContaining(lines, sub, k) == NextContaining(lines, sub, j)
      decreases |lines| - k
    {
      k := k + 1;
    }
    if k >= |lines| {
      return None;
    }
    r := Some(k);
  }

  /** The last of `lines[..n]` containing `sub`. */
  function LastContaining(lines: seq<string>, sub: string, n: nat): (r: Option<nat>)
    requires n <= |lines|
    ensures r.Some? ==> (r.value < n && Contains(lines[r.value], sub)
      && forall k :: r.value < k < n ==> !Contains(lines[k], sub))
    ensures r.None? ==> forall k :: 0 <= k < n ==> !Contains(lines[k], sub)
  {
    if n == 0 then None
    else if Contains(lines[n - 1], sub) then Some(n - 1)
    else LastContaining(lines, sub, n - 1)
  }

  /** `j = 0; for i, s in enumerate(output): if '!    total energy' in s: j = i`. */
  method LastEnergyLine(output: seq<string>) returns (j: nat)
    ensures j == LastContaining(output, EnergyMarker, |output|).GetOr(0)
  {
    j := 0;
    for i := 0 to |output|
      invariant j == LastContaining(output, EnergyMarker, i).GetOr(0)
    {
      if Contains(output[i], EnergyMarker) {
        j := i;
      }
    }
  }

  /** `int(tok)` when it is at least zero, else zero: how many times
      `range(natoms)` runs. */
  function AtomsIn(n: int): nat {
    if n < 0 then 0 else n
  }

  /** The first loop over the output: the atom count of the first
      `number of atoms/cell` line (`None` when there is none) and the index
      of the first line the later `out.readlines()` returns. */
  function AtomCount(out: seq<string>): (r: Result<(Option<int>, nat), QeError>)
    ensures r.Ok? ==> r.value.1 <= |out|
    ensures r.Err? ==> r.error.BadAtomCount?
    ensures r.Ok? && r.value.0.None? ==> r.value.1 == |out| && forall k :: 0 <= k < |out| ==> !Contains(out[k], AtomCountMarker)
    ensures r.Ok? && r.value.0.Some? ==> (0 < r.value.1 && Contains(out[r.value.1 - 1], AtomCountMarker)
      && (forall k :: 0 <= k < r.value.1 - 1 ==> !Contains(out[k], AtomCountMarker))
      && Words(out[r.value.1 - 1]) != [] && ParseInt(Last(Words(out[r.value.1 - 1]))) == r.value.0)
  {
    match NextContaining(out, AtomCountMarker, 0)
    case None => Ok((None, |out|))
    case Some(k) =>
      var t := Words(out[k]);
      if t == [] then Err(BadAtomCount(k))
      else
        match ParseInt(Last(t))
        case None => Err(BadAtomCount(k))
        case Some(n) => Ok((Some(n), k + 1))
  }

  method FindAtomCount(out: seq<string>) returns (r: Result<(Option<int>, nat), QeError>)
    ensures r == AtomCount(out)
  {
    var k := Seek(out, AtomCountMarker, 0);
    if k.None? {
      return Ok((None, |out|));
    }
    var t := Words(out[k.value]);
    if t == [] {
      return Err(BadAtomCount(k.value));
    }
    var n := ParseInt(Last(t));
    if n.None? {
      return Err(BadAtomCount(k.value));
    }
    r := Ok((Some(n.value), k.value + 1));
  }

  /** `.replace('d', 'e')`: Fortran exponents become Python ones. */
  function FixExponent(s: string): (r: string)
    ensures |r| == |s|
  {
    Replace(s, "d", "e")
  }

  /** The exponent fix changes every `d` to `e` and nothing else. */
  lemma FixExponentFacts(s: string)
    ensures |FixExponent(s)| == |s|
    ensures forall i :: 0 <= i < |s| ==> FixExponent(s)[i] == if s[i] == 'd' then 'e' else s[i]
    ensures 'd' !in FixExponent(s)
  {
    ReplaceChar(s, 'd', 'e');
    assert "d" == ['d'] && "e" == ['e'];
  }

  /** `[float(x) for x in tokens]`. */
  function Reals(t: seq<string>, num: string -> real): (r: seq<real>)
    ensures |r| == |t| && forall k :: 0 <= k < |t| ==> r[k] == num(t[k])
  {
    seq(|t|, k requires 0 <= k < |t| => num(t[k]))
  }

  /** The `readline` at input line `k`: the line, or `''` past the end. */
  function LineAt(inp: seq<string>, k: nat): string {
    if k < |inp| then inp[k] else ""
  }

  /** One row of CELL_PARAMETERS read at input line `k`. */
  function CellRow(inp: seq<string>, k: nat, num: string -> real): seq<real> {
    Reals(Words(FixExponent(LineAt(inp, k))), num)
  }

  /** The three rows after a CELL_PARAMETERS header at line `i`. */
  function CellRows(inp: seq<string>, i: nat, num: string -> real): (r: seq<seq<real>>)
    ensures |r| == 3 && forall k :: 0 <= k < 3 ==> r[k] == CellRow(inp, i + 1 + k, num)
  {
    seq(3, k requires 0 <= k < 3 => CellRow(inp, i + 1 + k, num))
  }

  /** `for i in range(3): cell.append(...)`. */
  method ReadCell(inp: seq<string>, i: nat, num: string -> real) returns (rows: seq<seq<real>>)
    ensures rows == CellRows(inp, i, num)
  {
    rows := [];
    for k := 0 to 3
      invariant |rows| == k && forall m :: 0 <= m < k ==> rows[m] == CellRow(inp, i + 1 + m, num)
    {
      rows := rows + [CellRow(inp, i + 1 + k, num)];
    }
  }

  /** A species label with its trailing digits removed (`Pt1` becomes `Pt`);
      `None` is the IndexError of a label with nothing but digits. */
  function Species(a: string): (r: Option<string>)
    ensures r.None? <==> forall i :: 0 <= i < |a| ==> IsDigit(a[i])
    ensures r.Some? ==> (|r.value| <= |a| && r.value == a[..|r.value|] && r.value != []
      && !IsDigit(r.value[|r.value| - 1]) && forall i :: |r.value| <= i < |a| ==> IsDigit(a[i]))
    decreases |a|
  {
    if a == [] then None
    else if IsDigit(a[|a| - 1]) then Species(a[..|a| - 1])
    else Some(a)
  }

  /** `while a[-1].isdigit(): a = a[:-1]`. */
  method StripDigits(a: string) returns (r: Option<string>)
    ensures r == Species(a)
  {
    var b := a;
    while b != [] && IsDigit(b[|b| - 1])
      invariant Species(b) == Species(a)
      decreases |b|
    {
      b := b[..|b| - 1];
    }
    if b == [] {
      return None;
    }
    r := Some(b);
  }

  /** A stored species label: non-empty and not ending in a digit. */
  predicate IsLabel(s: string) {
    s != [] && !IsDigit(s[|s| - 1])
  }

  /** The atom on input line `k` of an ATOMIC_POSITIONS block: its species and
      its three crystal coordinates, each with the exponent fix. */
  function PositionAt(inp: seq<string>, k: nat, num: string -> real): (r: Result<(string, Vec3), QeError>)
    ensures r.Ok? ==> IsLabel(r.value.0)
    ensures r.Err? ==> r.error == BadPositionLine(k) || r.error == DigitLabel(k)
  {
    var t := Words(LineAt(inp, k));
    if |t| != 4 then Err(BadPositionLine(k))
    else
      match Species(t[0])
      case None => Err(DigitLabel(k))
      case Some(a) => Ok((a, Vec3(num(FixExponent(t[1])), num(FixExponent(t[2])), num(FixExponent(t[3])))))
  }

  /** One pass of `for i in range(natoms)`: `a,b,c,d = inp.readline().split()`,
      then the label and the coordinates. */
  method ReadPosition(inp: seq<string>, k: nat, num: string -> real) returns (r: Result<(string, Vec3), QeError>)
    ensures r == PositionAt(inp, k, num)
  {
    var t := Words(LineAt(inp, k));
    if |t| != 4 {
      return Err(BadPositionLine(k));
    }
    var a := StripDigits(t[0]);
    if a.None? {
      return Err(DigitLabel(k));
    }
    r := Ok((a.value, Vec3(num(FixExponent(t[1])), num(FixExponent(t[2])), num(FixExponent(t[3])))));
  }

  /** The atoms of input lines `cur .. cur+n-1`, or the first error. */
  function Positions(inp: seq<string>, cur: nat, n: nat, num: string -> real): (r: Result<(seq<string>, seq<Vec3>), QeError>)
    ensures r.Ok? ==> |r.value.0| == n && |r.value.1| == n && forall k :: 0 <= k < n ==> IsLabel(r.value.0[k])
    ensures r.Err? ==> r.error.BadPositionLine? || r.error.DigitLabel?
  {
    if n == 0 then Ok(([], []))
    else
      match Positions(inp, cur, n - 1, num)
      case Err(e) => Err(e)
      case Ok(p) =>
        match PositionAt(inp, cur + n - 1, num)
        case Err(e) => Err(e)
        case Ok(x) => Ok((p.0 + [x.0], p.1 + [x.1]))
  }

  lemma {:induction false} PositionsErrorPersists(inp: seq<string>, cur: nat, n: nat, m: nat, num: string -> real)
    requires n <= m
    requires Positions(inp, cur, n, num).Err?
    ensures Positions(inp, cur, m, num) == Positions(inp, cur, n, num)
    decreases m - n
  {
    if n < m {
      PositionsErrorPersists(inp, cur, n, m - 1, num);
    }
  }

  /** The crystal block: `natoms` atoms read from consecutive lines. */
  method ReadPositions(inp: seq<string>, cur: nat, n: nat, num: string -> real) returns (r: Result<(seq<string>, seq<Vec3>), QeError>)
    ensures r == Positions(inp, cur, n, num)
  {
    var syms: seq<string> := [];
    var coords: seq<Vec3> := [];
    for m := 0 to n
      invariant Positions(inp, cur, m, num) == Ok((syms, coords))
    {
      var x := ReadPosition(inp, cur + m, num);
      if x.Err? {
        PositionsErrorPersists(inp, cur, m + 1, n, num);
        return Err(x.error);
      }
      syms := syms + [x.value.0];
      coords := coords + [x.value.1];
    }
    r := Ok((syms, coords));
  }

  /** What one pass of the input loop reads: the index of the next line the
      loop tests, and the cell rows, labels and coordinates it adds. */
  datatype Block = Block(next: nat, cell: seq<seq<real>>, symbols: seq<string>, coords: seq<Vec3>)

  /** One pass of `while s != ''` with `s` the input line `i`: the three cell
      rows after a CELL_PARAMETERS header, then, when the same line is an
      ATOMIC_POSITIONS header, `natoms` atoms in crystal units or exit(2). */
  function HeaderAt(inp: seq<string>, i: nat, natoms: Option<int>, num: string -> real): (r: Result<Block, QeError>)
    requires i < |inp|
    ensures r.Ok? ==> (i < r.value.next && |r.value.symbols| == |r.value.coords|
      && forall k :: 0 <= k < |r.value.symbols| ==> IsLabel(r.value.symbols[k]))
    ensures r.Ok? ==> (|r.value.cell| == if Contains(inp[i], CellMarker) then 3 else 0)
    ensures r == Err(NotCrystal(i)) <==> Contains(inp[i], PositionsMarker) && !Contains(inp[i], CrystalMarker)
  {
    var line := inp[i];
    var rows := if Contains(line, CellMarker) then CellRows(inp, i, num) else [];
    var cur := i + 1 + |rows|;
    if !Contains(line, PositionsMarker) then Ok(Block(cur, rows, [], []))
    else if !Contains(line, CrystalMarker) then Err(NotCrystal(i))
    else AtomsBlock(inp, cur, rows, natoms, num)
  }

  /** The `natoms` atom lines from input line `cur` on, with the cell rows
      read before them; `natoms` must have been assigned by then. */
  function AtomsBlock(inp: seq<string>, cur: nat, rows: seq<seq<real>>, natoms: Option<int>, num: string -> real): (r: Result<Block, QeError>)
    ensures r.Ok? ==> (cur <= r.value.next && r.value.cell == rows && |r.value.symbols| == |r.value.coords|
      && forall k :: 0 <= k < |r.value.symbols| ==> IsLabel(r.value.symbols[k]))
    ensures r.Err? ==> !r.error.NotCrystal?
    ensures r == Err(NoAtomCount) <==> natoms.None?
  {
    match natoms
    case None => Err(NoAtomCount)
    case Some(n) =>
      match Positions(inp, cur, AtomsIn(n), num)
      case Err(e) => Err(e)
      case Ok(p) => Ok(Block(cur + AtomsIn(n), rows, p.0, p.1))
  }

  method ReadHeader(inp: seq<string>, i: nat, natoms: Option<int>, num: string -> real) returns (r: Result<Block, QeError>)
    requires i < |inp|
    ensures r == HeaderAt(inp, i, natoms, num)
  {
    var line := inp[i];
    var rows: seq<seq<real>> := [];
    if Contains(line, CellMarker) {
      rows := ReadCell(inp, i, num);
    }
    var cur := i + 1 + |rows|;
    if !Contains(line, PositionsMarker) {
      return Ok(Block(cur, rows, [], []));
    }
    if !Contains(line, CrystalMarker) {
      return Err(NotCrystal(i));
    }
    r := ReadAtoms(inp, cur, rows, natoms, num);
  }

  method ReadAtoms(inp: seq<string>, cur: nat, rows: seq<seq<real>>, natoms: Option<int>, num: string -> real) returns (r: Result<Block, QeError>)
    ensures r == AtomsBlock(inp, cur, rows, natoms, num)
  {
    if natoms.None? {
      return Err(NoAtomCount);
    }
    var p := ReadPositions(inp, cur, AtomsIn(natoms.value), num);
    if p.Err? {
      return Err(p.error);
    }
    r := Ok(Block(cur + AtomsIn(natoms.value), rows, p.value.0, p.value.1));
  }

  /** What the input gives: cell rows, species labels and crystal coordinates. */
  datatype Structure = Structure(cell: seq<seq<real>>, symbols: seq<string>, coords: seq<Vec3>)

  const NoStructure := Structure([], [], [])

  /** `acc` extended by what the loop reads from line `i` on. */
  function InputFrom(inp: seq<string>, i: nat, natoms: Option<int>, num: string -> real, acc: Structure): (r: Result<Structure, QeError>)
    ensures r.Ok? ==> acc.cell <= r.value.cell && acc.symbols <= r.value.symbols && acc.coords <= r.value.coords
    decreases if i <= |inp| then |inp| - i else 0
  {
    if i >= |inp| then Ok(acc)
    else
      match HeaderAt(inp, i, natoms, num)
      case Err(e) => Err(e)
      case Ok(b) => InputFrom(inp, b.next, natoms, num, Structure(acc.cell + b.cell, acc.symbols + b.symbols, acc.coords + b.coords))
  }

  /** One label per coordinate triple, every label free of trailing digits. */
  predicate WellFormed(s: Structure) {
    |s.symbols| == |s.coords| && forall k :: 0 <= k < |s.symbols| ==> IsLabel(s.symbols[k])
  }

  /** The input loop keeps labels and coordinates paired and every label
      stripped; an exit(2) names a positions header not in crystal units. */
  lemma {:induction false} InputFacts(inp: seq<string>, i: nat, natoms: Option<int>, num: string -> real, acc: Structure)
    requires WellFormed(acc)
    ensures InputFrom(inp, i, natoms, num, acc).Ok? ==> WellFormed(InputFrom(inp, i, natoms, num, acc).value)
    ensures InputFrom(inp, i, natoms, num, acc).Ok? ==> |acc.cell| <= |InputFrom(inp, i, natoms, num, acc).value.cell|
    ensures InputFrom(inp, i, natoms, num, acc).Err? && InputFrom(inp, i, natoms, num, acc).error.NotCrystal? ==>
      var k := InputFrom(inp, i, natoms, num, acc).error.line;
      i <= k < |inp| && Contains(inp[k], PositionsMarker) && !Contains(inp[k], CrystalMarker)
    decreases if i <= |inp| then |inp| - i else 0
  {
    if i < |inp| {
      var h := HeaderAt(inp, i, natoms, num);
      if h.Ok? {
        var b := h.value;
        var acc' := Structure(acc.cell + b.cell, acc.symbols + b.symbols, acc.coords + b.coords);
        assert WellFormed(acc') by {
          forall k | 0 <= k < |acc'.symbols|
            ensures IsLabel(acc'.symbols[k])
          {
            if k >= |acc.symbols| {
              assert acc'.symbols[k] == b.symbols[k - |acc.symbols|];
            }
          }
        }
        InputFacts(inp, b.next, natoms, num, acc');
      } else if h.error.NotCrystal? {
        assert h == Err(NotCrystal(h.error.line));
      }
    }
  }

  /** The input loop `while s != ''`. */
  method ReadInput(inp: seq<string>, natoms: Option<int>, num: string -> real) returns (r: Result<Structure, QeError>)
    ensures r == InputFrom(inp, 0, natoms, num, NoStructure)
  {
    var cell: seq<seq<real>> := [];
    var syms: seq<string> := [];
    var coords: seq<Vec3> := [];
    var i := 0;
    while i < |inp|
      invariant InputFrom(inp, i, natoms, num, Structure(cell, syms, coords)) == InputFrom(inp, 0, natoms, num, NoStructure)
      decreases |inp| - i
    {
      var h := ReadHeader(inp, i, natoms, num);
      if h.Err? {
        return Err(h.error);
      }
      cell := cell + h.value.cell;
      syms := syms + h.value.symbols;
      coords := coords + h.value.coords;
      i := h.value.next;
    }
    r := Ok(Structure(cell, syms, coords));
  }

  /** `energy *= rydberg`: Rydberg to eV. The factor is written out as the
      literal `rydberg = 0.5 * 27.211386245988` is, so that the product stays
      linear; RydbergToEvScales ties it to the shared constant. */
  function RydbergToEv(e: real): real {
    e * (0.5 * 27.211386245988)
  }

  /** `float(x)*rydberg/bohr`: Rydberg per Bohr to eV per Angstrom, with the
      factors written out as for RydbergToEv. */
  function ForceToEvPerAngstrom(x: real): real {
    x * (0.5 * 27.211386245988) / 0.529177210903
  }

  /** The two conversions use the shared Rydberg and Bohr factors. */
  lemma RydbergToEvScales(e: real, x: real)
    ensures RydbergToEv(e) == e * RydbergInEv
    ensures ForceToEvPerAngstrom(x) == x * RydbergInEv / BohrInAngstrom
  {
  }

  /** `t[-2]`. */
  function Penultimate(t: seq<string>): string
    requires |t| >= 2
  {
    t[|t| - 2]
  }

  /** The energy in eV before the atomic references, and the index of the
      smearing line where the force search starts: token -2 of the last
      `!    total energy` line (the first line when there is none), less half
      token -2 of the next `smearing contrib. (-TS)` line. */
  function RawEnergy(output: seq<string>, num: string -> real): (r: Result<(real, nat), QeError>)
    ensures r.Err? ==> r.error.PastEnd? || r.error.MissingToken?
  {
    var j := LastContaining(output, EnergyMarker, |output|).GetOr(0);
    if j >= |output| then Err(PastEnd)
    else
      var t := Words(output[j]);
      if |t| < 2 then Err(MissingToken(j))
      else
        match NextContaining(output, SmearingMarker, j)
        case None => Err(PastEnd)
        case Some(s) =>
          var u := Words(output[s]);
          if |u| < 2 then Err(MissingToken(s))
          else Ok((SmearedEnergy(t, u, num), s))
  }

  /** `energy = float(t[-2])` less half of `float(u[-2])`, then in eV. */
  function SmearedEnergy(t: seq<string>, u: seq<string>, num: string -> real): (e: real)
    requires |t| >= 2 && |u| >= 2
    ensures num(Penultimate(u)) >= 0.0 ==> e <= RydbergToEv(num(Penultimate(t)))
    ensures num(Penultimate(u)) == 0.0 ==> e == RydbergToEv(num(Penultimate(t)))
  {
    RydbergToEv(num(Penultimate(t)) - 0.5 * num(Penultimate(u)))
  }

  /** The raw energy is read from the last energy line and the first smearing
      line after it. */
  lemma RawEnergyRead(output: seq<string>, num: string -> real)
    ensures var r := RawEnergy(output, num);
      var j := LastContaining(output, EnergyMarker, |output|).GetOr(0);
      r.Ok? ==> (j <= r.value.1 < |output| && Contains(output[r.value.1], SmearingMarker)
        && (forall k :: j <= k < r.value.1 ==> !Contains(output[k], SmearingMarker))
        && |Words(output[j])| >= 2 && |Words(output[r.value.1])| >= 2
        && r.value.0 == SmearedEnergy(Words(output[j]), Words(output[r.value.1]), num))
  {
    var j := LastContaining(output, EnergyMarker, |output|).GetOr(0);
    var r := RawEnergy(output, num);
    if j < |output| && |Words(output[j])| >= 2 {
      var next := NextContaining(output, SmearingMarker, j);
      if next.Some? {
        var s := next.value;
        var u := Words(output[s]);
        if |u| >= 2 {
          assert r == Ok((SmearedEnergy(Words(output[j]), u, num), s));
        } else {
          assert r.Err?;
        }
      } else {
        assert r.Err?;
      }
    } else {
      assert r.Err?;
    }
  }

  /** The script runs off the output exactly when the output is empty or no
      smearing line follows the energy line. */
  lemma RawEnergyPastEnd(output: seq<string>, num: string -> real)
    ensures RawEnergy(output, num) == Err(PastEnd) ==>
      output == [] || NextContaining(output, SmearingMarker, LastContaining(output, EnergyMarker, |output|).GetOr(0)).None?
  {
  }

  /** `energy -= atomic_reference(s)` for every atom read from the input. */
  function EnergyOf(output: seq<string>, syms: seq<string>, num: string -> real): (r: Result<(real, nat), QeError>)
    ensures r.Err? ==> r.error.PastEnd? || r.error.MissingToken? || r.error.UnknownSpecies?
  {
    match RawEnergy(output, num)
    case Err(e) => Err(e)
    case Ok(raw) =>
      match Referenced(raw.0, syms)
      case Err(e) => Err(e)
      case Ok(v) => Ok((v, raw.1))
  }

  /** For H and Pt atoms only, the energy is the raw energy less one hydrogen
      reference per H and one platinum reference per Pt; any other species
      stops the script with the KeyError of such an atom. */
  lemma EnergyOfHydrogenOnPlatinum(output: seq<string>, syms: seq<string>, num: string -> real)
    requires RawEnergy(output, num).Ok?
    ensures EnergyOf(output, syms, num).Ok? <==> forall k :: 0 <= k < |syms| ==> syms[k] == "H" || syms[k] == "Pt"
    ensures EnergyOf(output, syms, num).Ok? ==> (EnergyOf(output, syms, num).value.1 == RawEnergy(output, num).value.1
      && EnergyOf(output, syms, num).value.0 == RawEnergy(output, num).value.0
        - ((Count(syms, "H") as real) * HydrogenReference + (Count(syms, "Pt") as real) * PlatinumReference))
  {
    ReferenceTotalCounts(syms, |syms|);
    assert syms[..|syms|] == syms;
  }

  /** The cursor loops over the output before the force block: token -2 of
      the energy line, the smearing line, the conversion to eV. */
  method ReadRawEnergy(output: seq<string>, num: string -> real) returns (r: Result<(real, nat), QeError>)
    ensures r == RawEnergy(output, num)
  {
    var j := LastEnergyLine(output);
    if j >= |output| {
      return Err(PastEnd);
    }
    var t := Words(output[j]);
    if |t| < 2 {
      return Err(MissingToken(j));
    }
    var energy := num(Penultimate(t));
    var s := Seek(output, SmearingMarker, j);
    if s.None? {
      return Err(PastEnd);
    }
    var u := Words(output[s.value]);
    if |u| < 2 {
      return Err(MissingToken(s.value));
    }
    energy := energy - 0.5 * num(Penultimate(u));
    energy := RydbergToEv(energy);
    assert energy == SmearedEnergy(t, u, num);
    assert RawEnergy(output, num) == Ok((SmearedEnergy(t, u, num), s.value));
    r := Ok((energy, s.value));
  }

  method ReadEnergy(output: seq<string>, syms: seq<string>, num: string -> real) returns (r: Result<(real, nat), QeError>)
    ensures r == EnergyOf(output, syms, num)
  {
    var raw := ReadRawEnergy(output, num);
    if raw.Err? {
      return Err(raw.error);
    }
    var referenced := SubtractReferences(raw.value.0, syms);
    if referenced.Err? {
      return Err(referenced.error);
    }
    r := Ok((referenced.value, raw.value.1));
  }

  /** Python's `t[-3:]`: the last three tokens, or all of fewer. */
  function LastThree(t: seq<string>): (r: seq<string>)
    ensures |r| == if |t| < 3 then |t| else 3
  {
    if |t| <= 3 then t else t[|t| - 3..]
  }

  /** `[float(x)*rydberg/bohr for x in output[i].split()[-3:]]`. */
  function ForceRow(line: string, num: string -> real): (row: seq<real>)
    ensures |row| <= 3
  {
    var l := LastThree(Words(line));
    seq(|l|, k requires 0 <= k < |l| => ForceToEvPerAngstrom(num(l[k])))
  }

  /** The force rows: `natoms` lines from the first `force =` line at or after
      the smearing line `s`. */
  function ForcesFrom(output: seq<string>, s: nat, n: nat, num: string -> real): (r: Result<seq<seq<real>>, QeError>)
    ensures r.Ok? ==> |r.value| == n
    ensures r.Err? ==> r.error == PastEnd
    ensures r.Ok? <==> NextContaining(output, ForceMarker, s).Some? && NextContaining(output, ForceMarker, s).value + n <= |output|
    ensures r.Ok? ==> forall i :: 0 <= i < n ==> r.value[i] == ForceRow(output[NextContaining(output, ForceMarker, s).value + i], num)
  {
    var f := NextContaining(output, ForceMarker, s);
    if f.None? then Err(PastEnd)
    else RowsFrom(output, f.value, n, num)
  }

  /** The `n` force rows of lines `f ..`, or the IndexError of running off
      the output. */
  function RowsFrom(output: seq<string>, f: nat, n: nat, num: string -> real): (r: Result<seq<seq<real>>, QeError>)
    requires f <= |output|
    ensures r.Ok? <==> f + n <= |output|
    ensures r.Err? ==> r.error == PastEnd
    ensures r.Ok? ==> |r.value| == n && forall i :: 0 <= i < n ==> r.value[i] == ForceRow(output[f + i], num)
  {
    if f + n > |output| then Err(PastEnd)
    else RowsAt(output[f..f + n], ForceRowOf(num)); Ok(Rows(output[f..f + n], ForceRowOf(num)))
  }

  /** ForceRow as a function of the line alone. */
  function ForceRowOf(num: string -> real): string -> seq<real> {
    line => ForceRow(line, num)
  }

  /** `[row(line) for line in lines]`. */
  function Rows(lines: seq<string>, row: string -> seq<real>): (r: seq<seq<real>>)
    ensures |r| == |lines|
  {
    if lines == [] then [] else Rows(lines[..|lines| - 1], row) + [row(lines[|lines| - 1])]
  }

  /** Row `i` is the row of line `i`. */
  lemma {:induction false} RowsAt(lines: seq<string>, row: string -> seq<real>)
    ensures forall i :: 0 <= i < |lines| ==> Rows(lines, row)[i] == row(lines[i])
  {
    if lines != [] {
      var k := |lines| - 1;
      RowsAt(lines[..k], row);
      var prev := Rows(lines[..k], row);
      assert Rows(lines, row) == prev + [row(lines[k])];
      forall i | 0 <= i < |lines|
        ensures Rows(lines, row)[i] == row(lines[i])
      {
        if i < k {
          assert Rows(lines, row)[i] == prev[i];
          assert lines[..k][i] == lines[i];
        }
      }
    }
  }

  /** Each force component is a token of its line in Rydberg per Bohr,
      converted to eV per Angstrom; a row holds the last three tokens of its line. */
  lemma ForceRowFacts(line: string, num: string -> real)
    ensures var t := Words(line); var row := ForceRow(line, num);
      |row| == (if |t| < 3 then |t| else 3)
      && forall k :: 0 <= k < |row| ==> row[k] == ForceToEvPerAngstrom(num(t[|t| - |row| + k]))
  {
    var t := Words(line);
    var l := LastThree(t);
    var row := ForceRow(line, num);
    forall k | 0 <= k < |row|
      ensures row[k] == ForceToEvPerAngstrom(num(t[|t| - |row| + k]))
    {
      assert l[k] == t[|t| - |row| + k];
    }
  }

  /** `while output[j].find('force =') < 0: j += 1`, then the force rows. */
  method ReadForces(output: seq<string>, s: nat, n: nat, num: string -> real) returns (r: Result<seq<seq<real>>, QeError>)
    ensures r == ForcesFrom(output, s, n, num)
  {
    var f := Seek(output, ForceMarker, s);
    if f.None? {
      return Err(PastEnd);
    }
    r := ReadRows(output, f.value, n, num);
  }

  /** One more line gives one more row. */
  lemma RowsStep(output: seq<string>, f: nat, k: nat, num: string -> real)
    requires f + k < |output|
    ensures Rows(output[f..f + k + 1], ForceRowOf(num)) == Rows(output[f..f + k], ForceRowOf(num)) + [ForceRow(output[f + k], num)]
  {
    var lines := output[f..f + k + 1];
    var row := ForceRowOf(num);
    assert lines[..k] == output[f..f + k];
    assert Rows(lines, row) == Rows(lines[..k], row) + [row(lines[k])];
    assert row(lines[k]) == ForceRow(output[f + k], num);
  }

  /** The `for i in range(j, j+natoms)` loop. */
  method ReadRows(output: seq<string>, f: nat, n: nat, num: string -> real) returns (r: Result<seq<seq<real>>, QeError>)
    requires f <= |output|
    ensures r == RowsFrom(output, f, n, num)
  {
    var rows: seq<seq<real>> := [];
    for k := 0 to n
      invariant f + k <= |output|
      invariant rows == Rows(output[f..f + k], ForceRowOf(num))
    {
      if f + k >= |output| {
        return Err(PastEnd);
      }
      RowsStep(output, f, k, num);
      rows := rows + [ForceRow(output[f + k], num)];
    }
    r := Ok(rows);
  }

  /** A cell `set_cell` accepts from the rows read: three rows of three
      numbers (two CELL_PARAMETERS blocks give six rows, none gives none). */
  predicate CellShape(cell: seq<seq<real>>) {
    |cell| == 3 && forall k :: 0 <= k < 3 ==> |cell[k]| == 3
  }

  /** `set_cell(cell, scale_atoms=True)` on atoms placed at crystal
      coordinates `c` in the unit cell: the Cartesian position `c · cell`. */
  function Cartesian(c: Vec3, cell: seq<seq<real>>): (p: Vec3)
    requires CellShape(cell)
  {
    Vec3(c.x * cell[0][0] + c.y * cell[1][0] + c.z * cell[2][0],
         c.x * cell[0][1] + c.y * cell[1][1] + c.z * cell[2][1],
         c.x * cell[0][2] + c.y * cell[1][2] + c.z * cell[2][2])
  }

  /** The positions of all atoms after `set_cell`. */
  function CartesianAll(coords: seq<Vec3>, cell: seq<seq<real>>): (ps: seq<Vec3>)
    requires CellShape(cell)
    ensures |ps| == |coords| && forall i :: 0 <= i < |coords| ==> ps[i] == Cartesian(coords[i], cell)
  {
    seq(|coords|, i requires 0 <= i < |coords| => Cartesian(coords[i], cell))
  }

  /** A force row the XSF line of an atom can print all three components of. */
  predicate Printable(forces: seq<seq<real>>, i: nat) {
    i < |forces| && |forces[i]| >= 3
  }

  /** The first of atoms `k .. n-1` whose XSF line indexes past its forces:
      where the write loop of lines 89-90 raises IndexError. */
  function FirstUnprintable(forces: seq<seq<real>>, k: nat, n: nat): (r: Option<nat>)
    ensures r.None? <==> forall i :: k <= i < n ==> Printable(forces, i)
    ensures r.Some? ==> (k <= r.value < n && !Printable(forces, r.value)
      && forall i :: k <= i < r.value ==> Printable(forces, i))
    decreases n - k
  {
    if k >= n then None
    else if !Printable(forces, k) then Some(k)
    else FirstUnprintable(forces, k + 1, n)
  }

  /** What goes into the XSF file: the count, energy and cell, and per atom
      its label, the crystal coordinates it was read with, its Cartesian
      position (the one printed) and its force row. */
  datatype QeXsf = QeXsf(natoms: int, energy: real, cell: seq<seq<real>>, symbols: seq<string>, coords: seq<Vec3>,
                         positions: seq<Vec3>, forces: seq<seq<real>>)

  /** Lines 57-90 once the input has been read into `st`: `set_cell`, the
      energy and the forces from the rest `output` of the output file, and
      the write loop. */
  function Finish(output: seq<string>, natoms: Option<int>, st: Structure, num: string -> real): (r: Result<QeXsf, QeError>)
    ensures r.Ok? ==> (natoms == Some(r.value.natoms) && CellShape(r.value.cell)
      && r.value.cell == st.cell && r.value.symbols == st.symbols && r.value.coords == st.coords
      && |r.value.forces| == AtomsIn(r.value.natoms) && |r.value.symbols| <= |r.value.forces|
      && (forall i :: 0 <= i < |r.value.symbols| ==> Printable(r.value.forces, i))
      && (forall i :: 0 <= i < |r.value.forces| ==> |r.value.forces[i]| <= 3)
      && r.value.positions == CartesianAll(st.coords, st.cell))
    ensures !CellShape(st.cell) ==> r == Err(BadCell(|st.cell|))
    ensures r.Err? ==> !r.error.NotCrystal?
  {
    if !CellShape(st.cell) then Err(BadCell(|st.cell|))
    else
      match EnergyOf(output, st.symbols, num)
      case Err(e) => Err(e)
      case Ok(es) =>
        match natoms
        case None => Err(NoAtomCount)
        case Some(n) =>
          match ForcesFrom(output, es.1, AtomsIn(n), num)
          case Err(e) => Err(e)
          case Ok(forces) => Written(n, es.0, st, forces)
  }

  /** The write loop (lines 89-90) for `n` counted atoms with energy
      `energy`: the record, or the IndexError of the first atom whose line
      cannot be printed. */
  function Written(n: int, energy: real, st: Structure, forces: seq<seq<real>>): (r: Result<QeXsf, QeError>)
    requires CellShape(st.cell)
    ensures r.Err? <==> exists i :: 0 <= i < |st.symbols| && !Printable(forces, i)
    ensures r.Err? ==> r.error.MissingForce? && r.error.atom < |st.symbols| && !Printable(forces, r.error.atom)
    ensures r.Ok? ==> (r.value == QeXsf(n, energy, st.cell, st.symbols, st.coords, CartesianAll(st.coords, st.cell), forces)
      && |st.symbols| <= |forces| && forall i :: 0 <= i < |st.symbols| ==> Printable(forces, i))
  {
    match FirstUnprintable(forces, 0, |st.symbols|)
    case Some(i) => Err(MissingForce(i))
    case None =>
      assert |st.symbols| > 0 ==> Printable(forces, |st.symbols| - 1);
      Ok(QeXsf(n, energy, st.cell, st.symbols, st.coords, CartesianAll(st.coords, st.cell), forces))
  }

  /** The whole script for arguments `argv`. */
  function Conversion(argv: seq<string>, read: string -> seq<string>, num: string -> real): (r: Result<QeXsf, QeError>)
    ensures !UsageOk(argv) ==> r == Err(Usage)
    ensures r.Ok? ==> (CellShape(r.value.cell) && |r.value.forces| == AtomsIn(r.value.natoms)
      && |r.value.symbols| <= |r.value.forces|)
  {
    if !UsageOk(argv) then Err(Usage)
    else
      var out := read(argv[1]);
      match AtomCount(out)
      case Err(e) => Err(e)
      case Ok(c) =>
        match InputFrom(read(Replace(argv[1], ".out", ".inp")), 0, c.0, num, NoStructure)
        case Err(e) => Err(e)
        case Ok(st) => Finish(out[c.1..], c.0, st, num)
  }

  /** A converted run had valid arguments and a cell of three rows of three;
      it pairs every stripped label with a coordinate triple and the
      Cartesian position scaled from it, has one force row per counted atom
      with all three components for every written atom (so there are no
      more labels than counted atoms), and its count is that of the first
      atom-count line. */
  lemma ConversionFacts(argv: seq<string>, read: string -> seq<string>, num: string -> real)
    requires Conversion(argv, read, num).Ok?
    ensures UsageOk(argv)
    ensures var x := Conversion(argv, read, num).value;
      WellFormed(Structure(x.cell, x.symbols, x.coords)) && |x.forces| == AtomsIn(x.natoms)
      && AtomCount(read(argv[1])).value.0 == Some(x.natoms)
    ensures var x := Conversion(argv, read, num).value;
      CellShape(x.cell) && |x.symbols| <= |x.forces|
      && (forall i :: 0 <= i < |x.symbols| ==> |x.forces[i]| == 3)
      && |x.positions| == |x.coords| && forall i :: 0 <= i < |x.coords| ==> x.positions[i] == Cartesian(x.coords[i], x.cell)
  {
    var c := AtomCount(read(argv[1])).value;
    InputFacts(read(Replace(argv[1], ".out", ".inp")), 0, c.0, num, NoStructure);
    var x := Conversion(argv, read, num).value;
    forall i | 0 <= i < |x.symbols|
      ensures |x.forces[i]| == 3
    {
      assert Printable(x.forces, i);
    }
  }

  /** A run whose input never names a positions block in other than crystal
      units is never stopped with exit(2) by that; an exit(2) names such a
      block. */
  lemma NotCrystalNamesHeader(argv: seq<string>, read: string -> seq<string>, num: string -> real)
    requires Conversion(argv, read, num).Err? && Conversion(argv, read, num).error.NotCrystal?
    ensures var inp := read(Replace(argv[1], ".out", ".inp")); var k := Conversion(argv, read, num).error.line;
      k < |inp| && Contains(inp[k], PositionsMarker) && !Contains(inp[k], CrystalMarker)
  {
    var c := AtomCount(read(argv[1])).value;
    var inp := read(Replace(argv[1], ".out", ".inp"));
    var st := InputFrom(inp, 0, c.0, num, NoStructure);
    assert st.Err? && Conversion(argv, read, num) == Err(st.error);
    InputFacts(inp, 0, c.0, num, NoStructure);
  }

  /** The write loop `for i,a in enumerate(at)` over the `n` atoms: the
      first atom whose line cannot be printed, or `None`. */
  method WriteAtoms(forces: seq<seq<real>>, n: nat) returns (r: Option<nat>)
    ensures r == FirstUnprintable(forces, 0, n)
  {
    for i := 0 to n
      invariant FirstUnprintable(forces, 0, n) == FirstUnprintable(forces, i, n)
    {
      if !Printable(forces, i) {
        return Some(i);
      }
    }
    r := None;
  }

  /** The script, from the argument check to the last XSF line. */
  method CreateXsf(argv: seq<string>, read: string -> seq<string>, num: string -> real) returns (r: Result<QeXsf, QeError>)
    ensures r == Conversion(argv, read, num)
  {
    if !UsageOk(argv) {
      return Err(Usage);
    }
    var out := read(argv[1]);
    var c := FindAtomCount(out);
    if c.Err? {
      return Err(c.error);
    }
    var natoms := c.value.0;
    var st := ReadInput(read(Replace(argv[1], ".out", ".inp")), natoms, num);
    if st.Err? {
      return Err(st.error);
    }
    if !CellShape(st.value.cell) {
      return Err(BadCell(|st.value.cell|));
    }
    var output := out[c.value.1..];
    var es := ReadEnergy(output, st.value.symbols, num);
    if es.Err? {
      return Err(es.error);
    }
    if natoms.None? {
      return Err(NoAtomCount);
    }
    var forces := ReadForces(output, es.value.1, AtomsIn(natoms.value), num);
    if forces.Err? {
      return Err(forces.error);
    }
    var unprintable := WriteAtoms(forces.value, |st.value.symbols|);
    if unprintable.Some? {
      return Err(MissingForce(unprintable.value));
    }
    r := Ok(QeXsf(natoms.value, es.value.0, st.value.cell, st.value.symbols, st.value.coords,
                  CartesianAll(st.value.coords, st.value.cell), forces.value));
  }
}
