/** Adsorption-energy errors of an aenet potential: structures named in
    `predict.out` are sorted into combined systems and clean slabs, relaxed
    and unrelaxed; each combined system is paired with the clean slab of the
    same two metals and the differences of their energies are compared. */
module EadsErrors {
  import opened Wrappers
  import opened Text
  import opened Stats
  import opened PredictOut

  /** Python's `sub in s`, written `s.find(sub) != -1`. */
  predicate Contains(s: string, sub: string) {
    Find(s, sub) != -1
  }

  datatype Phase = Unrelaxed | Relaxed

  datatype Kind = Combined | Clean | Dropped

  /** The list a reader for `phase` files a structure path under. */
  function Classify(path: string, phase: Phase): (k: Kind)
    ensures k != Dropped <==>
      (if phase == Unrelaxed then Contains(path, "unrelaxed") else !Contains(path, "unrelaxed") && Contains(path, "relaxed"))
      && (Contains(path, "combined") || Contains(path, "clean"))
    ensures k == Combined ==> Contains(path, "combined")
    ensures k == Clean ==> Contains(path, "clean") && !Contains(path, "combined")
  {
    var inPhase :=
      if phase == Unrelaxed then Contains(path, "unrelaxed")
      else !Contains(path, "unrelaxed") && Contains(path, "relaxed");
    if !inPhase then Dropped
    else if Contains(path, "combined") then Combined
    else if Contains(path, "clean") then Clean
    else Dropped
  }

  /** "relaxed" occurs inside every "unrelaxed". */
  lemma UnrelaxedContainsRelaxed(s: string)
    requires Contains(s, "unrelaxed")
    ensures Contains(s, "relaxed")
  {
    var k := Find(s, "unrelaxed");
    assert s[k..k + 9] == "unrelaxed";
    assert s[k + 2..k + 9] == s[k..k + 9][2..];
    assert IsAt(s, "relaxed", k + 2);
  }

  /** A structure is kept by at most one of the two readers, and by one of them
      exactly when its path mentions "relaxed" and one of "combined" or
      "clean"; both readers agree on which of the two lists it belongs to. */
  lemma PhasesPartition(path: string)
    ensures Classify(path, Unrelaxed) == Dropped || Classify(path, Relaxed) == Dropped
    ensures Classify(path, Unrelaxed) != Dropped || Classify(path, Relaxed) != Dropped
      <==> Contains(path, "relaxed") && (Contains(path, "combined") || Contains(path, "clean"))
    ensures Classify(path, Unrelaxed) == Combined || Classify(path, Relaxed) == Combined
      <==> Contains(path, "relaxed") && Contains(path, "combined")
  {
    if Contains(path, "unrelaxed") {
      UnrelaxedContainsRelaxed(path);
    }
  }

  /** A stored structure: the file name (last `/` component of the path) with
      its predicted and reference energies. */
  datatype System = System(name: string, predicted: real, reference: real)

  function SystemOf(e: Entry): System {
    System(LastField(e.path, '/'), e.predicted, e.reference)
  }

  /** The combined systems and the clean slabs of one phase. */
  datatype Sorted = Sorted(combined: seq<System>, clean: seq<System>)

  /** The lists after the reader has filed one more entry. */
  function File(s: Sorted, e: Entry, phase: Phase): (r: Sorted)
    ensures Classify(e.path, phase) == Dropped ==> r == s
    ensures Classify(e.path, phase) == Combined ==> r.combined == s.combined + [SystemOf(e)] && r.clean == s.clean
    ensures Classify(e.path, phase) == Clean ==> r.clean == s.clean + [SystemOf(e)] && r.combined == s.combined
  {
    match Classify(e.path, phase)
    case Combined => Sorted(s.combined + [SystemOf(e)], s.clean)
    case Clean => Sorted(s.combined, s.clean + [SystemOf(e)])
    case Dropped => s
  }

  /** The lists a reader for `phase` fills from the entries, in file order. */
  function Sort(entries: seq<Entry>, phase: Phase): (r: Sorted)
    ensures |r.combined| + |r.clean| <= |entries|
  {
    if entries == [] then Sorted([], [])
    else File(Sort(entries[..|entries| - 1], phase), entries[|entries| - 1], phase)
  }

  lemma SortStep(es: seq<Entry>, x: Entry, phase: Phase)
    ensures Sort(es + [x], phase) == File(Sort(es, phase), x, phase)
  {
    assert (es + [x])[..|es|] == es;
  }

  /** The systems of the entries classified as `kind` for `phase`, in file
      order: the list comprehension the two `append` branches build. */
  function Filed(entries: seq<Entry>, kind: Kind, phase: Phase): (r: seq<System>)
    ensures |r| <= |entries|
  {
    if entries == [] then []
    else
      var head := if Classify(entries[0].path, phase) == kind then [SystemOf(entries[0])] else [];
      head + Filed(entries[1..], kind, phase)
  }

  lemma {:induction false} FiledAppend(es: seq<Entry>, x: Entry, kind: Kind, phase: Phase)
    ensures Filed(es + [x], kind, phase)
      == Filed(es, kind, phase) + if Classify(x.path, phase) == kind then [SystemOf(x)] else []
  {
    if es != [] {
      assert (es + [x])[0] == es[0] && (es + [x])[1..] == es[1..] + [x];
      FiledAppend(es[1..], x, kind, phase);
    } else {
      assert [x][1..] == [];
    }
  }

  /** The combined list is the entries classified as combined and the clean
      list those classified as clean, each in file order and with every such
      entry once: so the "first clean slab" of a pair is the first such header
      in `predict.out`. */
  lemma {:induction false} SortIsFilter(entries: seq<Entry>, phase: Phase)
    ensures Sort(entries, phase).combined == Filed(entries, Combined, phase)
    ensures Sort(entries, phase).clean == Filed(entries, Clean, phase)
  {
    if entries != [] {
      var init := entries[..|entries| - 1];
      var last := entries[|entries| - 1];
      assert entries == init + [last];
      SortIsFilter(init, phase);
      FiledAppend(init, last, Combined, phase);
      FiledAppend(init, last, Clean, phase);
    }
  }

  /** Some entry classified as `kind` for `phase` is stored as `x`. */
  predicate FiledAs(entries: seq<Entry>, kind: Kind, phase: Phase, x: System) {
    exists e :: e in entries && Classify(e.path, phase) == kind && SystemOf(e) == x
  }

  lemma FiledAsStep(init: seq<Entry>, last: Entry, kind: Kind, phase: Phase, x: System)
    ensures FiledAs(init + [last], kind, phase, x)
      <==> FiledAs(init, kind, phase, x) || (Classify(last.path, phase) == kind && SystemOf(last) == x)
  {
    if FiledAs(init + [last], kind, phase, x) {
      var e :| e in init + [last] && Classify(e.path, phase) == kind && SystemOf(e) == x;
      if e != last {
        assert e in init;
      }
    }
    if FiledAs(init, kind, phase, x) {
      var e :| e in init && Classify(e.path, phase) == kind && SystemOf(e) == x;
      assert e in init + [last];
    }
    if Classify(last.path, phase) == kind && SystemOf(last) == x {
      assert last in init + [last];
    }
  }

  /** The combined list holds exactly the systems of the entries classified
      as combined, and the clean list those classified as clean. */
  lemma {:induction false} SortMembership(entries: seq<Entry>, phase: Phase, x: System)
    ensures x in Sort(entries, phase).combined <==> FiledAs(entries, Combined, phase, x)
    ensures x in Sort(entries, phase).clean <==> FiledAs(entries, Clean, phase, x)
  {
    if entries != [] {
      var init := entries[..|entries| - 1];
      var last := entries[|entries| - 1];
      SortMembership(init, phase, x);
      assert entries == init + [last];
      FiledAsStep(init, last, Combined, phase, x);
      FiledAsStep(init, last, Clean, phase, x);
      var prev := Sort(init, phase);
      var next := Sort(entries, phase);
      assert next == File(prev, last, phase);
      match Classify(last.path, phase)
      case Combined =>
        assert next.combined == prev.combined + [SystemOf(last)] && next.clean == prev.clean;
      case Clean =>
        assert next.clean == prev.clean + [SystemOf(last)] && next.combined == prev.combined;
      case Dropped =>
        assert next == prev;
    } else {
      assert !FiledAs(entries, Combined, phase, x);
      assert !FiledAs(entries, Clean, phase, x);
    }
  }

  /** What a reader for `phase` returns for the file `lines`; `num` reads a
      number and `firstLine(path)` is the first line of the structure file. */
  function Values(lines: seq<string>, phase: Phase, num: string -> real, firstLine: string -> string): (r: Result<Sorted, ScanError>)
    ensures r.Ok? <==> Entries(lines, |lines|, num, firstLine).Ok?
    ensures r.Err? ==> r.error == Entries(lines, |lines|, num, firstLine).error
    ensures r.Ok? ==> var es := Entries(lines, |lines|, num, firstLine).value;
      r.value.combined == Filed(es, Combined, phase) && r.value.clean == Filed(es, Clean, phase)
  {
    match Entries(lines, |lines|, num, firstLine)
    case Err(e) => Err(e)
    case Ok(es) => SortIsFilter(es, phase); Ok(Sort(es, phase))
  }

  /** Once the scan fails, longer prefixes fail with the same error. */
  lemma {:induction false} EntriesErrorPersists(lines: seq<string>, n: nat, m: nat, num: string -> real, firstLine: string -> string)
    requires n <= m <= |lines|
    requires Entries(lines, n, num, firstLine).Err?
    ensures Entries(lines, m, num, firstLine) == Entries(lines, n, num, firstLine)
    decreases m - n
  {
    if n < m {
      EntriesErrorPersists(lines, n, m - 1, num, firstLine);
    }
  }

  /** `get_all_unrelaxed_values` / `get_all_relaxed_values`. */
  method ReadValues(lines: seq<string>, phase: Phase, num: string -> real, firstLine: string -> string)
    returns (r: Result<Sorted, ScanError>)
    ensures r == Values(lines, phase, num, firstLine)
  {
    var combined: seq<System> := [];
    var clean: seq<System> := [];
    ghost var es: seq<Entry> := [];
    for a := 0 to |lines|
      invariant Entries(lines, a, num, firstLine) == Ok(es)
      invariant Sorted(combined, clean) == Sort(es, phase)
    {
      var entry := ReadEntry(lines, a, num, firstLine);
      if entry.Err? {
        EntriesErrorPersists(lines, a + 1, |lines|, num, firstLine);
        return Err(entry.error);
      }
      if entry.value.Some? {
        var x := entry.value.value;
        SortStep(es, x, phase);
        combined, clean := FileEntry(combined, clean, x, phase);
        es := es + [x];
      }
    }
    r := Ok(Sorted(combined, clean));
  }

  /** The `if ... elif ...` that appends a header's system to the combined
      or the clean list, or to neither. */
  method FileEntry(combined0: seq<System>, clean0: seq<System>, x: Entry, phase: Phase)
    returns (combined: seq<System>, clean: seq<System>)
    ensures Sorted(combined, clean) == File(Sorted(combined0, clean0), x, phase)
  {
    combined, clean := combined0, clean0;
    var kind := Classify(x.path, phase);
    var sys := SystemOf(x);
    if kind == Combined {
      combined := combined + [sys];
    } else if kind == Clean {
      clean := clean + [sys];
    }
  }

  /** The errors of the adsorption step. */
  datatype AdsError =
    | ShortName(name: string)   // `name.split('_')[1]` raises IndexError
    | NoSlab(name: string)      // no clean slab has the combined system's metals

  /** The first two `_`-separated fields of a name (the two metals). */
  function Key(name: string): (r: Option<(string, string)>)
    ensures r.Some? <==> |Split(name, '_')| >= 2
  {
    var f := Split(name, '_');
    if |f| >= 2 then Some((f[0], f[1])) else None
  }

  /** A name built as `m1_m2_...` has key `(m1, m2)`. */
  lemma KeyOfName(m1: string, m2: string, rest: seq<string>)
    requires '_' !in m1 && '_' !in m2
    requires forall k :: 0 <= k < |rest| ==> '_' !in rest[k]
    ensures Key(Join([m1, m2] + rest, '_')) == Some((m1, m2))
  {
    var fields := [m1, m2] + rest;
    forall k | 0 <= k < |fields|
      ensures '_' !in fields[k]
    {
      if k >= 2 {
        assert fields[k] == rest[k - 2];
      }
    }
    SplitJoin(fields, '_');
    var f := Split(Join(fields, '_'), '_');
    assert f[0] == m1 && f[1] == m2;
  }

  /** The inner loop: scanning the slabs from index `j` for one whose key is
      `key`, failing on a slab name without two fields. */
  function SearchSlab(key: (string, string), slabs: seq<System>, j: nat): (r: Result<Option<nat>, AdsError>)
    ensures r.Ok? && r.value.Some? ==> (j <= r.value.value < |slabs| && Key(slabs[r.value.value].name) == Some(key)
      && forall i :: j <= i < r.value.value ==> Key(slabs[i].name).Some? && Key(slabs[i].name) != Some(key))
    ensures r == Ok(None) ==> forall i :: j <= i < |slabs| ==> Key(slabs[i].name).Some? && Key(slabs[i].name) != Some(key)
    ensures r.Err? ==> exists i :: j <= i < |slabs| && Key(slabs[i].name).None? && r.error == ShortName(slabs[i].name)
    decreases |slabs| - j
  {
    if j >= |slabs| then Ok(None)
    else
      match Key(slabs[j].name)
      case None => Err(ShortName(slabs[j].name))
      case Some(k) => if k == key then Ok(Some(j)) else SearchSlab(key, slabs, j + 1)
  }

  /** The slab search for one combined system, from the first slab. */
  function Match(c: System, slabs: seq<System>): Result<Option<nat>, AdsError> {
    match Key(c.name)
    case None => Err(ShortName(c.name))
    case Some(k) => SearchSlab(k, slabs, 0)
  }

  /** The adsorption energy pair (predicted, reference) of `c` over slab `j`. */
  function Difference(c: System, slab: System): (real, real) {
    (c.predicted - slab.predicted, c.reference - slab.reference)
  }

  /** `get_adsorption_energies` as intended: each combined system is paired
      with the first slab of the same metals, and a combined system with no
      such slab is an error. */
  function Adsorption(comb: seq<System>, slabs: seq<System>): (r: Result<(seq<real>, seq<real>), AdsError>)
    ensures r.Ok? ==> |r.value.0| == |comb| && |r.value.1| == |comb|
  {
    if comb == [] then Ok(([], []))
    else
      var c := comb[|comb| - 1];
      match Adsorption(comb[..|comb| - 1], slabs)
      case Err(e) => Err(e)
      case Ok(acc) =>
        match Match(c, slabs)
        case Err(e) => Err(e)
        case Ok(None) => Err(NoSlab(c.name))
        case Ok(Some(j)) =>
          var d := Difference(c, slabs[j]);
          Ok((acc.0 + [d.0], acc.1 + [d.1]))
  }

  /** One value per combined system, in order, each the difference from the
      first slab of the same two metals, with the same slab for the predicted
      and the reference value. */
  lemma {:induction false} AdsorptionPairsWithOwnSlab(comb: seq<System>, slabs: seq<System>)
    requires Adsorption(comb, slabs).Ok?
    ensures var r := Adsorption(comb, slabs).value;
      forall i :: 0 <= i < |comb| ==> exists j :: (0 <= j < |slabs| && Key(comb[i].name).Some?
        && Match(comb[i], slabs) == Ok(Some(j)) && Key(slabs[j].name) == Key(comb[i].name)
        && r.0[i] == comb[i].predicted - slabs[j].predicted && r.1[i] == comb[i].reference - slabs[j].reference)
  {
    if comb != [] {
      var init := comb[..|comb| - 1];
      AdsorptionPairsWithOwnSlab(init, slabs);
    }
  }

  /** A missing slab is reported for a combined system none of whose slabs
      share its metals. */
  lemma {:induction false} NoSlabMeansNoMatch(comb: seq<System>, slabs: seq<System>)
    requires Adsorption(comb, slabs).Err? && Adsorption(comb, slabs).error.NoSlab?
    ensures exists i :: (0 <= i < |comb| && comb[i].name == Adsorption(comb, slabs).error.name
      && Key(comb[i].name).Some?
      && forall j :: 0 <= j < |slabs| ==> Key(slabs[j].name).Some? && Key(slabs[j].name) != Key(comb[i].name))
  {
    var init := comb[..|comb| - 1];
    if Adsorption(init, slabs).Err? {
      NoSlabMeansNoMatch(init, slabs);
      var i :| 0 <= i < |init| && init[i].name == Adsorption(init, slabs).error.name
        && Key(init[i].name).Some?
        && forall j :: 0 <= j < |slabs| ==> Key(slabs[j].name).Some? && Key(slabs[j].name) != Key(init[i].name);
      assert comb[i] == init[i];
    } else {
      assert comb[|comb| - 1].name == Adsorption(comb, slabs).error.name;
    }
  }

  /** The index of the slab matched by the latest combined system that found
      one: the value the script's `idx_slab` still holds. */
  function LastMatch(comb: seq<System>, slabs: seq<System>): (r: Option<nat>)
    ensures r.Some? ==> r.value < |slabs|
  {
    if comb == [] then None
    else
      match Match(comb[|comb| - 1], slabs)
      case Ok(Some(j)) => Some(j)
      case _ => LastMatch(comb[..|comb| - 1], slabs)
  }

  /** `get_adsorption_energies` as written: `idx_slab` is not reset between
      combined systems, so one without a slab of its own reuses the slab of
      the previous match, and only the very first miss before any match fails
      (an UnboundLocalError). */
  function AdsorptionAsWritten(comb: seq<System>, slabs: seq<System>): (r: Result<(seq<real>, seq<real>), AdsError>)
    ensures r.Ok? ==> |r.value.0| == |comb| && |r.value.1| == |comb|
  {
    if comb == [] then Ok(([], []))
    else
      var c := comb[|comb| - 1];
      var init := comb[..|comb| - 1];
      match AdsorptionAsWritten(init, slabs)
      case Err(e) => Err(e)
      case Ok(acc) =>
        match Match(c, slabs)
        case Err(e) => Err(e)
        case Ok(found) =>
          var idx := if found.Some? then found else LastMatch(init, slabs);
          if idx.None? then Err(NoSlab(c.name))
          else
            var d := Difference(c, slabs[idx.value]);
            Ok((acc.0 + [d.0], acc.1 + [d.1]))
  }

  /** When every combined system has a slab of its own, the script computes
      the intended values. */
  lemma {:induction false} AsWrittenAgreesWhenSlabsComplete(comb: seq<System>, slabs: seq<System>)
    requires forall i :: 0 <= i < |comb| ==> Match(comb[i], slabs).Ok? && Match(comb[i], slabs).value.Some?
    ensures AdsorptionAsWritten(comb, slabs) == Adsorption(comb, slabs)
  {
    if comb != [] {
      var init := comb[..|comb| - 1];
      assert forall i :: 0 <= i < |init| ==> init[i] == comb[i];
      AsWrittenAgreesWhenSlabsComplete(init, slabs);
    }
  }

  /** Two combined systems, `a_x` and `b_x`, and one clean slab `a_x`: the
      script pairs `b_x` with the `a_x` slab, where no value is intended. */
  lemma StaleSlabIndex()
    ensures var comb := [System("a_x", 1.0, 1.5), System("b_x", 2.0, 3.0)];
      var slabs := [System("a_x", 0.5, 0.5)];
      AdsorptionAsWritten(comb, slabs) == Ok(([0.5, 1.5], [1.0, 2.5]))
      && Adsorption(comb, slabs) == Err(NoSlab("b_x"))
  {
    var comb := [System("a_x", 1.0, 1.5), System("b_x", 2.0, 3.0)];
    var slabs := [System("a_x", 0.5, 0.5)];
    assert Join(["a", "x"], '_') == "a_x";
    KeyOfName("a", "x", []);
    assert ["a", "x"] + [] == ["a", "x"];
    assert Key("a_x") == Some(("a", "x"));
    assert Join(["b", "x"], '_') == "b_x";
    KeyOfName("b", "x", []);
    assert ["b", "x"] + [] == ["b", "x"];
    assert Key("b_x") == Some(("b", "x"));
    assert Match(comb[0], slabs) == Ok(Some(0));
    assert SearchSlab(("b", "x"), slabs, 1) == Ok(None);
    assert Match(comb[1], slabs) == Ok(None);
    assert comb[..1] == [comb[0]];
    assert [comb[0]][..0] == [];
    assert Adsorption([], slabs) == Ok(([], []));
    assert AdsorptionAsWritten([], slabs) == Ok(([], []));
    assert Difference(comb[0], slabs[0]) == (0.5, 1.0);
    var first := [comb[0]];
    assert first[..|first| - 1] == [] && first[|first| - 1] == comb[0];
    assert Match(first[0], slabs) == Ok(Some(0));
    assert Adsorption(first, slabs).Ok?;
    assert Adsorption(first, slabs).value.0 == [0.5];
    assert Adsorption(first, slabs).value.1 == [1.0];
    assert Adsorption(first, slabs) == Ok(([0.5], [1.0]));
    assert LastMatch([], slabs) == None;
    assert LastMatch([comb[0]], slabs) == Some(0);
    assert AdsorptionAsWritten([comb[0]], slabs) == Ok(([0.5], [1.0]));
    assert Difference(comb[1], slabs[0]) == (1.5, 2.5);
    assert comb[..|comb| - 1] == first && comb[|comb| - 1] == comb[1];
    assert LastMatch(first, slabs) == Some(0);
    assert AdsorptionAsWritten(comb, slabs).value.0 == [0.5, 1.5];
    assert AdsorptionAsWritten(comb, slabs).value.1 == [1.0, 2.5];
  }

  /** The corrected nested loop of `get_adsorption_energies`, with the inner
      `for ... break` over the slabs. */
  method AdsorptionEnergies(comb: seq<System>, slabs: seq<System>) returns (r: Result<(seq<real>, seq<real>), AdsError>)
    ensures r == Adsorption(comb, slabs)
  {
    var pred: seq<real> := [];
    var ref: seq<real> := [];
    var s := 0;
    while s < |comb|
      invariant s <= |comb|
      invariant Adsorption(comb[..s], slabs) == Ok((pred, ref))
    {
      var c := comb[s];
      assert comb[..s + 1][..s] == comb[..s];
      assert comb[..s + 1][s] == c;
      var key := Key(c.name);
      if key.None? {
        AdsorptionErrorPersists(comb, slabs, s + 1);
        return Err(ShortName(c.name));
      }
      var idx: Option<nat> := None;
      var j := 0;
      while j < |slabs|
        invariant j <= |slabs|
        invariant SearchSlab(key.value, slabs, 0) == SearchSlab(key.value, slabs, j)
      {
        var k := Key(slabs[j].name);
        if k.None? {
          AdsorptionErrorPersists(comb, slabs, s + 1);
          return Err(ShortName(slabs[j].name));
        }
        if k.value == key.value {
          idx := Some(j);
          break;
        }
        j := j + 1;
      }
      if idx.None? {
        AdsorptionErrorPersists(comb, slabs, s + 1);
        return Err(NoSlab(c.name));
      }
      var d := Difference(c, slabs[idx.value]);
      pred := pred + [d.0];
      ref := ref + [d.1];
      s := s + 1;
    }
    assert comb[..s] == comb;
    r := Ok((pred, ref));
  }

  /** An error on a prefix of the combined systems is the error of the whole. */
  lemma {:induction false} AdsorptionErrorPersists(comb: seq<System>, slabs: seq<System>, n: nat)
    requires n <= |comb|
    requires Adsorption(comb[..n], slabs).Err?
    ensures Adsorption(comb, slabs) == Adsorption(comb[..n], slabs)
    decreases |comb| - n
  {
    if n < |comb| {
      assert comb[..n + 1][..n] == comb[..n];
      AdsorptionErrorPersists(comb, slabs, n + 1);
    } else {
      assert comb[..n] == comb;
    }
  }

  /** Every failure of the whole script. */
  datatype EadsError = Scan(scan: ScanError) | Pairing(ads: AdsError)

  /** The adsorption energies of one phase. */
  function PhaseAdsorption(lines: seq<string>, phase: Phase, num: string -> real, firstLine: string -> string): (r: Result<(seq<real>, seq<real>), EadsError>)
    ensures r.Ok? ==> |r.value.0| == |r.value.1|
  {
    match Values(lines, phase, num, firstLine)
    case Err(e) => Err(Scan(e))
    case Ok(s) =>
      match Adsorption(s.combined, s.clean)
      case Err(e) => Err(Pairing(e))
      case Ok(v) => Ok(v)
  }

  /** `main`: the unrelaxed adsorption energies followed by the relaxed ones,
      and their ME / MAE / MSE (`None` when there are none, NumPy's NaN). */
  function EadsErrors(lines: seq<string>, num: string -> real, firstLine: string -> string): (r: Result<(seq<real>, seq<real>, Option<ErrorMetrics>), EadsError>)
    ensures r.Ok? ==> |r.value.0| == |r.value.1|
  {
    match PhaseAdsorption(lines, Unrelaxed, num, firstLine)
    case Err(e) => Err(e)
    case Ok(u) =>
      match PhaseAdsorption(lines, Relaxed, num, firstLine)
      case Err(e) => Err(e)
      case Ok(v) =>
        var p := u.0 + v.0;
        var q := u.1 + v.1;
        Ok((p, q, CalcErrors(p, q)))
  }

  /** An exact potential: when every scanned structure has equal predicted
      and reference energies, every adsorption energy is exact and ME, MAE
      and MSE are zero. */
  lemma ExactPotentialHasZeroErrors(lines: seq<string>, num: string -> real, firstLine: string -> string)
    requires Entries(lines, |lines|, num, firstLine).Ok?
    requires forall e :: e in Entries(lines, |lines|, num, firstLine).value ==> e.predicted == e.reference
    requires EadsErrors(lines, num, firstLine).Ok?
    ensures var r := EadsErrors(lines, num, firstLine).value;
      r.0 == r.1 && (r.0 != [] ==> r.2 == Some(ErrorMetrics(0.0, 0.0, 0.0)))
  {
    var es := Entries(lines, |lines|, num, firstLine).value;
    var u := PhaseExact(lines, Unrelaxed, num, firstLine);
    var v := PhaseExact(lines, Relaxed, num, firstLine);
    var r := EadsErrors(lines, num, firstLine).value;
    if r.0 != [] {
      ErrorMetricsOfExactPrediction(r.0);
    }
  }

  /** For an exact scan, each phase's predicted and reference adsorption
      energies coincide. */
  lemma PhaseExact(lines: seq<string>, phase: Phase, num: string -> real, firstLine: string -> string) returns (u: (seq<real>, seq<real>))
    requires Entries(lines, |lines|, num, firstLine).Ok?
    requires forall e :: e in Entries(lines, |lines|, num, firstLine).value ==> e.predicted == e.reference
    requires PhaseAdsorption(lines, phase, num, firstLine).Ok?
    ensures u == PhaseAdsorption(lines, phase, num, firstLine).value && u.0 == u.1
  {
    var es := Entries(lines, |lines|, num, firstLine).value;
    var s := Sort(es, phase);
    SortKeepsExact(es, phase);
    u := PhaseAdsorption(lines, phase, num, firstLine).value;
    AdsorptionOfExact(s.combined, s.clean);
  }

  predicate Exact(xs: seq<System>) {
    forall i :: 0 <= i < |xs| ==> xs[i].predicted == xs[i].reference
  }

  lemma {:induction false} SortKeepsExact(es: seq<Entry>, phase: Phase)
    requires forall e :: e in es ==> e.predicted == e.reference
    ensures Exact(Sort(es, phase).combined) && Exact(Sort(es, phase).clean)
  {
    if es != [] {
      var init := es[..|es| - 1];
      assert forall e :: e in init ==> e in es;
      SortKeepsExact(init, phase);
    }
  }

  lemma {:induction false} AdsorptionOfExact(comb: seq<System>, slabs: seq<System>)
    requires Exact(comb) && Exact(slabs)
    requires Adsorption(comb, slabs).Ok?
    ensures Adsorption(comb, slabs).value.0 == Adsorption(comb, slabs).value.1
  {
    if comb != [] {
      var init := comb[..|comb| - 1];
      AdsorptionOfExact(init, slabs);
    }
  }
}
