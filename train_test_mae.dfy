/** The learning curves of an aenet training run: below every
    `TRAIN`/`TEST` banner line of `train.out`, the iteration rows from offset
    253 on up to the first blank line give the training MAE (token 1), the
    test MAE (token 3) and the offset as the step. */
module TrainTestMae {
  import opened Wrappers
  import opened Text
  import opened PredictOut

  const TrainBanner: string := "|------------TRAIN-----------|"
  const TestBanner: string := "|------------TEST------------|"

  /** The offset of the first row read below a banner (`i = 252` before the
      first `i += 1`). */
  const FirstOffset: nat := 253

  /** The three output arrays `mae_train`, `mae_test` and `step`. */
  datatype Curves = Curves(train: seq<real>, test: seq<real>, step: seq<nat>)

  const NoCurves: Curves := Curves([], [], [])

  predicate Aligned(c: Curves) {
    |c.train| == |c.test| == |c.step|
  }

  /** Appending to all three arrays. */
  function Then(c: Curves, d: Curves): (r: Curves)
    ensures Aligned(c) && Aligned(d) ==> Aligned(r)
  {
    Curves(c.train + d.train, c.test + d.test, c.step + d.step)
  }

  /** Tokens 0 and 1 are the two banners. */
  predicate IsBanner(t: seq<string>) {
    |t| > 1 && t[0] == TrainBanner && t[1] == TestBanner
  }

  /** The rows of the block below the banner at line `a`, from offset `i`
      on; `toks` are the tokens of the lines. A row with fewer than four tokens
      and running off the end are the script's IndexErrors. */
  function Block(toks: seq<seq<string>>, a: nat, i: nat, num: string -> real): (r: Result<Curves, ScanError>)
    ensures r.Ok? ==> (Aligned(r.value) && a + i + |r.value.step| < |toks| && toks[a + i + |r.value.step|] == []
      && forall k :: 0 <= k < |r.value.step| ==> r.value.step[k] == i + k)
    decreases |toks| - (a + i)
  {
    var k := a + i;
    if k >= |toks| then Err(PastEnd(a))
    else if toks[k] == [] then Ok(NoCurves)
    else if |toks[k]| <= 3 then Err(MissingToken(k))
    else
      match Block(toks, a, i + 1, num)
      case Err(e) => Err(e)
      case Ok(rest) => Ok(Then(Curves([num(toks[k][1])], [num(toks[k][3])], [i]), rest))
  }

  /** Line tokens `t` hold a row with training MAE `train` and test MAE
      `test`. */
  predicate RowOf(t: seq<string>, train: real, test: real, num: string -> real) {
    |t| > 3 && train == num(t[1]) && test == num(t[3])
  }

  /** Row `k` of a block is read from line `a + i + k`, which is not blank:
      its token 1 is the training MAE and its token 3 the test MAE. */
  lemma {:induction false} BlockRows(toks: seq<seq<string>>, a: nat, i: nat, num: string -> real)
    requires Block(toks, a, i, num).Ok?
    ensures var c := Block(toks, a, i, num).value;
      forall k :: 0 <= k < |c.step| ==> a + i + k < |toks| && RowOf(toks[a + i + k], c.train[k], c.test[k], num)
    decreases |toks| - (a + i)
  {
    var c := Block(toks, a, i, num).value;
    if toks[a + i] != [] {
      BlockRows(toks, a, i + 1, num);
      var rest := Block(toks, a, i + 1, num).value;
      var t := toks[a + i];
      assert c == Then(Curves([num(t[1])], [num(t[3])], [i]), rest);
      forall k | 0 <= k < |c.step|
        ensures a + i + k < |toks| && RowOf(toks[a + i + k], c.train[k], c.test[k], num)
      {
        if k > 0 {
          var j := k - 1;
          assert a + (i + 1) + j < |toks| && RowOf(toks[a + (i + 1) + j], rest.train[j], rest.test[j], num);
          assert c.train[k] == rest.train[j] && c.test[k] == rest.test[j];
        }
      }
    } else {
      assert c == NoCurves;
    }
  }

  /** The result `c` followed by a block's rows, or the block's error. */
  function Prefixed(c: Curves, r: Result<Curves, ScanError>): Result<Curves, ScanError> {
    match r
    case Err(e) => Err(e)
    case Ok(d) => Ok(Then(c, d))
  }

  lemma PrefixedNothing(r: Result<Curves, ScanError>)
    ensures Prefixed(NoCurves, r) == r
  {
    if r.Ok? {
      assert Then(NoCurves, r.value) == r.value;
    }
  }

  lemma BlockStep(toks: seq<seq<string>>, a: nat, i: nat, num: string -> real, c: Curves)
    requires a + i < |toks| && |toks[a + i]| > 3
    ensures Prefixed(c, Block(toks, a, i, num))
      == Prefixed(Then(c, Curves([num(toks[a + i][1])], [num(toks[a + i][3])], [i])), Block(toks, a, i + 1, num))
  {
    var row := Curves([num(toks[a + i][1])], [num(toks[a + i][3])], [i]);
    match Block(toks, a, i + 1, num)
    case Err(e) =>
    case Ok(d) =>
      assert Then(c, Then(row, d)) == Then(Then(c, row), d);
  }

  /** The `while not stop` loop below the banner at line `a`. */
  method ReadBlock(toks: seq<seq<string>>, a: nat, num: string -> real) returns (r: Result<Curves, ScanError>)
    requires a < |toks|
    ensures r == Block(toks, a, FirstOffset, num)
  {
    var maeTrain: seq<real> := [];
    var maeTest: seq<real> := [];
    var step: seq<nat> := [];
    var i := 252;
    var stop := false;
    PrefixedNothing(Block(toks, a, FirstOffset, num));
    while !stop
      invariant i >= 252 && a + i < |toks| + 252
      invariant !stop ==> Block(toks, a, FirstOffset, num) == Prefixed(Curves(maeTrain, maeTest, step), Block(toks, a, i + 1, num))
      invariant stop ==> Block(toks, a, FirstOffset, num) == Ok(Curves(maeTrain, maeTest, step))
      decreases if stop then 0 else |toks| + 253 - (a + i)
    {
      i := i + 1;
      if a + i >= |toks| {
        return Err(PastEnd(a));
      }
      var t := toks[a + i];
      if |t| == 0 {
        assert Then(Curves(maeTrain, maeTest, step), NoCurves) == Curves(maeTrain, maeTest, step);
        stop := true;
      } else {
        if |t| <= 3 {
          return Err(MissingToken(a + i));
        }
        BlockStep(toks, a, i, num, Curves(maeTrain, maeTest, step));
        maeTrain := maeTrain + [num(t[1])];
        maeTest := maeTest + [num(t[3])];
        step := step + [i];
      }
    }
    r := Ok(Curves(maeTrain, maeTest, step));
  }

  /** The curves of lines `0 .. n-1`: the blocks of their banners in file
      order, or the first error. */
  function Scanned(toks: seq<seq<string>>, n: nat, num: string -> real): (r: Result<Curves, ScanError>)
    requires n <= |toks|
    ensures r.Ok? ==> (Aligned(r.value) && forall k :: 0 <= k < |r.value.step| ==> r.value.step[k] >= FirstOffset)
  {
    if n == 0 then Ok(NoCurves)
    else
      match Scanned(toks, n - 1, num)
      case Err(e) => Err(e)
      case Ok(acc) =>
        if IsBanner(toks[n - 1]) then
          match Block(toks, n - 1, FirstOffset, num)
          case Err(e) => Err(e)
          case Ok(b) => Ok(Then(acc, b))
        else Ok(acc)
  }

  /** `get_train_test_MAE` on a whole file. */
  function TrainTest(lines: seq<string>, num: string -> real): (r: Result<Curves, ScanError>)
    ensures (forall k :: 0 <= k < |lines| ==> !IsBanner(Tokens(lines)[k])) ==> r == Ok(NoCurves)
  {
    if forall k :: 0 <= k < |lines| ==> !IsBanner(Tokens(lines)[k]) then
      NoBannerNoCurves(Tokens(lines), |lines|, num);
      Scanned(Tokens(lines), |lines|, num)
    else Scanned(Tokens(lines), |lines|, num)
  }

  /** A file without banners gives empty curves. */
  lemma {:induction false} NoBannerNoCurves(toks: seq<seq<string>>, n: nat, num: string -> real)
    requires n <= |toks|
    requires forall k :: 0 <= k < n ==> !IsBanner(toks[k])
    ensures Scanned(toks, n, num) == Ok(NoCurves)
  {
    if n > 0 {
      NoBannerNoCurves(toks, n - 1, num);
    }
  }

  /** The curves of one more line: unchanged, or extended by its block. */
  lemma ScannedStep(toks: seq<seq<string>>, a: nat, num: string -> real, acc: Curves)
    requires a < |toks|
    requires Scanned(toks, a, num) == Ok(acc)
    ensures Scanned(toks, a + 1, num) == if IsBanner(toks[a]) then Prefixed(acc, Block(toks, a, FirstOffset, num)) else Ok(acc)
  {
  }

  lemma {:induction false} ScanErrorPersists(toks: seq<seq<string>>, n: nat, m: nat, num: string -> real)
    requires n <= m <= |toks|
    requires Scanned(toks, n, num).Err?
    ensures Scanned(toks, m, num) == Scanned(toks, n, num)
    decreases m - n
  {
    if n < m {
      ScanErrorPersists(toks, n, m - 1, num);
    }
  }

  /** `get_train_test_MAE`. Splitting a line has no effect, so every line is
      split once up front. */
  method GetTrainTestMae(lines: seq<string>, num: string -> real) returns (r: Result<Curves, ScanError>)
    ensures r == TrainTest(lines, num)
  {
    var toks := Tokens(lines);
    r := ScanLines(toks, num);
  }

  /** The `for a, line in enumerate(lines)` loop over lines with tokens `toks`. */
  method ScanLines(toks: seq<seq<string>>, num: string -> real) returns (r: Result<Curves, ScanError>)
    ensures r == Scanned(toks, |toks|, num)
  {
    var acc := NoCurves;
    var a := 0;
    while a < |toks|
      invariant a <= |toks|
      invariant Scanned(toks, a, num) == Ok(acc)
    {
      ScannedStep(toks, a, num, acc);
      if IsBanner(toks[a]) {
        var b := ReadBlock(toks, a, num);
        if b.Err? {
          ScanErrorPersists(toks, a + 1, |toks|, num);
          return Err(b.error);
        }
        acc := Then(acc, b.value);
      }
      a := a + 1;
    }
    r := Ok(acc);
  }
}
