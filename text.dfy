/** The handful of Python string operations the scripts rely on, over
    `string` (= seq<char>): `str.split()` on whitespace, `str.split(sep)`,
    `str.find`, `str.replace`, `'%d' % n` and `int(...)`. */
module Text {
  import opened Wrappers

  /** The characters Python's `str.isspace` accepts, i.e. what `str.split()`
      with no argument treats as separators. */
  predicate IsSpace(c: char) {
    c == ' ' || c == '\t' || c == '\n' || c == '\r' || c == '\U{000B}' || c == '\U{000C}'
    || ('\U{001C}' <= c <= '\U{001F}') || c == '\U{0085}' || c == '\U{00A0}' || c == '\U{1680}'
    || ('\U{2000}' <= c <= '\U{200A}') || c == '\U{2028}' || c == '\U{2029}' || c == '\U{202F}'
    || c == '\U{205F}' || c == '\U{3000}'
  }

  /** A token of `str.split()`: non-empty and free of whitespace. */
  predicate IsWord(w: string) {
    w != [] && forall i :: 0 <= i < |w| ==> !IsSpace(w[i])
  }

  /** Length of the leading run of non-space characters. */
  function TokenLength(s: string): (n: nat)
    requires s != [] && !IsSpace(s[0])
    ensures 1 <= n <= |s|
    ensures forall i :: 0 <= i < n ==> !IsSpace(s[i])
    ensures n < |s| ==> IsSpace(s[n])
    decreases |s|
  {
    if |s| == 1 || IsSpace(s[1]) then 1 else 1 + TokenLength(s[1..])
  }

  /** Python's `line.split()`: the maximal runs of non-space characters, in order. */
  function Words(s: string): (r: seq<string>)
    ensures |r| <= |s|
    decreases |s|
  {
    if s == [] then []
    else if IsSpace(s[0]) then Words(s[1..])
    else
      var n := TokenLength(s);
      [s[..n]] + Words(s[n..])
  }

  /** Every token of `line.split()` is a word. */
  lemma {:induction false} WordsAreWords(s: string)
    ensures forall k :: 0 <= k < |Words(s)| ==> IsWord(Words(s)[k])
    decreases |s|
  {
    if s != [] {
      if IsSpace(s[0]) {
        WordsAreWords(s[1..]);
      } else {
        var n := TokenLength(s);
        WordsAreWords(s[n..]);
        assert Words(s) == [s[..n]] + Words(s[n..]);
      }
    }
  }

  /** The tokens (`line.split()`) of every line. */
  function Tokens(lines: seq<string>): (r: seq<seq<string>>)
    ensures |r| == |lines| && forall k :: 0 <= k < |lines| ==> r[k] == Words(lines[k])
  {
    seq(|lines|, k requires 0 <= k < |lines| => Words(lines[k]))
  }

  /** `' '.join(ws)`. */
  function Unwords(ws: seq<string>): string {
    if ws == [] then "" else if |ws| == 1 then ws[0] else ws[0] + " " + Unwords(ws[1..])
  }

  lemma WordsAfterWord(w: string, t: string)
    requires IsWord(w)
    requires t == [] || IsSpace(t[0])
    ensures Words(w + t) == [w] + Words(t)
  {
    var s := w + t;
    var n := TokenLength(s);
    assert n == |w| by {
      assert forall i :: 0 <= i < |w| ==> s[i] == w[i];
      assert |w| < |s| ==> s[|w|] == t[0];
    }
    assert s[..n] == w;
    assert s[n..] == t;
  }

  /** Splitting a space-joined list of words gives the words back. */
  lemma {:induction false} WordsUnwords(ws: seq<string>)
    requires forall k :: 0 <= k < |ws| ==> IsWord(ws[k])
    ensures Words(Unwords(ws)) == ws
  {
    if |ws| == 1 {
      WordsAfterWord(ws[0], "");
      assert ws[0] + "" == ws[0];
    } else if |ws| > 1 {
      var rest := " " + Unwords(ws[1..]);
      assert ws[0] + " " + Unwords(ws[1..]) == ws[0] + rest;
      WordsAfterWord(ws[0], rest);
      assert rest[1..] == Unwords(ws[1..]);
      WordsUnwords(ws[1..]);
    }
  }

  /** `sub` occurs in `s` at index `i`. */
  predicate IsAt(s: string, sub: string, i: nat) {
    i + |sub| <= |s| && s[i..i + |sub|] == sub
  }

  function FindFrom(s: string, sub: string, i: nat): (r: int)
    requires i <= |s|
    ensures r == -1 || (i <= r <= |s| && IsAt(s, sub, r))
    ensures r == -1 ==> forall k :: i <= k ==> !IsAt(s, sub, k)
    ensures r != -1 ==> forall k :: i <= k < r ==> !IsAt(s, sub, k)
    decreases |s| - i
  {
    if IsAt(s, sub, i) then i else if i == |s| then -1 else FindFrom(s, sub, i + 1)
  }

  /** Python's `s.find(sub)`: the first index where `sub` occurs, or -1. */
  function Find(s: string, sub: string): (r: int)
    ensures r == -1 <==> forall k: nat :: !IsAt(s, sub, k)
    ensures r != -1 ==> 0 <= r && IsAt(s, sub, r) && forall k: nat :: k < r ==> !IsAt(s, sub, k)
  {
    FindFrom(s, sub, 0)
  }

  /** Python's `sep.join(fields)` for a one-character separator. */
  function Join(fields: seq<string>, sep: char): string
    requires |fields| >= 1
  {
    if |fields| == 1 then fields[0] else fields[0] + [sep] + Join(fields[1..], sep)
  }

  function IndexOf(s: string, c: char): (i: nat)
    requires c in s
    ensures i < |s| && s[i] == c && c !in s[..i]
  {
    if s[0] == c then 0 else 1 + IndexOf(s[1..], c)
  }

  /** Python's `s.split(sep)`: never empty, and no field holds `sep`. */
  function Split(s: string, sep: char): (fields: seq<string>)
    ensures |fields| >= 1
    ensures forall k :: 0 <= k < |fields| ==> sep !in fields[k]
    decreases |s|
  {
    if sep !in s then [s]
    else
      var i := IndexOf(s, sep);
      [s[..i]] + Split(s[i + 1..], sep)
  }

  /** Joining the fields of a split with the separator gives the string back. */
  lemma {:induction false} JoinSplit(s: string, sep: char)
    ensures Join(Split(s, sep), sep) == s
    decreases |s|
  {
    if sep in s {
      var i := IndexOf(s, sep);
      var rest := Split(s[i + 1..], sep);
      JoinSplit(s[i + 1..], sep);
      assert Split(s, sep) == [s[..i]] + rest;
      assert ([s[..i]] + rest)[1..] == rest;
      assert s == s[..i] + [sep] + s[i + 1..];
    }
  }

  /** Splitting a join gives the fields back when no field holds the separator. */
  lemma {:induction false} SplitJoin(fields: seq<string>, sep: char)
    requires |fields| >= 1
    requires forall k :: 0 <= k < |fields| ==> sep !in fields[k]
    ensures Split(Join(fields, sep), sep) == fields
  {
    if |fields| > 1 {
      var s := Join(fields, sep);
      var tail := Join(fields[1..], sep);
      assert s == fields[0] + [sep] + tail;
      assert s[|fields[0]|] == sep;
      var i := IndexOf(s, sep);
      assert s[..i] == fields[0];
      assert s[i + 1..] == tail;
      SplitJoin(fields[1..], sep);
    }
  }

  /** Python's `s.split(sep)[-1]`. */
  function LastField(s: string, sep: char): string {
    Last(Split(s, sep))
  }

  function Last<T>(xs: seq<T>): T
    requires |xs| >= 1
  {
    xs[|xs| - 1]
  }

  /** The last field is the part of `s` after its last `sep` (all of `s` when
      there is none). */
  lemma LastFieldIsSuffix(s: string, sep: char)
    ensures var r := LastField(s, sep);
      |r| <= |s| && s[|s| - |r|..] == r && sep !in r
      && (|r| < |s| ==> s[|s| - |r| - 1] == sep)
  {
    LastFieldSuffix(s, sep);
    LastFieldAfterSep(s, sep);
  }

  lemma {:induction false} LastFieldSuffix(s: string, sep: char)
    ensures var r := LastField(s, sep); |r| <= |s| && s[|s| - |r|..] == r
    decreases |s|
  {
    if sep in s {
      var i := IndexOf(s, sep);
      var rest := s[i + 1..];
      var r := LastField(rest, sep);
      LastFieldSuffix(rest, sep);
      LastFieldStep(s, sep);
      SuffixOfSuffix(s, i + 1, |r|);
      assert rest[|rest| - |r|..] == r;
      assert LastField(s, sep) == r;
    } else {
      assert Split(s, sep) == [s];
    }
  }

  lemma {:induction false} LastFieldAfterSep(s: string, sep: char)
    ensures var r := LastField(s, sep); |r| < |s| ==> s[|s| - |r| - 1] == sep
    decreases |s|
  {
    if sep in s {
      var i := IndexOf(s, sep);
      var rest := s[i + 1..];
      var r := LastField(rest, sep);
      LastFieldAfterSep(rest, sep);
      LastFieldSuffix(rest, sep);
      LastFieldStep(s, sep);
      SuffixOfSuffix(s, i + 1, |r|);
    } else {
      assert Split(s, sep) == [s];
    }
  }

  lemma LastFieldStep(s: string, sep: char)
    requires sep in s
    ensures LastField(s, sep) == LastField(s[IndexOf(s, sep) + 1..], sep)
  {
    var i := IndexOf(s, sep);
    var rest := Split(s[i + 1..], sep);
    var fields := Split(s, sep);
    assert fields == if sep !in s then [s] else [s[..i]] + rest;
    LastOfPrepend(s[..i], rest);
  }

  lemma LastOfPrepend<T>(x: T, r: seq<T>)
    requires |r| >= 1
    ensures Last([x] + r) == Last(r)
  {
  }

  lemma SuffixOfSuffix(s: string, j: nat, m: nat)
    requires j <= |s| && m <= |s| - j
    ensures s[|s| - m..] == s[j..][|s| - j - m..]
    ensures m < |s| - j ==> s[|s| - m - 1] == s[j..][|s| - j - m - 1]
    ensures m == |s| - j && j > 0 ==> s[|s| - m - 1] == s[j - 1]
  {
  }

  /** Python's `s.replace(pat, rep)`: every non-overlapping occurrence of `pat`,
      scanning from the left, is replaced by `rep`. */
  function Replace(s: string, pat: string, rep: string): (r: string)
    requires pat != []
    ensures |pat| == |rep| ==> |r| == |s|
    ensures |pat| <= |rep| ==> |s| <= |r|
    decreases |s|
  {
    if |s| < |pat| then s
    else if s[..|pat|] == pat then rep + Replace(s[|pat|..], pat, rep)
    else [s[0]] + Replace(s[1..], pat, rep)
  }

  /** Replacing one character by another works character by character. */
  lemma {:induction false} ReplaceChar(s: string, a: char, b: char)
    ensures |Replace(s, [a], [b])| == |s|
    ensures forall i :: 0 <= i < |s| ==> Replace(s, [a], [b])[i] == if s[i] == a then b else s[i]
    decreases |s|
  {
    if |s| >= 1 {
      ReplaceChar(s[1..], a, b);
      var r := Replace(s, [a], [b]);
      var t := Replace(s[1..], [a], [b]);
      if s[..1] == [a] {
        assert r == [b] + t;
      } else {
        assert r == [s[0]] + t;
      }
      assert forall i :: 1 <= i < |s| ==> r[i] == t[i - 1] && s[i] == s[1..][i - 1];
    }
  }

  /** When the first character of `pat` occurs nowhere else in it, and `stem`
      holds no `pat`, replacing in `stem + pat` touches only the final `pat`. */
  lemma {:induction false} ReplaceSuffix(stem: string, pat: string, rep: string)
    requires pat != []
    requires forall i :: 0 < i < |pat| ==> pat[i] != pat[0]
    requires forall k: nat :: !IsAt(stem, pat, k)
    ensures Replace(stem + pat, pat, rep) == stem + rep
    decreases |stem|
  {
    var s := stem + pat;
    if stem == [] {
      assert s == pat;
      assert s[|pat|..] == [];
    } else {
      NoMatchAtStart(stem, pat);
      NoMatchInTail(stem, pat);
      assert Replace(s, pat, rep) == [s[0]] + Replace(s[1..], pat, rep);
      assert s[1..] == stem[1..] + pat;
      ReplaceSuffix(stem[1..], pat, rep);
      assert stem + rep == [stem[0]] + (stem[1..] + rep);
    }
  }

  lemma NoMatchAtStart(stem: string, pat: string)
    requires pat != [] && stem != []
    requires forall i :: 0 < i < |pat| ==> pat[i] != pat[0]
    requires !IsAt(stem, pat, 0)
    ensures (stem + pat)[..|pat|] != pat
  {
    var s := stem + pat;
    assert |stem| >= |pat| ==> stem[0..|pat|] == s[..|pat|];
    assert |stem| < |pat| ==> s[|stem|] == pat[0] && s[..|pat|][|stem|] == s[|stem|];
  }

  lemma NoMatchInTail(stem: string, pat: string)
    requires stem != []
    requires forall k: nat :: !IsAt(stem, pat, k)
    ensures forall k: nat :: !IsAt(stem[1..], pat, k)
  {
    forall k: nat ensures !IsAt(stem[1..], pat, k) {
      if IsAt(stem[1..], pat, k) {
        assert stem[k + 1..k + 1 + |pat|] == stem[1..][k..k + |pat|];
        assert IsAt(stem, pat, k + 1);
      }
    }
  }

  predicate IsDigit(c: char) {
    '0' <= c <= '9'
  }

  function DigitChar(d: nat): (c: char)
    requires d < 10
    ensures IsDigit(c)
  {
    "0123456789"[d]
  }

  function DigitValue(c: char): nat
    requires IsDigit(c)
  {
    (c as int - '0' as int) as nat
  }

  /** The decimal digits of `n`, without leading zeros (`'%d' % n` for n >= 0). */
  function NatToString(n: nat): (s: string)
    ensures |s| >= 1 && forall i :: 0 <= i < |s| ==> IsDigit(s[i])
    decreases n
  {
    if n < 10 then [DigitChar(n)] else NatToString(n / 10) + [DigitChar(n % 10)]
  }

  /** `'%d' % i`. */
  function IntToString(i: int): (r: string)
    ensures |r| >= 1 && (r[0] == '-' <==> i < 0)
  {
    if i < 0 then "-" + NatToString(-i) else NatToString(i)
  }

  /** The value of a string of decimal digits. */
  function DigitsValue(s: string): nat
    requires forall i :: 0 <= i < |s| ==> IsDigit(s[i])
  {
    if s == [] then 0 else 10 * DigitsValue(s[..|s| - 1]) + DigitValue(s[|s| - 1])
  }

  /** Printing a number and reading the digits back gives the number. */
  lemma {:induction false} DigitsOfNat(n: nat)
    ensures DigitsValue(NatToString(n)) == n
    decreases n
  {
    var s := NatToString(n);
    if n >= 10 {
      DigitsOfNat(n / 10);
      assert s[..|s| - 1] == NatToString(n / 10);
    }
  }

  /** Python's `int(tok)` for a token of an optional sign and ASCII digits;
      `None` where Python raises ValueError. */
  function ParseInt(tok: string): (r: Option<int>)
    ensures r.Some? ==> tok != []
  {
    if tok != [] && (tok[0] == '-' || tok[0] == '+') then
      var d := tok[1..];
      if d != [] && forall i :: 0 <= i < |d| ==> IsDigit(d[i]) then
        var v: int := DigitsValue(d);
        Some(if tok[0] == '-' then -v else v)
      else None
    else if tok != [] && forall i :: 0 <= i < |tok| ==> IsDigit(tok[i]) then Some(DigitsValue(tok))
    else None
  }

  /** `int('%d' % i) == i`. */
  lemma ParseIntOfString(i: int)
    ensures ParseInt(IntToString(i)) == Some(i)
  {
    if i < 0 {
      ParseIntOfNegative(-i);
      assert IntToString(i) == "-" + NatToString(-i);
    } else {
      ParseIntOfNat(i);
    }
  }

  lemma ParseIntOfNat(n: nat)
    ensures ParseInt(NatToString(n)) == Some(n)
  {
    var s := NatToString(n);
    assert IsDigit(s[0]);
    DigitsOfNat(n);
  }

  lemma ParseIntOfNegative(n: nat)
    ensures ParseInt("-" + NatToString(n)) == Some(-(n as int))
  {
    var d := NatToString(n);
    var s := "-" + d;
    assert s[0] == '-' && s[1..] == d;
    DigitsOfNat(n);
    assert DigitsValue(s[1..]) == n;
  }
}
