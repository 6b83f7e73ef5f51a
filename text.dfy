/** The Python `str` operations the chatbot's keyword tables, marker parser and
    regular expressions rely on, over `string` (a `seq<char>`).  Lower-casing is
    ASCII only, so it preserves length and indices computed on the lowered text
    apply to the original one. */
module Text {
  import opened Common

  /** `c.lower()` for ASCII letters; every other character is unchanged. */
  function LowerChar(c: char): char {
    if 'A' <= c <= 'Z' then (c as int + 32) as char else c
  }

  /** `s.lower()`, character by character. */
  function Lower(s: string): (r: string)
    ensures |r| == |s|
    ensures forall i :: 0 <= i < |s| ==> r[i] == LowerChar(s[i])
  {
    if s == [] then [] else [LowerChar(s[0])] + Lower(s[1..])
  }

  /** The characters `str.isspace()` (and the regular expression `\s`) accept:
      the ASCII controls 9-13 and 28-31, the space, and the Unicode spaces. */
  predicate IsSpace(c: char) {
    || (9 <= c as int <= 13) || (28 <= c as int <= 32)
    || c as int == 0x85 || c as int == 0xA0 || c as int == 0x1680
    || (0x2000 <= c as int <= 0x200A) || c as int == 0x2028 || c as int == 0x2029
    || c as int == 0x202F || c as int == 0x205F || c as int == 0x3000
  }

  predicate IsDigit(c: char) {
    '0' <= c <= '9'
  }

  // ---------------------------------------------------------------- substrings

  /** `pat` occurs in `s` starting at index `i`. */
  predicate OccursAt(s: string, pat: string, i: int) {
    0 <= i && i + |pat| <= |s| && s[i..i + |pat|] == pat
  }

  /** `pat in s`. */
  predicate Contains(s: string, pat: string) {
    exists i :: 0 <= i <= |s| - |pat| && OccursAt(s, pat, i)
  }

  /** `any(w in s for w in words)`. */
  predicate ContainsAny(s: string, words: seq<string>) {
    exists k :: 0 <= k < |words| && Contains(s, words[k])
  }

  /** `s.find(pat, from)`: the first index at or after `from` where `pat`
      occurs, or -1. */
  function FindFrom(s: string, pat: string, from: nat): (r: int)
    ensures r == -1 || (from <= r && OccursAt(s, pat, r))
    ensures r == -1 <==> forall i :: from <= i ==> !OccursAt(s, pat, i)
    ensures r != -1 ==> forall i :: from <= i < r ==> !OccursAt(s, pat, i)
    decreases |s| - from
  {
    if from + |pat| > |s| then -1
    else if s[from..from + |pat|] == pat then from
    else FindFrom(s, pat, from + 1)
  }

  /** `s.find(pat)`. */
  function Find(s: string, pat: string): (r: int)
    ensures r == -1 <==> !Contains(s, pat)
    ensures r != -1 ==> OccursAt(s, pat, r) && forall i :: 0 <= i < r ==> !OccursAt(s, pat, i)
  {
    FindFrom(s, pat, 0)
  }

  /** A pattern whose first character never occurs in `s` does not occur in it. */
  lemma AbsentHead(s: string, pat: string)
    requires pat != []
    requires forall i :: 0 <= i < |s| ==> s[i] != pat[0]
    ensures !Contains(s, pat)
  {
    forall i | 0 <= i <= |s| - |pat| ensures !OccursAt(s, pat, i) {
      assert s[i..i + |pat|][0] == s[i];
    }
  }

  /** An occurrence of a lower-case pattern in a text is also an occurrence in
      the lowered text. */
  lemma ContainsTransfer(s: string, pat: string, i: int)
    requires OccursAt(s, pat, i)
    requires forall k :: 0 <= k < |pat| ==> LowerChar(pat[k]) == pat[k]
    ensures OccursAt(Lower(s), pat, i)
  {
    var l := Lower(s);
    assert forall k :: 0 <= k < |pat| ==> l[i + k] == LowerChar(s[i + k]) == LowerChar(pat[k]) == pat[k]
      by { forall k | 0 <= k < |pat| ensures s[i + k] == pat[k] { assert s[i..i + |pat|][k] == s[i + k]; } }
    assert l[i..i + |pat|] == pat;
  }

  /** `s` has no ASCII upper-case letter. */
  predicate NoUpper(s: string) {
    s == [] || (!('A' <= s[0] <= 'Z') && NoUpper(s[1..]))
  }

  /** Text without upper-case letters is its own lower-case form. */
  lemma {:induction false} LowerIdentity(s: string)
    requires forall k :: 0 <= k < |s| ==> !('A' <= s[k] <= 'Z')
    ensures Lower(s) == s
  {
    if s != [] {
      LowerIdentity(s[1..]);
    }
  }

  /** A pattern one of whose characters never occurs in `s` does not occur in it. */
  lemma AbsentChar(s: string, pat: string, j: int)
    requires 0 <= j < |pat|
    requires forall i :: 0 <= i < |s| ==> s[i] != pat[j]
    ensures !Contains(s, pat)
  {
    forall i | 0 <= i <= |s| - |pat| ensures !OccursAt(s, pat, i) {
      assert s[i..i + |pat|][j] == s[i + j];
    }
  }

  /** Lower-casing works piece by piece. */
  lemma {:induction false} LowerAppend(a: string, b: string)
    ensures Lower(a + b) == Lower(a) + Lower(b)
  {
    if a != [] {
      assert (a + b)[1..] == a[1..] + b;
      LowerAppend(a[1..], b);
    }
  }

  /** `s[i..j]` is a substring of `s`. */
  predicate IsInfix(t: string, s: string) {
    exists i :: 0 <= i <= |s| - |t| && OccursAt(s, t, i)
  }

  lemma InfixTrans(a: string, b: string, c: string)
    requires IsInfix(a, b) && IsInfix(b, c)
    ensures IsInfix(a, c)
  {
    var i :| 0 <= i <= |b| - |a| && OccursAt(b, a, i);
    var j :| 0 <= j <= |c| - |b| && OccursAt(c, b, j);
    assert c[j..j + |b|] == b && b[i..i + |a|] == a;
    forall k | 0 <= k < |a| ensures c[j + i + k] == a[k] {
      assert c[j + i + k] == c[j..j + |b|][i + k] == b[i + k] == b[i..i + |a|][k];
    }
    assert c[j + i..j + i + |a|] == a;
    assert OccursAt(c, a, j + i);
  }

  lemma SliceIsInfix(s: string, i: int, j: int)
    requires 0 <= i <= j <= |s|
    ensures IsInfix(s[i..j], s)
  {
    assert OccursAt(s, s[i..j], i);
  }

  // --------------------------------------------------------------------- strip

  /** The index just past the whitespace that ends `s[..j]`. */
  function TrimEnd(s: string, j: nat): (e: nat)
    requires j <= |s|
    ensures e <= j
    ensures forall k :: e <= k < j ==> IsSpace(s[k])
    ensures e == 0 || !IsSpace(s[e - 1])
  {
    if j > 0 && IsSpace(s[j - 1]) then TrimEnd(s, j - 1) else j
  }

  /** `s.strip()`: it neither starts nor ends with whitespace. */
  function Strip(s: string): (r: string)
    ensures |r| <= |s|
    ensures r == [] || (!IsSpace(r[0]) && !IsSpace(r[|r| - 1]))
  {
    var a := SkipSpaces(s, 0);
    var b := TrimEnd(s, |s|);
    if b <= a then [] else s[a..b]
  }

  /** What `Strip` removes is whitespace on both sides: the result is the
      slice `s[i..i + |Strip(s)|]` with only whitespace before and after it. */
  lemma StripSlice(s: string) returns (i: nat)
    ensures i + |Strip(s)| <= |s| && s[i..i + |Strip(s)|] == Strip(s)
    ensures forall k :: 0 <= k < i ==> IsSpace(s[k])
    ensures forall k :: i + |Strip(s)| <= k < |s| ==> IsSpace(s[k])
  {
    var a := SkipSpaces(s, 0);
    var b := TrimEnd(s, |s|);
    if b <= a {
      i := 0;
      forall k | 0 <= k < |s| ensures IsSpace(s[k]) {
        if k >= a { assert k >= b; }
      }
    } else {
      i := a;
    }
  }

  /** Text that neither starts nor ends with whitespace is left as it is. */
  lemma StripUnchanged(s: string)
    requires s == [] || (!IsSpace(s[0]) && !IsSpace(s[|s| - 1]))
    ensures Strip(s) == s
  {
  }

  // --------------------------------------------------------------- split, join

  /** `s.split(sep)` for a one-character separator: the pieces between
      successive separators, always at least one. */
  function Split(s: string, sep: char): (r: seq<string>)
    ensures |r| >= 1
    ensures forall k :: 0 <= k < |r| ==> sep !in r[k]
    decreases |s|
  {
    var k := FindFrom(s, [sep], 0);
    if k == -1 then
      assert forall i :: 0 <= i < |s| ==> s[i] != sep by {
        forall i | 0 <= i < |s| ensures s[i] != sep { assert !OccursAt(s, [sep], i); }
      }
      [s]
    else
      assert forall i :: 0 <= i < k ==> s[i] != sep by {
        forall i | 0 <= i < k ensures s[i] != sep { assert !OccursAt(s, [sep], i); }
      }
      assert s[k] == sep by { assert s[k..k + 1] == [sep]; }
      [s[..k]] + Split(s[k + 1..], sep)
  }

  /** `sep.join(xs)`. */
  function Join(xs: seq<string>, sep: string): string {
    if xs == [] then []
    else if |xs| == 1 then xs[0]
    else xs[0] + sep + Join(xs[1..], sep)
  }

  /** Splitting and joining are inverse: the pieces of `Split` glue back into
      the original text. */
  lemma {:induction false} JoinSplit(s: string, sep: char)
    ensures Join(Split(s, sep), [sep]) == s
    decreases |s|
  {
    var k := FindFrom(s, [sep], 0);
    if k != -1 {
      var rest := Split(s[k + 1..], sep);
      assert Split(s, sep) == [s[..k]] + rest;
      JoinCons(s[..k], rest, [sep]);
      JoinSplit(s[k + 1..], sep);
      assert s[k] == sep by { assert s[k..k + 1][0] == s[k]; }
      Around(s, k);
    }
  }

  /** `s` is what lies before, at and after index `k`. */
  lemma Around(s: string, k: int)
    requires 0 <= k < |s|
    ensures s == s[..k] + [s[k]] + s[k + 1..]
  {
    assert s[k..] == [s[k]] + s[k + 1..];
    assert s == s[..k] + s[k..];
  }

  lemma JoinCons(x: string, rest: seq<string>, sep: string)
    requires rest != []
    ensures Join([x] + rest, sep) == x + sep + Join(rest, sep)
  {
    assert ([x] + rest)[1..] == rest;
  }

  /** Joining pieces that do not contain the separator and splitting again gives
      back the same pieces. */
  lemma {:induction false} SplitJoin(xs: seq<string>, sep: char)
    requires xs != []
    requires forall k :: 0 <= k < |xs| ==> sep !in xs[k]
    ensures Split(Join(xs, [sep]), sep) == xs
    decreases |xs|
  {
    var x := xs[0];
    if |xs| == 1 {
      NoSepNotFound(x, sep);
    } else {
      var rest := Join(xs[1..], [sep]);
      var s := x + [sep] + rest;
      assert Join(xs, [sep]) == s;
      assert s[|x|..|x| + 1] == [sep];
      assert OccursAt(s, [sep], |x|);
      forall i | 0 <= i < |x| ensures !OccursAt(s, [sep], i) {
        assert s[i] == x[i];
        assert s[i..i + 1][0] == s[i];
      }
      assert FindFrom(s, [sep], 0) == |x|;
      assert s[..|x|] == x;
      assert s[|x| + 1..] == rest;
      SplitJoin(xs[1..], sep);
    }
  }

  lemma NoSepNotFound(x: string, sep: char)
    requires sep !in x
    ensures Split(x, sep) == [x]
  {
    forall i | 0 <= i < |x| ensures !OccursAt(x, [sep], i) {
      assert x[i..i + 1][0] == x[i];
    }
  }

  /** Every piece of `Split(s, sep)` is a substring of `s`. */
  lemma {:induction false} SplitPiecesAreInfixes(s: string, sep: char)
    ensures forall k :: 0 <= k < |Split(s, sep)| ==> IsInfix(Split(s, sep)[k], s)
    decreases |s|
  {
    var k := FindFrom(s, [sep], 0);
    var r := Split(s, sep);
    if k == -1 {
      assert OccursAt(s, s, 0);
    } else {
      var after := s[k + 1..];
      var rest := Split(after, sep);
      SplitPiecesAreInfixes(after, sep);
      SliceIsInfix(s, 0, k);
      SliceIsInfix(s, k + 1, |s|);
      assert s[k + 1..|s|] == after;
      assert IsInfix(after, s);
      assert r == [s[..k]] + rest;
      forall j | 1 <= j < |r| ensures IsInfix(r[j], s) {
        assert r[j] == rest[j - 1];
        assert IsInfix(rest[j - 1], after);
        InfixTrans(r[j], after, s);
      }
    }
  }

  // ------------------------------------------------------------------ numbers

  /** The value of an ASCII digit (0 for any other character). */
  function DigitValue(c: char): nat {
    if IsDigit(c) then c as int - '0' as int else 0
  }

  /** `int(ds)` for a run of ASCII digits. */
  function DigitsValue(ds: string): nat {
    if ds == [] then 0 else 10 * DigitsValue(ds[..|ds| - 1]) + DigitValue(ds[|ds| - 1])
  }

  /** `str(n)` for a natural number: its decimal digits without leading zeros. */
  function NatToString(n: nat): (s: string)
    ensures s != [] && forall k :: 0 <= k < |s| ==> IsDigit(s[k])
    ensures |s| > 1 ==> s[0] != '0'
  {
    if n < 10 then [('0' as int + n) as char]
    else NatToString(n / 10) + [('0' as int + n % 10) as char]
  }

  /** `int(str(n)) == n`. */
  lemma {:induction false} NatToStringValue(n: nat)
    ensures DigitsValue(NatToString(n)) == n
  {
    if n >= 10 {
      NatToStringValue(n / 10);
      var s := NatToString(n);
      assert s[..|s| - 1] == NatToString(n / 10);
    }
  }

  /** The end of the maximal run of digits starting at `i`. */
  function DigitRunEnd(s: string, i: nat): (e: nat)
    requires i <= |s|
    ensures i <= e <= |s|
    ensures forall k :: i <= k < e ==> IsDigit(s[k])
    ensures e == |s| || !IsDigit(s[e])
    decreases |s| - i
  {
    if i < |s| && IsDigit(s[i]) then DigitRunEnd(s, i + 1) else i
  }

  /** The index after the maximal run of whitespace starting at `i` (`\s*`). */
  function SkipSpaces(s: string, i: nat): (e: nat)
    requires i <= |s|
    ensures i <= e <= |s|
    ensures forall k :: i <= k < e ==> IsSpace(s[k])
    ensures e == |s| || !IsSpace(s[e])
    decreases |s| - i
  {
    if i < |s| && IsSpace(s[i]) then SkipSpaces(s, i + 1) else i
  }

  /** After index `e`, optional whitespace and then one of `units`. */
  predicate UnitFollows(s: string, e: nat, units: seq<string>)
    requires e <= |s|
  {
    var k := SkipSpaces(s, e);
    exists u :: 0 <= u < |units| && OccursAt(s, units[u], k)
  }

  /** `i` starts a maximal run of digits. */
  predicate RunStart(s: string, i: int) {
    0 <= i < |s| && IsDigit(s[i]) && (i == 0 || !IsDigit(s[i - 1]))
  }

  /** A maximal digit run starting at `i` that is followed by `\s*` and a unit. */
  predicate NumberWithUnitAt(s: string, i: int, units: seq<string>) {
    RunStart(s, i) && UnitFollows(s, DigitRunEnd(s, i), units)
  }

  /** The regular-expression search below finds its match at `i`: a number with
      a unit starts there and none starts earlier (at or after `from`). */
  ghost predicate FirstNumberAt(s: string, units: seq<string>, from: int, i: int) {
    from <= i && NumberWithUnitAt(s, i, units)
    && forall j :: from <= j < i ==> !NumberWithUnitAt(s, j, units)
  }

  /** `re.search(r'(\d+)\s*(u1|u2|...)', s)` from index `from`, giving
      `int(group(1))`.  The search tries start positions left to right; a
      start inside a run of digits ends that run at the same place as the
      run's first digit and so succeeds exactly when the run's first digit
      does, and every unit starts with a letter, so backtracking into the run
      or into the whitespace never helps.  The first match is therefore the
      first maximal digit run followed by optional whitespace and a unit
      (see NumberBeforeIsFirstMatch). */
  function NumberBefore(s: string, units: seq<string>, from: nat): Option<nat>
    requires from <= |s|
    decreases |s| - from
  {
    if from == |s| then None
    else if IsDigit(s[from]) then
      var e := DigitRunEnd(s, from);
      if UnitFollows(s, e, units) then Some(DigitsValue(s[from..e]))
      else if e == |s| then None
      else NumberBefore(s, units, e + 1)
    else NumberBefore(s, units, from + 1)
  }

  /** What NumberBefore promises when started at `from`. */
  ghost predicate SearchCorrect(s: string, units: seq<string>, from: nat)
    requires from <= |s|
  {
    IsSearchResult(s, units, from, NumberBefore(s, units, from))
  }

  /** `r` is what a left-to-right search from `from` must find. */
  ghost predicate IsSearchResult(s: string, units: seq<string>, from: nat, r: Option<nat>) {
    && (r.None? <==> forall i :: from <= i ==> !NumberWithUnitAt(s, i, units))
    && (r.Some? ==> exists i :: FirstNumberAt(s, units, from, i) && r.value == DigitsValue(s[i..DigitRunEnd(s, i)]))
  }

  /** NumberBefore finds a number exactly when some maximal digit run at or
      after `from` is followed by a unit, and then it is the value of the
      first such run. */
  lemma {:induction false} NumberBeforeIsFirstMatch(s: string, units: seq<string>, from: nat)
    requires from <= |s|
    requires from == 0 || !IsDigit(s[from - 1])
    ensures SearchCorrect(s, units, from)
    decreases |s| - from
  {
    if from == |s| {
      SearchAtEnd(s, units);
    } else if !IsDigit(s[from]) {
      NumberBeforeIsFirstMatch(s, units, from + 1);
      SearchPastNonDigit(s, units, from);
    } else if UnitFollows(s, DigitRunEnd(s, from), units) {
      SearchFindsRun(s, units, from);
    } else if DigitRunEnd(s, from) < |s| {
      NumberBeforeIsFirstMatch(s, units, DigitRunEnd(s, from) + 1);
      SearchPastRun(s, units, from);
    } else {
      SearchRunAtEnd(s, units, from);
    }
  }

  /** A search from the end finds nothing. */
  lemma SearchAtEnd(s: string, units: seq<string>)
    ensures SearchCorrect(s, units, |s|)
  {
    assert NumberBefore(s, units, |s|) == None;
  }

  /** A run of digits at `from` followed by a unit is the match. */
  lemma SearchFindsRun(s: string, units: seq<string>, from: nat)
    requires from < |s| && IsDigit(s[from]) && (from == 0 || !IsDigit(s[from - 1]))
    requires UnitFollows(s, DigitRunEnd(s, from), units)
    ensures SearchCorrect(s, units, from)
  {
    var e := DigitRunEnd(s, from);
    assert NumberBefore(s, units, from) == Some(DigitsValue(s[from..e]));
    assert NumberWithUnitAt(s, from, units);
    assert FirstNumberAt(s, units, from, from);
  }

  /** A character that is not a digit starts no match. */
  lemma SearchPastNonDigit(s: string, units: seq<string>, from: nat)
    requires from < |s| && !IsDigit(s[from])
    requires SearchCorrect(s, units, from + 1)
    ensures SearchCorrect(s, units, from)
  {
    assert NumberBefore(s, units, from) == NumberBefore(s, units, from + 1);
    assert !NumberWithUnitAt(s, from, units);
    SearchExtends(s, units, from, from + 1, NumberBefore(s, units, from + 1));
  }

  /** A run of digits without a unit, followed by another character, is
      skipped together with that character. */
  lemma SearchPastRun(s: string, units: seq<string>, from: nat)
    requires from < |s| && IsDigit(s[from])
    requires !UnitFollows(s, DigitRunEnd(s, from), units) && DigitRunEnd(s, from) < |s|
    requires SearchCorrect(s, units, DigitRunEnd(s, from) + 1)
    ensures SearchCorrect(s, units, from)
  {
    var e := DigitRunEnd(s, from);
    assert NumberBefore(s, units, from) == NumberBefore(s, units, e + 1);
    SkipRun(s, units, from);
    SearchExtends(s, units, from, e + 1, NumberBefore(s, units, e + 1));
  }

  /** A run of digits without a unit that ends the text leaves no match. */
  lemma SearchRunAtEnd(s: string, units: seq<string>, from: nat)
    requires from < |s| && IsDigit(s[from])
    requires !UnitFollows(s, DigitRunEnd(s, from), units) && DigitRunEnd(s, from) == |s|
    ensures SearchCorrect(s, units, from)
  {
    assert NumberBefore(s, units, from) == None;
    SkipRun(s, units, from);
  }

  /** No number with a unit starts inside a run of digits that fails to be
      followed by a unit, nor just after it. */
  lemma SkipRun(s: string, units: seq<string>, from: nat)
    requires from < |s| && IsDigit(s[from])
    requires !UnitFollows(s, DigitRunEnd(s, from), units)
    ensures forall j :: from <= j <= DigitRunEnd(s, from) ==> !NumberWithUnitAt(s, j, units)
  {
    var e := DigitRunEnd(s, from);
    forall j | from < j <= e ensures !RunStart(s, j) {
      assert IsDigit(s[j - 1]);
    }
  }

  /** The result of a search from `mid` is that from `from` when no number with
      a unit starts in between. */
  lemma SearchExtends(s: string, units: seq<string>, from: nat, mid: nat, r: Option<nat>)
    requires from <= mid <= |s|
    requires IsSearchResult(s, units, mid, r)
    requires forall j :: from <= j < mid ==> !NumberWithUnitAt(s, j, units)
    ensures IsSearchResult(s, units, from, r)
  {
    if r.Some? {
      var i :| FirstNumberAt(s, units, mid, i) && r.value == DigitsValue(s[i..DigitRunEnd(s, i)]);
      assert FirstNumberAt(s, units, from, i);
    } else {
      forall i | from <= i ensures !NumberWithUnitAt(s, i, units) {
        if i >= mid { assert !NumberWithUnitAt(s, i, units); }
      }
    }
  }

  // ---------------------------------------------------------- Python slicing

  /** A Python slice bound: negative bounds count from the end, and the result
      is clamped to `[0, n]`. */
  function PyIndex(i: int, n: nat): (r: nat)
    ensures r <= n
    ensures 0 <= i <= n ==> r == i
    ensures i < 0 && -i <= n ==> r == n + i
  {
    if i < 0 then (if n + i < 0 then 0 else n + i) else if i > n then n else i
  }

  /** `s[:stop]`: a prefix, the first `stop` elements for non-negative `stop`. */
  function PyTake<T>(s: seq<T>, stop: int): (r: seq<T>)
    ensures r <= s
    ensures stop >= 0 ==> |r| == if stop < |s| then stop else |s|
    ensures stop < 0 ==> |r| == if -stop < |s| then |s| + stop else 0
  {
    s[..PyIndex(stop, |s|)]
  }

  /** `s[-n:]`, the last `n` elements for positive `n`; note that `s[-0:]` is
      the whole of `s`. */
  function PyLast<T>(s: seq<T>, n: int): (r: seq<T>)
    ensures |r| <= |s| && r == s[|s| - |r|..]
    ensures n > 0 ==> |r| == if n < |s| then n else |s|
    ensures n == 0 ==> r == s
    ensures n < 0 ==> |r| == if -n < |s| then |s| + n else 0
  {
    s[PyIndex(-n, |s|)..]
  }

  lemma PyLastPositive<T>(s: seq<T>, n: int)
    requires n > 0
    ensures |PyLast(s, n)| == if n < |s| then n else |s|
    ensures PyLast(s, n) == s[|s| - |PyLast(s, n)|..]
  {
  }
}
