/**
  String helpers mirroring the Python string operations the generators rely on:
  `str.strip`, `str.lower`, `str.replace`, `str(n)`, `str.zfill`, `",".join` and
  `str.split`.  Characters are Dafny `char`s; only ASCII whitespace and ASCII
  case are modelled.
 */
module Text {

  // ---------------------------------------------------------------------------
  // Prefixes and suffixes

  predicate HasPrefix(s: string, p: string) {
    |p| <= |s| && s[..|p|] == p
  }

  predicate HasSuffix(s: string, p: string) {
    |p| <= |s| && s[|s| - |p|..] == p
  }

  lemma PrefixOfConcat(p: string, rest: string)
    ensures HasPrefix(p + rest, p)
  {
    assert (p + rest)[..|p|] == p;
  }

  lemma PrefixTransitive(s: string, p: string, q: string)
    requires HasPrefix(s, p) && HasPrefix(p, q)
    ensures HasPrefix(s, q)
  {
    assert s[..|q|] == s[..|p|][..|q|];
  }

  /** Strings that agree on a prefix differ when their remainders differ. */
  lemma ConcatInjective(p: string, a: string, b: string)
    requires p + a == p + b
    ensures a == b
  {
    assert a == (p + a)[|p|..];
    assert b == (p + b)[|p|..];
  }

  /** Two strings whose prefixes differ at a position inside both prefixes differ. */
  lemma PrefixesDiffer(a: string, b: string, p: string, q: string, i: nat)
    requires HasPrefix(a, p) && HasPrefix(b, q) && i < |p| && i < |q| && p[i] != q[i]
    ensures a != b
  {
    assert a[i] == a[..|p|][i] && b[i] == b[..|q|][i];
  }

  /** Every string of `xs` with `p` in front, as column names are spelled out from a common prefix. */
  function Prefixed(p: string, xs: seq<string>): (r: seq<string>)
    ensures |r| == |xs|
    ensures forall i :: 0 <= i < |xs| ==> r[i] == p + xs[i]
  {
    seq(|xs|, i requires 0 <= i < |xs| => p + xs[i])
  }

  lemma PrefixedHasPrefix(p: string, xs: seq<string>, i: nat)
    requires i < |xs|
    ensures HasPrefix(Prefixed(p, xs)[i], p)
  {
    PrefixOfConcat(p, xs[i]);
  }

  // ---------------------------------------------------------------------------
  // Whitespace stripping (Python `str.strip()` without arguments)

  predicate IsSpace(c: char) {
    c == ' ' || c == '\t' || c == '\n' || c == '\r' || c == '\U{000B}' || c == '\U{000C}'
  }

  function StripLeft(s: string): (r: string)
    ensures |r| <= |s| && r == s[|s| - |r|..]
    ensures r == [] || !IsSpace(r[0])
  {
    if |s| > 0 && IsSpace(s[0]) then StripLeft(s[1..]) else s
  }

  function StripRight(s: string): (r: string)
    ensures |r| <= |s| && r == s[..|r|]
    ensures r == [] || !IsSpace(r[|r| - 1])
  {
    if |s| > 0 && IsSpace(s[|s| - 1]) then StripRight(s[..|s| - 1]) else s
  }

  /** `s.strip()`: no whitespace at either end. */
  function Strip(s: string): (r: string)
    ensures |r| <= |s|
    ensures r == [] || (!IsSpace(r[0]) && !IsSpace(r[|r| - 1]))
  {
    var l := StripLeft(s);
    var r := StripRight(l);
    assert r != [] ==> r[0] == l[0];
    r
  }

  /** Stripping again changes nothing. */
  lemma StripIdempotent(s: string)
    ensures Strip(Strip(s)) == Strip(s)
  {
    var t := Strip(s);
    assert StripLeft(t) == t;
    assert StripRight(t) == t;
  }

  /** `[x.strip() for x in xs if x.strip()]`, written by its last element so that a
      left-to-right loop can extend it one input at a time. */
  function StripNonBlank(xs: seq<string>): (r: seq<string>)
    ensures |r| <= |xs|
    ensures forall i :: 0 <= i < |r| ==> r[i] != ""
  {
    if xs == [] then []
    else
      var s := Strip(xs[|xs| - 1]);
      StripNonBlank(xs[..|xs| - 1]) + (if s != "" then [s] else [])
  }

  /** The cleaned list is empty exactly when every input is blank after stripping. */
  lemma {:induction false} StripNonBlankEmpty(xs: seq<string>)
    ensures StripNonBlank(xs) == [] <==> forall i :: 0 <= i < |xs| ==> Strip(xs[i]) == ""
  {
    if xs != [] {
      var front := xs[..|xs| - 1];
      StripNonBlankEmpty(front);
      assert forall i :: 0 <= i < |front| ==> front[i] == xs[i];
    }
  }

  /** Every element of `StripNonBlank(xs)` is the stripped form of some input. */
  lemma {:induction false} StripNonBlankFrom(xs: seq<string>, k: nat)
    requires k < |StripNonBlank(xs)|
    ensures exists j :: 0 <= j < |xs| && StripNonBlank(xs)[k] == Strip(xs[j])
  {
    var front := xs[..|xs| - 1];
    var last := Strip(xs[|xs| - 1]);
    var r := StripNonBlank(xs);
    assert r == StripNonBlank(front) + (if last != "" then [last] else []);
    if k < |StripNonBlank(front)| {
      StripNonBlankFrom(front, k);
      var j :| 0 <= j < |front| && StripNonBlank(front)[k] == Strip(front[j]);
      assert r[k] == StripNonBlank(front)[k];
      assert front[j] == xs[j];
      assert r[k] == Strip(xs[j]);
    } else {
      assert r[k] == Strip(xs[|xs| - 1]);
    }
  }

  /** Strip a given character from both ends (Python `s.strip(c)`). */
  function StripChar(s: string, c: char): (r: string)
    ensures |r| <= |s|
    ensures r == [] || (r[0] != c && r[|r| - 1] != c)
    ensures forall x :: x in r ==> x in s
    decreases |s|
  {
    if |s| > 0 && s[0] == c then StripChar(s[1..], c)
    else if |s| > 0 && s[|s| - 1] == c then StripChar(s[..|s| - 1], c)
    else s
  }

  // ---------------------------------------------------------------------------
  // Case and replacement

  function LowerChar(c: char): char {
    if 'A' <= c <= 'Z' then (c as int + 32) as char else c
  }

  /** `s.lower()` for ASCII letters. */
  function Lower(s: string): (r: string)
    ensures |r| == |s|
    ensures forall i :: 0 <= i < |s| ==> r[i] == LowerChar(s[i])
  {
    seq(|s|, i requires 0 <= i < |s| => LowerChar(s[i]))
  }

  /** `s.replace(old, new)`: non-overlapping occurrences, scanned left to right. */
  function Replace(s: string, pat: string, repl: string): (r: string)
    requires |pat| > 0
    ensures forall c :: c in r ==> c in s || c in repl
    decreases |s|
  {
    if |s| < |pat| then s
    else if s[..|pat|] == pat then repl + Replace(s[|pat|..], pat, repl)
    else [s[0]] + Replace(s[1..], pat, repl)
  }

  /** Replacing a one-character string by text that lacks that character removes it. */
  lemma {:induction false} ReplaceRemoves(s: string, c: char, repl: string)
    requires c !in repl
    ensures c !in Replace(s, [c], repl)
    decreases |s|
  {
    if |s| >= 1 {
      if s[..1] == [c] {
        ReplaceRemoves(s[1..], c, repl);
      } else {
        assert s[0] != c;
        ReplaceRemoves(s[1..], c, repl);
      }
    }
  }

  /** A character absent from both the input and the replacement stays absent. */
  lemma ReplaceKeepsAbsent(s: string, pat: string, repl: string, c: char)
    requires |pat| > 0 && c !in s && c !in repl
    ensures c !in Replace(s, pat, repl)
  {
  }

  // ---------------------------------------------------------------------------
  // Decimal numerals (`str(n)`) and zero padding (`str.zfill`)

  predicate IsDigit(c: char) { '0' <= c <= '9' }

  predicate AllDigits(s: string) { forall i :: 0 <= i < |s| ==> IsDigit(s[i]) }

  function DigitChar(d: nat): char
    requires d < 10
  {
    ('0' as int + d) as char
  }

  function DigitValue(c: char): nat
    requires IsDigit(c)
  {
    c as int - '0' as int
  }

  function Pow10(k: nat): nat {
    if k == 0 then 1 else 10 * Pow10(k - 1)
  }

  lemma Pow10Values()
    ensures Pow10(1) == 10 && Pow10(2) == 100 && Pow10(3) == 1000 && Pow10(4) == 10000
    ensures Pow10(5) == 100000 && Pow10(6) == 1000000
    ensures Pow10(11) == 100000000000 && Pow10(12) == 1000000000000
  {
    assert Pow10(1) == 10;
    assert Pow10(2) == 100;
    assert Pow10(3) == 1000;
    assert Pow10(4) == 10000;
    assert Pow10(5) == 100000;
    assert Pow10(6) == 1000000;
    assert Pow10(7) == 10000000;
    assert Pow10(8) == 100000000;
    assert Pow10(9) == 1000000000;
    assert Pow10(10) == 10000000000;
    assert Pow10(11) == 100000000000;
  }

  /** `str(n)` for a natural number. */
  function Dec(n: nat): (r: string)
    ensures |r| >= 1 && AllDigits(r)
  {
    if n < 10 then [DigitChar(n)] else Dec(n / 10) + [DigitChar(n % 10)]
  }

  /** The value of a string of digits (leading zeros allowed). */
  function ParseDec(s: string): nat
    requires AllDigits(s)
  {
    if s == [] then 0 else ParseDec(s[..|s| - 1]) * 10 + DigitValue(s[|s| - 1])
  }

  /** Reading back a numeral gives the number. */
  lemma {:induction false} ParseDec_Dec(n: nat)
    ensures ParseDec(Dec(n)) == n
  {
    if n >= 10 {
      ParseDec_Dec(n / 10);
      assert Dec(n)[..|Dec(n)| - 1] == Dec(n / 10);
    }
  }

  lemma DecInjective(a: nat, b: nat)
    requires Dec(a) == Dec(b)
    ensures a == b
  {
    ParseDec_Dec(a);
    ParseDec_Dec(b);
  }

  /** A number with `k` digits is written with exactly `k` characters. */
  lemma {:induction false} DecLength(n: nat, k: nat)
    requires k >= 1 && Pow10(k - 1) <= n < Pow10(k)
    ensures |Dec(n)| == k
  {
    if k == 1 {
      assert n < 10;
    } else {
      assert Pow10(k - 1) == 10 * Pow10(k - 2);
      assert n >= 10;
      DecLength(n / 10, k - 1);
    }
  }

  lemma DecAtMostThree(n: nat)
    requires n < 1000
    ensures |Dec(n)| <= 3
  {
    if n < 10 { }
    else if n < 100 { DecLength(n, 2); }
    else { DecLength(n, 3); }
  }

  function Zeros(k: nat): (r: string)
    ensures |r| == k && AllDigits(r)
    ensures forall i :: 0 <= i < k ==> r[i] == '0'
  {
    seq(k, _ => '0')
  }

  /** `s.zfill(width)` for an unsigned numeral. */
  function ZFill(s: string, width: nat): (r: string)
    ensures |r| == if |s| >= width then |s| else width
    ensures AllDigits(s) ==> AllDigits(r)
    ensures HasSuffix(r, s)
  {
    if |s| >= width then s else Zeros(width - |s|) + s
  }

  lemma {:induction false} ParseZeros(k: nat)
    ensures ParseDec(Zeros(k)) == 0
  {
    if k > 0 {
      assert Zeros(k)[..k - 1] == Zeros(k - 1);
      ParseZeros(k - 1);
    }
  }

  /** Leading zeros do not change the value of a numeral. */
  lemma {:induction false} ParseLeadingZeros(k: nat, s: string)
    requires AllDigits(s)
    ensures ParseDec(Zeros(k) + s) == ParseDec(s)
    decreases |s|
  {
    if s == [] {
      assert Zeros(k) + s == Zeros(k);
      ParseZeros(k);
    } else {
      var t := Zeros(k) + s;
      assert t[..|t| - 1] == Zeros(k) + s[..|s| - 1];
      assert t[|t| - 1] == s[|s| - 1];
      ParseLeadingZeros(k, s[..|s| - 1]);
    }
  }

  /** Zero padding keeps the value: `int(str(n).zfill(w)) == n`. */
  lemma ParseZFill(n: nat, width: nat)
    ensures AllDigits(ZFill(Dec(n), width))
    ensures ParseDec(ZFill(Dec(n), width)) == n
  {
    ParseDec_Dec(n);
    if |Dec(n)| < width {
      ParseLeadingZeros(width - |Dec(n)|, Dec(n));
    }
  }

  /** Distinct numbers give distinct padded numerals. */
  lemma ZFillInjective(a: nat, b: nat, width: nat)
    requires ZFill(Dec(a), width) == ZFill(Dec(b), width)
    ensures a == b
  {
    ParseZFill(a, width);
    ParseZFill(b, width);
  }

  /** A number below 1000 padded to width 3 has exactly three digits. */
  lemma ZFillThree(n: nat)
    requires n < 1000
    ensures |ZFill(Dec(n), 3)| == 3 && AllDigits(ZFill(Dec(n), 3))
  {
    DecAtMostThree(n);
  }

  // ---------------------------------------------------------------------------
  // Joining and splitting on a separator

  /** `sep.join(xs)`. */
  function Join(xs: seq<string>, sep: char): string {
    if |xs| == 0 then ""
    else if |xs| == 1 then xs[0]
    else xs[0] + [sep] + Join(xs[1..], sep)
  }

  /** `s.split(sep)`: always at least one piece, and no piece contains `sep`. */
  function Split(s: string, sep: char): (r: seq<string>)
    ensures |r| >= 1
    ensures forall i :: 0 <= i < |r| ==> sep !in r[i]
    decreases |s|
  {
    if |s| == 0 then [""]
    else
      var rest := Split(s[1..], sep);
      if s[0] == sep then [""] + rest
      else [[s[0]] + rest[0]] + rest[1..]
  }

  lemma {:induction false} SplitPrefix(x: string, tail: string, sep: char)
    requires sep !in x
    ensures Split(x + [sep] + tail, sep) == [x] + Split(tail, sep)
    decreases |x|
  {
    if x == [] {
      assert x + [sep] + tail == [sep] + tail;
      assert ([sep] + tail)[1..] == tail;
    } else {
      var s := x + [sep] + tail;
      assert s[0] == x[0];
      assert s[1..] == x[1..] + [sep] + tail;
      SplitPrefix(x[1..], tail, sep);
      assert [x[0]] + x[1..] == x;
    }
  }

  lemma {:induction false} SplitNoSep(x: string, sep: char)
    requires sep !in x
    ensures Split(x, sep) == [x]
    decreases |x|
  {
    if x != [] {
      SplitNoSep(x[1..], sep);
      assert [x[0]] + x[1..] == x;
    }
  }

  /** Round trip: splitting a join gives back the pieces when none holds the separator. */
  lemma {:induction false} SplitJoin(xs: seq<string>, sep: char)
    requires |xs| >= 1
    requires forall i :: 0 <= i < |xs| ==> sep !in xs[i]
    ensures Split(Join(xs, sep), sep) == xs
  {
    if |xs| == 1 {
      SplitNoSep(xs[0], sep);
    } else {
      SplitJoin(xs[1..], sep);
      SplitPrefix(xs[0], Join(xs[1..], sep), sep);
      assert [xs[0]] + xs[1..] == xs;
    }
  }

  // ---------------------------------------------------------------------------
  // Pigeonhole: fewer used values than candidates leaves a candidate free

  lemma {:induction false} ImageSize<T>(f: nat -> T, k: nat)
    requires forall i, j :: 0 <= i < j < k ==> f(i) != f(j)
    ensures |set i: nat | i < k :: f(i)| == k
  {
    if k > 0 {
      var smaller := set i: nat | i < k - 1 :: f(i);
      var all := set i: nat | i < k :: f(i);
      ImageSize(f, k - 1);
      assert all == smaller + {f(k - 1)};
      assert f(k - 1) !in smaller;
    }
  }

  lemma SubsetSize<T>(a: set<T>, b: set<T>)
    requires a <= b
    ensures |a| <= |b|
  {
    assert b == a + (b - a);
  }

  lemma Pigeonhole<T>(used: set<T>, f: nat -> T, k: nat)
    requires forall i, j :: 0 <= i < j < k ==> f(i) != f(j)
    requires |used| < k
    ensures exists i :: 0 <= i < k && f(i) !in used
  {
    var image := set i: nat | i < k :: f(i);
    ImageSize(f, k);
    if forall i :: 0 <= i < k ==> f(i) in used {
      assert image <= used;
      SubsetSize(image, used);
      assert false;
    }
  }
}
