/** Values, strings and numbers as the analysis scripts see them.

    Text is `string` (a `seq<char>`). Character classes are ASCII: digits 0-9, the
    letters A-Z for case folding, and the six ASCII whitespace characters for
    stripping and splitting. Numbers are exact: `real` stands for a Python float
    without rounding. */
module Common {

  /** None stands for a missing value (NaN, NaT, None) or "no result". */
  datatype Option<+T> = None | Some(value: T)

  /** A pandas cell of a column that may hold numbers or text. */
  datatype Cell = Missing | Num(n: real) | Text(s: string)

  // ---------------------------------------------------------------- characters

  predicate IsDigit(c: char) { '0' <= c <= '9' }

  predicate IsUpper(c: char) { 'A' <= c <= 'Z' }

  /** The whitespace that `str.strip()` and `str.split()` remove (ASCII part). */
  predicate IsSpace(c: char)
  {
    c == ' ' || c == '\t' || c == '\n' || c == '\r' || c == '\U{000B}' || c == '\U{000C}'
  }

  function LowerChar(c: char): (r: char)
    ensures !IsUpper(r)
    ensures !IsUpper(c) ==> r == c
    ensures IsSpace(r) <==> IsSpace(c)
  {
    if IsUpper(c) then (c as int + 32) as char else c
  }

  /** `str.lower()`. */
  function Lower(s: string): (r: string)
    ensures |r| == |s|
    ensures forall i :: 0 <= i < |s| ==> r[i] == LowerChar(s[i])
  {
    seq(|s|, i requires 0 <= i < |s| => LowerChar(s[i]))
  }

  predicate NoUpper(s: string) { forall i :: 0 <= i < |s| ==> !IsUpper(s[i]) }

  predicate AllDigits(s: string) { forall i :: 0 <= i < |s| ==> IsDigit(s[i]) }

  /** A non-empty run of decimal digits. */
  predicate IsDigits(s: string) { |s| > 0 && AllDigits(s) }

  lemma LowerIdempotent(s: string)
    ensures Lower(Lower(s)) == Lower(s)
    ensures NoUpper(Lower(s))
  {
  }

  // ---------------------------------------------------------------- stripping

  function StripLeft(s: string): (r: string)
    ensures |r| <= |s| && r == s[|s| - |r|..]
    ensures r == [] || !IsSpace(r[0])
    ensures forall i :: 0 <= i < |s| - |r| ==> IsSpace(s[i])
  {
    if |s| > 0 && IsSpace(s[0]) then StripLeft(s[1..]) else s
  }

  function StripRight(s: string): (r: string)
    ensures |r| <= |s| && r == s[..|r|]
    ensures r == [] || !IsSpace(r[|r| - 1])
    ensures forall i :: |r| <= i < |s| ==> IsSpace(s[i])
  {
    if |s| > 0 && IsSpace(s[|s| - 1]) then StripRight(s[..|s| - 1]) else s
  }

  /** `str.strip()`: removes leading and trailing whitespace. */
  function Strip(s: string): (r: string)
    ensures r == [] || (!IsSpace(r[0]) && !IsSpace(r[|r| - 1]))
  {
    StripRight(StripLeft(s))
  }

  /** Stripping leaves a string alone when it neither starts nor ends with whitespace. */
  lemma StripNoop(s: string)
    requires s == [] || (!IsSpace(s[0]) && !IsSpace(s[|s| - 1]))
    ensures Strip(s) == s
  {
  }

  // ---------------------------------------------------------------- searching

  /** `pat` occurs in `s` at position `i`. */
  predicate MatchAt(s: string, pat: string, i: int)
  {
    0 <= i && i + |pat| <= |s| && s[i..i + |pat|] == pat
  }

  /** Python's `pat in s`. */
  predicate Contains(s: string, pat: string)
    decreases |s|
  {
    if |pat| > |s| then false
    else s[..|pat|] == pat || (|s| > 0 && Contains(s[1..], pat))
  }

  /** `Contains` means what it says: an occurrence at some position. */
  lemma {:induction false} ContainsIff(s: string, pat: string)
    ensures Contains(s, pat) <==> exists i :: MatchAt(s, pat, i)
    decreases |s|
  {
    if |pat| > |s| {
    } else if s[..|pat|] == pat {
      assert MatchAt(s, pat, 0);
    } else if |s| > 0 {
      ContainsIff(s[1..], pat);
      if Contains(s[1..], pat) {
        var i :| MatchAt(s[1..], pat, i);
        assert MatchAt(s, pat, i + 1);
      }
      if exists i :: MatchAt(s, pat, i) {
        var i :| MatchAt(s, pat, i);
        assert i != 0;
        assert MatchAt(s[1..], pat, i - 1);
      }
    }
  }

  /** The first occurrence of `pat` at or after position `i`. */
  function IndexFrom(s: string, pat: string, i: nat): (r: Option<nat>)
    requires i <= |s|
    ensures r.Some? ==> i <= r.value && MatchAt(s, pat, r.value)
    ensures r.Some? ==> forall j :: i <= j < r.value ==> !MatchAt(s, pat, j)
    ensures r.None? ==> forall j :: i <= j ==> !MatchAt(s, pat, j)
    decreases |s| - i
  {
    if i + |pat| > |s| then None
    else if s[i..i + |pat|] == pat then Some(i)
    else if i == |s| then None
    else IndexFrom(s, pat, i + 1)
  }

  /** `s.find(pat)`, None for -1. */
  function IndexOf(s: string, pat: string): Option<nat>
  {
    IndexFrom(s, pat, 0)
  }

  /** A match with no earlier match is the one `IndexOf` finds. */
  lemma IndexOfFirst(s: string, pat: string, i: nat)
    requires MatchAt(s, pat, i)
    requires forall j :: 0 <= j < i ==> !MatchAt(s, pat, j)
    ensures IndexOf(s, pat) == Some(i)
  {
  }

  /** `s.split(sep)[0]`: the text before the first separator, or all of `s`. */
  function Before(s: string, sep: string): (r: string)
    ensures r <= s
  {
    match IndexOf(s, sep)
    case None => s
    case Some(k) => s[..k]
  }

  /** The text after the first separator, or None when `sep` does not occur. */
  function After(s: string, sep: string): (r: Option<string>)
    ensures r.Some? <==> IndexOf(s, sep).Some?
  {
    match IndexOf(s, sep)
    case None => None
    case Some(k) => Some(s[k + |sep|..])
  }

  // ---------------------------------------------------------------- replacing

  /** `s.replace(pat, rep)`: every non-overlapping occurrence, left to right. */
  function ReplaceAll(s: string, pat: string, rep: string): string
    requires |pat| > 0
    decreases |s|
  {
    if |s| < |pat| then s
    else if s[..|pat|] == pat then rep + ReplaceAll(s[|pat|..], pat, rep)
    else [s[0]] + ReplaceAll(s[1..], pat, rep)
  }

  /** A one-character replacement maps every character independently. */
  lemma {:induction false} ReplaceChar(s: string, a: char, b: char)
    ensures |ReplaceAll(s, [a], [b])| == |s|
    ensures forall i :: 0 <= i < |s| ==> ReplaceAll(s, [a], [b])[i] == (if s[i] == a then b else s[i])
    decreases |s|
  {
    if |s| > 0 {
      ReplaceChar(s[1..], a, b);
    }
  }

  /** A one-character deletion removes that character and keeps every other one. */
  lemma {:induction false} DeleteChar(s: string, a: char)
    ensures a !in ReplaceAll(s, [a], [])
    ensures forall c :: c != a ==> (c in ReplaceAll(s, [a], []) <==> c in s)
    ensures |ReplaceAll(s, [a], [])| <= |s|
    decreases |s|
  {
    if |s| > 0 {
      DeleteChar(s[1..], a);
      assert s == [s[0]] + s[1..];
    }
  }

  /** A one-character replacement works piecewise on a concatenation. */
  lemma {:induction false} ReplaceCharAppend(a: string, b: string, c: char, rep: string)
    ensures ReplaceAll(a + b, [c], rep) == ReplaceAll(a, [c], rep) + ReplaceAll(b, [c], rep)
    decreases |a|
  {
    if a == [] {
      assert a + b == b;
    } else {
      assert (a + b)[1..] == a[1..] + b;
      assert (a + b)[..1] == a[..1];
      ReplaceCharAppend(a[1..], b, c, rep);
    }
  }

  /** Deleting a character that does not occur changes nothing. */
  lemma {:induction false} DeleteAbsent(s: string, c: char)
    requires c !in s
    ensures ReplaceAll(s, [c], []) == s
    decreases |s|
  {
    if s != [] {
      assert s[..1] == [s[0]];
      assert c !in s[1..];
      DeleteAbsent(s[1..], c);
      assert s == [s[0]] + s[1..];
    }
  }

  /** Deleting the one occurrence of a character between two texts without it. */
  lemma DeleteBetween(a: string, b: string, c: char)
    requires c !in a && c !in b
    ensures ReplaceAll(a + [c] + b, [c], []) == a + b
  {
    var cb := [c] + b;
    assert a + [c] + b == a + cb;
    ReplaceCharAppend(a, cb, c, []);
    DeleteAbsent(a, c);
    DeleteOne(b, c);
  }

  /** Deleting a leading character that does not occur again. */
  lemma DeleteOne(b: string, c: char)
    requires c !in b
    ensures ReplaceAll([c] + b, [c], []) == b
  {
    ReplaceCharAppend([c], b, c, []);
    DeleteAbsent(b, c);
    assert ReplaceAll([c], [c], []) == [];
  }

  // ---------------------------------------------------------------- digits

  /** The longest prefix of `s` made of digits (what `\d+` consumes). */
  function DigitRun(s: string): (r: string)
    ensures r <= s && AllDigits(r)
    ensures |r| < |s| ==> !IsDigit(s[|r|])
  {
    if |s| > 0 && IsDigit(s[0]) then [s[0]] + DigitRun(s[1..]) else []
  }

  lemma {:induction false} DigitRunOfDigits(d: string, rest: string)
    requires AllDigits(d)
    requires rest == [] || !IsDigit(rest[0])
    ensures DigitRun(d + rest) == d
    decreases |d|
  {
    if |d| > 0 {
      assert (d + rest)[1..] == d[1..] + rest;
      DigitRunOfDigits(d[1..], rest);
    }
  }

  function DigitValue(c: char): nat requires IsDigit(c) { c as int - '0' as int }

  /** The decimal value of a digit string (0 for the empty string). */
  function DigitsValue(s: string): nat
    requires AllDigits(s)
  {
    if s == [] then 0 else 10 * DigitsValue(s[..|s| - 1]) + DigitValue(s[|s| - 1])
  }

  function Pow10(n: nat): (r: nat)
    ensures r >= 1
  {
    if n == 0 then 1 else 10 * Pow10(n - 1)
  }

  /** Python `int(s)`: optional surrounding whitespace, an optional sign, decimal digits. */
  function ParseInt(s: string): (r: Option<int>)
  {
    var t := Strip(s);
    if |t| > 0 && (t[0] == '+' || t[0] == '-') then
      if IsDigits(t[1..]) then
        Some(if t[0] == '-' then -(DigitsValue(t[1..]) as int) else DigitsValue(t[1..]))
      else None
    else if IsDigits(t) then Some(DigitsValue(t))
    else None
  }

  lemma ParseIntDigits(d: string)
    requires IsDigits(d)
    ensures ParseInt(d) == Some(DigitsValue(d) as int)
  {
    StripNoop(d);
    var t := Strip(d);
    assert t == d;
    assert !(t[0] == '+' || t[0] == '-') by { assert IsDigit(d[0]); }
    assert IsDigits(t);
  }

  /** An unsigned decimal `digits[.digits]` or `.digits`; at least one digit overall. */
  function ParseUnsigned(t: string): (r: Option<real>)
    ensures r.Some? ==> r.value >= 0.0
  {
    match IndexOf(t, ".")
    case None => if IsDigits(t) then Some(DigitsValue(t) as real) else None
    case Some(k) =>
      var ip, fp := t[..k], t[k + 1..];
      if AllDigits(ip) && AllDigits(fp) && |ip| + |fp| > 0 then Some(DecimalValue(ip, fp))
      else None
  }

  /** The value of the decimal `ip.fp`. */
  function DecimalValue(ip: string, fp: string): (r: real)
    requires AllDigits(ip) && AllDigits(fp)
    ensures r >= 0.0
  {
    DigitsValue(ip) as real + DigitsValue(fp) as real / Pow10(|fp|) as real
  }

  /** Python `float(s)` on decimal notation: whitespace, optional sign, an unsigned decimal. */
  function ParseReal(s: string): (r: Option<real>)
  {
    var t := Strip(s);
    if |t| > 0 && (t[0] == '+' || t[0] == '-') then
      match ParseUnsigned(t[1..])
      case None => None
      case Some(v) => Some(if t[0] == '-' then -v else v)
    else ParseUnsigned(t)
  }

  /** A string of digits parses as its own value. */
  lemma ParseRealDigits(d: string)
    requires IsDigits(d)
    ensures ParseReal(d) == Some(DigitsValue(d) as real)
  {
    StripNoop(d);
    forall j | 0 <= j < |d| ensures !MatchAt(d, ".", j) {
      assert d[j..j + 1][0] == d[j];
    }
  }

  /** `ip.fp` parses as ip + fp / 10^|fp|. */
  lemma ParseRealDecimal(ip: string, fp: string)
    requires IsDigits(ip) && AllDigits(fp)
    ensures ParseReal(ip + "." + fp) == Some(DecimalValue(ip, fp))
  {
    var t := ip + "." + fp;
    DotPosition(ip, fp);
    assert t[..|ip|] == ip;
    assert t[|ip| + 1..] == fp;
    assert ParseUnsigned(t) == Some(DecimalValue(ip, fp));
    assert t[0] == ip[0];
    assert t[|t| - 1] == if fp == [] then '.' else fp[|fp| - 1];
    StripNoop(t);
  }

  lemma DotPosition(ip: string, fp: string)
    requires AllDigits(ip)
    ensures IndexOf(ip + "." + fp, ".") == Some(|ip|)
  {
    var t := ip + "." + fp;
    forall j | 0 <= j < |ip| ensures !MatchAt(t, ".", j) {
      assert t[j..j + 1][0] == ip[j];
    }
    assert t[|ip|..|ip| + 1] == ".";
    IndexOfFirst(t, ".", |ip|);
  }

  // ---------------------------------------------------------------- sequences

  /** The number of elements satisfying `p` (a pandas boolean `.sum()`). */
  function CountIf<T>(s: seq<T>, p: T -> bool): (r: nat)
    ensures r <= |s|
  {
    if s == [] then 0 else CountIf(s[..|s| - 1], p) + (if p(s[|s| - 1]) then 1 else 0)
  }

  /** Two disjoint conditions count at most all elements, exactly all when they cover. */
  lemma {:induction false} CountIfDisjoint<T>(s: seq<T>, p: T -> bool, q: T -> bool)
    requires forall i :: 0 <= i < |s| ==> !(p(s[i]) && q(s[i]))
    ensures CountIf(s, p) + CountIf(s, q) <= |s|
    ensures (forall i :: 0 <= i < |s| ==> p(s[i]) || q(s[i])) ==> CountIf(s, p) + CountIf(s, q) == |s|
  {
    if s != [] {
      CountIfDisjoint(s[..|s| - 1], p, q);
    }
  }

  /** The elements satisfying `p`, in their original order (a pandas boolean mask). */
  function Filter<T>(s: seq<T>, p: T -> bool): (r: seq<T>)
    ensures |r| == CountIf(s, p)
    ensures forall i :: 0 <= i < |r| ==> r[i] in s && p(r[i])
    ensures forall i :: 0 <= i < |s| && p(s[i]) ==> s[i] in r
  {
    if s == [] then [] else Filter(s[..|s| - 1], p) + (if p(s[|s| - 1]) then [s[|s| - 1]] else [])
  }

  function Sum(xs: seq<real>): real
  {
    if xs == [] then 0.0 else Sum(xs[..|xs| - 1]) + xs[|xs| - 1]
  }

  /** `np.mean` / pandas `.mean()` of a non-empty column. */
  function Mean(xs: seq<real>): real
    requires |xs| > 0
  {
    Sum(xs) / |xs| as real
  }

  /** A mean lies between the smallest and the largest bound of its elements. */
  lemma {:induction false} SumBounds(xs: seq<real>, lo: real, hi: real)
    requires forall i :: 0 <= i < |xs| ==> lo <= xs[i] <= hi
    ensures lo * |xs| as real <= Sum(xs) <= hi * |xs| as real
  {
    if xs != [] {
      SumBounds(xs[..|xs| - 1], lo, hi);
    }
  }

  /** A mean lies within any bounds of its elements. */
  lemma MeanBounds(xs: seq<real>, lo: real, hi: real)
    requires |xs| > 0
    requires forall i :: 0 <= i < |xs| ==> lo <= xs[i] <= hi
    ensures lo <= Mean(xs) <= hi
  {
    SumBounds(xs, lo, hi);
    var n := |xs| as real;
    DivBounds(Sum(xs), lo, hi, n);
  }

  lemma DivBounds(s: real, lo: real, hi: real, n: real)
    requires n > 0.0 && lo * n <= s <= hi * n
    ensures lo <= s / n <= hi
  {
    var q := s / n;
    assert q * n == s;
    assert (q - lo) * n == s - lo * n;
    assert (hi - q) * n == hi * n - s;
  }

  lemma {:induction false} SumAppend(a: seq<real>, b: seq<real>)
    ensures Sum(a + b) == Sum(a) + Sum(b)
    decreases |b|
  {
    if b == [] {
      assert a + b == a;
    } else {
      assert (a + b)[..|a + b| - 1] == a + b[..|b| - 1];
      assert (a + b)[|a + b| - 1] == b[|b| - 1];
      SumAppend(a, b[..|b| - 1]);
    }
  }

  /** The present values of a column, in order (pandas skips NaN in `sum` and `mean`). */
  function Present(xs: seq<Option<real>>): (r: seq<real>)
    ensures |r| <= |xs|
    ensures forall k :: 0 <= k < |r| ==> Some(r[k]) in xs
    ensures (forall k :: 0 <= k < |xs| ==> xs[k].Some?) ==> |r| == |xs|
  {
    if xs == [] then []
    else Present(xs[..|xs| - 1]) + (if xs[|xs| - 1].Some? then [xs[|xs| - 1].value] else [])
  }

  /** pandas `.mean()` of a column with NaN: the mean of the present values, NaN (None) if there are none. */
  function MeanPresent(xs: seq<Option<real>>): (r: Option<real>)
    ensures r.None? <==> Present(xs) == []
  {
    var p := Present(xs);
    if p == [] then None else Some(Mean(p))
  }

  /** The largest element of a non-empty sequence. */
  function MaxOf(xs: seq<int>): (r: int)
    requires |xs| > 0
    ensures r in xs && forall k :: 0 <= k < |xs| ==> xs[k] <= r
  {
    if |xs| == 1 then xs[0]
    else var m := MaxOf(xs[..|xs| - 1]); if xs[|xs| - 1] > m then xs[|xs| - 1] else m
  }

  /** The smallest element of a non-empty sequence. */
  function MinOf(xs: seq<int>): (r: int)
    requires |xs| > 0
    ensures r in xs && forall k :: 0 <= k < |xs| ==> r <= xs[k]
  {
    if |xs| == 1 then xs[0]
    else var m := MinOf(xs[..|xs| - 1]); if xs[|xs| - 1] < m then xs[|xs| - 1] else m
  }

  /** The ratio of a count to a positive total, as the scripts compute shares. */
  function Ratio(count: nat, total: nat): (r: real)
    requires total > 0
    ensures r >= 0.0
    ensures count <= total ==> r <= 1.0
  {
    count as real / total as real
  }

  /** Shares of one total add up. */
  lemma RatioAdd(a: nat, b: nat, total: nat)
    requires total > 0
    ensures Ratio(a, total) + Ratio(b, total) == Ratio(a + b, total)
    ensures Ratio(a + b, total) == 1.0 <==> a + b == total
  {
    DivAdd(a as real, b as real, total as real);
    assert (a + b) as real == a as real + b as real;
    DivOne((a + b) as real, total as real);
  }

  lemma DivOne(x: real, n: real)
    requires n > 0.0
    ensures x / n == 1.0 <==> x == n
  {
    assert (x / n) * n == x;
  }

  lemma DivAdd(p: real, q: real, n: real)
    requires n > 0.0
    ensures p / n + q / n == (p + q) / n
  {
  }
}
