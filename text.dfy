/**
 * The pieces of Go's standard library that the karma processor relies on:
 * `strings.Fields`, `strconv.Atoi`, `strconv.Itoa` (which is also how `%v`
 * prints an int), a delimiter join, and `strings.Builder`.
 */
module Text {
  import opened Results

  // ---------------------------------------------------------------------
  // strings.Fields

  /** `unicode.IsSpace`: the Latin-1 spaces and the other Unicode White_Space characters. */
  predicate IsSpace(c: char) {
    var n := c as int;
    (9 <= n <= 13) || n == 0x20 || n == 0x85 || n == 0xA0 || n == 0x1680
    || (0x2000 <= n <= 0x200A) || n == 0x2028 || n == 0x2029 || n == 0x202F
    || n == 0x205F || n == 0x3000
  }

  /** A non-empty run of non-space characters: what `strings.Fields` returns. */
  predicate IsWord(w: string) {
    |w| > 0 && forall i :: 0 <= i < |w| ==> !IsSpace(w[i])
  }

  predicate AllSpace(s: string) {
    forall i :: 0 <= i < |s| ==> IsSpace(s[i])
  }

  /** Length of the run of non-space characters at the front of s. */
  function WordLength(s: string): (n: nat)
    ensures n <= |s|
    ensures forall i :: 0 <= i < n ==> !IsSpace(s[i])
    ensures n == |s| || IsSpace(s[n])
  {
    if s == [] || IsSpace(s[0]) then 0 else 1 + WordLength(s[1..])
  }

  /** `strings.Fields`: the maximal runs of non-space characters, in order. */
  function Fields(s: string): (ws: seq<string>)
    ensures forall i :: 0 <= i < |ws| ==> IsWord(ws[i])
    ensures ws == [] <==> AllSpace(s)
    decreases |s|
  {
    if s == [] then []
    else if IsSpace(s[0]) then Fields(s[1..])
    else
      var n := WordLength(s);
      [s[..n]] + Fields(s[n..])
  }

  // ---------------------------------------------------------------------
  // Joining with a delimiter (the shape of a sentence written piece by piece)

  function Join(delim: string, xs: seq<string>): string {
    if |xs| == 0 then ""
    else if |xs| == 1 then xs[0]
    else Join(delim, xs[..|xs| - 1]) + delim + xs[|xs| - 1]
  }

  lemma {:induction false} JoinCons(delim: string, x: string, xs: seq<string>)
    requires |xs| > 0
    ensures Join(delim, [x] + xs) == x + delim + Join(delim, xs)
    decreases |xs|
  {
    if |xs| == 1 {
      assert ([x] + xs)[..1] == [x];
    } else {
      var ys := [x] + xs;
      assert ys[..|ys| - 1] == [x] + xs[..|xs| - 1];
      JoinCons(delim, x, xs[..|xs| - 1]);
    }
  }

  /** Splitting a space-joined list of words gives the words back. */
  lemma {:induction false} FieldsOfJoin(ws: seq<string>)
    requires forall i :: 0 <= i < |ws| ==> IsWord(ws[i])
    ensures Fields(Join(" ", ws)) == ws
    decreases |ws|
  {
    if |ws| == 1 {
      FieldsOfWord(ws[0], "");
      assert ws[0] + "" == ws[0];
    } else if |ws| > 1 {
      var rest := ws[1..];
      assert ws == [ws[0]] + rest;
      JoinCons(" ", ws[0], rest);
      FieldsOfJoin(rest);
      FieldsOfWord(ws[0], " " + Join(" ", rest));
      FieldsSkipsSpace(Join(" ", rest));
      ConcatAssoc(ws[0], " ", Join(" ", rest));
    }
  }

  /** A leading space separates no field. */
  lemma FieldsSkipsSpace(t: string)
    ensures Fields(" " + t) == Fields(t)
  {
    assert (" " + t)[1..] == t;
  }

  /** A word followed by nothing or by a space is the first field. */
  lemma FieldsOfWord(w: string, tail: string)
    requires IsWord(w)
    requires tail == [] || IsSpace(tail[0])
    ensures Fields(w + tail) == [w] + Fields(tail)
  {
    var s := w + tail;
    WordLengthOfWord(w, tail);
    assert s[..|w|] == w;
    assert s[|w|..] == tail;
  }

  /** Two words with a space between them split back into those two words. */
  lemma FieldsOfTwoWords(a: string, b: string)
    requires IsWord(a) && IsWord(b)
    ensures Fields(a + " " + b) == [a, b]
  {
    var ws := [a, b];
    assert Join(" ", ws) == a + " " + b by {
      assert ws[..1] == [a];
    }
    FieldsOfJoin(ws);
  }

  lemma {:induction false} WordLengthOfWord(w: string, tail: string)
    requires forall i :: 0 <= i < |w| ==> !IsSpace(w[i])
    requires tail == [] || IsSpace(tail[0])
    ensures WordLength(w + tail) == |w|
    decreases |w|
  {
    if w != [] {
      assert (w + tail)[1..] == w[1..] + tail;
      WordLengthOfWord(w[1..], tail);
    }
  }

  // ---------------------------------------------------------------------
  // Decimal numbers: strconv.Itoa and strconv.Atoi

  predicate IsDigit(c: char) {
    '0' <= c <= '9'
  }

  predicate AllDigits(s: string) {
    forall i :: 0 <= i < |s| ==> IsDigit(s[i])
  }

  function DigitChar(d: nat): (c: char)
    requires d < 10
    ensures IsDigit(c)
  {
    ('0' as int + d) as char
  }

  function DigitValue(c: char): (d: nat)
    requires IsDigit(c)
    ensures d < 10
  {
    c as int - '0' as int
  }

  /** Decimal digits of n, most significant first, no leading zeros. */
  function NatToString(n: nat): (s: string)
    ensures |s| > 0 && AllDigits(s)
    ensures |s| > 1 ==> s[0] != '0'
    decreases n
  {
    if n < 10 then [DigitChar(n)] else NatToString(n / 10) + [DigitChar(n % 10)]
  }

  /** `strconv.Itoa(n)`, which is also what `fmt` prints for `%v` of an int. */
  function Itoa(n: int): (s: string)
    ensures |s| > 0
    ensures s[0] == '-' <==> n < 0
    ensures AllDigits(s[1..]) && (n >= 0 ==> AllDigits(s))
  {
    if n < 0 then "-" + NatToString(-n) else NatToString(n)
  }

  /** Value of a string of decimal digits. */
  function DigitsValue(s: string): nat
    requires AllDigits(s)
    decreases |s|
  {
    if s == [] then 0 else DigitsValue(s[..|s| - 1]) * 10 + DigitValue(s[|s| - 1])
  }

  /** The syntax `strconv.Atoi` accepts: an optional `+` or `-`, then one or more ASCII digits. */
  predicate IsDecimal(s: string) {
    if |s| > 0 && (s[0] == '+' || s[0] == '-') then |s| > 1 && AllDigits(s[1..])
    else |s| > 0 && AllDigits(s)
  }

  /** `strconv.Atoi`; Go's 64-bit range error is not modelled (ints are unbounded). */
  function Atoi(s: string): (r: Option<int>)
    ensures r.Some? <==> IsDecimal(s)
    ensures r.Some? && r.value < 0 ==> s[0] == '-'
  {
    if |s| > 0 && (s[0] == '+' || s[0] == '-') then
      if |s| > 1 && AllDigits(s[1..]) then
        var v: int := DigitsValue(s[1..]);
        Some(if s[0] == '-' then -v else v)
      else None
    else if |s| > 0 && AllDigits(s) then Some(DigitsValue(s))
    else None
  }

  lemma {:induction false} DigitsOfNat(n: nat)
    ensures DigitsValue(NatToString(n)) == n
    decreases n
  {
    if n >= 10 {
      var s := NatToString(n);
      var p := NatToString(n / 10);
      assert s == p + [DigitChar(n % 10)];
      assert s[..|s| - 1] == p;
      DigitsOfNat(n / 10);
    }
  }

  /** `strconv.Atoi` accepts a leading plus sign, which `strconv.Itoa` never writes. */
  lemma PlusSignExample()
    ensures Atoi("+3") == Some(3) && Itoa(3) == "3" && IsWord("+3")
  {
    assert "+3"[1..] == "3";
  }

  /** Printing a number and parsing it back gives the number. */
  lemma AtoiOfItoa(n: int)
    ensures Atoi(Itoa(n)) == Some(n)
  {
    if n < 0 {
      var d := NatToString(-n);
      assert Itoa(n) == "-" + d;
      assert ("-" + d)[1..] == d;
      DigitsOfNat(-n);
      assert Atoi("-" + d) == Some(n);
    } else {
      var d := NatToString(n);
      DigitsOfNat(n);
      assert IsDigit(d[0]);
      assert Atoi(d) == Some(DigitsValue(d));
    }
  }

  lemma ItoaInjective(a: int, b: int)
    requires Itoa(a) == Itoa(b)
    ensures a == b
  {
    AtoiOfItoa(a);
    AtoiOfItoa(b);
  }

  /**
   * A printed number is delimited by the first non-digit after it, so a message
   * that embeds one number determines that number.
   */
  lemma ItoaPrefix(a: int, b: int, x: string, y: string)
    requires Itoa(a) + x == Itoa(b) + y
    requires x == [] || !IsDigit(x[0])
    requires y == [] || !IsDigit(y[0])
    ensures a == b && x == y
  {
    var sa, sb := Itoa(a), Itoa(b);
    var s := sa + x;
    PrintedLength(a, x);
    PrintedLength(b, y);
    assert sa == s[..|sa|] == sb;
    assert x == s[|sa|..] == y;
    ItoaInjective(a, b);
  }

  /** `p`, the decimal form of m, then x: the text `fmt` writes for one `%v` between p and x. */
  function Interpolate(p: string, m: int, x: string): string {
    p + Itoa(m) + x
  }

  /** A printed number holds no line break, so interpolating one adds none. */
  lemma InterpolateNewlines(p: string, m: int, x: string)
    ensures multiset(Interpolate(p, m, x))['\n'] == multiset(p)['\n'] + multiset(x)['\n']
  {
    var t := Itoa(m);
    forall i | 0 <= i < |t|
      ensures t[i] != '\n'
    {
      if i > 0 {
        assert t[1..][i - 1] == t[i];
      }
    }
    assert '\n' !in multiset(t);
  }

  /** Text appended after an interpolation belongs to its suffix. */
  lemma InterpolateAppend(p: string, m: int, x: string, y: string)
    ensures Interpolate(p, m, x) + y == Interpolate(p, m, x + y)
  {
  }

  /** s ends with t. */
  predicate EndsWith(s: string, t: string) {
    |t| <= |s| && s[|s| - |t|..] == t
  }

  /** An interpolation ends with the end of its suffix. */
  lemma InterpolateEndsWith(p: string, m: int, x: string, y: string)
    ensures EndsWith(Interpolate(p, m, x + y), y)
  {
    var h := Interpolate(p, m, x);
    InterpolateAppend(p, m, x, y);
    assert (h + y)[|h|..] == y;
  }

  /** A string whose only line break is its last character. */
  lemma OneLine(s: string)
    requires |s| > 0 && s[|s| - 1] == '\n'
    requires forall i :: 0 <= i < |s| - 1 ==> s[i] != '\n'
    ensures multiset(s)['\n'] == 1
  {
    var init := s[..|s| - 1];
    assert s == init + [s[|s| - 1]];
    assert '\n' !in init;
  }

  /** The number in an interpolation, and what follows it, are determined when what follows starts with no digit. */
  lemma InterpolateInjective(p: string, m: int, x: string, m': int, x': string)
    requires Interpolate(p, m, x) == Interpolate(p, m', x')
    requires x == [] || !IsDigit(x[0])
    requires x' == [] || !IsDigit(x'[0])
    ensures m == m' && x == x'
  {
    var a, b := Itoa(m) + x, Itoa(m') + x';
    ConcatAssoc(p, Itoa(m), x);
    ConcatAssoc(p, Itoa(m'), x');
    CancelPrefix(p, a, b);
    ItoaPrefix(m, m', x, x');
  }

  /** First index at or after k that does not hold a digit (or |s|). */
  function DigitRunEnd(s: string, k: nat): nat
    requires k <= |s|
    decreases |s| - k
  {
    if k == |s| || !IsDigit(s[k]) then k else DigitRunEnd(s, k + 1)
  }

  lemma {:induction false} DigitRunEndAt(s: string, k: nat, m: nat)
    requires k <= m <= |s|
    requires forall i :: k <= i < m ==> IsDigit(s[i])
    requires m == |s| || !IsDigit(s[m])
    ensures DigitRunEnd(s, k) == m
    decreases m - k
  {
    if k < m {
      DigitRunEndAt(s, k + 1, m);
    }
  }

  /** The digits of a printed number end where the number ends. */
  lemma PrintedLength(n: int, x: string)
    requires x == [] || !IsDigit(x[0])
    ensures DigitRunEnd(Itoa(n) + x, 1) == |Itoa(n)|
  {
    var s := Itoa(n) + x;
    forall i | 1 <= i < |Itoa(n)| ensures IsDigit(s[i]) {
      assert s[i] == Itoa(n)[1..][i - 1];
    }
    DigitRunEndAt(s, 1, |Itoa(n)|);
  }

  /** Concatenation of strings is associative. */
  lemma ConcatAssoc(a: string, b: string, c: string)
    ensures a + b + c == a + (b + c)
  {
  }

  /** Two strings with a common prefix agree on what follows it. */
  lemma CancelPrefix(p: string, x: string, y: string)
    requires p + x == p + y
    ensures x == y
  {
    assert x == (p + x)[|p|..];
    assert y == (p + y)[|p|..];
  }

  // ---------------------------------------------------------------------
  // strings.Builder

  /** `strings.Builder`: a buffer that only grows at its end. */
  class Builder {
    var buf: string

    constructor ()
      ensures buf == ""
    {
      buf := "";
    }

    method WriteString(s: string)
      modifies this
      ensures buf == old(buf) + s
    {
      buf := buf + s;
    }
  }
}
