/**
 * The few pieces of Python's string and dictionary behaviour that the
 * request handling relies on: the query multimap produced by
 * `urllib.parse.parse_qs`, its "first value or default" lookup,
 * `str.lower()` and `int(str)`.
 */
module PyText {
  import opened Wrappers

  /** The values of one query parameter; `parse_qs` never produces an empty list. */
  type Values = vs: seq<string> | |vs| > 0 witness [""]

  /** A parsed query string: parameter name to the list of its values, in order. */
  type Query = map<string, Values>

  /** `query.get(key, [None])[0]`: the first value of `key`, if it is present. */
  function First(q: Query, key: string): (r: Option<string>)
    ensures r.Some? <==> key in q
    ensures r.Some? ==> r.value == q[key][0]
  {
    if key in q then Some(q[key][0]) else None
  }

  /** `query.get(key, [default])[0]`. */
  function FirstOr(q: Query, key: string, default: string): (r: string)
    ensures key !in q ==> r == default
    ensures key in q ==> r == q[key][0]
  {
    First(q, key).GetOr(default)
  }

  // ---------------------------------------------------------------- lower()

  /** Lower-casing of one character; only ASCII letters are changed. */
  function LowerChar(c: char): char {
    if 'A' <= c <= 'Z' then (c as int - 'A' as int + 'a' as int) as char else c
  }

  /** `str.lower()`, restricted to ASCII letters. */
  function AsciiLower(s: string): string {
    if s == [] then [] else [LowerChar(s[0])] + AsciiLower(s[1..])
  }

  lemma {:induction false} AsciiLowerLength(s: string)
    ensures |AsciiLower(s)| == |s|
  {
    if s != [] { AsciiLowerLength(s[1..]); }
  }

  lemma {:induction false} AsciiLowerAt(s: string, i: nat)
    requires i < |s|
    ensures |AsciiLower(s)| == |s| && AsciiLower(s)[i] == LowerChar(s[i])
  {
    AsciiLowerLength(s);
    if i > 0 { AsciiLowerAt(s[1..], i - 1); }
  }

  /** The character `c` is the letter `lower` in either case. */
  predicate SameLetter(c: char, lower: char)
    requires 'a' <= lower <= 'z'
  {
    c == lower || c as int == lower as int - 'a' as int + 'A' as int
  }

  /** One character lower-cases to `lower` exactly when it is that letter in either case. */
  lemma LowerCharIs(c: char, lower: char)
    requires 'a' <= lower <= 'z'
    ensures LowerChar(c) == lower <==> SameLetter(c, lower)
  {
  }

  lemma LowerOfFour(v: string)
    requires |v| == 4
    ensures AsciiLower(v) == [LowerChar(v[0]), LowerChar(v[1]), LowerChar(v[2]), LowerChar(v[3])]
  {
    var l := AsciiLower(v);
    AsciiLowerAt(v, 0);
    AsciiLowerAt(v, 1);
    AsciiLowerAt(v, 2);
    AsciiLowerAt(v, 3);
    assert |l| == 4;
    assert l == [l[0], l[1], l[2], l[3]];
  }

  /**
   * `v.lower() == "true"` holds exactly when `v` spells "true" in any mix
   * of upper and lower case.
   */
  lemma IsTrueIgnoringCase(v: string)
    ensures AsciiLower(v) == "true" <==>
      (|v| == 4 && SameLetter(v[0], 't') && SameLetter(v[1], 'r')
                && SameLetter(v[2], 'u') && SameLetter(v[3], 'e'))
  {
    AsciiLowerLength(v);
    if |v| == 4 {
      LowerOfFour(v);
      LowerCharIs(v[0], 't');
      LowerCharIs(v[1], 'r');
      LowerCharIs(v[2], 'u');
      LowerCharIs(v[3], 'e');
    }
  }

  // ---------------------------------------------------------------- int()

  /** The characters `int()` skips around its argument. */
  predicate IsSpace(c: char) {
    c == ' ' || c == '\t' || c == '\n' || c == '\r' || c == '\U{000B}' || c == '\U{000C}'
  }

  predicate IsDigit(c: char) {
    '0' <= c <= '9'
  }

  function DigitValue(c: char): (d: nat)
    requires IsDigit(c)
    ensures d < 10
  {
    c as int - '0' as int
  }

  function DigitChar(d: nat): (c: char)
    requires d < 10
    ensures IsDigit(c) && DigitValue(c) == d
  {
    ('0' as int + d) as char
  }

  /** `s` without its leading whitespace. */
  function TrimLeft(s: string): string
  {
    if s != [] && IsSpace(s[0]) then TrimLeft(s[1..]) else s
  }

  /** `s` without its trailing whitespace. */
  function TrimRight(s: string): string
  {
    if s != [] && IsSpace(s[|s| - 1]) then TrimRight(s[..|s| - 1]) else s
  }

  lemma {:induction false} TrimLeftIsSuffix(s: string)
    ensures |TrimLeft(s)| <= |s| && TrimLeft(s) == s[|s| - |TrimLeft(s)|..]
  {
    if s != [] && IsSpace(s[0]) {
      TrimLeftIsSuffix(s[1..]);
    }
  }

  lemma {:induction false} TrimRightIsPrefix(s: string)
    ensures |TrimRight(s)| <= |s| && TrimRight(s) == s[..|TrimRight(s)|]
  {
    if s != [] && IsSpace(s[|s| - 1]) {
      TrimRightIsPrefix(s[..|s| - 1]);
    }
  }

  function Strip(s: string): string {
    TrimRight(TrimLeft(s))
  }

  /** Digits and single underscores between digits, as `int()` accepts them. */
  predicate DigitGroup(d: string) {
    && |d| > 0
    && IsDigit(d[0]) && IsDigit(d[|d| - 1])
    && (forall i :: 0 <= i < |d| ==> IsDigit(d[i]) || d[i] == '_')
    && (forall i :: 0 <= i < |d| - 1 ==> IsDigit(d[i]) || IsDigit(d[i + 1]))
  }

  /** The decimal value of `d`, underscores ignored. */
  function GroupValue(d: string): nat
    requires forall i :: 0 <= i < |d| ==> IsDigit(d[i]) || d[i] == '_'
  {
    if d == [] then 0
    else
      var init := d[..|d| - 1];
      var last := d[|d| - 1];
      if last == '_' then GroupValue(init) else 10 * GroupValue(init) + DigitValue(last)
  }

  /** The text after an optional leading sign. */
  function Unsigned(t: string): string {
    if |t| > 0 && (t[0] == '+' || t[0] == '-') then t[1..] else t
  }

  /**
   * The default `sys.get_int_max_str_digits()`: `int()` refuses decimal
   * text with more digits than this, leading zeros included.
   */
  const MaxStrDigits := 4300

  /** The number of digit characters in `d`; underscores do not count. */
  function DigitCount(d: string): nat {
    if d == [] then 0
    else DigitCount(d[..|d| - 1]) + (if IsDigit(d[|d| - 1]) then 1 else 0)
  }

  /** `int(s)` in base 10: None where Python raises ValueError. */
  function ParseInt(s: string): Option<int> {
    var t := Strip(s);
    var digits := Unsigned(t);
    if !DigitGroup(digits) || DigitCount(digits) > MaxStrDigits then None
    else if |t| > 0 && t[0] == '-' then Some(0 - GroupValue(digits))
    else Some(GroupValue(digits))
  }

  // ---------------------------------------------------------------- str()

  /** The decimal digits of `n`, no leading zeros. */
  function Digits(n: nat): (s: string)
    ensures |s| > 0
    ensures forall i :: 0 <= i < |s| ==> IsDigit(s[i])
  {
    if n < 10 then [DigitChar(n)] else Digits(n / 10) + [DigitChar(n % 10)]
  }

  /** The decimal text of an integer, as `str(n)` writes it. */
  function Show(n: int): string {
    if n < 0 then "-" + Digits(-n) else Digits(n)
  }

  lemma {:induction false} GroupValueOfDigits(n: nat)
    ensures DigitGroup(Digits(n)) && GroupValue(Digits(n)) == n
  {
    if n >= 10 {
      GroupValueOfDigits(n / 10);
      var d := Digits(n);
      assert d[..|d| - 1] == Digits(n / 10);
    }
  }

  function Abs(n: int): nat {
    if n < 0 then -n else n
  }

  /** `10^k` */
  function Pow10(k: nat): (r: nat)
    ensures r >= 1
  {
    if k == 0 then 1 else 10 * Pow10(k - 1)
  }

  /** `n` has at most `k` decimal digits exactly when it is below `10^k`. */
  lemma {:induction false} DigitsLength(n: nat, k: nat)
    requires k >= 1
    ensures |Digits(n)| <= k <==> n < Pow10(k)
  {
    if n >= 10 {
      if k == 1 {
        assert Pow10(1) == 10;
      } else {
        DigitsLength(n / 10, k - 1);
        assert n < Pow10(k) <==> n / 10 < Pow10(k - 1);
      }
    } else {
      assert Pow10(k) == 10 * Pow10(k - 1);
    }
  }

  lemma {:induction false} DigitCountOfDigits(d: string)
    requires forall i :: 0 <= i < |d| ==> IsDigit(d[i])
    ensures DigitCount(d) == |d|
  {
    if d != [] {
      DigitCountOfDigits(d[..|d| - 1]);
    }
  }

  /** The decimal text of `n`, sign removed and surrounding whitespace stripped. */
  lemma ShowParts(n: int)
    ensures var m := Abs(n);
      && Strip(Show(n)) == Show(n)
      && Unsigned(Show(n)) == Digits(m)
      && (n < 0 <==> Show(n)[0] == '-')
  {
    var s := Show(n);
    var m := Abs(n);
    if n < 0 {
      assert s == "-" + Digits(m);
      StripUnpadded(s);
      assert Unsigned(s) == Digits(m);
    } else {
      assert s == Digits(m);
      StripUnpadded(s);
      assert Unsigned(s) == s;
    }
  }

  /** What `int()` makes of text that is already stripped and whose unsigned part is a digit group. */
  lemma ParseStripped(s: string)
    requires Strip(s) == s && DigitGroup(Unsigned(s))
    ensures var d := Unsigned(s);
      ParseInt(s) == if DigitCount(d) > MaxStrDigits then None
                     else if |s| > 0 && s[0] == '-' then Some(0 - GroupValue(d))
                     else Some(GroupValue(d))
  {
  }

  /**
   * `int()` reads the decimal text of an integer back as that integer
   * exactly when it has at most `MaxStrDigits` digits, that is when its
   * magnitude is below `10^4300`; longer text makes it raise.
   */
  lemma ParseShow(n: int)
    ensures Abs(n) < Pow10(MaxStrDigits) ==> ParseInt(Show(n)) == Some(n)
    ensures Abs(n) >= Pow10(MaxStrDigits) ==> ParseInt(Show(n)) == None
  {
    var m := Abs(n);
    var d := Digits(m);
    GroupValueOfDigits(m);
    DigitCountOfDigits(d);
    DigitsLength(m, MaxStrDigits);
    ShowParts(n);
    ParseStripped(Show(n));
  }

  /** Small integers are within `int()`'s digit limit. */
  lemma SmallWithinLimit(n: int)
    requires -10 < n < 10
    ensures Abs(n) < Pow10(MaxStrDigits)
  {
    DigitsLength(Abs(n), MaxStrDigits);
  }

  /** Digits only, more of them than `MaxStrDigits`: `int()` raises, whatever their value. */
  lemma ParseRejectsOverlong(d: string)
    requires |d| > MaxStrDigits
    requires forall i :: 0 <= i < |d| ==> IsDigit(d[i])
    ensures ParseInt(d) == None
  {
    DigitCountOfDigits(d);
    StripUnpadded(d);
  }

  /** Text that neither starts nor ends with whitespace is its own strip. */
  lemma StripUnpadded(s: string)
    requires |s| > 0 && !IsSpace(s[0]) && !IsSpace(s[|s| - 1])
    ensures Strip(s) == s
  {
    assert TrimLeft(s) == s;
  }

  /** Text without any decimal digit makes `int()` raise. */
  lemma ParseNeedsDigit(s: string)
    requires forall i :: 0 <= i < |s| ==> !IsDigit(s[i])
    ensures ParseInt(s) == None
  {
    var t := TrimLeft(s);
    var u := TrimRight(t);
    TrimLeftIsSuffix(s);
    TrimRightIsPrefix(t);
    var digits := Unsigned(u);
    assert forall i :: 0 <= i < |digits| ==> !IsDigit(digits[i]) by {
      forall i | 0 <= i < |digits|
        ensures !IsDigit(digits[i])
      {
        var j := i + (|u| - |digits|);
        assert digits[i] == u[j] == t[j] == s[j + (|s| - |t|)];
      }
    }
  }

  predicate AllSpace(s: string) {
    forall i :: 0 <= i < |s| ==> IsSpace(s[i])
  }

  /** Any whitespace around the text does not change what `int()` reads. */
  lemma ParseIgnoresPadding(p: string, s: string, q: string)
    requires AllSpace(p) && AllSpace(q)
    ensures ParseInt(p + s + q) == ParseInt(s)
  {
    StripPadded(p, s, q);
  }

  lemma StripPadded(p: string, s: string, q: string)
    requires AllSpace(p) && AllSpace(q)
    ensures Strip(p + s + q) == Strip(s)
  {
    var x := p + s + q;
    var t := TrimLeft(s);
    TrimLeftSkips(x, |p|);
    assert x[|p|..] == s + q;
    TrimLeftThenSpaces(s, q);
    TrimLeftSkips(q, |q|);
    assert q[|q|..] == [];
    if t != [] {
      TrimRightSkips(t + q, |q|);
      assert (t + q)[..|t|] == t;
    }
  }

  /** Leading whitespace is skipped by `TrimLeft`. */
  lemma {:induction false} TrimLeftSkips(x: string, k: nat)
    requires k <= |x| && forall i :: 0 <= i < k ==> IsSpace(x[i])
    ensures TrimLeft(x) == TrimLeft(x[k..])
    decreases k
  {
    if k > 0 {
      assert TrimLeft(x) == TrimLeft(x[1..]);
      TrimLeftSkips(x[1..], k - 1);
      assert x[1..][k - 1..] == x[k..];
    }
  }

  lemma {:induction false} TrimLeftThenSpaces(s: string, q: string)
    ensures TrimLeft(s + q) == if TrimLeft(s) == [] then TrimLeft(q) else TrimLeft(s) + q
  {
    if s == [] {
      assert s + q == q;
    } else if IsSpace(s[0]) {
      assert (s + q)[1..] == s[1..] + q;
      TrimLeftThenSpaces(s[1..], q);
    }
  }

  /** Trailing whitespace is skipped by `TrimRight`. */
  lemma {:induction false} TrimRightSkips(x: string, k: nat)
    requires k <= |x| && forall i :: |x| - k <= i < |x| ==> IsSpace(x[i])
    ensures TrimRight(x) == TrimRight(x[..|x| - k])
    decreases k
  {
    if k > 0 {
      var y := x[..|x| - 1];
      assert TrimRight(x) == TrimRight(y);
      TrimRightSkips(y, k - 1);
      assert y[..|y| - (k - 1)] == x[..|x| - k];
    } else {
      assert x[..|x|] == x;
    }
  }
}
