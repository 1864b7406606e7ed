/** The few pieces of JavaScript run-time behaviour that the dashboard's
    handlers rely on: optional values, truthiness of strings and ids,
    number-to-string conversion, `parseInt`, `String.prototype.split`,
    string ordering, `toLowerCase`, `includes`, and the IEEE results of a
    division that may be by zero. */
module JsRuntime {

  datatype Option<+T> = None | Some(value: T) {
    /** `x ?? d` */
    function GetOr(d: T): T {
      match this
      case Some(v) => v
      case None => d
    }
  }

  /** JavaScript truthiness of an optional string: present and not empty. */
  predicate Filled(s: Option<string>) {
    s.Some? && s.value != ""
  }

  /** `s || d` for an optional string. */
  function OrElse(s: Option<string>, d: string): string {
    if Filled(s) then s.value else d
  }

  /** JavaScript truthiness of an optional numeric id: present and not 0. */
  predicate TruthyId(id: Option<int>) {
    id.Some? && id.value != 0
  }

  // ---------------------------------------------------------------------
  // Decimal digits

  predicate IsDigit(c: char) {
    '0' <= c <= '9'
  }

  predicate AllDigits(s: string) {
    forall i :: 0 <= i < |s| ==> IsDigit(s[i])
  }

  function DigitChar(d: nat): (c: char)
    requires d < 10
    ensures IsDigit(c)
  {
    (48 + d) as char
  }

  function DigitValue(c: char): (d: nat)
    requires IsDigit(c)
    ensures d < 10 && DigitChar(d) == c
  {
    c as int - 48
  }

  /** `String(n)` for a non-negative integer. */
  function NatToString(n: nat): (s: string)
    ensures 1 <= |s| && AllDigits(s)
    ensures n < 10 <==> |s| == 1
    decreases n
  {
    if n < 10 then [DigitChar(n)] else NatToString(n / 10) + [DigitChar(n % 10)]
  }

  /** `String(i)` for any integer. */
  function IntToString(i: int): (s: string)
    ensures 0 <= i ==> AllDigits(s)
    ensures i < 0 ==> |s| >= 2 && s[0] == '-' && AllDigits(s[1..])
  {
    if i < 0 then "-" + NatToString(-i) else NatToString(i)
  }

  /** `String(n).padStart(2, '0')`: one leading zero below ten, no truncation above 99. */
  function Pad2(n: nat): (s: string)
    ensures AllDigits(s) && |s| >= 2
    ensures n < 100 ==> |s| == 2
  {
    if n < 10 then "0" + NatToString(n) else NatToString(n)
  }

  /** The value of a string of decimal digits, read left to right. */
  function DigitsValue(s: string): nat
    requires AllDigits(s)
  {
    if s == [] then 0 else DigitsValue(s[..|s| - 1]) * 10 + DigitValue(s[|s| - 1])
  }

  lemma {:induction false} NatToStringRoundTrip(n: nat)
    ensures DigitsValue(NatToString(n)) == n
    decreases n
  {
    var s := NatToString(n);
    if n >= 10 {
      NatToStringRoundTrip(n / 10);
      assert s[..|s| - 1] == NatToString(n / 10);
    }
  }

  /** A leading zero does not change the value of a digit string. */
  lemma {:induction false} LeadingZero(s: string)
    requires AllDigits(s)
    ensures AllDigits("0" + s) && DigitsValue("0" + s) == DigitsValue(s)
    decreases |s|
  {
    var z := "0" + s;
    if s != [] {
      LeadingZero(s[..|s| - 1]);
      assert z[..|z| - 1] == "0" + s[..|s| - 1];
    }
  }

  lemma Pad2RoundTrip(n: nat)
    ensures DigitsValue(Pad2(n)) == n
  {
    NatToStringRoundTrip(n);
    if n < 10 {
      LeadingZero(NatToString(n));
    }
  }

  /** Distinct numbers have distinct decimal strings. */
  lemma NatToStringInjective(a: nat, b: nat)
    requires NatToString(a) == NatToString(b)
    ensures a == b
  {
    NatToStringRoundTrip(a);
    NatToStringRoundTrip(b);
  }

  /** The longest prefix of `s` made of decimal digits. */
  function LeadingDigits(s: string): (p: string)
    ensures AllDigits(p) && |p| <= |s| && p == s[..|p|]
    ensures |p| < |s| ==> !IsDigit(s[|p|])
  {
    if s == [] || !IsDigit(s[0]) then [] else [s[0]] + LeadingDigits(s[1..])
  }

  /** `parseInt(s)` for a string that starts with digits (no sign, no white space):
      `None` stands for NaN. */
  function ParseInt(s: string): (r: Option<nat>)
    ensures r.None? <==> (s == [] || !IsDigit(s[0]))
  {
    var p := LeadingDigits(s);
    if p == [] then None else Some(DigitsValue(p))
  }

  /** `parseInt` of a non-empty digit string is its value. */
  lemma ParseDigits(s: string)
    requires AllDigits(s) && s != []
    ensures ParseInt(s) == Some(DigitsValue(s))
  {
    LeadingDigitsOfDigits(s);
  }

  lemma {:induction false} LeadingDigitsOfDigits(s: string)
    requires AllDigits(s)
    ensures LeadingDigits(s) == s
    decreases |s|
  {
    if s != [] {
      LeadingDigitsOfDigits(s[1..]);
      assert [s[0]] + s[1..] == s;
    }
  }

  // ---------------------------------------------------------------------
  // String.prototype.split with a one-character separator

  function SplitOn(s: string, sep: char): (parts: seq<string>)
    ensures |parts| >= 1
    decreases |s|
  {
    if s == [] then [""]
    else
      var rest := SplitOn(s[1..], sep);
      if s[0] == sep then [""] + rest else [[s[0]] + rest[0]] + rest[1..]
  }

  /** Splitting at the first separator: a separator-free head comes off whole. */
  lemma {:induction false} SplitHead(a: string, sep: char, b: string)
    requires sep !in a
    ensures SplitOn(a + [sep] + b, sep) == [a] + SplitOn(b, sep)
    decreases |a|
  {
    if a == [] {
      assert a + [sep] + b == [sep] + b;
      assert ([sep] + b)[1..] == b;
    } else {
      SplitHead(a[1..], sep, b);
      assert (a + [sep] + b)[1..] == a[1..] + [sep] + b;
      assert [a[0]] + a[1..] == a;
    }
  }

  lemma {:induction false} SplitNoSeparator(a: string, sep: char)
    requires sep !in a
    ensures SplitOn(a, sep) == [a]
    decreases |a|
  {
    if a != [] {
      SplitNoSeparator(a[1..], sep);
      assert [a[0]] + a[1..] == a;
    }
  }

  // ---------------------------------------------------------------------
  // String order (lexicographic on code points)

  /** `a < b` on JavaScript strings, lexicographic on characters. A `char`
      here is a Unicode scalar value, so this is code-point order; it agrees
      with JavaScript's UTF-16 code-unit order except between a character
      above U+FFFF and one in U+E000-U+FFFF. */
  predicate StrLess(a: string, b: string)
    decreases |a|
  {
    if a == [] then b != []
    else if b == [] then false
    else if a[0] != b[0] then a[0] < b[0]
    else StrLess(a[1..], b[1..])
  }

  lemma {:induction false} StrLessIrreflexive(a: string)
    ensures !StrLess(a, a)
    decreases |a|
  {
    if a != [] {
      StrLessIrreflexive(a[1..]);
    }
  }

  lemma {:induction false} StrLessTransitive(a: string, b: string, c: string)
    requires StrLess(a, b) && StrLess(b, c)
    ensures StrLess(a, c)
    decreases |a|
  {
    if a != [] && b != [] && c != [] && a[0] == b[0] && b[0] == c[0] {
      StrLessTransitive(a[1..], b[1..], c[1..]);
    }
  }

  lemma {:induction false} StrLessTotal(a: string, b: string)
    requires a != b
    ensures StrLess(a, b) || StrLess(b, a)
    decreases |a|
  {
    if a != [] && b != [] && a[0] == b[0] {
      assert a == [a[0]] + a[1..] && b == [b[0]] + b[1..];
      StrLessTotal(a[1..], b[1..]);
    }
  }

  lemma {:induction false} StrLessAsymmetric(a: string, b: string)
    requires StrLess(a, b)
    ensures !StrLess(b, a)
    decreases |a|
  {
    if a != [] && b != [] && a[0] == b[0] {
      StrLessAsymmetric(a[1..], b[1..]);
    }
  }

  /** `a.localeCompare(b)`, stood in for by code-point order: -1, 0 or 1. */
  function StrCompare(a: string, b: string): (r: int)
    ensures r == 0 <==> a == b
    ensures r < 0 <==> StrLess(a, b)
    ensures r > 0 <==> StrLess(b, a)
    ensures -1 <= r <= 1
  {
    if a == b then
      StrLessIrreflexive(a);
      0
    else
      StrLessTotal(a, b);
      if StrLess(a, b) then StrLessAsymmetric(a, b); -1 else 1
  }

  // ---------------------------------------------------------------------
  // toLowerCase and includes

  /** Lower-casing of one character: ASCII and Latin-1 capitals (which cover
      Spanish letters such as Á, Ñ and Ü); other scripts are left alone. */
  function LowerChar(c: char): char {
    if 'A' <= c <= 'Z' || ('À' <= c <= 'Þ' && c != '×') then
      (c as int + 32) as char
    else c
  }

  function ToLower(s: string): (r: string)
    ensures |r| == |s| && forall i :: 0 <= i < |s| ==> r[i] == LowerChar(s[i])
  {
    seq(|s|, i requires 0 <= i < |s| => LowerChar(s[i]))
  }

  predicate IsPrefix(p: string, s: string) {
    |p| <= |s| && s[..|p|] == p
  }

  /** `s.includes(t)`: scans the start positions of `s` one by one. */
  function Includes(s: string, t: string): bool
    decreases |s|
  {
    if IsPrefix(t, s) then true
    else if s == [] then false
    else Includes(s[1..], t)
  }

  /** `t` occurs in `s` starting at position `i`. */
  predicate OccursAt(s: string, t: string, i: int) {
    0 <= i && i + |t| <= |s| && s[i..i + |t|] == t
  }

  /** The scan finds `t` exactly when `t` occurs in `s` at some position. */
  lemma {:induction false} IncludesIff(s: string, t: string)
    ensures Includes(s, t) <==> exists i :: OccursAt(s, t, i)
    decreases |s|
  {
    if IsPrefix(t, s) {
      assert OccursAt(s, t, 0);
    } else if s == [] {
      assert forall i :: !OccursAt(s, t, i);
    } else {
      IncludesIff(s[1..], t);
      if Includes(s[1..], t) {
        var i :| OccursAt(s[1..], t, i);
        assert s[i + 1..i + 1 + |t|] == s[1..][i..i + |t|];
        assert OccursAt(s, t, i + 1);
      } else {
        assert forall j :: !OccursAt(s[1..], t, j);
        forall i | 0 < i && i + |t| <= |s|
          ensures !OccursAt(s, t, i)
        {
          assert s[i..i + |t|] == s[1..][i - 1..i - 1 + |t|];
          assert OccursAt(s, t, i) ==> OccursAt(s[1..], t, i - 1);
        }
      }
    }
  }

  /** An empty needle is always found. */
  lemma IncludesEmpty(s: string)
    ensures Includes(s, "")
  {
  }

  // ---------------------------------------------------------------------
  // JavaScript numbers produced by a division

  /** The number a ratio can produce: a finite value, an infinity, or NaN. */
  datatype Num = Finite(r: real) | PosInfinity | NegInfinity | NaN

  /** `a / b` on exact values: division by zero gives an infinity, or NaN for 0 / 0. */
  function Divide(a: int, b: int): (n: Num)
    ensures b != 0 ==> n == Finite(a as real / b as real)
    ensures b == 0 && a > 0 ==> n == PosInfinity
    ensures b == 0 && a < 0 ==> n == NegInfinity
    ensures b == 0 && a == 0 ==> n == NaN
  {
    if b != 0 then Finite(a as real / b as real)
    else if a > 0 then PosInfinity
    else if a < 0 then NegInfinity
    else NaN
  }

  /** `n * k` for a positive constant k. */
  function Scale(n: Num, k: int): Num
    requires k > 0
  {
    match n
    case Finite(r) => Finite(r * k as real)
    case _ => n
  }

  /** `Math.round(n)`: nearest integer, halves rounded up. */
  function Round(n: Num): (m: Num)
    ensures n.Finite? ==> m.Finite? && m.r - 0.5 <= n.r < m.r + 0.5
    ensures n.Finite? ==> m.r == m.r.Floor as real
    ensures !n.Finite? ==> m == n
  {
    match n
    case Finite(r) => Finite((r + 0.5).Floor as real)
    case _ => n
  }

  /** `Math.min(n, cap)`. */
  function MinWith(n: Num, cap: real): (m: Num)
    ensures m != NaN ==> m.Finite? || m == NegInfinity
    ensures m.Finite? ==> m.r <= cap
    ensures n == NaN <==> m == NaN
  {
    match n
    case Finite(r) => if r <= cap then n else Finite(cap)
    case PosInfinity => Finite(cap)
    case NegInfinity => NegInfinity
    case NaN => NaN
  }

  /** `(a / b) * 100`. */
  function PercentOf(a: int, b: int): (n: Num)
    ensures b != 0 ==> n == Finite((a as real / b as real) * 100.0)
    ensures b == 0 ==> n == Divide(a, b)
  {
    Scale(Divide(a, b), 100)
  }

  /** `Math.min((a / b) * 100, 100)`, the width of a progress bar: never above
      100, and NaN when both are zero. */
  function CappedPercent(a: int, b: int): (n: Num)
    ensures b != 0 ==> n.Finite? && n.r <= 100.0
    ensures b != 0 ==> var p := (a as real / b as real) * 100.0;
                       n.r == if p <= 100.0 then p else 100.0
    ensures b == 0 && a > 0 ==> n == Finite(100.0)
    ensures b == 0 && a == 0 ==> n == NaN
  {
    MinWith(PercentOf(a, b), 100.0)
  }

  /** With a positive divisor, `(a / b) * 100` reaches 100 exactly when a reaches b. */
  lemma PercentReachesHundred(a: int, b: int)
    requires b > 0
    ensures (a as real / b as real) * 100.0 >= 100.0 <==> a >= b
  {
    var q := a as real / b as real;
    assert q * b as real == a as real;
    if a >= b {
      assert (q - 1.0) * b as real == a as real - b as real >= 0.0;
    } else {
      assert q * b as real < 1.0 * b as real;
    }
  }
}
