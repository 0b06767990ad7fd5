/**
 * Money as decimal strings: the one canonical form of a value, conversion from atomic units, and the in-process sum
 * (packages/decision-core/src/schemas.ts, packages/x402-adapter/src/binding.ts, packages/policy-engine/src/evaluate.ts).
 * Values are counted in units of 10^-18.
 */
module Amounts {
  import opened Prelude

  /** Products of variables, kept apart from linear reasoning. */
  function Times(a: nat, b: nat): nat { a * b }

  /** Units in one whole. */
  const SCALE: nat := 1_000_000_000_000_000_000

  function Pow10(n: nat): (p: nat)
    ensures p >= 1
  {
    if n == 0 then 1 else 10 * Pow10(n - 1)
  }

  predicate IsDigit(c: char) { '0' <= c <= '9' }
  predicate IsDigits(s: string) { forall i :: 0 <= i < |s| ==> IsDigit(s[i]) }

  function DigitOf(c: char): (d: nat)
    requires IsDigit(c)
    ensures d < 10
  {
    c as int - '0' as int
  }

  function CharOf(d: nat): (c: char)
    requires d < 10
    ensures IsDigit(c) && DigitOf(c) == d
  {
    ('0' as int + d) as char
  }

  function Value(s: string): nat
    requires IsDigits(s)
    decreases |s|
  {
    if s == "" then 0 else 10 * Value(s[..|s| - 1]) + DigitOf(s[|s| - 1])
  }

  /** Digits without a leading zero, as in an unsigned integer. */
  predicate IsWhole(s: string) {
    IsDigits(s) && s != "" && (s[0] == '0' ==> |s| == 1)
  }

  predicate IsFraction(s: string) {
    IsDigits(s) && 2 <= |s| <= 18 && (|s| == 2 || s[|s| - 1] != '0')
  }

  function DotAt(s: string): (i: nat)
    ensures i <= |s| && (i < |s| ==> s[i] == '.') && forall j :: 0 <= j < i ==> s[j] != '.'
    decreases |s|
  {
    if s == "" || s[0] == '.' then 0 else 1 + DotAt(s[1..])
  }

  /** The schema's one form of an amount. */
  predicate IsCanonical(s: string) {
    DotAt(s) < |s| && IsWhole(s[..DotAt(s)]) && IsFraction(s[DotAt(s) + 1..])
  }

  function Units(s: string): nat
    requires IsCanonical(s)
  {
    var f := s[DotAt(s) + 1..];
    Times(Value(s[..DotAt(s)]), SCALE) + Times(Value(f), Pow10(18 - |f|))
  }

  function NatString(n: nat): (s: string)
    ensures s != "" && IsDigits(s)
  {
    if n < 10 then [CharOf(n)] else NatString(n / 10) + [CharOf(n % 10)]
  }

  /** The last `k` decimal digits of `n`. */
  function Fixed(n: nat, k: nat): (s: string)
    ensures |s| == k && IsDigits(s)
    decreases k
  {
    if k == 0 then "" else Fixed(n / 10, k - 1) + [CharOf(n % 10)]
  }

  function Zeros(k: nat): (s: string)
    ensures |s| == k && IsDigits(s) && forall i :: 0 <= i < k ==> s[i] == '0'
  {
    seq(k, _ => '0')
  }

  function Trim(f: string): (t: string)
    ensures |t| <= |f| && t == f[..|t|]
    decreases |f|
  {
    if |f| > 2 && f[|f| - 1] == '0' then Trim(f[..|f| - 1]) else f
  }

  /** The canonical string of a number of units. */
  function Show(u: nat): string {
    NatString(u / SCALE) + "." + Trim(Fixed(u % SCALE, 18))
  }

  // ----- products and powers

  lemma TimesLaws(a: nat, b: nat, c: nat)
    ensures Times(Times(a, b), c) == Times(a, Times(b, c))
    ensures Times(a + b, c) == Times(a, c) + Times(b, c)
    ensures Times(a, 0) == 0 == Times(0, a) && Times(a, 1) == a == Times(1, a)
    ensures Times(10 * a, b) == 10 * Times(a, b) == Times(a, 10 * b)
  {
    assert a * b * c == a * (b * c);
    assert (a + b) * c == a * c + b * c;
  }

  lemma TimesMonotone(a: nat, b: nat, p: nat)
    requires a < b
    ensures Times(a, p) + p <= Times(b, p)
  {
    hide Times;
    TimesLaws(a + 1, b - (a + 1), p);
    TimesLaws(a, 1, p);
    TimesLaws(p, 0, 0);
  }

  lemma {:induction false} PowAdds(a: nat, b: nat)
    ensures Pow10(a + b) == Times(Pow10(a), Pow10(b))
    decreases b
  {
    hide Times;
    TimesLaws(Pow10(a), 0, 0);
    if b > 0 {
      PowAdds(a, b - 1);
      TimesLaws(Pow10(a), Pow10(b - 1), 0);
    }
  }

  lemma ScaleIsPow()
    ensures Pow10(18) == SCALE
  {
    assert Pow10(6) == 1_000_000;
    assert Pow10(12) == 1_000_000_000_000;
  }

  lemma Quotient(x: nat, p: nat)
    requires p >= 1
    ensures x == Times(x / p, p) + x % p && x % p < p
  {
  }

  lemma Divided(w: nat, r: nat, p: nat)
    requires r < p
    ensures (Times(w, p) + r) / p == w && (Times(w, p) + r) % p == r
  {
    var x := Times(w, p) + r;
    Quotient(x, p);
    hide Times;
    if x / p < w {
      TimesMonotone(x / p, w, p);
    } else if w < x / p {
      TimesMonotone(w, x / p, p);
    }
  }

  // ----- digit strings and their values

  lemma {:induction false} ValueAppends(a: string, b: string)
    requires IsDigits(a) && IsDigits(b)
    ensures IsDigits(a + b) && Value(a + b) == Times(Value(a), Pow10(|b|)) + Value(b)
    decreases |b|
  {
    if b == "" {
      assert a + b == a;
      TimesLaws(Value(a), 0, 0);
    } else {
      var c := b[..|b| - 1];
      assert (a + b)[..|a + b| - 1] == a + c;
      ValueAppends(a, c);
      TimesLaws(Value(a), Pow10(|c|), 0);
      hide Times;
    }
  }

  lemma {:induction false} ValueBelow(s: string)
    requires IsDigits(s)
    ensures Value(s) < Pow10(|s|)
    decreases |s|
  {
    if s != "" { ValueBelow(s[..|s| - 1]); }
  }

  lemma {:induction false} ZerosAreNothing(k: nat)
    ensures Value(Zeros(k)) == 0
  {
    if k > 0 {
      ZerosAreNothing(k - 1);
      assert Zeros(k)[..k - 1] == Zeros(k - 1);
    }
  }

  lemma {:induction false} NatStringReads(n: nat)
    ensures Value(NatString(n)) == n && IsWhole(NatString(n)) && (n > 0 ==> NatString(n)[0] != '0')
  {
    if n >= 10 {
      NatStringReads(n / 10);
      assert NatString(n)[..|NatString(n)| - 1] == NatString(n / 10);
    } else {
      assert [CharOf(n)][..0] == "";
    }
  }

  lemma TenFold(n: nat, d: nat)
    requires d < 10
    ensures (10 * n + d) / 10 == n && (10 * n + d) % 10 == d
  {
  }

  lemma {:induction false} WholeIsShown(s: string)
    requires IsWhole(s)
    ensures NatString(Value(s)) == s && (s[0] != '0' ==> Value(s) > 0)
    decreases |s|
  {
    var c := s[..|s| - 1];
    assert s == c + [s[|s| - 1]];
    if |s| > 1 {
      WholeIsShown(c);
      TenFold(Value(c), DigitOf(s[|s| - 1]));
    }
  }

  lemma {:induction false} FixedReads(n: nat, k: nat)
    requires n < Pow10(k)
    ensures Value(Fixed(n, k)) == n
    decreases k
  {
    if k > 0 {
      FixedReads(n / 10, k - 1);
      assert Fixed(n, k)[..k - 1] == Fixed(n / 10, k - 1);
    }
  }

  lemma {:induction false} DigitsAreFixed(s: string)
    requires IsDigits(s)
    ensures Fixed(Value(s), |s|) == s
    decreases |s|
  {
    if s != "" {
      var c := s[..|s| - 1];
      DigitsAreFixed(c);
      assert s == c + [s[|s| - 1]];
      TenFold(Value(c), DigitOf(s[|s| - 1]));
      assert Fixed(Value(s), |s|) == Fixed(Value(c), |c|) + [s[|s| - 1]];
    }
  }

  // ----- trimming

  lemma {:induction false} TrimKeepsValue(f: string, n: nat)
    requires IsDigits(f) && |f| <= n
    ensures IsDigits(Trim(f)) && Times(Value(Trim(f)), Pow10(n - |Trim(f)|)) == Times(Value(f), Pow10(n - |f|))
    decreases |f|
  {
    if |f| > 2 && f[|f| - 1] == '0' {
      var c := f[..|f| - 1];
      TrimKeepsValue(c, n);
      var p := Pow10(n - |f|);
      assert Pow10(n - |c|) == 10 * p;
      assert Value(f) == 10 * Value(c);
      TimesLaws(Value(c), p, 0);
    }
  }

  lemma {:induction false} TrimIsFraction(f: string)
    requires IsDigits(f) && 2 <= |f| <= 18
    ensures IsFraction(Trim(f))
    decreases |f|
  {
    if |f| > 2 && f[|f| - 1] == '0' { TrimIsFraction(f[..|f| - 1]); }
  }

  /** Zeros behind at least two digits are trimmed away. */
  lemma {:induction false} TrimDropsZeros(f: string, k: nat)
    requires |f| >= 2
    ensures Trim(f + Zeros(k)) == Trim(f)
    decreases k
  {
    if k == 0 {
      assert f + Zeros(k) == f;
    } else {
      assert (f + Zeros(k))[..|f| + k - 1] == f + Zeros(k - 1);
      TrimDropsZeros(f, k - 1);
    }
  }

  // ----- the canonical form

  lemma DotOf(w: string, f: string)
    requires IsDigits(w)
    ensures DotAt(w + "." + f) == |w|
    ensures (w + "." + f)[..|w|] == w && (w + "." + f)[|w| + 1..] == f
  {
    var s := w + "." + f;
    assert s[|w|] == '.';
    assert forall i :: 0 <= i < |w| ==> s[i] == w[i] && IsDigit(w[i]);
  }

  lemma UnitsOf(w: string, f: string)
    requires IsWhole(w) && IsFraction(f)
    ensures IsCanonical(w + "." + f)
    ensures Units(w + "." + f) == Times(Value(w), SCALE) + Times(Value(f), Pow10(18 - |f|))
  {
    DotOf(w, f);
    UnitsAt(w + "." + f, w, f);
  }

  lemma UnitsAt(s: string, w: string, f: string)
    requires IsWhole(w) && IsFraction(f)
    requires DotAt(s) == |w| < |s| && s[..|w|] == w && s[|w| + 1..] == f
    ensures IsCanonical(s) && Units(s) == Times(Value(w), SCALE) + Times(Value(f), Pow10(18 - |f|))
  {
    hide Pow10, Times, Value, IsWhole, IsFraction, DotAt;
  }

  /** Every number of units has its canonical string, and the string denotes it. */
  lemma ShowIsCanonical(u: nat)
    ensures IsCanonical(Show(u)) && Units(Show(u)) == u
  {
    hide Pow10, Value, NatString, Fixed, Times;
    var g := Fixed(u % SCALE, 18);
    ScaleIsPow();
    NatStringReads(u / SCALE);
    FixedReads(u % SCALE, 18);
    TrimIsFraction(g);
    TrimKeepsValue(g, 18);
    UnitsOf(NatString(u / SCALE), Trim(g));
    Quotient(u, SCALE);
    PowZero(u % SCALE);
  }

  lemma PowZero(n: nat)
    ensures Times(n, Pow10(0)) == n
  {
  }

  lemma FractionBelow(f: string)
    requires IsDigits(f) && |f| <= 18
    ensures Value(f + Zeros(18 - |f|)) == Times(Value(f), Pow10(18 - |f|)) < SCALE
  {
    hide Pow10, Value, Times;
    ValueAppends(f, Zeros(18 - |f|));
    ZerosAreNothing(18 - |f|);
    ValueBelow(f + Zeros(18 - |f|));
    ScaleIsPow();
  }

  lemma PaddedIsFixed(f: string)
    requires IsDigits(f) && |f| <= 18
    ensures Times(Value(f), Pow10(18 - |f|)) < SCALE
    ensures Fixed(Times(Value(f), Pow10(18 - |f|)), 18) == f + Zeros(18 - |f|)
  {
    hide Pow10, Value, Fixed, Times;
    FractionBelow(f);
    DigitsAreFixed(f + Zeros(18 - |f|));
  }

  /** A whole part and a fraction are shown as they are, up to trailing zeros. */
  lemma ShowOf(w: string, f: string)
    requires IsWhole(w) && IsDigits(f) && |f| <= 18
    ensures Show(Times(Value(w), SCALE) + Times(Value(f), Pow10(18 - |f|))) == w + "." + Trim(f + Zeros(18 - |f|))
  {
    hide Pow10, Value, NatString, Fixed, Times, Show, Trim, Zeros, IsDigits;
    var r := Times(Value(f), Pow10(18 - |f|));
    PaddedIsFixed(f);
    Divided(Value(w), r, SCALE);
    WholeIsShown(w);
    ShownAs(Times(Value(w), SCALE) + r, w, f + Zeros(18 - |f|));
  }

  lemma ShownAs(u: nat, w: string, g: string)
    requires NatString(u / SCALE) == w && Fixed(u % SCALE, 18) == g
    ensures Show(u) == w + "." + Trim(g)
  {
    hide NatString, Fixed, Trim;
  }

  /** The canonical string of a value is unique. */
  lemma CanonicalIsShown(s: string)
    requires IsCanonical(s)
    ensures Show(Units(s)) == s
  {
    hide Pow10, Value, NatString, Fixed, Times;
    var w, f := s[..DotAt(s)], s[DotAt(s) + 1..];
    ShowOf(w, f);
    TrimDropsZeros(f, 18 - |f|);
    assert s == w + "." + f;
  }

  lemma CanonicalIsUnique(a: string, b: string)
    requires IsCanonical(a) && IsCanonical(b) && Units(a) == Units(b)
    ensures a == b
  {
    hide Pow10, Value, NatString, Fixed, Times;
    CanonicalIsShown(a);
    CanonicalIsShown(b);
  }

  // ----- atomic units

  method FormatAtomicAmount(amount: string, decimals: int) returns (r: Option<string>)
    ensures r.Some? <==> IsWhole(amount) && 0 <= decimals <= 18
    ensures r.Some? ==> r.value == Show(Times(Value(amount), Pow10(18 - decimals))) && IsCanonical(r.value)
    ensures r.Some? ==> Times(Units(r.value), Pow10(decimals)) == Times(Value(amount), SCALE)
  {
    hide Pow10, Value, NatString, Times, IsWhole, IsCanonical, Units, Trim, Show;
    if !IsWhole(amount) {
      return None;
    }
    if decimals < 0 || decimals > 18 {
      return None;
    }
    var missing := if |amount| < decimals + 1 then decimals + 1 - |amount| else 0;
    var padded := Zeros(missing) + amount;
    var cut := |padded| - decimals;
    var whole, rawFraction := padded[..cut], padded[cut..];
    Cut(amount, missing, decimals);
    var fraction := EndFraction(rawFraction);
    r := Some(NatString(Value(whole)) + "." + fraction);
    Denotes(amount, decimals);
  }

  lemma Denotes(amount: string, decimals: nat)
    requires IsWhole(amount) && decimals <= 18
    ensures var s := Show(Times(Value(amount), Pow10(18 - decimals)));
            IsCanonical(s) && Times(Units(s), Pow10(decimals)) == Times(Value(amount), SCALE)
  {
    hide Pow10, Value, Times, IsCanonical, Units, Show;
    ShowIsCanonical(Times(Value(amount), Pow10(18 - decimals)));
    PowAdds(18 - decimals, decimals);
    TimesLaws(Value(amount), Pow10(18 - decimals), Pow10(decimals));
    ScaleIsPow();
  }

  /** The trimming loop, then padding to two digits. */
  method EndFraction(rawFraction: string) returns (fraction: string)
    requires IsDigits(rawFraction) && |rawFraction| <= 18
    ensures fraction == Trim(rawFraction + Zeros(18 - |rawFraction|))
  {
    fraction := rawFraction;
    while |fraction| > 2 && fraction[|fraction| - 1] == '0'
      invariant Trim(fraction) == Trim(rawFraction)
      decreases |fraction|
    {
      fraction := fraction[..|fraction| - 1];
    }
    FractionEnds(rawFraction);
    if |fraction| < 2 {
      fraction := fraction + Zeros(2 - |fraction|);
    } else {
      assert fraction + Zeros(0) == fraction;
    }
  }

  /** Padding in front changes no value; the cut divides it by 10^decimals. */
  lemma Cut(amount: string, missing: nat, decimals: nat)
    requires IsWhole(amount) && decimals <= 18 && |amount| + missing >= decimals + 1
    ensures var padded := Zeros(missing) + amount;
            var w, f := padded[..|padded| - decimals], padded[|padded| - decimals..];
            IsDigits(w) && IsDigits(f) && |f| == decimals
            && Show(Times(Value(amount), Pow10(18 - decimals))) == NatString(Value(w)) + "." + Trim(f + Zeros(18 - decimals))
  {
    hide Pow10, Value, NatString, Fixed, Times;
    var padded := Zeros(missing) + amount;
    var w, f := padded[..|padded| - decimals], padded[|padded| - decimals..];
    ValueAppends(Zeros(missing), amount);
    ZerosAreNothing(missing);
    TimesLaws(Pow10(|amount|), 0, 0);
    assert Value(padded) == Value(amount);
    assert padded == w + f;
    ValueAppends(w, f);
    NatStringReads(Value(w));
    ShowOf(NatString(Value(w)), f);
    PowAdds(decimals, 18 - decimals);
    ScaleIsPow();
    TimesLaws(Times(Value(w), Pow10(decimals)), Value(f), Pow10(18 - decimals));
    TimesLaws(Value(w), Pow10(decimals), Pow10(18 - decimals));
  }

  lemma FractionEnds(f: string)
    requires IsDigits(f) && |f| <= 18
    ensures Trim(f + Zeros(18 - |f|)) == Trim(f) + Zeros(if |Trim(f)| < 2 then 2 - |Trim(f)| else 0)
  {
    assert Zeros(0) == "";
    hide Trim, Zeros, IsDigits;
    if |f| >= 2 {
      TrimDropsZeros(f, 18 - |f|);
      TrimLength(f);
      assert Trim(f) + "" == Trim(f);
    } else {
      ShortFractionEnds(f);
    }
  }

  lemma ShortFractionEnds(f: string)
    requires |f| < 2
    ensures Trim(f + Zeros(18 - |f|)) == f + Zeros(2 - |f|) && Trim(f) == f
  {
    var g := f + Zeros(2 - |f|);
    TrimDropsZeros(g, 16);
    assert Trim(g) == g;
    hide Trim;
    assert Zeros(18 - |f|) == Zeros(2 - |f|) + Zeros(16);
    assert f + Zeros(18 - |f|) == g + Zeros(16);
  }

  lemma {:induction false} TrimLength(f: string)
    requires |f| >= 2
    ensures |Trim(f)| >= 2
    decreases |f|
  {
    if |f| > 2 && f[|f| - 1] == '0' { TrimLength(f[..|f| - 1]); }
  }

  /** For fixed decimals different amounts have different strings. */
  lemma FormatIsInjective(a: string, b: string, decimals: nat)
    requires IsWhole(a) && IsWhole(b) && decimals <= 18
    requires Show(Times(Value(a), Pow10(18 - decimals))) == Show(Times(Value(b), Pow10(18 - decimals)))
    ensures a == b
  {
    hide Pow10, Value, NatString, Fixed, Times, Show;
    var p := Pow10(18 - decimals);
    ShowIsCanonical(Times(Value(a), p));
    ShowIsCanonical(Times(Value(b), p));
    Divided(Value(a), 0, p);
    Divided(Value(b), 0, p);
    WholeIsShown(a);
    WholeIsShown(b);
  }

  /** And every canonical amount with at most that many decimals is the string of some atomic amount. */
  lemma FormatIsInvertible(s: string, decimals: nat) returns (amount: string)
    requires IsCanonical(s) && decimals <= 18 && Units(s) % Pow10(18 - decimals) == 0
    ensures IsWhole(amount) && Show(Times(Value(amount), Pow10(18 - decimals))) == s
  {
    hide Pow10, Value, NatString, Fixed, Times, Show, Units;
    var p := Pow10(18 - decimals);
    amount := NatString(Units(s) / p);
    NatStringReads(Units(s) / p);
    Quotient(Units(s), p);
    CanonicalIsShown(s);
  }

  // ----- sums in one process

  function StripZeros(f: string): (t: string)
    ensures |t| <= |f| && t == f[..|t|]
    decreases |f|
  {
    if f != "" && f[|f| - 1] == '0' then StripZeros(f[..|f| - 1]) else f
  }

  /** The plain notation of a decimal with at most 18 decimals. */
  function ToFixed(u: nat): string {
    NatString(u / SCALE) + if u % SCALE == 0 then "" else "." + StripZeros(Fixed(u % SCALE, 18))
  }

  function PadEnd(f: string): string {
    f + Zeros(if |f| < 2 then 2 - |f| else 0)
  }

  /** Splits the plain notation at its point and pads the fraction. */
  function ToCanonicalAmount(u: nat): string {
    var text := ToFixed(u);
    var i := DotAt(text);
    text[..i] + "." + PadEnd(if i < |text| then text[i + 1..] else "")
  }

  lemma {:induction false} StrippedIsTrimmed(f: string)
    requires |f| >= 2
    ensures PadEnd(StripZeros(f)) == Trim(f)
    decreases |f|
  {
    if f[|f| - 1] == '0' {
      if |f| > 2 {
        StrippedIsTrimmed(f[..|f| - 1]);
      } else {
        var c := f[..1];
        assert f == c + "0";
        if c[0] == '0' { assert StripZeros(c[..0]) == ""; }
      }
    } else {
      assert f + Zeros(0) == f;
    }
  }

  lemma {:induction false} NothingToStrip(k: nat)
    ensures StripZeros(Fixed(0, k)) == ""
  {
    if k > 0 {
      NothingToStrip(k - 1);
      assert Fixed(0, k)[..k - 1] == Fixed(0, k - 1);
      assert CharOf(0) == '0';
    }
  }

  /** Every sum is written in the canonical form. */
  lemma ToCanonicalIsShow(u: nat)
    ensures ToCanonicalAmount(u) == Show(u) && IsCanonical(ToCanonicalAmount(u))
  {
    hide NatString, Fixed, Trim, IsCanonical;
    var w := NatString(u / SCALE);
    var g := Fixed(u % SCALE, 18);
    StrippedIsTrimmed(g);
    ShowIsCanonical(u);
    if u % SCALE == 0 {
      NothingToStrip(18);
      assert ToFixed(u) == w;
      NoDot(w);
    } else {
      DotOf(w, StripZeros(g));
      assert ToFixed(u) == w + "." + StripZeros(g);
    }
  }

  lemma NoDot(w: string)
    requires IsDigits(w)
    ensures DotAt(w) == |w| && w[..|w|] == w
  {
    assert forall i :: 0 <= i < |w| ==> IsDigit(w[i]);
  }

  /** 10^20: the library keeps twenty significant digits in a sum. */
  const TWENTY_DIGITS: nat := 100_000_000_000_000_000_000

  /** How many digits are over. */
  function Excess(n: nat): nat {
    if n < TWENTY_DIGITS then 0 else 1 + Excess(n / 10)
  }

  /** Rounding to a multiple, half up. */
  function RoundTo(n: nat, p: nat): nat
    requires p >= 1
  {
    Times((n + p / 2) / p, p)
  }

  /** Rounding to twenty significant digits, half up. */
  function Round20(n: nat): nat {
    RoundTo(n, Pow10(Excess(n)))
  }

  /** A sum is exact exactly when its digits beyond the twentieth are zeros. */
  lemma SumIsExactWhen(n: nat)
    ensures Round20(n) == n <==> n % Pow10(Excess(n)) == 0
  {
    hide Pow10, Excess, RoundTo;
    RoundToExact(n, Pow10(Excess(n)));
  }

  lemma RoundToExact(n: nat, p: nat)
    requires p >= 1
    ensures RoundTo(n, p) == n <==> n % p == 0
  {
    hide Times;
    Quotient(n, p);
    if n % p == 0 {
      Divided(n / p, p / 2, p);
    } else {
      Divided((n + p / 2) / p, 0, p);
    }
  }

  lemma SmallSumsAreExact(n: nat)
    requires n < TWENTY_DIGITS
    ensures Round20(n) == n
  {
    SumIsExactWhen(n);
    assert Excess(n) == 0;
  }

  lemma {:induction false} ExcessOfMultiple(c: nat, m: nat)
    requires c < TWENTY_DIGITS
    ensures Excess(Times(c, Pow10(m))) <= m
    decreases m
  {
    if m == 0 {
      TimesLaws(c, 0, 0);
    } else {
      ExcessOfMultiple(c, m - 1);
      TimesLaws(c, Pow10(m - 1), 0);
      assert Times(c, Pow10(m)) == 10 * Times(c, Pow10(m - 1));
    }
  }

  /** At most twenty digits followed by zeros survive the rounding. */
  lemma ShortSumsAreExact(c: nat, m: nat)
    requires c < TWENTY_DIGITS
    ensures Round20(Times(c, Pow10(m))) == Times(c, Pow10(m))
  {
    var n := Times(c, Pow10(m));
    ExcessOfMultiple(c, m);
    SumIsExactWhen(n);
    var e := Excess(n);
    PowAdds(m - e, e);
    TimesLaws(c, Pow10(m - e), Pow10(e));
    Divided(Times(c, Pow10(m - e)), 0, Pow10(e));
    hide Times, Pow10, Excess;
  }

  /** One unit on top of one hundred is lost. */
  lemma SumLosesAUnit()
    ensures Round20(TWENTY_DIGITS) == TWENTY_DIGITS && Round20(TWENTY_DIGITS + 1) == TWENTY_DIGITS
  {
    var n := TWENTY_DIGITS + 1;
    assert n / 10 < TWENTY_DIGITS && TWENTY_DIGITS / 10 < TWENTY_DIGITS;
    assert Excess(n / 10) == 0 && Excess(TWENTY_DIGITS / 10) == 0;
    assert Excess(n) == 1 == Excess(TWENTY_DIGITS);
    assert Pow10(0) == 1 && Pow10(1) == 10;
    assert (n + 5) / 10 * 10 == TWENTY_DIGITS;
    assert (TWENTY_DIGITS + 5) / 10 * 10 == TWENTY_DIGITS;
  }

  lemma {:induction false} ExcessBounds(n: nat)
    ensures n < Times(TWENTY_DIGITS, Pow10(Excess(n)))
    ensures Excess(n) > 0 ==> Times(TWENTY_DIGITS, Pow10(Excess(n) - 1)) <= n
  {
    hide Times;
    if n < TWENTY_DIGITS {
      PowZero(TWENTY_DIGITS);
    } else {
      var e := Excess(n / 10);
      ExcessBounds(n / 10);
      TimesLaws(TWENTY_DIGITS, Pow10(e), 0);
      if e > 0 { TimesLaws(TWENTY_DIGITS, Pow10(e - 1), 0); } else { PowZero(TWENTY_DIGITS); }
    }
  }

  lemma {:induction false} ExcessIsMonotone(a: nat, b: nat)
    requires a <= b
    ensures Excess(a) <= Excess(b)
  {
    if a >= TWENTY_DIGITS { ExcessIsMonotone(a / 10, b / 10); }
  }

  lemma {:induction false} PowIsMonotone(a: nat, b: nat)
    requires a <= b
    ensures Pow10(a) <= Pow10(b)
    decreases b
  {
    if a < b { PowIsMonotone(a, b - 1); }
  }

  lemma TimesInOrder(a: nat, b: nat, p: nat)
    requires a <= b
    ensures Times(a, p) <= Times(b, p) && Times(p, a) <= Times(p, b)
  {
    assert (b - a) * p >= 0;
  }

  lemma RoundToInOrder(a: nat, b: nat, p: nat)
    requires a <= b && p >= 1
    ensures RoundTo(a, p) <= RoundTo(b, p)
  {
    hide Times;
    QuotientInOrder(a + p / 2, b + p / 2, p);
    TimesInOrder((a + p / 2) / p, (b + p / 2) / p, p);
  }

  /** Rounding keeps the order. */
  lemma RoundIsMonotone(a: nat, b: nat)
    requires a <= b
    ensures Round20(a) <= Round20(b)
  {
    ExcessIsMonotone(a, b);
    hide Times, Pow10, Excess, RoundTo;
    var p, q := Pow10(Excess(a)), Pow10(Excess(b));
    if Excess(a) == Excess(b) {
      RoundToInOrder(a, b, p);
    } else {
      RoundedBelow(a);
      RoundedAbove(b);
      PowIsMonotone(Excess(a), Excess(b) - 1);
      TimesInOrder(p, Pow10(Excess(b) - 1), TWENTY_DIGITS);
    }
  }

  lemma QuotientInOrder(a: nat, b: nat, p: nat)
    requires a <= b && p >= 1
    ensures a / p <= b / p
  {
    Quotient(a, p);
    Quotient(b, p);
    hide Times;
    if b / p < a / p { TimesMonotone(b / p, a / p, p); }
  }

  lemma RoundedBelow(n: nat)
    ensures Round20(n) <= Times(TWENTY_DIGITS, Pow10(Excess(n)))
  {
    var p := Pow10(Excess(n));
    ExcessBounds(n);
    hide Times, Pow10, Excess;
    var k := (n + p / 2) / p;
    Quotient(n + p / 2, p);
    if k > TWENTY_DIGITS { TimesMonotone(TWENTY_DIGITS, k, p); }
    else { TimesInOrder(k, TWENTY_DIGITS, p); }
  }

  lemma RoundedAbove(n: nat)
    requires Excess(n) > 0
    ensures Times(TWENTY_DIGITS, Pow10(Excess(n) - 1)) <= Round20(n)
  {
    var p, q := Pow10(Excess(n)), Pow10(Excess(n) - 1);
    var tenth := TWENTY_DIGITS / 10;
    ExcessBounds(n);
    TimesLaws(tenth, q, 0);
    hide Times, Excess;
    assert p == 10 * q && TWENTY_DIGITS == 10 * tenth;
    assert Times(TWENTY_DIGITS, q) == Times(tenth, p);
    hide Pow10;
    var k := (n + p / 2) / p;
    Quotient(n + p / 2, p);
    if k < tenth { TimesMonotone(k, tenth, p); } else { TimesInOrder(tenth, k, p); }
  }

  datatype SpendKey = SpendKey(principalId: string, dayKey: string)

  /** The accumulating store of one process. */
  class InMemorySpendState {
    var spend: map<SpendKey, string>

    constructor ()
      ensures Valid() && spend == map[]
    {
      spend := map[];
    }

    ghost predicate Valid()
      reads this
    {
      forall key :: key in spend ==> IsCanonical(spend[key])
    }

    ghost function Spent(key: SpendKey): nat
      requires Valid()
      reads this
    {
      if key in spend then Units(spend[key]) else 0
    }

    method GetDailySpend(key: SpendKey) returns (amount: string)
      requires Valid()
      ensures IsCanonical(amount) && Units(amount) == Spent(key)
    {
      Nothing();
      amount := if key in spend then spend[key] else "0.00";
    }

    method RecordSpend(key: SpendKey, amount: string)
      requires Valid() && IsCanonical(amount)
      modifies this
      ensures Valid() && Spent(key) == Round20(old(Spent(key)) + Units(amount))
      ensures spend.Keys == old(spend).Keys + {key}
      ensures forall k :: k in old(spend) && k != key ==> spend[k] == old(spend)[k]
    {
      hide IsCanonical, Units, Show, Round20;
      var current := GetDailySpend(key);
      var sum := Round20(Units(current) + Units(amount));
      ToCanonicalIsShow(sum);
      ShowIsCanonical(sum);
      spend := spend[key := ToCanonicalAmount(sum)];
    }
  }

  lemma Nothing()
    ensures IsCanonical("0.00") && Units("0.00") == 0
  {
    hide Times, Pow10;
    assert "0.00" == "0" + "." + "00";
    assert "00"[..1] == "0" && "0"[..0] == "";
    assert Value("0") == 0 && Value("00") == 0;
    UnitsOf("0", "00");
    TimesLaws(SCALE, 0, 0);
    TimesLaws(Pow10(16), 0, 0);
  }
}
