/** Text helpers shared by every module.  On the wire a `char` stands for one octet. */
module Text {

  datatype Option<+T> = None | Some(value: T)

  /** The order of Rust's `str`: lexicographic, a proper prefix first. */
  predicate StrLess(a: string, b: string)
  {
    if b == [] then false
    else if a == [] then true
    else if a[0] != b[0] then a[0] < b[0]
    else StrLess(a[1..], b[1..])
  }

  lemma {:induction false} StrLessIrreflexive(a: string)
    ensures !StrLess(a, a)
  {
    if a == [] {
    } else {
      StrLessIrreflexive(a[1..]);
    }
  }

  lemma {:induction false} StrLessTotal(a: string, b: string)
    ensures StrLess(a, b) || StrLess(b, a) || a == b
  {
    if a != [] && b != [] && a[0] == b[0] {
      StrLessTotal(a[1..], b[1..]);
      assert a == [a[0]] + a[1..] && b == [b[0]] + b[1..];
    }
  }

  lemma {:induction false} StrLessTransitive(a: string, b: string, c: string)
    requires StrLess(a, b) && StrLess(b, c)
    ensures StrLess(a, c)
  {
    if a != [] && a[0] == b[0] && b[0] == c[0] {
      StrLessTransitive(a[1..], b[1..], c[1..]);
    }
  }

  /** The first place where the two differ is `i`: there `a` ends or has the smaller character. */
  predicate FirstAt(a: string, b: string, i: nat)
  {
    i <= |a| && i < |b| && a[..i] == b[..i] && (i == |a| || a[i] < b[i])
  }

  ghost predicate ComesFirst(a: string, b: string)
  {
    exists i: nat :: FirstAt(a, b, i)
  }

  lemma AgreeBefore(a: string, b: string, i: nat)
    requires FirstAt(a, b, i) && i > 0
    ensures a[0] == b[0]
  {
    assert a[..i][0] == b[..i][0];
  }

  /** The order is the lexicographic one. */
  lemma {:induction false} StrLessIff(a: string, b: string)
    ensures StrLess(a, b) <==> ComesFirst(a, b)
  {
    if a == [] || b == [] {
      assert b != [] ==> FirstAt([], b, 0);
    } else if a[0] != b[0] {
      assert a[0] < b[0] ==> FirstAt(a, b, 0);
      forall i: nat | FirstAt(a, b, i) ensures i == 0 {
        if i > 0 {
          AgreeBefore(a, b, i);
        }
      }
    } else {
      StrLessIff(a[1..], b[1..]);
      if i: nat :| FirstAt(a[1..], b[1..], i) {
        assert a == [a[0]] + a[1..] && b == [b[0]] + b[1..];
        assert a[..i + 1] == [a[0]] + a[1..][..i] && b[..i + 1] == [b[0]] + b[1..][..i];
        assert FirstAt(a, b, i + 1);
      }
      if i: nat :| FirstAt(a, b, i) {
        assert i > 0;
        assert a[1..][..i - 1] == a[..i][1..] && b[1..][..i - 1] == b[..i][1..];
        assert FirstAt(a[1..], b[1..], i - 1);
      }
    }
  }

  // --- printing and reading numbers ------------------------------------------------

  const DIGITS := "0123456789abcdef"

  predicate IsBase(base: nat)
  {
    base == 10 || base == 16
  }

  lemma DivideByBase(n: nat, base: nat)
    requires IsBase(base)
    ensures 0 <= n % base < base
    ensures n == n / base * base + n % base
    ensures n >= base ==> 0 <= n / base < n
  {
  }

  /** `n` in `base`, most significant digit first, lower case, no leading zero. */
  function Print(n: nat, base: nat): (s: string)
    requires IsBase(base)
    ensures s != []
    ensures forall c :: c in s ==> c in DIGITS[..base]
  {
    if n < base then [DIGITS[..base][n]]
    else
      DivideByBase(n, base);
      Print(n / base, base) + [DIGITS[..base][n % base]]
  }

  function DigitValue(c: char): (d: int)
    ensures d == -1 || (0 <= d < 16 && DIGITS[d] == c)
  {
    if '0' <= c <= '9' then c as int - '0' as int
    else if 'a' <= c <= 'f' then c as int - 'a' as int + 10
    else -1
  }

  /** The number that a non-empty string of digits stands for. */
  function Value(s: string, base: nat): Option<nat>
    requires IsBase(base)
  {
    if s == [] then None
    else
      var d := DigitValue(s[|s| - 1]);
      if d < 0 || d >= base then None
      else if |s| == 1 then Some(d)
      else match Value(s[..|s| - 1], base)
        case None => None
        case Some(v) => Some(v * base + d)
  }

  lemma DigitRoundTrip(d: nat)
    requires d < 16
    ensures DigitValue(DIGITS[d]) == d
  {
  }

  lemma {:induction false} ValueOfPrint(n: nat, base: nat)
    requires IsBase(base)
    ensures Value(Print(n, base), base) == Some(n)
  {
    var s := Print(n, base);
    DivideByBase(n, base);
    if n < base {
      DigitRoundTrip(n);
    } else {
      DigitRoundTrip(n % base);
      var high := Print(n / base, base);
      assert s[..|s| - 1] == high && s[|s| - 1] == DIGITS[n % base];
      ValueOfPrint(n / base, base);
    }
  }

  // --- what the digits are, place by place --------------------------------------------------------

  function Pow(base: nat, e: nat): (p: nat)
    requires base > 0
    ensures p > 0
  {
    if e == 0 then 1 else base * Pow(base, e - 1)
  }

  /** ASCII: `0` to `9` from 48 on, then `a` to `f` from 97 on. */
  function DigitCode(d: nat): nat
  {
    if d < 10 then 48 + d else 87 + d
  }

  /** `s` is `n` in positional notation: the place `i` from the right counts `base^i`. */
  ghost predicate Positional(s: string, n: nat, base: nat)
    requires base > 0
  {
    && n < Pow(base, |s|)
    && forall i :: 0 <= i < |s| ==> s[|s| - 1 - i] as nat == DigitCode(n / Pow(base, i) % base)
  }

  lemma DivisionIs(n: nat, d: nat, q: nat, r: nat)
    requires d > 0 && n == d * q + r && r < d
    ensures n / d == q && n % d == r
  {
    var k := n / d;
    assert n == d * k + n % d;
    if k < q {
      assert d * q == d * k + d * (q - k);
      assert d * (q - k) >= d by { AtLeastOnce(d, q - k); }
    } else if q < k {
      assert d * k == d * q + d * (k - q);
      assert d * (k - q) >= d by { AtLeastOnce(d, k - q); }
    }
  }

  lemma AtLeastOnce(d: nat, k: nat)
    requires k > 0
    ensures d * k >= d
  {
    assert d * k == d + d * (k - 1);
  }

  lemma DivideAnd(n: nat, d: nat)
    requires d > 0
    ensures n == d * (n / d) + n % d && n % d < d
  {
  }

  lemma Regroup(a: nat, b: nat, q: nat, r: nat)
    ensures a * (b * q + r) == (a * b) * q + a * r
  {
  }

  lemma SmallRest(a: nat, b: nat, r: nat, low: nat)
    requires r < b && low < a
    ensures a * r + low < a * b
  {
    assert a * b == a * r + a * (b - r);
    AtLeastOnce(a, b - r);
  }

  lemma Compose(n: nat, a: nat, b: nat, high: nat, low: nat, q: nat, r: nat)
    requires n == a * high + low && low < a && high == b * q + r && r < b
    ensures a * b > 0 && n / (a * b) == q
  {
    AtLeastOnce(a, b);
    Regroup(a, b, q, r);
    SmallRest(a, b, r, low);
    DivisionIs(n, a * b, q, a * r + low);
  }

  lemma DivideTwice(n: nat, a: nat, b: nat)
    requires a > 0 && b > 0
    ensures a * b > 0 && n / a / b == n / (a * b)
  {
    var low, high := n % a, n / a;
    var r, q := high % b, high / b;
    DivideAnd(n, a);
    DivideAnd(high, b);
    Compose(n, a, b, high, low, q, r);
  }

  lemma PlaceAbove(n: nat, base: nat, i: nat)
    requires base > 0 && i > 0
    ensures n / Pow(base, i) == n / base / Pow(base, i - 1)
  {
    DivideTwice(n, base, Pow(base, i - 1));
  }

  lemma BoundAbove(n: nat, base: nat, k: nat)
    requires base > 0
    ensures n / base < Pow(base, k) <==> n < Pow(base, k + 1)
  {
    var p, q, r := Pow(base, k), n / base, n % base;
    assert n == base * q + r;
    if q < p {
      assert base * p == base * q + base * (p - q);
      AtLeastOnce(base, p - q);
    } else {
      assert base * q == base * p + base * (q - p);
      assert base * (q - p) >= 0;
    }
  }

  lemma DigitCodes(d: nat, base: nat)
    requires IsBase(base) && d < base
    ensures DIGITS[..base][d] as nat == DigitCode(d)
    ensures DigitValue(DIGITS[..base][d]) == d
  {
    var c := DIGITS[..base][d];
    assert c == DIGITS[d];
    assert d == 0 || d == 1 || d == 2 || d == 3 || d == 4 || d == 5 || d == 6 || d == 7 || d == 8 || d == 9
        || d == 10 || d == 11 || d == 12 || d == 13 || d == 14 || d == 15;
  }

  /** One more digit at the right. */
  lemma AppendDigit(s: string, c: char, n: nat, base: nat)
    requires base > 0 && Positional(s, n / base, base) && c as nat == DigitCode(n % base)
    ensures Positional(s + [c], n, base)
  {
    hide Pow, DigitCode;
    var t := s + [c];
    BoundAbove(n, base, |s|);
    forall i | 0 <= i < |t| ensures t[|t| - 1 - i] as nat == DigitCode(n / Pow(base, i) % base) {
      if i == 0 {
        OnePlace(n, base);
      } else {
        PlaceAbove(n, base, i);
        assert t[|t| - 1 - i] == s[|s| - 1 - (i - 1)];
      }
    }
  }

  lemma OnePlace(n: nat, base: nat)
    requires base > 0
    ensures n / Pow(base, 0) == n
  {
  }

  lemma OneDigit(c: char, n: nat, base: nat)
    requires n < base && c as nat == DigitCode(n)
    ensures Positional([c], n, base)
  {
    assert Pow(base, 1) == base * Pow(base, 0) == base;
    assert n / Pow(base, 0) % base == n;
  }

  /** A number is printed in positional notation, with the digits of ASCII and without leading zeros. */
  lemma {:induction false} PrintIsPositional(n: nat, base: nat)
    requires IsBase(base)
    ensures Positional(Print(n, base), n, base)
    ensures n > 0 ==> Pow(base, |Print(n, base)| - 1) <= n
    ensures n == 0 ==> Print(n, base) == "0"
  {
    hide Positional, DigitCode, Pow;
    DivideByBase(n, base);
    DigitCodes(n % base, base);
    if n < base {
      OneDigit(Print(n, base)[0], n, base);
      OnePlace(n, base);
      PowZero(base);
    } else {
      PrintIsPositional(n / base, base);
      AppendDigit(Print(n / base, base), DIGITS[..base][n % base], n, base);
      if |Print(n / base, base)| > 1 || n / base > 0 {
        BoundAbove(n, base, |Print(n / base, base)| - 1);
      }
    }
  }

  lemma WithoutLast(s: string, n: nat, base: nat)
    requires base > 0 && s != [] && Positional(s, n, base)
    ensures Positional(s[..|s| - 1], n / base, base) && s[|s| - 1] as nat == DigitCode(n % base)
  {
    hide Pow, DigitCode;
    var t := s[..|s| - 1];
    assert s[|s| - 1 - 0] as nat == DigitCode(n / Pow(base, 0) % base);
    OnePlace(n, base);
    BoundAbove(n, base, |t|);
    forall i | 0 <= i < |t| ensures t[|t| - 1 - i] as nat == DigitCode(n / base / Pow(base, i) % base) {
      PlaceAbove(n, base, i + 1);
      assert t[|t| - 1 - i] == s[|s| - 1 - (i + 1)];
    }
  }

  /** A digit's value is the one its ASCII code stands for; other characters have none. */
  lemma DigitValueIs(c: char, d: nat)
    requires d < 16
    ensures DigitValue(c) == d <==> c as nat == DigitCode(d)
  {
  }

  /** A text is read as the number it denotes in positional notation, leading zeros allowed, and as
      no number if it is none. */
  lemma {:induction false} ValueIff(s: string, base: nat, n: nat)
    requires IsBase(base)
    ensures Value(s, base) == Some(n) <==> s != [] && Positional(s, n, base)
  {
    hide Positional, DigitCode, Pow, DigitValue;
    if s == [] {
    } else {
      var init, c := s[..|s| - 1], s[|s| - 1];
      DivideByBase(n, base);
      DigitValueIs(c, n % base);
      assert s == init + [c];
      if |s| == 1 {
        assert s == [c];
        if n < base {
          if c as nat == DigitCode(n) {
            OneDigit(c, n, base);
          }
        }
        if Positional(s, n, base) {
          WithoutLast(s, n, base);
          assert init == [];
          NothingIsZero(n / base, base);
        }
      } else {
        ValueIff(init, base, n / base);
        if Positional(s, n, base) {
          WithoutLast(s, n, base);
        }
        if Value(s, base) == Some(n) {
          var v, d := Value(init, base).value, DigitValue(c);
          DivisionIs(n, base, v, d);
          AppendDigit(init, c, n, base);
        }
      }
    }
  }

  lemma NothingIsZero(n: nat, base: nat)
    requires base > 0 && Positional([], n, base)
    ensures n == 0
  {
  }

  lemma PowZero(base: nat)
    requires base > 0
    ensures Pow(base, 0) == 1
  {
  }

  lemma PrintHasNo(n: nat, base: nat, c: char)
    requires IsBase(base)
    requires c !in DIGITS
    ensures c !in Print(n, base)
  {
  }

  lemma SepInTail(a: string, b: string, x: string, y: string, sep: char)
    requires a + [sep] + x == b + [sep] + y
    requires |a| < |b|
    ensures sep in x
  {
    assert (a + [sep] + x)[|b|] == (b + [sep] + y)[|b|] == sep;
    assert x[|b| - |a| - 1] == sep;
  }

  /** Concatenations that meet at a separator absent from both tails split the same way. */
  lemma SplitAtLast(a: string, b: string, x: string, y: string, sep: char)
    requires a + [sep] + x == b + [sep] + y
    requires sep !in x && sep !in y
    ensures a == b && x == y
  {
    var left, right := a + [sep] + x, b + [sep] + y;
    if |a| < |b| {
      SepInTail(a, b, x, y, sep);
    } else if |b| < |a| {
      SepInTail(b, a, y, x, sep);
    } else {
      assert a == left[..|a|] && b == right[..|b|];
      assert x == left[|a| + 1..] && y == right[|b| + 1..];
    }
  }

  // --- cutting at spaces -------------------------------------------------------------

  const SP := ' '

  /** Split at the first space; no second part if there is none. */
  function Cut(s: string): (string, Option<string>)
  {
    if s == [] then ([], None)
    else if s[0] == SP then ([], Some(s[1..]))
    else
      var (head, tail) := Cut(s[1..]);
      ([s[0]] + head, tail)
  }

  /** The `i`-th piece of `s` split at every space, empty if there are fewer. */
  function Field(s: string, i: nat): string
    decreases i
  {
    var (head, tail) := Cut(s);
    if i == 0 then head else match tail
      case None => []
      case Some(t) => Field(t, i - 1)
  }

  lemma CutShrinks(s: string)
    ensures Cut(s).1.Some? ==> |Cut(s).1.value| < |s|
  {
  }

  lemma {:induction false} CutAt(a: string, b: string)
    requires SP !in a
    ensures Cut(a + [SP] + b) == (a, Some(b))
    ensures Cut(a) == (a, None)
  {
    var s := a + [SP] + b;
    if a == [] {
      assert s[1..] == b;
    } else {
      assert s[1..] == a[1..] + [SP] + b;
      CutAt(a[1..], b);
      assert a == [a[0]] + a[1..];
    }
  }

  lemma {:induction false} CutParts(s: string)
    ensures SP !in Cut(s).0
    ensures s == if Cut(s).1.None? then Cut(s).0 else Cut(s).0 + [SP] + Cut(s).1.value
  {
    if s != [] && s[0] != SP {
      CutParts(s[1..]);
      assert s == [s[0]] + s[1..];
    } else if s != [] {
      assert s == [SP] + s[1..];
    }
  }

  lemma FieldAt(a: string, b: string, i: nat)
    requires SP !in a
    ensures Field(a + [SP] + b, 0) == a && Field(a, 0) == a
    ensures Field(a + [SP] + b, i + 1) == Field(b, i)
  {
    CutAt(a, b);
  }

  // --- reading a number as Rust does -----------------------------------------------------

  const U16_LIMIT: nat := 0x1_0000
  const U64_LIMIT: nat := 0x1_0000_0000_0000_0000

  /** Rust's unsigned parser: an optional `+`, then decimal digits, below the type's limit. */
  function ParseUnsigned(s: string, limit: nat): Option<nat>
  {
    var digits := if s != [] && s[0] == '+' then s[1..] else s;
    match Value(digits, 10)
    case None => None
    case Some(v) => if v < limit then Some(v) else None
  }

  lemma ParsePrinted(n: nat, limit: nat)
    requires n < limit
    ensures ParseUnsigned(Print(n, 10), limit) == Some(n)
    ensures SP !in Print(n, 10) && '\n' !in Print(n, 10) && '\r' !in Print(n, 10)
  {
    hide Value, Print;
    ValueOfPrint(n, 10);
    PrintHasNo(n, 10, '+');
    PrintHasNo(n, 10, SP);
    PrintHasNo(n, 10, '\n');
    PrintHasNo(n, 10, '\r');
  }

  /** `s` is `n` in decimal digits, possibly after a `+` and with leading zeros. */
  ghost predicate Denotes(s: string, n: nat)
  {
    (s != [] && Positional(s, n, 10)) || (|s| > 1 && s[0] == '+' && Positional(s[1..], n, 10))
  }

  lemma SignIsNoDigit(s: string, n: nat)
    requires s != [] && Positional(s, n, 10)
    ensures s[0] != '+'
  {
    assert s[|s| - 1 - (|s| - 1)] as nat == DigitCode(n / Pow(10, |s| - 1) % 10);
  }

  /** The number a text denotes, if it is below the limit; no other text is a number. */
  lemma ParseUnsignedIff(s: string, limit: nat, n: nat)
    ensures ParseUnsigned(s, limit) == Some(n) <==> n < limit && Denotes(s, n)
  {
    hide Positional, Value;
    if s != [] && s[0] == '+' {
      if Positional(s, n, 10) {
        SignIsNoDigit(s, n);
      }
      ValueIff(s[1..], 10, n);
    } else {
      ValueIff(s, 10, n);
    }
  }
}
