/** Lossy UTF-8 decoding, as Rust's `String::from_utf8_lossy` does it: every maximal ill-formed piece of
    the input becomes one U+FFFD.  On the input side a `char` is an octet, on the output side a scalar. */
module Utf8 {

  const REPLACEMENT: char := '\U{FFFD}'

  /** Whether `s` has, at `i`, an octet between `lo` and `hi`. */
  predicate Has(s: string, i: nat, lo: nat, hi: nat)
  {
    i < |s| && lo <= s[i] as nat <= hi
  }

  /** The second octet that a leading octet allows, if it may lead three or four. */
  function SecondFrom(lead: nat): nat
  {
    if lead == 0xE0 then 0xA0 else if lead == 0xF0 then 0x90 else 0x80
  }

  function SecondTo(lead: nat): nat
  {
    if lead == 0xED then 0x9F else if lead == 0xF4 then 0x8F else 0xBF
  }

  function Scalar(n: nat): char
    requires n < 0xD800 || 0xE000 <= n < 0x11_0000
  {
    n as char
  }

  /** The first scalar of `s` and how many octets it takes. */
  function First(s: string): (r: (char, nat))
    requires s != []
    ensures 1 <= r.1 <= |s|
  {
    var a := s[0] as nat;
    if a < 0x80 then (s[0], 1)
    else if 0xC2 <= a <= 0xDF then
      if Has(s, 1, 0x80, 0xBF) then (Scalar((a - 0xC0) * 0x40 + (s[1] as nat - 0x80)), 2) else (REPLACEMENT, 1)
    else if 0xE0 <= a <= 0xEF then
      if !Has(s, 1, SecondFrom(a), SecondTo(a)) then (REPLACEMENT, 1)
      else if !Has(s, 2, 0x80, 0xBF) then (REPLACEMENT, 2)
      else (Scalar((a - 0xE0) * 0x1000 + (s[1] as nat - 0x80) * 0x40 + (s[2] as nat - 0x80)), 3)
    else if 0xF0 <= a <= 0xF4 then
      if !Has(s, 1, SecondFrom(a), SecondTo(a)) then (REPLACEMENT, 1)
      else if !Has(s, 2, 0x80, 0xBF) then (REPLACEMENT, 2)
      else if !Has(s, 3, 0x80, 0xBF) then (REPLACEMENT, 3)
      else
        (Scalar((a - 0xF0) * 0x4_0000 + (s[1] as nat - 0x80) * 0x1000 + (s[2] as nat - 0x80) * 0x40
                + (s[3] as nat - 0x80)), 4)
    else (REPLACEMENT, 1)
  }

  function Decode(s: string): string
  {
    if s == [] then [] else [First(s).0] + Decode(s[First(s).1..])
  }

  /** The octets of one scalar. */
  function Encode(c: char): (s: string)
    ensures s != []
  {
    var n := c as nat;
    if n < 0x80 then [c]
    else if n < 0x800 then [Scalar(0xC0 + n / 0x40), Scalar(0x80 + n % 0x40)]
    else if n < 0x1_0000 then [Scalar(0xE0 + n / 0x1000), Scalar(0x80 + n / 0x40 % 0x40), Scalar(0x80 + n % 0x40)]
    else
      [Scalar(0xF0 + n / 0x4_0000), Scalar(0x80 + n / 0x1000 % 0x40),
       Scalar(0x80 + n / 0x40 % 0x40), Scalar(0x80 + n % 0x40)]
  }

  function EncodeAll(text: string): string
  {
    if text == [] then [] else Encode(text[0]) + EncodeAll(text[1..])
  }

  lemma Sixes(n: nat)
    ensures n == n / 0x40 * 0x40 + n % 0x40
    ensures n / 0x40 == n / 0x1000 * 0x40 + n / 0x40 % 0x40
    ensures n / 0x1000 == n / 0x4_0000 * 0x40 + n / 0x1000 % 0x40
  {
  }

  lemma TwoOctets(c: char, rest: string)
    requires 0x80 <= c as nat < 0x800
    ensures First(Encode(c) + rest) == (c, 2) && |Encode(c)| == 2
  {
    Sixes(c as nat);
    var s := Encode(c) + rest;
    assert s[0] == Encode(c)[0] && s[1] == Encode(c)[1];
  }

  lemma ThreeOctets(c: char, rest: string)
    requires 0x800 <= c as nat < 0x1_0000
    ensures First(Encode(c) + rest) == (c, 3) && |Encode(c)| == 3
  {
    Sixes(c as nat);
    var s := Encode(c) + rest;
    assert s[0] == Encode(c)[0] && s[1] == Encode(c)[1] && s[2] == Encode(c)[2];
  }

  lemma FourOctets(c: char, rest: string)
    requires 0x1_0000 <= c as nat
    ensures First(Encode(c) + rest) == (c, 4) && |Encode(c)| == 4
  {
    Sixes(c as nat);
    var s := Encode(c) + rest;
    assert s[0] == Encode(c)[0] && s[1] == Encode(c)[1] && s[2] == Encode(c)[2] && s[3] == Encode(c)[3];
  }

  lemma FirstOfEncoded(c: char, rest: string)
    ensures First(Encode(c) + rest) == (c, |Encode(c)|)
  {
    var n := c as nat;
    if n < 0x80 {
      assert (Encode(c) + rest)[0] == c;
    } else if n < 0x800 {
      TwoOctets(c, rest);
    } else if n < 0x1_0000 {
      ThreeOctets(c, rest);
    } else {
      FourOctets(c, rest);
    }
  }

  /** Text survives being written in UTF-8 and read lossily. */
  lemma {:induction false} TextRoundTrip(text: string)
    ensures Decode(EncodeAll(text)) == text
  {
    hide First, Encode;
    if text == [] {
    } else {
      var c, rest := text[0], EncodeAll(text[1..]);
      FirstOfEncoded(c, rest);
      assert (Encode(c) + rest)[|Encode(c)|..] == rest;
      TextRoundTrip(text[1..]);
      assert [c] + text[1..] == text;
    }
  }

  predicate IsAscii(s: string)
  {
    forall i :: 0 <= i < |s| ==> s[i] as nat < 0x80
  }

  /** Seven-bit octets are their own text. */
  lemma {:induction false} AsciiIsText(s: string)
    requires IsAscii(s)
    ensures Decode(s) == s
  {
    if s == [] {
    } else {
      FirstIsAscii(s);
      AsciiIsText(s[1..]);
      assert s == [s[0]] + s[1..];
    }
  }

  /** Only seven-bit octets decode to seven-bit text. */
  lemma {:induction false} TextWasAscii(s: string)
    requires IsAscii(Decode(s))
    ensures IsAscii(s)
    decreases |s|
  {
    if s == [] {
    } else {
      var text := Decode(s);
      FirstIsAscii(s);
      assert text[0] == First(s).0 && text[1..] == Decode(s[1..]);
      assert forall i :: 0 <= i < |text[1..]| ==> text[1..][i] == text[i + 1];
      TextWasAscii(s[1..]);
      assert forall i :: 0 < i < |s| ==> s[i] == s[1..][i - 1];
    }
  }

  lemma FirstIsAscii(s: string)
    requires s != []
    ensures First(s).0 as nat < 0x80 <==> s[0] as nat < 0x80
    ensures s[0] as nat < 0x80 ==> First(s) == (s[0], 1)
  {
  }

  // --- what becomes of octets that encode nothing ---------------------------------------------------------

  ghost predicate IsText(s: string)
  {
    exists c :: Encode(c) <= s
  }

  /** Octets that begin the encoding of some scalar. */
  ghost predicate Begins(s: string)
  {
    exists c :: s <= Encode(c)
  }

  /** The octets an encoding can consist of. */
  lemma Shape(c: char)
    ensures var e := Encode(c);
            var a := e[0] as nat;
            && 1 <= |e| <= 4 && (|e| == 1 ==> a < 0x80) && (|e| == 2 ==> 0xC2 <= a <= 0xDF)
            && (|e| == 3 ==> 0xE0 <= a <= 0xEF) && (|e| == 4 ==> 0xF0 <= a <= 0xF4)
            && (|e| > 1 ==> 0x80 <= e[1] as nat <= 0xBF) && (|e| > 2 ==> SecondFrom(a) <= e[1] as nat <= SecondTo(a))
            && (|e| > 2 ==> 0x80 <= e[2] as nat <= 0xBF) && (|e| > 3 ==> 0x80 <= e[3] as nat <= 0xBF)
  {
    Sixes(c as nat);
  }

  lemma TwoTaken(a: nat, b: nat)
    requires 0xC2 <= a <= 0xDF && 0x80 <= b <= 0xBF
    ensures Encode(Scalar((a - 0xC0) * 0x40 + (b - 0x80))) == [Scalar(a), Scalar(b)]
  {
  }

  lemma ThreeSixes(i: nat, j: nat, k: nat)
    requires j < 0x40 && k < 0x40
    ensures var n := i * 0x1000 + j * 0x40 + k; n / 0x1000 == i && n / 0x40 % 0x40 == j && n % 0x40 == k
  {
    var n := i * 0x1000 + j * 0x40 + k;
    assert n / 0x40 == i * 0x40 + j;
  }

  lemma ThreeTaken(a: nat, b: nat, c: nat)
    requires 0xE0 <= a <= 0xEF && SecondFrom(a) <= b <= SecondTo(a) && 0x80 <= c <= 0xBF
    ensures Encode(Scalar((a - 0xE0) * 0x1000 + (b - 0x80) * 0x40 + (c - 0x80))) == [Scalar(a), Scalar(b), Scalar(c)]
  {
    ThreeSixes(a - 0xE0, b - 0x80, c - 0x80);
  }

  lemma FourSixes(h: nat, i: nat, j: nat, k: nat)
    requires i < 0x40 && j < 0x40 && k < 0x40
    ensures var n := h * 0x4_0000 + i * 0x1000 + j * 0x40 + k;
            n / 0x4_0000 == h && n / 0x1000 % 0x40 == i && n / 0x40 % 0x40 == j && n % 0x40 == k
  {
    var n := h * 0x4_0000 + i * 0x1000 + j * 0x40 + k;
    assert n / 0x40 == h * 0x1000 + i * 0x40 + j;
    assert n / 0x1000 == h * 0x40 + i;
  }

  lemma FourTaken(a: nat, b: nat, c: nat, d: nat)
    requires 0xF0 <= a <= 0xF4 && SecondFrom(a) <= b <= SecondTo(a) && 0x80 <= c <= 0xBF && 0x80 <= d <= 0xBF
    ensures Encode(Scalar((a - 0xF0) * 0x4_0000 + (b - 0x80) * 0x1000 + (c - 0x80) * 0x40 + (d - 0x80)))
         == [Scalar(a), Scalar(b), Scalar(c), Scalar(d)]
  {
    FourSixes(a - 0xF0, b - 0x80, c - 0x80, d - 0x80);
  }

  /** What `First` takes begins an encoding, unless it is a single octet. */
  lemma FirstBegins(s: string)
    requires s != []
    ensures First(s).1 == 1 || Begins(s[..First(s).1])
    ensures First(s).0 == REPLACEMENT || Encode(First(s).0) == s[..First(s).1]
  {
    hide Encode;
    var a := s[0] as nat;
    if a < 0x80 {
      Seven(s[0]);
    } else if 0xC2 <= a <= 0xDF {
      if Has(s, 1, 0x80, 0xBF) {
        TwoTaken(a, s[1] as nat);
        assert Encode(First(s).0) == s[..2];
      }
    } else if 0xE0 <= a <= 0xEF {
      if Has(s, 1, SecondFrom(a), SecondTo(a)) {
        var c := if Has(s, 2, 0x80, 0xBF) then s[2] as nat else 0x80;
        ThreeTaken(a, s[1] as nat, c);
        var e := Scalar((a - 0xE0) * 0x1000 + (s[1] as nat - 0x80) * 0x40 + (c - 0x80));
        assert s[..First(s).1] <= Encode(e);
      }
    } else if 0xF0 <= a <= 0xF4 {
      if Has(s, 1, SecondFrom(a), SecondTo(a)) {
        var c := if Has(s, 2, 0x80, 0xBF) then s[2] as nat else 0x80;
        var d := if Has(s, 2, 0x80, 0xBF) && Has(s, 3, 0x80, 0xBF) then s[3] as nat else 0x80;
        FourTaken(a, s[1] as nat, c, d);
        var e := Scalar((a - 0xF0) * 0x4_0000 + (s[1] as nat - 0x80) * 0x1000 + (c - 0x80) * 0x40 + (d - 0x80));
        assert s[..First(s).1] <= Encode(e);
      }
    }
  }

  lemma Seven(c: char)
    requires c as nat < 0x80
    ensures Encode(c) == [c]
  {
  }

  /** And no encoding goes on from there. */
  lemma FirstIsLongest(s: string, c: char, k: nat)
    requires s != [] && k <= |s| && s[..k] <= Encode(c)
    ensures k <= First(s).1
  {
    hide Encode;
    Shape(c);
    var e := Encode(c);
    assert k > 0 ==> s[0] == s[..k][0] == e[0];
    assert k > 1 ==> s[1] == s[..k][1] == e[1];
    assert k > 2 ==> s[2] == s[..k][2] == e[2];
    assert k > 3 ==> s[3] == s[..k][3] == e[3];
  }

  /** The first scalar is the one whose encoding the octets begin with, if there is one.  Otherwise it is U+FFFD,
      and it stands for the longest beginning of the octets that begins any encoding, or for one octet. */
  lemma FirstIff(s: string)
    requires s != []
    ensures forall c :: Encode(c) <= s ==> First(s) == (c, |Encode(c)|)
    ensures !IsText(s) ==>
              && First(s).0 == REPLACEMENT && (First(s).1 == 1 || Begins(s[..First(s).1]))
              && forall k :: First(s).1 < k <= |s| ==> !Begins(s[..k])
  {
    hide First, Encode;
    forall c | Encode(c) <= s ensures First(s) == (c, |Encode(c)|) {
      FirstOfEncoded(c, s[|Encode(c)|..]);
      assert Encode(c) + s[|Encode(c)|..] == s;
    }
    if !IsText(s) {
      FirstBegins(s);
      forall k, c | First(s).1 < k <= |s| ensures !(s[..k] <= Encode(c)) {
        if s[..k] <= Encode(c) {
          FirstIsLongest(s, c, k);
        }
      }
    }
  }
}
