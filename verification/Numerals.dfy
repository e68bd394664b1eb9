/** Numerals in base 10 and 16, with and without leading zeros, and texts of separated parts. */
module Numerals {
  datatype Base = Decimal | Hexadecimal

  predicate IsDigit(c: char, b: Base) {
    '0' <= c <= '9' || (b == Hexadecimal && 'a' <= c <= 'f')
  }

  predicate AllDigits(s: string, b: Base) {
    forall c <- s :: IsDigit(c, b)
  }

  function Radix(b: Base): nat {
    if b == Decimal then 10 else 16
  }

  function Quotient(n: nat, b: Base): nat {
    if b == Decimal then n / 10 else n / 16
  }

  function Remainder(n: nat, b: Base): (r: nat)
    ensures r < Radix(b)
  {
    if b == Decimal then n % 10 else n % 16
  }

  function Scaled(n: nat, b: Base): nat {
    if b == Decimal then n * 10 else n * 16
  }

  function DigitValue(c: char, b: Base): (n: nat)
    requires IsDigit(c, b)
    ensures n < Radix(b) && Digit(n, b) == c
    ensures n == 0 <==> c == '0'
  {
    if '0' <= c <= '9' then (c - '0') as nat else (c - 'a') as nat + 10
  }

  function Digit(n: nat, b: Base): (c: char)
    requires n < Radix(b)
    ensures IsDigit(c, b)
  {
    if n < 10 then '0' + n as char else 'a' + (n - 10) as char
  }

  lemma DigitRoundTrip(n: nat, b: Base)
    requires n < Radix(b)
    ensures DigitValue(Digit(n, b), b) == n
  {
  }

  function Value(s: string, b: Base): nat
    requires AllDigits(s, b)
  {
    if s == [] then 0 else Scaled(Value(s[..|s| - 1], b), b) + DigitValue(s[|s| - 1], b)
  }

  /** The numeral without leading zeros, as the runtime prints a number. */
  function Numeral(n: nat, b: Base): string {
    if n < Radix(b) then [Digit(n, b)] else Numeral(Quotient(n, b), b) + [Digit(Remainder(n, b), b)]
  }

  function StripZeros(s: string): string {
    if s != [] && s[0] == '0' then StripZeros(s[1..]) else s
  }

  function StripLeadingZeros(s: string): string {
    if StripZeros(s) == [] then "0" else StripZeros(s)
  }

  lemma {:induction false} NumeralReads(n: nat, b: Base)
    ensures AllDigits(Numeral(n, b), b) && Value(Numeral(n, b), b) == n && Numeral(n, b) != []
  {
    if n < Radix(b) {
      DigitRoundTrip(n, b);
      assert Numeral(n, b)[..0] == [];
    } else {
      NumeralReads(Quotient(n, b), b);
      DigitRoundTrip(Remainder(n, b), b);
      assert Numeral(n, b)[..|Numeral(n, b)| - 1] == Numeral(Quotient(n, b), b);
    }
  }

  lemma {:induction false} StripAppend(s: string, c: char)
    ensures StripZeros(s + [c]) == if StripZeros(s) != [] then StripZeros(s) + [c] else StripZeros([c])
  {
    if s != [] && s[0] == '0' {
      assert (s + [c])[1..] == s[1..] + [c];
      StripAppend(s[1..], c);
    } else if s == [] {
      assert s + [c] == [c];
    }
  }

  lemma {:induction false} ZeroValue(s: string, b: Base)
    requires AllDigits(s, b)
    ensures Value(s, b) == 0 <==> StripZeros(s) == []
  {
    if s != [] {
      var front := s[..|s| - 1];
      assert s == front + [s[|s| - 1]];
      ZeroValue(front, b);
      StripAppend(front, s[|s| - 1]);
    }
  }

  /** Removing leading zeros from a numeral gives the numeral of its value. */
  lemma {:induction false} StrippedIsNumeral(s: string, b: Base)
    requires s != [] && AllDigits(s, b)
    ensures StripLeadingZeros(s) == Numeral(Value(s, b), b)
  {
    hide Scaled, Quotient, Remainder;
    var front := s[..|s| - 1];
    var c := s[|s| - 1];
    assert s == front + [c];
    ScaledZero(b);
    ZeroValue(front, b);
    StripAppend(front, c);
    if StripZeros(front) != [] {
      StrippedIsNumeral(front, b);
      QuotientOf(Value(front, b), DigitValue(c, b), b);
    }
  }

  lemma ScaledZero(b: Base)
    ensures Scaled(0, b) == 0
  {
  }

  lemma QuotientOf(q: nat, r: nat, b: Base)
    requires r < Radix(b)
    ensures Quotient(Scaled(q, b) + r, b) == q && Remainder(Scaled(q, b) + r, b) == r
    ensures q > 0 ==> Scaled(q, b) + r >= Radix(b)
  {
  }

  function Power(b: Base, width: nat): nat {
    if width == 0 then 1 else Scaled(Power(b, width - 1), b)
  }

  lemma {:induction false} ValueBound(s: string, b: Base)
    requires AllDigits(s, b)
    ensures Value(s, b) < Power(b, |s|)
  {
    if s != [] {
      ValueBound(s[..|s| - 1], b);
    }
  }

  lemma {:induction false} NumeralWidth(n: nat, b: Base, width: nat)
    requires n < Power(b, width) && width > 0
    ensures 1 <= |Numeral(n, b)| <= width
  {
    if n >= Radix(b) {
      assert Power(b, 1) == Radix(b);
      NumeralWidth(Quotient(n, b), b, width - 1);
    }
  }

  // ---------- numerals of fixed width ----------

  function Padded(n: nat, b: Base, width: nat): string {
    if width == 0 then [] else Padded(Quotient(n, b), b, width - 1) + [Digit(Remainder(n, b), b)]
  }

  lemma {:induction false} PaddedReads(n: nat, b: Base, width: nat)
    requires n < Power(b, width)
    ensures |Padded(n, b, width)| == width && AllDigits(Padded(n, b, width), b) && Value(Padded(n, b, width), b) == n
  {
    if width > 0 {
      PaddedReads(Quotient(n, b), b, width - 1);
      DigitRoundTrip(Remainder(n, b), b);
      assert Padded(n, b, width)[..width - 1] == Padded(Quotient(n, b), b, width - 1);
    }
  }

  lemma {:induction false} ReadIsPadded(s: string, b: Base)
    requires AllDigits(s, b)
    ensures Value(s, b) < Power(b, |s|) && Padded(Value(s, b), b, |s|) == s
  {
    hide Power, Scaled, Quotient, Remainder, Radix;
    ValueBound(s, b);
    if s != [] {
      var front := s[..|s| - 1];
      ReadIsPadded(front, b);
      QuotientOf(Value(front, b), DigitValue(s[|s| - 1], b), b);
    }
  }

  // ---------- several numerals ----------

  predicate AllNumerals(ps: seq<string>, b: Base) {
    forall p <- ps :: p != [] && AllDigits(p, b)
  }

  function Values(ps: seq<string>, b: Base): (ns: seq<nat>)
    requires AllNumerals(ps, b)
    ensures |ns| == |ps| && forall i :: 0 <= i < |ps| ==> ns[i] == Value(ps[i], b)
  {
    if ps == [] then [] else [Value(ps[0], b)] + Values(ps[1..], b)
  }

  function NumeralsOf(ns: seq<nat>, b: Base): (ps: seq<string>)
    ensures |ps| == |ns| && forall i :: 0 <= i < |ns| ==> ps[i] == Numeral(ns[i], b)
  {
    if ns == [] then [] else [Numeral(ns[0], b)] + NumeralsOf(ns[1..], b)
  }

  lemma NumeralsAreNumerals(ns: seq<nat>, b: Base)
    ensures AllNumerals(NumeralsOf(ns, b), b) && Values(NumeralsOf(ns, b), b) == ns
  {
    forall i | 0 <= i < |ns|
      ensures NumeralsOf(ns, b)[i] != [] && AllDigits(NumeralsOf(ns, b)[i], b) && Value(NumeralsOf(ns, b)[i], b) == ns[i]
    {
      NumeralReads(ns[i], b);
    }
  }

  // ---------- texts of separated parts ----------

  function IndexOf(s: string, sep: char): (i: nat)
    ensures i <= |s|
    ensures i < |s| ==> s[i] == sep
    ensures sep !in s[..i]
  {
    if s == [] || s[0] == sep then 0 else 1 + IndexOf(s[1..], sep)
  }

  function Split(s: string, sep: char): (parts: seq<string>)
    ensures parts != []
    ensures forall p <- parts :: sep !in p
  {
    var i := IndexOf(s, sep);
    if i == |s| then [s] else [s[..i]] + Split(s[i + 1..], sep)
  }

  function Join(parts: seq<string>, sep: char): string {
    if parts == [] then ""
    else if |parts| == 1 then parts[0]
    else parts[0] + [sep] + Join(parts[1..], sep)
  }

  lemma {:induction false} JoinOfSplit(s: string, sep: char)
    ensures Join(Split(s, sep), sep) == s
    decreases |s|
  {
    hide IndexOf;
    var i := IndexOf(s, sep);
    if i < |s| {
      JoinOfSplit(s[i + 1..], sep);
      assert Split(s, sep)[1..] == Split(s[i + 1..], sep);
      assert s == s[..i] + [sep] + s[i + 1..];
    }
  }

  lemma {:induction false} IndexOfIs(p: string, rest: string, sep: char)
    requires sep !in p && (rest == [] || rest[0] == sep)
    ensures IndexOf(p + rest, sep) == |p|
  {
    if p != [] {
      assert (p + rest)[1..] == p[1..] + rest;
      assert forall c <- p[1..] :: c in p;
      IndexOfIs(p[1..], rest, sep);
    } else {
      assert p + rest == rest;
    }
  }

  lemma {:induction false} SplitOfJoin(parts: seq<string>, sep: char)
    requires parts != [] && forall p <- parts :: sep !in p
    ensures Split(Join(parts, sep), sep) == parts
  {
    hide IndexOf, Split;
    assert parts[0] in parts;
    if |parts| == 1 {
      SplitFirst(parts[0], [], sep);
      assert parts[0] + [] == parts[0] && parts == [parts[0]];
    } else {
      var rest := parts[1..];
      assert forall p <- rest :: p in parts;
      SplitOfJoin(rest, sep);
      SplitFirst(parts[0], [sep] + Join(rest, sep), sep);
      assert Join(parts, sep) == parts[0] + ([sep] + Join(rest, sep)) && ([sep] + Join(rest, sep))[1..] == Join(rest, sep);
      assert parts == [parts[0]] + rest;
    }
  }

  lemma SplitFirst(p: string, rest: string, sep: char)
    requires sep !in p && (rest == [] || rest[0] == sep)
    ensures Split(p + rest, sep) == if rest == [] then [p] else [p] + Split(rest[1..], sep)
  {
    hide IndexOf;
    IndexOfIs(p, rest, sep);
    var s := p + rest;
    assert s[..|p|] == p && (rest == [] ==> s == p) && (rest != [] ==> s[|p| + 1..] == rest[1..]);
  }

  lemma JoinInjective(xs: seq<string>, ys: seq<string>, sep: char)
    requires xs != [] && ys != [] && (forall p <- xs :: sep !in p) && (forall p <- ys :: sep !in p)
    ensures Join(xs, sep) == Join(ys, sep) <==> xs == ys
  {
    SplitOfJoin(xs, sep);
    SplitOfJoin(ys, sep);
  }

  lemma {:induction false} JoinChars(parts: seq<string>, sep: char, c: char)
    requires c in Join(parts, sep)
    ensures c == sep || exists p <- parts :: c in p
  {
    if |parts| == 1 {
      assert parts[0] in parts;
    } else if |parts| > 1 {
      assert parts[0] in parts;
      if c in Join(parts[1..], sep) {
        JoinChars(parts[1..], sep, c);
        assert forall p <- parts[1..] :: p in parts;
      }
    }
  }

  lemma {:induction false} JoinLength(parts: seq<string>, sep: char)
    requires forall p <- parts :: |p| <= 4
    ensures |Join(parts, sep)| <= 5 * |parts|
  {
    if |parts| == 1 {
      assert parts[0] in parts;
    } else if |parts| > 1 {
      assert parts[0] in parts;
      assert forall p <- parts[1..] :: p in parts;
      JoinLength(parts[1..], sep);
    }
  }

  lemma {:induction false} JoinHasSeparator(parts: seq<string>, sep: char)
    requires |parts| > 1
    ensures sep in Join(parts, sep)
  {
  }
}
