/** The promises of address normalisation: one text for each address, a fixed point, and the prefix. */
module AddressIdentity {
  import opened Wrappers
  import opened Numerals
  import opened NetworkAddress
  import opened AddressMeaning

  // ---------- canonical texts ----------

  lemma NumeralsAvoid(ns: seq<nat>, b: Base, c: char)
    requires !IsDigit(c, b)
    ensures forall p <- NumeralsOf(ns, b) :: c !in p
  {
    NumeralsAreNumerals(ns, b);
  }

  lemma Text6Injective(g: seq<nat>, h: seq<nat>)
    requires IsIpv6(g) && IsIpv6(h)
    ensures Text6(g) == Text6(h) <==> g == h
  {
    NumeralsAvoid(g, Hexadecimal, ':');
    NumeralsAvoid(h, Hexadecimal, ':');
    JoinInjective(NumeralsOf(g, Hexadecimal), NumeralsOf(h, Hexadecimal), ':');
    NumeralsAreNumerals(g, Hexadecimal);
    NumeralsAreNumerals(h, Hexadecimal);
  }

  lemma Text6Spells(g: seq<nat>)
    requires IsIpv6(g)
    ensures SpellsFull(Text6(g), NumeralsOf(g, Hexadecimal), g)
  {
    NumeralsAreNumerals(g, Hexadecimal);
    forall i | 0 <= i < 8 ensures IsGroupText(NumeralsOf(g, Hexadecimal)[i]) {
      HexPowers(4);
      assert g[i] in g;
      NumeralWidth(g[i], Hexadecimal, 4);
      assert NumeralsOf(g, Hexadecimal)[i] in NumeralsOf(g, Hexadecimal);
    }
  }

  /** A canonical IPv6 text is short and made of digits and colons only. */
  lemma Text6Chars(g: seq<nat>)
    requires IsIpv6(g)
    ensures forall c <- Text6(g) :: IsDigit(c, Hexadecimal) || c == ':'
    ensures ':' in Text6(g) && 0 < |Text6(g)| <= 40
  {
    var ps := NumeralsOf(g, Hexadecimal);
    Text6Spells(g);
    forall c <- Text6(g) ensures IsDigit(c, Hexadecimal) || c == ':' {
      JoinChars(ps, ':', c);
    }
    JoinHasSeparator(ps, ':');
    JoinLength(ps, ':');
  }

  lemma Text4Octets(o: seq<nat>)
    requires IsIpv4(o)
    ensures AllOctets(NumeralsOf(o, Decimal)) && Values(NumeralsOf(o, Decimal), Decimal) == o
  {
    NumeralsAreNumerals(o, Decimal);
    forall i | 0 <= i < 4 ensures IsOctetText(NumeralsOf(o, Decimal)[i]) {
      assert o[i] in o;
      assert Power(Decimal, 1) == 10 && Power(Decimal, 2) == 100 && Power(Decimal, 3) == 1000;
      NumeralWidth(o[i], Decimal, 3);
      assert NumeralsOf(o, Decimal)[i] in NumeralsOf(o, Decimal);
    }
  }

  /** A text of four octets is short and made of digits and full stops only. */
  lemma OctetChars(ps: seq<string>)
    requires |ps| == 4 && AllOctets(ps)
    ensures forall c <- Join(ps, '.') :: IsDigit(c, Decimal) || c == '.'
    ensures '.' in Join(ps, '.') && 0 < |Join(ps, '.')| <= 20
  {
    forall c <- Join(ps, '.') ensures IsDigit(c, Decimal) || c == '.' {
      JoinChars(ps, '.', c);
    }
    JoinHasSeparator(ps, '.');
    JoinLength(ps, '.');
  }

  // ---------- outer checks ----------

  predicate Safe(t: string) {
    0 < |t| <= 256 && forall c <- t :: !IsSpace(c) && c != '"' && c != '\'' && c != '\\'
  }

  /** What is left after trimming is a text with colons and no full stop. */
  predicate HexOnly(ip: string) {
    Safe(Trim(ip)) && ':' in Trim(ip) && '.' !in Trim(ip)
  }

  predicate Dotted(ip: string) {
    Safe(Trim(ip)) && '.' in Trim(ip) && ':' !in Trim(ip)
  }

  lemma TrimIdle(t: string)
    requires forall c <- t :: !IsSpace(c)
    ensures Trim(t) == t
  {
    if t != [] {
      assert t[0] in t && t[|t| - 1] in t;
    }
  }

  lemma PlainIsSafe(t: string)
    requires 0 < |t| <= MAX_LENGTH && forall c <- t :: IsDigit(c, Hexadecimal) || c == ':' || c == '.'
    ensures Trim(t) == t && Safe(t)
  {
    forall c <- t ensures !IsUnsafe(c) && !IsSpace(c) {
    }
    TrimIdle(t);
  }

  // ---------- IPv6 ----------

  lemma DenotedIsIpv6(text: string, g: seq<nat>)
    requires Denotes6(text, g)
    ensures IsIpv6(g) && CanonicalIpv6(text) == Some(Text6(g))
  {
    hide Spells, Text6, CanonicalIpv6;
    var body, zone :| Dresses(text, body, zone) && Spells(body, g);
    DressedIsCanonical(text, body, zone, g);
    SpelledIsIpv6(body, g);
  }

  lemma SpelledIsIpv6(body: string, g: seq<nat>)
    requires Spells(body, g)
    ensures IsIpv6(g)
  {
    hide AllGroups, Join;
    if ps :| SpellsFull(body, ps, g) {
      SmallGroups(ps);
    } else {
      var head, tail :| SpellsShort(body, head, tail, g);
      SmallGroups(head);
      SmallGroups(tail);
    }
  }

  /** Main result: such a text normalises to `n` exactly if it denotes eight groups whose canonical text is `n`. */
  lemma Ipv6Meaning(ip: string, n: string)
    requires HexOnly(ip)
    ensures Normalize(ip) == Some(n) <==> exists g :: Denotes6(Trim(ip), g) && n == Text6(g)
  {
    hide Denotes6, Text6, CanonicalIpv6, Trim;
    if Normalize(ip) == Some(n) {
      var g := CanonicalIsDressed(Trim(ip));
    }
    forall g | Denotes6(Trim(ip), g) ensures Normalize(ip) == Some(Text6(g)) {
      DenotedIsIpv6(Trim(ip), g);
    }
  }

  /** Main result: two accepted texts have the same normal form exactly if they denote the same eight groups,
      whatever their zone, brackets, case, leading zeros and use of the double colon. */
  lemma SameFormSameAddress(a: string, b: string, g: seq<nat>, h: seq<nat>)
    requires HexOnly(a) && HexOnly(b) && Denotes6(Trim(a), g) && Denotes6(Trim(b), h)
    ensures Normalize(a).Some? && Normalize(b).Some?
    ensures Normalize(a) == Normalize(b) <==> g == h
  {
    hide Denotes6, Text6, CanonicalIpv6, Trim, IsIpv6;
    DenotedIsIpv6(Trim(a), g);
    DenotedIsIpv6(Trim(b), h);
    Text6Injective(g, h);
  }

  // ---------- IPv4 ----------

  lemma CanonicalIpv4IsDenoted(t: string, o: seq<nat>)
    ensures Denotes4(t, o) ==> CanonicalIpv4(t) == Some(Text4(o)) && IsIpv4(o)
  {
    if Denotes4(t, o) {
      var ps :| |ps| == 4 && AllOctets(ps) && t == Join(ps, '.') && o == Values(ps, Decimal);
      OctetsAvoid(ps);
      SplitOfJoin(ps, '.');
      forall i | 0 <= i < 4 ensures o[i] <= 255 {
        assert ps[i] in ps;
      }
    }
  }

  lemma OctetsAvoid(ps: seq<string>)
    requires AllOctets(ps)
    ensures forall p <- ps :: '.' !in p
  {
  }

  lemma CanonicalIpv4Denotes(t: string) returns (o: seq<nat>)
    requires CanonicalIpv4(t).Some?
    ensures Denotes4(t, o) && CanonicalIpv4(t) == Some(Text4(o)) && IsIpv4(o)
  {
    var ps := Split(t, '.');
    o := Values(ps, Decimal);
    JoinOfSplit(t, '.');
    assert Denotes4(t, o);
    CanonicalIpv4IsDenoted(t, o);
  }

  /** A dotted text normalises to `n` exactly if it denotes four octets whose canonical text is `n`. */
  lemma Ipv4Meaning(ip: string, n: string)
    requires Dotted(ip)
    ensures Normalize(ip) == Some(n) <==> exists o :: Denotes4(Trim(ip), o) && n == Text4(o)
  {
    hide Denotes4, Text4, CanonicalIpv4, Trim;
    if Normalize(ip) == Some(n) {
      var o := CanonicalIpv4Denotes(Trim(ip));
    }
    forall o | Denotes4(Trim(ip), o) ensures Normalize(ip) == Some(Text4(o)) {
      CanonicalIpv4IsDenoted(Trim(ip), o);
    }
  }

  // ---------- normal forms ----------

  /** Everything accepted becomes the canonical text of some address. */
  lemma NormalFormIsCanonical(ip: string) returns (six: bool, a: seq<nat>)
    requires Normalize(ip).Some?
    ensures if six then IsIpv6(a) && Normalize(ip) == Some(Text6(a)) else IsIpv4(a) && Normalize(ip) == Some(Text4(a))
  {
    hide CanonicalIpv4, CanonicalIpv6, Text6, Text4, IsIpv6, IsIpv4, Trim, Denotes4, Denotes6;
    var t := Trim(ip);
    if ':' in t {
      if '.' in t {
        var i := LastColon(t);
        if Lower(t[..i]) in PlainHeads {
          a := CanonicalIpv4Denotes(t[i + 1..]);
          six := false;
        } else {
          var octets := Split(CanonicalIpv4(t[i + 1..]).value, '.');
          var high := Numeral(Octet(octets, 0) * 256 + Octet(octets, 1), Hexadecimal);
          var low := Numeral(Octet(octets, 2) * 256 + Octet(octets, 3), Hexadecimal);
          a := CanonicalIsDressed(t[..i] + ":" + high + ":" + low);
          six := true;
        }
      } else {
        a := CanonicalIsDressed(t);
        six := true;
      }
    } else {
      a := CanonicalIpv4Denotes(t);
      six := false;
    }
  }

  lemma SafeNormalize(t: string)
    requires Safe(t) && Trim(t) == t
    ensures ':' in t && '.' !in t ==> Normalize(t) == CanonicalIpv6(t)
    ensures ':' in t && '.' in t ==> Normalize(t) == CanonicalEmbedded(t)
    ensures ':' !in t && '.' in t ==> Normalize(t) == CanonicalIpv4(t)
  {
    hide CanonicalIpv4, CanonicalIpv6, CanonicalEmbedded, Trim, IsSpace;
  }

  lemma NoStop(t: string)
    requires forall c <- t :: IsDigit(c, Hexadecimal) || c == ':'
    ensures '.' !in t
  {
  }

  lemma Text6IsFixed(g: seq<nat>)
    requires IsIpv6(g)
    ensures Normalize(Text6(g)) == Some(Text6(g))
  {
    hide Text6, CanonicalIpv6, CanonicalEmbedded, Normalize, Trim, Lower, Safe, SpellsFull, IsDigit;
    var t := Text6(g);
    Text6Chars(g);
    NoStop(t);
    PlainIsSafe(t);
    SafeNormalize(t);
    Text6Spells(g);
    LowerIdle(t);
    assert t + "" == t;
    assert Dresses(t, t, "");
    DressedIsCanonical(t, t, "", g);
  }

  lemma LowerIdle(t: string)
    requires forall c <- t :: IsDigit(c, Hexadecimal) || c == ':'
    ensures Lower(t) == t
  {
    forall i | 0 <= i < |t| ensures Lower(t)[i] == t[i] {
      assert t[i] in t;
    }
  }

  lemma NoColon(t: string)
    requires forall c <- t :: IsDigit(c, Decimal) || c == '.'
    ensures ':' !in t && forall c <- t :: IsDigit(c, Hexadecimal) || c == ':' || c == '.'
  {
  }

  lemma DenotedIsPlain(v: string, o: seq<nat>)
    requires Denotes4(v, o)
    ensures forall c <- v :: IsDigit(c, Decimal) || c == '.'
    ensures '.' in v && 0 < |v| <= 20
  {
    var ps :| |ps| == 4 && AllOctets(ps) && v == Join(ps, '.') && o == Values(ps, Decimal);
    OctetChars(ps);
  }

  /** The text of four octets stands for itself up to its canonical text. */
  lemma DottedNormalizes(v: string, o: seq<nat>)
    requires Denotes4(v, o)
    ensures Normalize(v) == Some(Text4(o))
  {
    hide Denotes4, CanonicalIpv4, CanonicalIpv6, CanonicalEmbedded, Normalize, Trim, Text4, Safe, IsDigit;
    DenotedIsPlain(v, o);
    NoColon(v);
    PlainIsSafe(v);
    SafeNormalize(v);
    CanonicalIpv4IsDenoted(v, o);
  }

  lemma Text4IsFixed(o: seq<nat>)
    requires IsIpv4(o)
    ensures Normalize(Text4(o)) == Some(Text4(o))
  {
    hide Normalize;
    Text4Octets(o);
    DottedNormalizes(Text4(o), o);
  }

  /** Main result: normalising a second time changes nothing. */
  lemma NormalizeIsIdempotent(ip: string)
    requires Normalize(ip).Some?
    ensures Normalize(Normalize(ip).value) == Normalize(ip)
  {
    hide Text6, Text4, Normalize;
    var six, a := NormalFormIsCanonical(ip);
    if six {
      Text6IsFixed(a);
    } else {
      Text4IsFixed(a);
    }
  }

  lemma {:induction false} LastColonIs(t: string, i: nat)
    requires i < |t| && t[i] == ':' && forall j :: i < j < |t| ==> t[j] != ':'
    ensures ':' in t && LastColon(t) == i
  {
    if i < |t| - 1 {
      assert t[..|t| - 1][i] == ':';
      LastColonIs(t[..|t| - 1], i);
    }
  }

  // ---------- an IPv4 address at the end of an IPv6 text ----------

  predicate Mixed(ip: string) {
    Safe(Trim(ip)) && ':' in Trim(ip) && '.' in Trim(ip)
  }

  /** Four octets as two groups, and as the text of these. */
  function TwoGroups(o: seq<nat>): (g: seq<nat>)
    requires |o| == 4
    ensures |g| == 2
  {
    [o[0] * 256 + o[1], o[2] * 256 + o[3]]
  }

  /** What such a text stands for: the address alone after some heads, otherwise the text in which two groups take
      its place. */
  ghost predicate DenotesMixed(t: string, n: string) {
    exists head, v, o :: MixedAs(t, n, head, v, o)
  }

  ghost predicate MixedAs(t: string, n: string, head: string, v: string, o: seq<nat>) {
    && t == head + ":" + v && Denotes4(v, o) && IsIpv4(o)
    && if Lower(head) in {"", ":", "::", "::ffff", "0:0:0:0:0:ffff"} then n == Text4(o)
       else exists g :: Denotes6(head + ":" + Text6(TwoGroups(o)), g) && n == Text6(g)
  }

  lemma TextOfTwo(o: seq<nat>)
    requires |o| == 4
    ensures Text6(TwoGroups(o)) == Numeral(TwoGroups(o)[0], Hexadecimal) + ":" + Numeral(TwoGroups(o)[1], Hexadecimal)
  {
    var ps := NumeralsOf(TwoGroups(o), Hexadecimal);
    assert ps[1..] == [ps[1]] && Join([ps[1]], ':') == ps[1];
    assert Join(ps, ':') == ps[0] + [':'] + Join(ps[1..], ':');
  }

  lemma OctetsBack(o: seq<nat>)
    requires IsIpv4(o)
    ensures var parts := Split(Text4(o), '.');
            Octet(parts, 0) == o[0] && Octet(parts, 1) == o[1] && Octet(parts, 2) == o[2] && Octet(parts, 3) == o[3]
  {
    Text4Octets(o);
    OctetsAvoid(NumeralsOf(o, Decimal));
    SplitOfJoin(NumeralsOf(o, Decimal), '.');
    NumeralsAreNumerals(o, Decimal);
    hide Join, Numeral;
    assert forall i :: 0 <= i < 4 ==> Value(NumeralsOf(o, Decimal)[i], Decimal) == o[i];
  }

  /** The normaliser on such a text, once it is split at its last colon. */
  lemma EmbeddedResult(head: string, v: string, o: seq<nat>)
    requires Denotes4(v, o) && IsIpv4(o)
    ensures ':' in head + ":" + v
    ensures CanonicalEmbedded(head + ":" + v)
            == if Lower(head) in PlainHeads then Some(Text4(o)) else CanonicalIpv6(head + ":" + Text6(TwoGroups(o)))
  {
    hide Denotes4, CanonicalIpv4, CanonicalIpv6, Lower, Text4, Text6, IsDigit, LastColon, Octet, Numeral, TwoGroups, IsIpv4;
    var t := head + ":" + v;
    DenotedIsPlain(v, o);
    NoColon(v);
    assert t[|head|] == ':' && t[..|head|] == head && t[|head| + 1..] == v;
    LastColonIs(t, |head|);
    CanonicalIpv4IsDenoted(v, o);
    OctetsBack(o);
    GroupsOfOctets(o);
    TextOfTwo(o);
    var high, low := Numeral(TwoGroups(o)[0], Hexadecimal), Numeral(TwoGroups(o)[1], Hexadecimal);
    assert head + ":" + high + ":" + low == head + ":" + (high + ":" + low);
  }

  lemma GroupsOfOctets(o: seq<nat>)
    requires IsIpv4(o)
    ensures |o| == 4 && TwoGroups(o)[0] == o[0] * 256 + o[1] && TwoGroups(o)[1] == o[2] * 256 + o[3]
  {
  }

  lemma MixedIsAccepted(ip: string, n: string, head: string, v: string, o: seq<nat>)
    requires Mixed(ip) && MixedAs(Trim(ip), n, head, v, o)
    ensures Normalize(ip) == Some(n)
  {
    hide Denotes4, Denotes6, CanonicalIpv6, CanonicalEmbedded, Lower, Text4, Text6, Trim, IsIpv4, TwoGroups;
    EmbeddedResult(head, v, o);
    if Lower(head) !in PlainHeads {
      GroupsOfOctets(o);
      var g :| Denotes6(head + ":" + Text6(TwoGroups(o)), g) && n == Text6(g);
      DenotedIsIpv6(head + ":" + Text6(TwoGroups(o)), g);
    }
  }

  lemma AcceptedIsMixed(ip: string, n: string)
    requires Mixed(ip) && Normalize(ip) == Some(n)
    ensures DenotesMixed(Trim(ip), n)
  {
    hide Denotes4, Denotes6, CanonicalIpv4, CanonicalIpv6, Lower, Text4, Text6, Trim, LastColon, IsIpv4, TwoGroups, Octet;
    var t := Trim(ip);
    var i := LastColon(t);
    var head, v := t[..i], t[i + 1..];
    assert t == head + ":" + v;
    var o := CanonicalIpv4Denotes(v);
    EmbeddedResult(head, v, o);
    if Lower(head) !in PlainHeads {
      GroupsOfOctets(o);
      var g := CanonicalIsDressed(head + ":" + Text6(TwoGroups(o)));
    }
    assert MixedAs(t, n, head, v, o);
  }

  /** Main result: a text with both colons and full stops normalises to `n` exactly if it stands for `n`. */
  lemma MixedMeaning(ip: string, n: string)
    requires Mixed(ip)
    ensures Normalize(ip) == Some(n) <==> DenotesMixed(Trim(ip), n)
  {
    hide Normalize, MixedAs, Mixed, Trim;
    if Normalize(ip) == Some(n) {
      AcceptedIsMixed(ip, n);
    }
    if DenotesMixed(Trim(ip), n) {
      var head, v, o :| MixedAs(Trim(ip), n, head, v, o);
      MixedIsAccepted(ip, n, head, v, o);
    }
  }

  lemma PlainHeadChars(p: string)
    requires p in PlainHeads
    ensures |p| <= 14 && forall c <- p :: c == ':' || c == 'f' || c == '0'
  {
  }

  lemma PlainHeadIsSafe(head: string)
    requires Lower(head) in PlainHeads
    ensures |head| <= 14 && forall c <- head :: !IsUnsafe(c)
  {
    PlainHeadChars(Lower(head));
    forall c <- head ensures !IsUnsafe(c) {
      var i :| 0 <= i < |head| && head[i] == c;
      assert Lower(head)[i] in Lower(head) && Lower(head)[i] == LowerChar(c);
    }
  }

  /** The dotted text of an IPv4 address after any of the five plain heads, in either case, counts as the plain
      address. */
  lemma MappedIsPlain(head: string, v: string, o: seq<nat>)
    requires Denotes4(v, o) && Lower(head) in {"", ":", "::", "::ffff", "0:0:0:0:0:ffff"}
    ensures Normalize(head + ":" + v) == Some(Text4(o))
  {
    hide Denotes4, CanonicalIpv4, CanonicalIpv6, CanonicalEmbedded, Normalize, Trim, Text4, Lower, IsDigit;
    var t := head + ":" + v;
    PlainHeadIsSafe(head);
    DenotedIsPlain(v, o);
    NoColon(v);
    PlainIsSafe(v);
    CanonicalIpv4IsDenoted(v, o);
    EmbeddedResult(head, v, o);
    assert forall c <- t :: !IsUnsafe(c);
    TrimIdle(t);
    assert '.' in t;
    SafeNormalize(t);
  }

  lemma {:induction false} JoinTwoMore(ps: seq<string>, a: string, b: string)
    ensures Join(ps + [a, b], ':') == (if ps == [] then "" else Join(ps, ':') + ":") + a + ":" + b
  {
    if ps == [] {
      assert ps + [a, b] == [a, b] && [a, b][1..] == [b];
    } else {
      assert (ps + [a, b])[1..] == ps[1..] + [a, b];
      JoinTwoMore(ps[1..], a, b);
      if |ps| > 1 {
        assert Join(ps + [a, b], ':') == ps[0] + [':'] + (Join(ps[1..], ':') + ":" + a + ":" + b);
      }
    }
  }

  /** The head of a mixed text with a double colon between its groups. */
  function ShortHead(head: seq<string>, tail: seq<string>): string {
    Join(head, ':') + if tail == [] then ":" else "::" + Join(tail, ':')
  }

  lemma ValuesAppend(a: seq<string>, b: seq<string>)
    requires AllGroups(a) && AllGroups(b)
    ensures AllGroups(a + b) && Values(a + b, Hexadecimal) == Values(a, Hexadecimal) + Values(b, Hexadecimal)
  {
    hide IsGroupText;
    GroupsApart(a, b);
  }

  lemma ShortBody(head: seq<string>, tail: seq<string>, a: string, b: string)
    ensures ShortHead(head, tail) + ":" + (a + ":" + b) == Join(head, ':') + "::" + Join(tail + [a, b], ':')
  {
    JoinTwoMore(tail, a, b);
    hide Join;
    if tail == [] {
      assert [':'] + ":" == "::";
    }
  }

  lemma ShortWithTwo(head: seq<string>, tail: seq<string>, o: seq<nat>)
    requires AllGroups(head) && AllGroups(tail) && |head| + |tail| <= 6 && IsIpv4(o)
    ensures var g := Values(head, Hexadecimal) + Zeros(6 - |head| - |tail|) + Values(tail, Hexadecimal) + TwoGroups(o);
            Spells(ShortHead(head, tail) + ":" + Text6(TwoGroups(o)), g)
  {
    hide AllGroups, Join, Text6, Values, Zeros, ShortHead, TwoGroups, Numeral, NumeralsOf, IsIpv4;
    GroupsOfOctets(o);
    var two := NumeralsOf(TwoGroups(o), Hexadecimal);
    var longer := tail + two;
    TwoAreGroups(o);
    ValuesAppend(tail, two);
    TextOfTwo(o);
    ShortBody(head, tail, two[0], two[1]);
    assert two == [two[0], two[1]];
    var g := Values(head, Hexadecimal) + Zeros(6 - |head| - |tail|) + Values(tail, Hexadecimal) + TwoGroups(o);
    assert g == Values(head, Hexadecimal) + Zeros(6 - |head| - |tail|) + Values(longer, Hexadecimal);
    assert 8 - |head| - |longer| == 6 - |head| - |tail|;
    assert SpellsShort(ShortHead(head, tail) + ":" + Text6(TwoGroups(o)), head, longer, g);
  }

  lemma TwoAreGroups(o: seq<nat>)
    requires IsIpv4(o)
    ensures AllGroups(NumeralsOf(TwoGroups(o), Hexadecimal)) && Values(NumeralsOf(TwoGroups(o), Hexadecimal), Hexadecimal) == TwoGroups(o)
  {
    NumeralsAreNumerals(TwoGroups(o), Hexadecimal);
    assert o[0] in o && o[1] in o && o[2] in o && o[3] in o;
    HexPowers(4);
    forall p <- NumeralsOf(TwoGroups(o), Hexadecimal) ensures IsGroupText(p) {
      NumeralWidth(TwoGroups(o)[0], Hexadecimal, 4);
      NumeralWidth(TwoGroups(o)[1], Hexadecimal, 4);
    }
  }

  lemma FullWithTwo(ps: seq<string>, o: seq<nat>)
    requires AllGroups(ps) && |ps| == 6 && IsIpv4(o)
    ensures Spells(Join(ps, ':') + ":" + Text6(TwoGroups(o)), Values(ps, Hexadecimal) + TwoGroups(o))
  {
    hide AllGroups, Join, Text6, Values, TwoGroups;
    var two := NumeralsOf(TwoGroups(o), Hexadecimal);
    TwoAreGroups(o);
    ValuesAppend(ps, two);
    TextOfTwo(o);
    JoinTwoMore(ps, two[0], two[1]);
    assert two == [two[0], two[1]];
    var body := Join(ps, ':') + ":" + Text6(TwoGroups(o));
    assert body == Join(ps + two, ':');
    assert SpellsFull(body, ps + two, Values(ps, Hexadecimal) + TwoGroups(o));
  }

  lemma SpelledMixed(ip: string, head: string, v: string, o: seq<nat>, g: seq<nat>)
    requires Mixed(ip) && Trim(ip) == head + ":" + v && Denotes4(v, o) && IsIpv4(o) && Lower(head) !in PlainHeads
    requires Spells(head + ":" + Text6(TwoGroups(o)), g)
    ensures Normalize(ip) == Some(Text6(g))
  {
    hide Denotes4, Spells, CanonicalIpv6, CanonicalBody, CanonicalEmbedded, Lower, Text4, Text6, Trim, IsIpv4, TwoGroups;
    GroupsOfOctets(o);
    var body := head + ":" + Text6(TwoGroups(o));
    EmbeddedResult(head, v, o);
    SpelledChars(body, g);
    LowerIdle(body);
    assert body + "" == body;
    assert Dresses(body, body, "");
    DressedIsCanonical(body, body, "", g);
  }

  lemma SpelledChars(body: string, g: seq<nat>)
    requires Spells(body, g)
    ensures forall c <- body :: IsDigit(c, Hexadecimal) || c == ':'
  {
    hide Join, AllGroups;
    if ps :| SpellsFull(body, ps, g) {
      GroupChars(ps, []);
    } else {
      var head, tail :| SpellsShort(body, head, tail, g);
      GroupChars(head, tail);
    }
  }

  lemma GroupChars(head: seq<string>, tail: seq<string>)
    requires AllGroups(head) && AllGroups(tail)
    ensures forall c <- Join(head, ':') :: IsDigit(c, Hexadecimal) || c == ':'
    ensures forall c <- Join(head, ':') + "::" + Join(tail, ':') :: IsDigit(c, Hexadecimal) || c == ':'
  {
    forall c <- Join(head, ':') + "::" + Join(tail, ':') ensures IsDigit(c, Hexadecimal) || c == ':' {
      BodyChars(head, tail, c);
    }
  }

  /** The forms of section 2.2 (3) of RFC 4291: six leading groups, written out or with a double colon, and four
      octets. Unless the head is one that makes the text plain IPv4, it normalises to the address with these six
      groups followed by the octets as two groups. */
  lemma MixedForms(ip: string, head: seq<string>, tail: seq<string>, v: string, o: seq<nat>)
    requires Mixed(ip) && AllGroups(head) && AllGroups(tail) && Denotes4(v, o) && IsIpv4(o)
    ensures |head| + |tail| <= 6 && Trim(ip) == ShortHead(head, tail) + ":" + v && Lower(ShortHead(head, tail)) !in PlainHeads ==>
              Normalize(ip)
              == Some(Text6(Values(head, Hexadecimal) + Zeros(6 - |head| - |tail|) + Values(tail, Hexadecimal) + TwoGroups(o)))
    ensures |head| == 6 && Trim(ip) == Join(head, ':') + ":" + v && Lower(Join(head, ':')) !in PlainHeads ==>
              Normalize(ip) == Some(Text6(Values(head, Hexadecimal) + TwoGroups(o)))
  {
    hide Denotes4, Spells, Normalize, Lower, Text6, Trim, IsIpv4, TwoGroups, AllGroups, Join, ShortHead, Values, Zeros, Safe;
    GroupsOfOctets(o);
    if |head| + |tail| <= 6 && Trim(ip) == ShortHead(head, tail) + ":" + v && Lower(ShortHead(head, tail)) !in PlainHeads {
      ShortWithTwo(head, tail, o);
      SpelledMixed(ip, ShortHead(head, tail), v, o,
                   Values(head, Hexadecimal) + Zeros(6 - |head| - |tail|) + Values(tail, Hexadecimal) + TwoGroups(o));
    }
    if |head| == 6 && Trim(ip) == Join(head, ':') + ":" + v && Lower(Join(head, ':')) !in PlainHeads {
      FullWithTwo(head, o);
      SpelledMixed(ip, Join(head, ':'), v, o, Values(head, Hexadecimal) + TwoGroups(o));
    }
  }

  // ---------- prefixes ----------

  /** The number of an address, most significant group first. */
  function Bits(g: seq<nat>): nat {
    if g == [] then 0 else Bits(g[..|g| - 1]) * 65536 + g[|g| - 1]
  }

  const LOW_64 := 0x1_0000_0000_0000_0000

  lemma {:induction false} NoneEmpty(ps: seq<string>)
    requires forall p <- ps :: p != []
    ensures NonEmpty(ps) == ps
  {
    if ps != [] {
      assert ps[0] in ps && forall p <- ps[1..] :: p in ps;
      NoneEmpty(ps[1..]);
    }
  }

  lemma PrefixOfText6(g: seq<nat>)
    requires IsIpv6(g)
    ensures Prefix(Text6(g)) == Join(NumeralsOf(g[..4], Hexadecimal), ':')
  {
    var ps := NumeralsOf(g, Hexadecimal);
    Text6Chars(g);
    NumeralsAvoid(g, Hexadecimal, ':');
    SplitOfJoin(ps, ':');
    NumeralsAreNumerals(g, Hexadecimal);
    NoneEmpty(ps);
    assert ps[..4] == NumeralsOf(g[..4], Hexadecimal);
  }

  lemma {:induction false} BitsSplit(g: seq<nat>)
    requires IsIpv6(g)
    ensures Bits(g) / LOW_64 == Bits(g[..4])
  {
    assert g[..7][..6] == g[..6] && g[..6][..5] == g[..5] && g[..5][..4] == g[..4];
    assert Bits(g[..5]) == Bits(g[..4]) * 65536 + g[4];
    assert Bits(g[..6]) == Bits(g[..5]) * 65536 + g[5];
    assert Bits(g[..7]) == Bits(g[..6]) * 65536 + g[6];
    assert g[4] in g && g[5] in g && g[6] in g && g[7] in g;
    FourGroupsAway(Bits(g[..4]), g[4], g[5], g[6], g[7]);
  }

  lemma FourGroupsAway(top: nat, a: nat, b: nat, c: nat, d: nat)
    requires a < 65536 && b < 65536 && c < 65536 && d < 65536
    ensures ((((top * 65536 + a) * 65536 + b) * 65536 + c) * 65536 + d) / LOW_64 == top
  {
    var low := ((a * 65536 + b) * 65536 + c) * 65536 + d;
    assert (((top * 65536 + a) * 65536 + b) * 65536 + c) * 65536 + d == top * LOW_64 + low;
    assert low < LOW_64;
  }

  lemma LastGroup(x: nat, y: nat, a: nat, b: nat)
    requires a < 65536 && b < 65536 && x * 65536 + a == y * 65536 + b
    ensures x == y && a == b
  {
  }

  lemma {:induction false} SameBits(g: seq<nat>, h: seq<nat>)
    requires |g| == |h| && (forall x <- g :: x < 65536) && (forall x <- h :: x < 65536)
    ensures Bits(g) == Bits(h) <==> g == h
  {
    if g != [] && Bits(g) == Bits(h) {
      var n := |g| - 1;
      assert g[n] in g && h[n] in h && (forall x <- g[..n] :: x in g) && (forall x <- h[..n] :: x in h);
      LastGroup(Bits(g[..n]), Bits(h[..n]), g[n], h[n]);
      SameBits(g[..n], h[..n]);
      assert g == g[..n] + [g[n]] && h == h[..n] + [h[n]];
    }
  }

  /** Main result: the prefix of an IPv6 normal form is exactly the top 64 bits of the address. */
  lemma PrefixIsTop64Bits(g: seq<nat>, h: seq<nat>)
    requires IsIpv6(g) && IsIpv6(h)
    ensures Prefix(Text6(g)) == Prefix(Text6(h)) <==> Bits(g) / LOW_64 == Bits(h) / LOW_64
  {
    hide Prefix, Text6, Bits;
    PrefixOfText6(g);
    PrefixOfText6(h);
    BitsSplit(g);
    BitsSplit(h);
    assert forall x <- g[..4] :: x in g;
    assert forall x <- h[..4] :: x in h;
    SameBits(g[..4], h[..4]);
    NumeralsAvoid(g[..4], Hexadecimal, ':');
    NumeralsAvoid(h[..4], Hexadecimal, ':');
    JoinInjective(NumeralsOf(g[..4], Hexadecimal), NumeralsOf(h[..4], Hexadecimal), ':');
    NumeralsAreNumerals(g[..4], Hexadecimal);
    NumeralsAreNumerals(h[..4], Hexadecimal);
  }
}
