/** What address texts mean, apart from any algorithm, and that the normaliser respects it. */
module AddressMeaning {
  import opened Wrappers
  import opened Numerals
  import opened NetworkAddress

  function Zeros(n: nat): (r: seq<nat>)
    ensures |r| == n && forall i :: 0 <= i < n ==> r[i] == 0
  {
    if n == 0 then [] else [0] + Zeros(n - 1)
  }

  predicate IsIpv6(g: seq<nat>) {
    |g| == 8 && forall x <- g :: x < 65536
  }

  predicate IsIpv4(o: seq<nat>) {
    |o| == 4 && forall x <- o :: x <= 255
  }

  function Text6(g: seq<nat>): string {
    Join(NumeralsOf(g, Hexadecimal), ':')
  }

  function Text4(o: seq<nat>): string {
    Join(NumeralsOf(o, Decimal), '.')
  }

  // ---------- the meaning of a text (section 2.2 of RFC 4291) ----------

  /** Eight groups of one to four hexadecimal digits. */
  predicate SpellsFull(body: string, ps: seq<string>, g: seq<nat>) {
    |ps| == 8 && AllGroups(ps) && body == Join(ps, ':') && g == Values(ps, Hexadecimal)
  }

  /** Two colons stand for the groups of zeros between a head and a tail. */
  predicate SpellsShort(body: string, head: seq<string>, tail: seq<string>, g: seq<nat>) {
    && AllGroups(head) && AllGroups(tail) && |head| + |tail| <= 8
    && body == Join(head, ':') + "::" + Join(tail, ':')
    && g == Values(head, Hexadecimal) + Zeros(8 - |head| - |tail|) + Values(tail, Hexadecimal)
  }

  ghost predicate Spells(body: string, g: seq<nat>) {
    || (exists ps :: SpellsFull(body, ps, g))
    || (exists head, tail :: SpellsShort(body, head, tail, g))
  }

  /** A zone is introduced by a percent sign and means nothing; neither do brackets nor the case of letters. */
  predicate Dresses(text: string, body: string, zone: string) {
    (zone == "" || zone[0] == '%') && (Lower(text) == body + zone || Lower(text) == "[" + body + zone + "]")
  }

  ghost predicate Denotes6(text: string, g: seq<nat>) {
    exists body, zone :: Dresses(text, body, zone) && Spells(body, g)
  }

  ghost predicate Denotes4(text: string, o: seq<nat>) {
    exists ps :: |ps| == 4 && AllOctets(ps) && text == Join(ps, '.') && o == Values(ps, Decimal)
  }

  // ---------- groups and numerals ----------

  lemma {:induction false} StrippedAreNumerals(ps: seq<string>)
    requires AllGroups(ps)
    ensures Stripped(ps) == NumeralsOf(Values(ps, Hexadecimal), Hexadecimal)
  {
    if ps != [] {
      assert ps[0] in ps && forall p <- ps[1..] :: p in ps;
      StrippedAreNumerals(ps[1..]);
      StrippedIsNumeral(ps[0], Hexadecimal);
    }
  }

  lemma {:induction false} PaddingIsZeros(n: nat)
    ensures Padding(n) == NumeralsOf(Zeros(n), Hexadecimal)
  {
    if n > 0 {
      PaddingIsZeros(n - 1);
    }
  }

  lemma NumeralsAppend(a: seq<nat>, b: seq<nat>, base: Base)
    ensures NumeralsOf(a + b, base) == NumeralsOf(a, base) + NumeralsOf(b, base)
  {
  }

  lemma CanonicalGroups(head: seq<string>, tail: seq<string>)
    requires AllGroups(head) && AllGroups(tail) && |head| + |tail| <= 8
    ensures var g := Values(head, Hexadecimal) + Zeros(8 - |head| - |tail|) + Values(tail, Hexadecimal);
            Join(Stripped(head) + Padding(8 - |head| - |tail|) + Stripped(tail), ':') == Text6(g)
  {
    hide Join, Values, NumeralsOf, AllGroups, Stripped, Padding, Zeros;
    var n := 8 - |head| - |tail|;
    StrippedAreNumerals(head);
    StrippedAreNumerals(tail);
    PaddingIsZeros(n);
    NumeralsAppend(Values(head, Hexadecimal), Zeros(n), Hexadecimal);
    NumeralsAppend(Values(head, Hexadecimal) + Zeros(n), Values(tail, Hexadecimal), Hexadecimal);
  }

  lemma GroupHasNoColon(p: string)
    requires IsGroupText(p)
    ensures ':' !in p && p != [] && p[0] != ':'
  {
    assert p[0] in p;
  }

  lemma GroupsHaveNoColon(ps: seq<string>)
    requires AllGroups(ps)
    ensures forall p <- ps :: ':' !in p
  {
    forall p <- ps ensures ':' !in p {
      GroupHasNoColon(p);
    }
  }

  // ---------- double colons ----------

  lemma {:induction false} DoubleSkips(p: string, rest: string)
    requires ':' !in p
    ensures DoubleAt(p + rest) == |p| + DoubleAt(rest)
  {
    if p == [] {
      assert p + rest == rest;
    } else {
      assert (p + rest)[1..] == p[1..] + rest;
      assert p[0] in p && forall c <- p[1..] :: c in p;
      DoubleSkips(p[1..], rest);
    }
  }

  lemma JoinStarts(ps: seq<string>)
    requires AllGroups(ps) && ps != []
    ensures Join(ps, ':') != [] && Join(ps, ':')[0] != ':'
  {
    assert ps[0] in ps;
    GroupHasNoColon(ps[0]);
  }

  lemma DoubleAfterColon(x: string)
    requires x != [] && x[0] != ':'
    ensures DoubleAt([':'] + x) == 1 + DoubleAt(x)
  {
    assert ([':'] + x)[1..] == x;
  }

  lemma RestIsDouble(rest: string)
    requires rest == [] || (|rest| >= 2 && rest[0] == ':' == rest[1])
    ensures DoubleAt(rest) == 0
  {
  }

  /** Joined groups hold no double colon, so the first one is where the rest begins. */
  lemma {:induction false} DoubleAfterGroups(ps: seq<string>, rest: string)
    requires AllGroups(ps) && (rest == [] || (|rest| >= 2 && rest[0] == ':' == rest[1]))
    ensures DoubleAt(Join(ps, ':') + rest) == |Join(ps, ':')|
    ensures ps != [] ==> Join(ps, ':') != [] && Join(ps, ':')[0] != ':'
  {
    hide IsGroupText, DoubleAt;
    RestIsDouble(rest);
    if ps == [] {
      assert Join(ps, ':') + rest == rest;
    } else {
      JoinStarts(ps);
      assert ps[0] in ps;
      GroupHasNoColon(ps[0]);
      if |ps| == 1 {
        DoubleSkips(ps[0], rest);
      } else {
        assert forall p <- ps[1..] :: p in ps;
        DoubleAfterGroups(ps[1..], rest);
        var x := Join(ps[1..], ':') + rest;
        assert Join(ps, ':') + rest == ps[0] + ([':'] + x);
        DoubleSkips(ps[0], [':'] + x);
        DoubleAfterColon(x);
      }
    }
  }

  lemma HalvesOfFull(ps: seq<string>)
    requires AllGroups(ps)
    ensures Halves(Join(ps, ':')) == [Join(ps, ':')]
  {
    DoubleAfterGroups(ps, []);
    assert Join(ps, ':') + [] == Join(ps, ':');
  }

  lemma HalvesOfShort(head: seq<string>, tail: seq<string>)
    requires AllGroups(head) && AllGroups(tail)
    ensures Halves(Join(head, ':') + "::" + Join(tail, ':')) == [Join(head, ':'), Join(tail, ':')]
  {
    var body := Join(head, ':') + "::" + Join(tail, ':');
    var i := |Join(head, ':')|;
    assert body == Join(head, ':') + ("::" + Join(tail, ':'));
    DoubleAfterGroups(head, "::" + Join(tail, ':'));
    assert body[..i] == Join(head, ':') && body[i + 2..] == Join(tail, ':');
    HalvesOfFull(tail);
  }

  lemma GroupsOfJoin(ps: seq<string>)
    requires AllGroups(ps)
    ensures Groups(Join(ps, ':')) == ps
  {
    if ps != [] {
      GroupsHaveNoColon(ps);
      SplitOfJoin(ps, ':');
      DoubleAfterGroups(ps, []);
    }
  }

  lemma JoinOfGroups(half: string)
    ensures Join(Groups(half), ':') == half
  {
    if half != "" {
      JoinOfSplit(half, ':');
    }
  }

  lemma BodyChars(head: seq<string>, tail: seq<string>, c: char)
    requires AllGroups(head) && AllGroups(tail) && c in Join(head, ':') + "::" + Join(tail, ':')
    ensures IsDigit(c, Hexadecimal) || c == ':'
  {
    if c in Join(head, ':') {
      JoinChars(head, ':', c);
    } else if c in Join(tail, ':') {
      JoinChars(tail, ':', c);
    }
  }

  // ---------- bodies ----------

  lemma FullIsCanonical(body: string, ps: seq<string>, g: seq<nat>)
    requires SpellsFull(body, ps, g)
    ensures CanonicalBody(body) == Some(Text6(g))
  {
    forall c <- body ensures IsDigit(c, Hexadecimal) || c == ':' {
      JoinChars(ps, ':', c);
    }
    HalvesOfFull(ps);
    GroupsOfJoin(ps);
    DoubleAfterGroups(ps, []);
    assert ps + [] == ps;
    CanonicalGroups(ps, []);
    assert Values(ps, Hexadecimal) + Zeros(0) + Values([], Hexadecimal) == g;
  }

  lemma ShortIsCanonical(body: string, head: seq<string>, tail: seq<string>, g: seq<nat>)
    requires SpellsShort(body, head, tail, g)
    ensures CanonicalBody(body) == Some(Text6(g))
  {
    forall c <- body ensures IsDigit(c, Hexadecimal) || c == ':' {
      BodyChars(head, tail, c);
    }
    HalvesOfShort(head, tail);
    GroupsOfJoin(head);
    GroupsOfJoin(tail);
    CanonicalGroups(head, tail);
  }

  lemma HalvesRejoin(s: string)
    ensures |Halves(s)| == 1 ==> Halves(s)[0] == s
    ensures |Halves(s)| == 2 ==> s == Halves(s)[0] + "::" + Halves(s)[1]
  {
    var i := DoubleAt(s);
    if i < |s| {
      assert s == s[..i] + "::" + s[i + 2..];
      var j := DoubleAt(s[i + 2..]);
    }
  }

  lemma GroupsApart(head: seq<string>, tail: seq<string>)
    ensures AllGroups(head + tail) <==> AllGroups(head) && AllGroups(tail)
  {
    hide IsGroupText;
    assert forall p :: p in head + tail <==> p in head || p in tail;
  }

  function HeadOf(body: string): seq<string> {
    Groups(Halves(body)[0])
  }

  function TailOf(body: string): seq<string> {
    if |Halves(body)| == 2 then Groups(Halves(body)[1]) else []
  }

  lemma AcceptedBody(body: string)
    requires CanonicalBody(body).Some?
    ensures var head, tail := HeadOf(body), TailOf(body);
            && 1 <= |Halves(body)| <= 2 && AllGroups(head) && AllGroups(tail)
            && |head| + |tail| <= 8 && (|Halves(body)| == 1 ==> |head| == 8)
            && CanonicalBody(body) == Some(Join(Stripped(head) + Padding(8 - |head| - |tail|) + Stripped(tail), ':'))
  {
    hide AllGroups, Halves, Groups, Stripped, Padding, Join, IsDigit;
    GroupsApart(HeadOf(body), TailOf(body));
  }

  function MeaningOf(head: seq<string>, tail: seq<string>): seq<nat>
    requires AllGroups(head) && AllGroups(tail) && |head| + |tail| <= 8
  {
    Values(head, Hexadecimal) + Zeros(8 - |head| - |tail|) + Values(tail, Hexadecimal)
  }

  /** What an accepted body spells. */
  lemma CanonicalIsSpelled(body: string) returns (g: seq<nat>)
    requires CanonicalBody(body).Some?
    ensures Spells(body, g) && CanonicalBody(body) == Some(Text6(g)) && IsIpv6(g)
  {
    hide CanonicalBody, AllGroups, Halves, Groups, Stripped, Padding, Join, Text6, HeadOf, TailOf;
    AcceptedBody(body);
    var head, tail := HeadOf(body), TailOf(body);
    g := MeaningOf(head, tail);
    CanonicalGroups(head, tail);
    SmallMeaning(head, tail);
    hide MeaningOf, IsIpv6, Spells;
    SpelledByHalves(body);
  }

  lemma SmallMeaning(head: seq<string>, tail: seq<string>)
    requires AllGroups(head) && AllGroups(tail) && |head| + |tail| <= 8
    ensures IsIpv6(MeaningOf(head, tail))
  {
    hide AllGroups;
    SmallGroups(head);
    SmallGroups(tail);
  }

  lemma SpelledByHalves(body: string)
    requires CanonicalBody(body).Some?
    requires AllGroups(HeadOf(body)) && AllGroups(TailOf(body)) && |HeadOf(body)| + |TailOf(body)| <= 8
    ensures Spells(body, MeaningOf(HeadOf(body), TailOf(body)))
  {
    hide CanonicalBody, AllGroups, Halves, Groups, Join;
    AcceptedBody(body);
    HalvesRejoin(body);
    var head, tail := HeadOf(body), TailOf(body);
    JoinOfGroups(Halves(body)[0]);
    if |Halves(body)| == 2 {
      JoinOfGroups(Halves(body)[1]);
      assert SpellsShort(body, head, tail, MeaningOf(head, tail));
    } else {
      assert MeaningOf(head, tail) == Values(head, Hexadecimal);
      assert SpellsFull(body, head, MeaningOf(head, tail));
    }
  }

  lemma SmallGroups(ps: seq<string>)
    requires AllGroups(ps)
    ensures forall x <- Values(ps, Hexadecimal) :: x < 65536
  {
    forall i | 0 <= i < |ps| ensures Values(ps, Hexadecimal)[i] < 65536 {
      assert ps[i] in ps;
      ValueBound(ps[i], Hexadecimal);
      HexPowers(|ps[i]|);
    }
  }

  lemma HexPowers(n: nat)
    requires 1 <= n <= 4
    ensures Power(Hexadecimal, n) <= 65536 && Power(Hexadecimal, 4) == 65536
  {
    assert Power(Hexadecimal, 1) == 16;
    assert Power(Hexadecimal, 2) == 256;
    assert Power(Hexadecimal, 3) == 4096;
  }

  lemma SpelledIsCanonical(body: string, g: seq<nat>)
    requires Spells(body, g)
    ensures CanonicalBody(body) == Some(Text6(g))
    ensures body != [] && body[0] != '[' && '%' !in body
  {
    if ps :| SpellsFull(body, ps, g) {
      FullIsCanonical(body, ps, g);
    } else {
      var head, tail :| SpellsShort(body, head, tail, g);
      ShortIsCanonical(body, head, tail, g);
    }
    assert body[0] in body;
  }

  // ---------- whole texts ----------

  function Inner(text: string): string {
    var lower := Lower(text);
    if |lower| >= 2 && lower[0] == '[' && lower[|lower| - 1] == ']' then lower[1..|lower| - 1] else lower
  }

  lemma InnerFacts(text: string)
    ensures Lower(text) == Inner(text) || Lower(text) == "[" + Inner(text) + "]"
    ensures Unwrapped(text) == Inner(text)[..IndexOf(Inner(text), '%')]
  {
    hide IndexOf, Lower;
  }

  lemma InnerOfDressed(text: string, body: string, zone: string)
    requires Dresses(text, body, zone) && body != [] && body[0] != '['
    ensures Inner(text) == body + zone
  {
    var lower := Lower(text);
    hide Lower;
    if lower == body + zone {
      assert lower[0] == body[0];
    } else {
      assert lower[1..|lower| - 1] == body + zone;
    }
  }

  lemma DressedIsCanonical(text: string, body: string, zone: string, g: seq<nat>)
    requires Dresses(text, body, zone) && Spells(body, g)
    ensures CanonicalIpv6(text) == Some(Text6(g))
  {
    hide CanonicalBody, Spells, Text6, Inner, Unwrapped, Dresses, IndexOf;
    SpelledIsCanonical(body, g);
    InnerOfDressed(text, body, zone);
    InnerFacts(text);
    ZoneStarts(text, body, zone);
    IndexOfIs(body, zone, '%');
    assert (body + zone)[..|body|] == body;
  }

  lemma ZoneStarts(text: string, body: string, zone: string)
    requires Dresses(text, body, zone)
    ensures zone == [] || zone[0] == '%'
  {
  }

  lemma CanonicalIsDressed(text: string) returns (g: seq<nat>)
    requires CanonicalIpv6(text).Some?
    ensures Denotes6(text, g) && CanonicalIpv6(text) == Some(Text6(g)) && IsIpv6(g)
  {
    hide CanonicalBody, Spells, Text6, Inner, Unwrapped, IndexOf, Lower;
    InnerFacts(text);
    var inner := Inner(text);
    var i := IndexOf(inner, '%');
    g := CanonicalIsSpelled(inner[..i]);
    assert inner == inner[..i] + inner[i..];
    assert Dresses(text, inner[..i], inner[i..]);
  }
}
