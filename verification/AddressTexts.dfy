/** The outer checks of the normaliser and the parts of an address text, spelled out character by character. */
module AddressTexts {
  import opened Wrappers
  import opened Numerals
  import opened NetworkAddress
  import opened AddressMeaning
  import opened AddressIdentity

  // ---------- what is looked at, and what is turned down unseen ----------

  /** White space, by code point. */
  lemma SpaceExactly(c: char)
    ensures IsSpace(c)
            <==> (8192 <= c as int <= 8202) || (9 <= c as int <= 13)
                 || c as int in {32, 160, 5760, 8232, 8233, 8239, 8287, 12288, 65279}
  {
  }

  /** Trimming removes white space from both ends, and nothing else. */
  lemma {:induction false} TrimmedExactly(s: string, t: string)
    ensures t == Trim(s)
            <==> && (t != [] ==> !IsSpace(t[0]) && !IsSpace(t[|t| - 1]))
                 && (exists front, back :: Around(s, front, t, back))
    decreases |s|
  {
    TrimFits(s);
    if t != [] && !IsSpace(t[0]) && !IsSpace(t[|t| - 1]) && exists front, back :: Around(s, front, t, back) {
      var front, back :| Around(s, front, t, back);
      TrimOf(front, t, back);
    } else if t == [] && exists front, back :: Around(s, front, t, back) {
      var front, back :| Around(s, front, t, back);
      assert s == front + back;
      AllSpace(s);
    }
  }

  predicate Around(s: string, front: string, t: string, back: string) {
    s == front + t + back && (forall c <- front :: IsSpace(c)) && (forall c <- back :: IsSpace(c))
  }

  lemma {:induction false} TrimFits(s: string)
    ensures var t := Trim(s);
            (t != [] ==> !IsSpace(t[0]) && !IsSpace(t[|t| - 1])) && exists front, back :: Around(s, front, t, back)
    decreases |s|
  {
    hide IsSpace;
    var t := Trim(s);
    if s != [] && IsSpace(s[0]) {
      TrimFits(s[1..]);
      var front, back :| Around(s[1..], front, t, back);
      assert Around(s, [s[0]] + front, t, back);
    } else if s != [] && IsSpace(s[|s| - 1]) {
      var rest := s[..|s| - 1];
      TrimFits(rest);
      var front, back :| Around(rest, front, t, back);
      assert s == rest + [s[|s| - 1]];
      assert Around(s, front, t, back + [s[|s| - 1]]);
    } else {
      assert Around(s, [], s, []);
    }
  }

  lemma {:induction false} TrimOf(front: string, t: string, back: string)
    requires t != [] && !IsSpace(t[0]) && !IsSpace(t[|t| - 1])
    requires (forall c <- front :: IsSpace(c)) && (forall c <- back :: IsSpace(c))
    ensures Trim(front + t + back) == t
    decreases |front| + |back|
  {
    hide IsSpace;
    var s := front + t + back;
    if front != [] {
      assert front[0] in front && s[1..] == front[1..] + t + back && forall c <- front[1..] :: c in front;
      TrimOf(front[1..], t, back);
    } else if back != [] {
      var fewer := back[..|back| - 1];
      assert back[|back| - 1] in back && s[..|s| - 1] == t + fewer && forall c <- fewer :: c in back;
      assert [] + t + fewer == t + fewer && s == t + back;
      TrimOf([], t, fewer);
    } else {
      assert s == t;
    }
  }

  lemma {:induction false} AllSpace(s: string)
    requires forall c <- s :: IsSpace(c)
    ensures Trim(s) == []
  {
    hide IsSpace;
    if s != [] {
      assert s[0] in s && forall c <- s[1..] :: c in s;
      AllSpace(s[1..]);
    }
  }

  /** What is left must have 1 to 256 characters, none of them white space, a quotation mark or a backslash, and a colon
      or a full stop among them. */
  lemma AcceptedShape(ip: string)
    requires Normalize(ip).Some?
    ensures var t := Trim(ip);
            && 1 <= |t| <= 256
            && (forall c <- t :: !IsSpace(c) && c != '"' && c != '\'' && c != '\\')
            && (':' in t || '.' in t)
  {
    hide Trim, CanonicalIpv4, CanonicalIpv6, CanonicalEmbedded;
    assert forall c <- Trim(ip) :: !IsUnsafe(c);
  }

  // ---------- the parts ----------

  predicate IsDecimal(c: char) {
    '0' <= c <= '9'
  }

  function Weight(c: char): int {
    c as int - '0' as int
  }

  /** An octet is one to three decimal digits up to 255, leading zeros and all. */
  lemma OctetExactly(p: string)
    ensures IsOctetText(p)
            <==> && 1 <= |p| <= 3 && (forall i :: 0 <= i < |p| ==> IsDecimal(p[i]))
                 && (|p| == 3 ==> 100 * Weight(p[0]) + 10 * Weight(p[1]) + Weight(p[2]) <= 255)
  {
    if 1 <= |p| <= 3 && forall i :: 0 <= i < |p| ==> IsDecimal(p[i]) {
      ShortValue(p);
    }
    if IsOctetText(p) {
      forall i | 0 <= i < |p| ensures IsDecimal(p[i]) {
        assert p[i] in p;
      }
    }
  }

  lemma ShortValue(p: string)
    requires 1 <= |p| <= 3 && forall i :: 0 <= i < |p| ==> IsDecimal(p[i])
    ensures AllDigits(p, Decimal)
    ensures |p| == 3 ==> Value(p, Decimal) == 100 * Weight(p[0]) + 10 * Weight(p[1]) + Weight(p[2])
    ensures |p| < 3 ==> Value(p, Decimal) <= 99
  {
    assert forall c <- p :: IsDigit(c, Decimal);
    assert p[..0] == [];
    if |p| > 1 {
      assert p[..1][..0] == [] && p[..1][0] == p[0];
      assert Value(p[..1], Decimal) == Weight(p[0]);
    }
    if |p| > 2 {
      assert p[..2][..1] == p[..1] && p[..2][1] == p[1];
      assert Value(p[..2], Decimal) == 10 * Weight(p[0]) + Weight(p[1]);
    }
  }

  /** A group is one to four hexadecimal digits. */
  lemma GroupExactly(p: string)
    ensures IsGroupText(p) <==> 1 <= |p| <= 4 && forall i :: 0 <= i < |p| ==> IsDecimal(p[i]) || 'a' <= p[i] <= 'f'
  {
    if IsGroupText(p) {
      forall i | 0 <= i < |p| ensures IsDecimal(p[i]) || 'a' <= p[i] <= 'f' {
        assert p[i] in p;
      }
    }
  }

  /** The same text but for the case of letters. */
  predicate SameButCase(s: string, t: string) {
    |s| == |t| && forall i :: 0 <= i < |s| ==>
      s[i] == t[i] || ('A' <= s[i] <= 'Z' && t[i] as int == s[i] as int + 32) || ('A' <= t[i] <= 'Z' && s[i] as int == t[i] as int + 32)
  }

  /** The case of letters does not matter, in any text without a full stop. */
  lemma CaseMeansNothing(a: string, b: string)
    requires SameButCase(Trim(a), Trim(b)) && '.' !in Trim(a) && '.' !in Trim(b)
    ensures Normalize(a) == Normalize(b)
  {
    hide Trim, CanonicalIpv6, IsUnsafe;
    var s, t := Trim(a), Trim(b);
    CaseInIpv6(s, t);
    if (exists c <- s :: IsUnsafe(c)) || (exists c <- t :: IsUnsafe(c)) {
      UnsafeInBoth(s, t);
    }
    if ':' in s || ':' in t {
      ColonInBoth(s, t);
    }
    hide SameButCase;
  }

  lemma CaseInIpv6(s: string, t: string)
    requires SameButCase(s, t)
    ensures CanonicalIpv6(s) == CanonicalIpv6(t)
  {
    SameLower(s, t);
    SameUnwrapped(s, t);
    hide CanonicalBody, Lower, Unwrapped, SameButCase;
  }

  lemma SameUnwrapped(s: string, t: string)
    requires Lower(s) == Lower(t)
    ensures Unwrapped(s) == Unwrapped(t)
  {
    hide Lower, IndexOf;
  }

  lemma SameLower(s: string, t: string)
    requires SameButCase(s, t)
    ensures Lower(s) == Lower(t)
  {
    hide Lower;
    var x, y := Lower(s), Lower(t);
    forall i | 0 <= i < |s| ensures x[i] == y[i] {
      LowerOfBoth(s[i], t[i]);
    }
  }

  lemma LowerOfBoth(c: char, d: char)
    requires c == d || ('A' <= c <= 'Z' && d as int == c as int + 32) || ('A' <= d <= 'Z' && c as int == d as int + 32)
    ensures LowerChar(c) == LowerChar(d)
  {
  }

  lemma UnsafeInBoth(s: string, t: string)
    requires SameButCase(s, t)
    ensures (exists c <- s :: IsUnsafe(c)) <==> (exists c <- t :: IsUnsafe(c))
  {
    forall i | 0 <= i < |s| && (IsUnsafe(s[i]) || IsUnsafe(t[i])) ensures s[i] == t[i] {}
    if c :| c in s && IsUnsafe(c) {
      var i :| 0 <= i < |s| && s[i] == c;
      assert t[i] in t;
    }
    if c :| c in t && IsUnsafe(c) {
      var i :| 0 <= i < |t| && t[i] == c;
      assert s[i] in s;
    }
  }

  lemma ColonInBoth(s: string, t: string)
    requires SameButCase(s, t)
    ensures ':' in s <==> ':' in t
  {
    forall i | 0 <= i < |s| && (s[i] == ':' || t[i] == ':') ensures s[i] == t[i] {}
  }

  // ---------- the prefix of an IPv4 address ----------

  /** The prefix of an IPv4 normal form is exactly its first three octets. */
  lemma PrefixIsThreeOctets(o: seq<nat>, q: seq<nat>)
    requires IsIpv4(o) && IsIpv4(q)
    ensures Prefix(Text4(o)) == Text4(o[..3])
    ensures Prefix(Text4(o)) == Prefix(Text4(q)) <==> o[..3] == q[..3]
  {
    PrefixOfText4(o);
    PrefixOfText4(q);
    hide Prefix, Text4;
    if Text4(o[..3]) == Text4(q[..3]) {
      Text4Injective(o[..3], q[..3]);
    }
  }

  lemma Text4Injective(o: seq<nat>, q: seq<nat>)
    requires |o| == |q| == 3 && Text4(o) == Text4(q)
    ensures o == q
  {
    NumeralsAvoid(o, Decimal, '.');
    NumeralsAvoid(q, Decimal, '.');
    JoinInjective(NumeralsOf(o, Decimal), NumeralsOf(q, Decimal), '.');
    NumeralsAreNumerals(o, Decimal);
    NumeralsAreNumerals(q, Decimal);
    hide Join, Numeral;
  }

  lemma PrefixOfText4(o: seq<nat>)
    requires IsIpv4(o)
    ensures Prefix(Text4(o)) == Text4(o[..3])
  {
    var ps := NumeralsOf(o, Decimal);
    NumeralsAvoid(o, Decimal, '.');
    NumeralsAvoid(o, Decimal, ':');
    SplitOfJoin(ps, '.');
    if ':' in Text4(o) {
      JoinChars(ps, '.', ':');
    }
    assert ps[..3] == NumeralsOf(o[..3], Decimal);
    hide Join, Split, Numeral;
  }
}
