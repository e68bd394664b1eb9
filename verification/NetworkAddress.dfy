/** Client addresses: the texts that are accepted, the canonical text of each, and the network prefix. */
module NetworkAddress {
  import opened Wrappers
  import opened Numerals

  const MAX_LENGTH := 256

  // ---------- the normaliser ----------

  /** White space and line ends of ECMAScript texts. */
  predicate IsSpace(c: char) {
    || '\t' <= c <= '\r' || c == ' ' || c == '\U{00A0}' || c == '\U{1680}' || '\U{2000}' <= c <= '\U{200A}'
    || c == '\U{2028}' || c == '\U{2029}' || c == '\U{202F}' || c == '\U{205F}' || c == '\U{3000}' || c == '\U{FEFF}'
  }

  function Trim(s: string): string {
    if s != [] && IsSpace(s[0]) then Trim(s[1..])
    else if s != [] && IsSpace(s[|s| - 1]) then Trim(s[..|s| - 1])
    else s
  }

  predicate IsUnsafe(c: char) {
    IsSpace(c) || c == '"' || c == '\'' || c == '\\'
  }

  function LowerChar(c: char): char {
    if 'A' <= c <= 'Z' then 'a' + (c - 'A') else c
  }

  function Lower(s: string): (r: string)
    ensures |r| == |s| && forall i :: 0 <= i < |s| ==> r[i] == LowerChar(s[i])
  {
    seq(|s|, i requires 0 <= i < |s| => LowerChar(s[i]))
  }

  predicate IsOctetText(p: string) {
    1 <= |p| <= 3 && AllDigits(p, Decimal) && Value(p, Decimal) <= 255
  }

  predicate AllOctets(ps: seq<string>)
    ensures AllOctets(ps) ==> AllNumerals(ps, Decimal)
  {
    forall p <- ps :: IsOctetText(p)
  }

  function CanonicalIpv4(s: string): Option<string> {
    var parts := Split(s, '.');
    if |parts| == 4 && AllOctets(parts) then Some(Join(NumeralsOf(Values(parts, Decimal), Decimal), '.')) else None
  }

  /** The first place where two colons follow each other, or the end. */
  function DoubleAt(s: string): (i: nat)
    ensures i <= |s|
    ensures i < |s| ==> i + 1 < |s| && s[i] == ':' == s[i + 1]
  {
    if |s| < 2 then |s| else if s[0] == ':' == s[1] then 0 else 1 + DoubleAt(s[1..])
  }

  function Halves(s: string): (r: seq<string>)
    ensures r != []
  {
    var i := DoubleAt(s);
    if i == |s| then [s] else [s[..i]] + Halves(s[i + 2..])
  }

  function Groups(half: string): seq<string> {
    if half == "" then [] else Split(half, ':')
  }

  predicate IsGroupText(p: string) {
    1 <= |p| <= 4 && AllDigits(p, Hexadecimal)
  }

  predicate AllGroups(ps: seq<string>)
    ensures AllGroups(ps) ==> AllNumerals(ps, Hexadecimal)
  {
    forall p <- ps :: IsGroupText(p)
  }

  function Stripped(ps: seq<string>): (r: seq<string>)
    ensures |r| == |ps|
  {
    if ps == [] then [] else [StripLeadingZeros(ps[0])] + Stripped(ps[1..])
  }

  function Padding(n: nat): (r: seq<string>)
    ensures |r| == n
  {
    if n == 0 then [] else ["0"] + Padding(n - 1)
  }

  /** The address part, without brackets and zone. */
  function CanonicalBody(rest: string): Option<string> {
    if rest == "" || exists c <- rest :: !IsDigit(c, Hexadecimal) && c != ':' then None
    else
      var halves := Halves(rest);
      if |halves| > 2 then None
      else
        var head := Groups(halves[0]);
        var tail := if |halves| == 2 then Groups(halves[1]) else [];
        if !AllGroups(head + tail) || (|halves| == 1 && |head + tail| != 8) || |head + tail| > 8 then None
        else Some(Join(Stripped(head) + Padding(8 - |head + tail|) + Stripped(tail), ':'))
  }

  function Unwrapped(s: string): string {
    var lower := Lower(s);
    var inner := if |lower| >= 2 && lower[0] == '[' && lower[|lower| - 1] == ']' then lower[1..|lower| - 1] else lower;
    inner[..IndexOf(inner, '%')]
  }

  function CanonicalIpv6(s: string): Option<string> {
    CanonicalBody(Unwrapped(s))
  }

  function LastColon(s: string): (i: nat)
    requires ':' in s
    ensures i < |s| && s[i] == ':' && ':' !in s[i + 1..]
  {
    if s[|s| - 1] == ':' then |s| - 1 else LastColon(s[..|s| - 1])
  }

  function Octet(parts: seq<string>, i: nat): nat {
    if i < |parts| && AllDigits(parts[i], Decimal) then Value(parts[i], Decimal) else 0
  }

  const PlainHeads := {"", ":", "::", "::ffff", "0:0:0:0:0:ffff"}

  function CanonicalEmbedded(s: string): Option<string>
    requires ':' in s
  {
    var i := LastColon(s);
    var ipv4 := CanonicalIpv4(s[i + 1..]);
    if ipv4.None? then None
    else if Lower(s[..i]) in PlainHeads then ipv4
    else
      var octets := Split(ipv4.value, '.');
      var high := Numeral(Octet(octets, 0) * 256 + Octet(octets, 1), Hexadecimal);
      var low := Numeral(Octet(octets, 2) * 256 + Octet(octets, 3), Hexadecimal);
      CanonicalIpv6(s[..i] + ":" + high + ":" + low)
  }

  function Normalize(ip: string): Option<string> {
    var trimmed := Trim(ip);
    if |trimmed| == 0 || |trimmed| > MAX_LENGTH then None
    else if exists c <- trimmed :: IsUnsafe(c) then None
    else if ':' in trimmed then
      if '.' in trimmed then CanonicalEmbedded(trimmed) else CanonicalIpv6(trimmed)
    else if '.' in trimmed then CanonicalIpv4(trimmed)
    else None
  }

  function NonEmpty(parts: seq<string>): seq<string> {
    if parts == [] then [] else (if parts[0] == "" then [] else [parts[0]]) + NonEmpty(parts[1..])
  }

  function FirstParts(parts: seq<string>, n: nat): seq<string> {
    if |parts| <= n then parts else parts[..n]
  }

  function Prefix(normalized: string): string {
    if ':' in normalized then Join(FirstParts(NonEmpty(Split(normalized, ':')), 4), ':')
    else Join(FirstParts(Split(normalized, '.'), 3), '.')
  }

  // ---------- the loops of the normaliser ----------

  method CanonicalizeIpv4(value: string) returns (r: Option<string>)
    ensures r == CanonicalIpv4(value)
  {
    hide Join, Split, IsDigit;
    var parts := Split(value, '.');
    if |parts| != 4 {
      return None;
    }
    var canonical: seq<string> := [];
    for i := 0 to |parts|
      invariant forall j :: 0 <= j < i ==> IsOctetText(parts[j])
      invariant |canonical| == i && forall j :: 0 <= j < i ==> canonical[j] == Numeral(Value(parts[j], Decimal), Decimal)
    {
      if !(1 <= |parts[i]| <= 3 && AllDigits(parts[i], Decimal)) {
        assert parts[i] in parts;
        return None;
      }
      var octet := Value(parts[i], Decimal);
      if octet > 255 {
        assert parts[i] in parts;
        return None;
      }
      canonical := canonical + [Numeral(octet, Decimal)];
    }
    assert canonical == NumeralsOf(Values(parts, Decimal), Decimal);
    r := Some(Join(canonical, '.'));
  }

  method ValidateGroups(groups: seq<string>) returns (ok: bool)
    ensures ok == AllGroups(groups)
  {
    hide IsGroupText;
    for i := 0 to |groups|
      invariant forall j :: 0 <= j < i ==> IsGroupText(groups[j])
    {
      if !IsGroupText(groups[i]) {
        assert groups[i] in groups;
        return false;
      }
    }
    ok := true;
  }

  method CanonicalizeIpv6(value: string) returns (r: Option<string>)
    ensures r == CanonicalIpv6(value)
  {
    hide IsDigit, AllGroups, Halves, Groups, Stripped, Padding, Join, Unwrapped;
    var rest := Unwrapped(value);
    if rest == "" || exists c <- rest :: !IsDigit(c, Hexadecimal) && c != ':' {
      return None;
    }
    var halves := Halves(rest);
    if |halves| > 2 {
      return None;
    }
    var head := Groups(halves[0]);
    var tail := if |halves| == 2 then Groups(halves[1]) else [];
    var valid := ValidateGroups(head + tail);
    if !valid || (|halves| == 1 && |head + tail| != 8) || |head + tail| > 8 {
      return None;
    }
    r := Some(Join(Stripped(head) + Padding(8 - |head + tail|) + Stripped(tail), ':'));
  }
}
