/**
 * Canonical IPv6 text: the parser takes the forms of section 2.2 of RFC 4291, with or without a zone identifier, the
 * printer follows section 4 of RFC 5952.
 */
module Ipv6 {
  import opened Common

  // ---------------------------------------------------------------- text and numbers

  function DigitValue(c: char): nat
  {
    if '0' <= c <= '9' then (c - '0') as nat
    else if 'a' <= c <= 'f' then (c - 'a') as nat + 10
    else if 'A' <= c <= 'F' then (c - 'A') as nat + 10
    else 0
  }

  predicate IsHexDigit(c: char) { '0' <= c <= '9' || 'a' <= c <= 'f' || 'A' <= c <= 'F' }

  function DigitChar(d: nat): char
    requires d < 16
  {
    if d < 10 then '0' + d as char else 'a' + (d - 10) as char
  }

  /** The value of a string of digits, as parseInt and Number read it. */
  function ValueOf(digits: string, base: nat): nat
  {
    if digits == "" then 0 else ValueOf(digits[..|digits| - 1], base) * base + DigitValue(digits[|digits| - 1])
  }

  /** Number.prototype.toString in the given base: no leading zeros, lower-case digits. */
  function ToDigits(n: nat, base: nat): string
    requires 2 <= base <= 16
  {
    if n < base then [DigitChar(n)] else ToDigits(n / base, base) + [DigitChar(n % base)]
  }

  lemma DigitCharValue(d: nat)
    requires d < 16
    ensures DigitValue(DigitChar(d)) == d && IsHexDigit(DigitChar(d)) && LowerChar(DigitChar(d)) == DigitChar(d)
    ensures (d > 0 ==> DigitChar(d) != '0') && (d < 10 ==> '0' <= DigitChar(d) <= '9')
  {
  }

  lemma DivMod(n: nat, base: nat)
    requires base >= 2
    ensures n / base * base + n % base == n && n % base < base && (n >= base ==> 0 < n / base < n)
  {
    Doubles(n / base, base);
  }

  lemma Doubles(q: nat, base: nat)
    requires base >= 2
    ensures q * 2 <= q * base
  {
  }

  lemma ValueSnoc(digits: string, c: char, base: nat)
    ensures ValueOf(digits + [c], base) == ValueOf(digits, base) * base + DigitValue(c)
  {
    assert (digits + [c])[..|digits|] == digits;
  }

  lemma {:induction false} DigitsRoundTrip(n: nat, base: nat)
    requires 2 <= base <= 16
    ensures ValueOf(ToDigits(n, base), base) == n
    ensures forall c :: c in ToDigits(n, base) ==> IsHexDigit(c) && LowerChar(c) == c
    ensures base <= 10 ==> forall c :: c in ToDigits(n, base) ==> '0' <= c <= '9'
    ensures ToDigits(n, base) != "" && (n > 0 ==> ToDigits(n, base)[0] != '0')
  {
    DivMod(n, base);
    if n < base {
      DigitCharValue(n);
      assert ValueOf("", base) == 0;
      ValueSnoc("", DigitChar(n), base);
      assert "" + [DigitChar(n)] == [DigitChar(n)];
    } else {
      DigitsRoundTrip(n / base, base);
      DigitCharValue(n % base);
      ValueSnoc(ToDigits(n / base, base), DigitChar(n % base), base);
    }
  }

  lemma {:induction false} WordDigits(n: nat, k: nat)
    requires 1 <= k && n < Power16(k)
    ensures |ToDigits(n, 16)| <= k
  {
    if n >= 16 { WordDigits(n / 16, k - 1); }
  }

  lemma {:induction false} ValueBound(digits: string, base: nat)
    requires forall c :: c in digits ==> DigitValue(c) < base
    ensures |digits| <= 4 && base == 16 ==> ValueOf(digits, base) < Power16(|digits|)
  {
    if digits != "" {
      ValueBound(digits[..|digits| - 1], base);
      assert DigitValue(digits[|digits| - 1]) < base;
    }
  }

  function Power16(n: nat): nat { if n == 0 then 1 else 16 * Power16(n - 1) }

  lemma {:induction false} ValueLower(digits: string, base: nat)
    ensures ValueOf(Lower(digits), base) == ValueOf(digits, base)
  {
    if digits != "" {
      var n := |digits| - 1;
      ValueLower(digits[..n], base);
      LowerConcat(digits[..n], digits[n..]);
      assert digits == digits[..n] + digits[n..];
      assert Lower(digits)[..n] == Lower(digits[..n]);
      assert Lower(digits)[n] == LowerChar(digits[n]);
    }
  }

  lemma LowerConcat(a: string, b: string)
    ensures Lower(a + b) == Lower(a) + Lower(b)
  {
  }

  // ---------------------------------------------------------------- the program's parser

  /** Where `::` first stands, or the length. */
  function DoubleColon(s: string): (i: nat)
    ensures i <= |s| && (i < |s| ==> i + 2 <= |s|)
  {
    if |s| < 2 then |s| else if s[0] == ':' && s[1] == ':' then 0 else 1 + DoubleColon(s[1..])
  }

  /** A number, or None for NaN. */
  type Word = Option<nat>

  function Numbers(words: seq<nat>): (r: seq<Word>)
    ensures |r| == |words|
  {
    seq(|words|, i requires 0 <= i < |words| => Some(words[i]))
  }

  function HexPrefix(s: string): string
  {
    if s == "" || !IsHexDigit(s[0]) then "" else [s[0]] + HexPrefix(s[1..])
  }

  /** parseInt(token, 16); no token begins with a sign, a space or `0x`. */
  function ParseInt16(token: string): Word
  {
    var digits := HexPrefix(token);
    if digits == "" then None else Some(ValueOf(digits, 16))
  }

  /** Number of an octet; what is not there, or not all digits, is no number. */
  function Octet(octets: seq<string>, i: nat): Word
  {
    if i < |octets| && forall c :: c in octets[i] ==> '0' <= c <= '9' then Some(ValueOf(octets[i], 10)) else None
  }

  function Pair(high: Word, low: Word): Word
  {
    if high.Some? && low.Some? then Some(high.value * 256 + low.value) else None
  }

  function ParseToken(token: string): seq<Word>
  {
    if '.' !in token then [ParseInt16(token)]
    else
      var octets := SplitOn(token, '.');
      [Pair(Octet(octets, 0), Octet(octets, 1)), Pair(Octet(octets, 2), Octet(octets, 3))]
  }

  function ParseTokens(tokens: seq<string>): seq<Word>
  {
    if tokens == [] then [] else ParseToken(tokens[0]) + ParseTokens(tokens[1..])
  }

  function ParsePart(part: string): seq<Word>
  {
    if part == "" then [] else ParseTokens(SplitOn(part, ':'))
  }

  function Zeros(n: int): seq<nat>
  {
    if n <= 0 then [] else seq(n, _ => 0)
  }

  /** The first two pieces of splitting at `::`. */
  function Halves(value: string): (string, string)
  {
    var i := DoubleColon(value);
    var after := if i < |value| then value[i + 2..] else "";
    (value[..i], after[..DoubleColon(after)])
  }

  function ExpandIpv6(value: string): seq<Word>
  {
    var (leftValue, rightValue) := Halves(value);
    var left, right := ParsePart(leftValue), ParsePart(rightValue);
    left + Numbers(Zeros(8 - |left| - |right|)) + right
  }

  lemma AtLeastEight(value: string)
    ensures |ExpandIpv6(value)| >= 8
  {
  }

  // ---------------------------------------------------------------- what a text denotes

  /** One group of an address text, perhaps with the zone that ends the text, or its embedded IPv4 address. */
  datatype Piece = Hex(digits: string, zone: string) | Quad(a: nat, b: nat, c: nat, d: nat)

  /** A text written out in full, or with one `::` between two lists of groups. */
  datatype Text = Full(pieces: seq<Piece>) | Compressed(left: seq<Piece>, right: seq<Piece>)

  predicate ValidPiece(p: Piece)
  {
    match p
    case Hex(digits, zone) => 1 <= |digits| <= 4 && AllHex(digits) && PlainZone(zone)
    case Quad(a, b, c, d) => a < 256 && b < 256 && c < 256 && d < 256
  }

  predicate AllHex(s: string) { forall c :: c in s ==> IsHexDigit(c) }

  predicate IsZoneChar(c: char) { '0' <= c <= '9' || 'a' <= c <= 'z' || 'A' <= c <= 'Z' || c == '-' }

  /** The empty zone stands for none. */
  predicate PlainZone(zone: string) { forall c :: c in zone ==> IsZoneChar(c) }

  /** A group that does not end the text. */
  predicate Inner(p: Piece) { p.Hex? && p.zone == "" }

  predicate ValidPieces(pieces: seq<Piece>) { forall p :: p in pieces ==> ValidPiece(p) }

  function PieceWords(p: Piece): seq<nat>
  {
    match p
    case Hex(digits, _) => [ValueOf(digits, 16)]
    case Quad(a, b, c, d) => [a * 256 + b, c * 256 + d]
  }

  function Words(pieces: seq<Piece>): seq<nat>
  {
    if pieces == [] then [] else PieceWords(pieces[0]) + Words(pieces[1..])
  }

  /** An embedded IPv4 address or a zone ends the text, and `::` stands for one or more groups of zeros. */
  predicate ValidText(t: Text)
  {
    match t
    case Full(pieces) =>
      ValidPieces(pieces) && |Words(pieces)| == 8 && forall i :: 0 <= i < |pieces| - 1 ==> Inner(pieces[i])
    case Compressed(left, right) =>
      ValidPieces(left) && ValidPieces(right) && |Words(left)| + |Words(right)| <= 7
      && (forall i :: 0 <= i < |left| ==> Inner(left[i])) && (forall i :: 0 <= i < |right| - 1 ==> Inner(right[i]))
  }

  function Meaning(t: Text): seq<nat>
  {
    match t
    case Full(pieces) => Words(pieces)
    case Compressed(left, right) => Words(left) + Zeros(8 - |Words(left)| - |Words(right)|) + Words(right)
  }

  function Octets(p: Piece): seq<string>
    requires p.Quad?
  {
    [ToDigits(p.a, 10), ToDigits(p.b, 10), ToDigits(p.c, 10), ToDigits(p.d, 10)]
  }

  function Show(p: Piece): string
  {
    if p.Hex? then p.digits + ZoneSuffix(p.zone) else Join(Octets(p), ".")
  }

  function ZoneSuffix(zone: string): string { if zone == "" then "" else "%" + zone }

  function ShowAll(pieces: seq<Piece>): seq<string>
  {
    if pieces == [] then [] else [Show(pieces[0])] + ShowAll(pieces[1..])
  }

  function Render(t: Text): string
  {
    match t
    case Full(pieces) => Join(ShowAll(pieces), ":")
    case Compressed(left, right) => Join(ShowAll(left), ":") + "::" + Join(ShowAll(right), ":")
  }

  /** The inputs the address check lets through, once trimmed. */
  ghost predicate Accepted(value: string) { exists t :: ValidText(t) && Render(t) == value }

  // ---------------------------------------------------------------- splitting undoes joining

  predicate Clean(parts: seq<string>) { forall p :: p in parts ==> p != "" && ':' !in p }

  /** Joined groups neither hold `::` nor begin or end with a colon. */
  lemma {:induction false} JoinNoDouble(parts: seq<string>)
    requires Clean(parts)
    ensures var s := Join(parts, ":");
      && DoubleColon(s) == |s|
      && (s != "" ==> s[0] != ':' && s[|s| - 1] != ':') && (parts != [] ==> s != "")
  {
    if |parts| == 1 {
      NoColon(parts[0]);
      assert parts[0] in parts;
    } else if parts != [] {
      assert forall p :: p in parts[1..] ==> p in parts;
      JoinNoDouble(parts[1..]);
      assert parts[0] in parts;
      PrefixNoDouble(parts[0], Join(parts[1..], ":"));
      assert Join(parts, ":") == parts[0] + (":" + Join(parts[1..], ":"));
    }
  }

  lemma {:induction false} NoColon(s: string)
    requires ':' !in s
    ensures DoubleColon(s) == |s|
  {
    if |s| >= 2 { NoColon(s[1..]); }
  }

  lemma {:induction false} PrefixNoDouble(a: string, s: string)
    requires ':' !in a && a != "" && s != "" && s[0] != ':' && DoubleColon(s) == |s|
    ensures DoubleColon(a + (":" + s)) == |a| + 1 + |s|
  {
    var whole := a + (":" + s);
    if |a| == 1 {
      assert whole[1..] == ":" + s;
      assert (":" + s)[1..] == s;
      assert DoubleColon(":" + s) == 1 + DoubleColon(s);
    } else {
      assert whole[1..] == a[1..] + (":" + s);
      PrefixNoDouble(a[1..], s);
    }
  }

  lemma {:induction false} FindDouble(a: string, s: string)
    requires DoubleColon(a) == |a| && (a != "" ==> a[|a| - 1] != ':')
    ensures DoubleColon(a + "::" + s) == |a|
  {
    if a != "" {
      assert (a + "::" + s)[1..] == a[1..] + "::" + s;
      FindDouble(a[1..], s);
    } else {
      assert a + "::" + s == "::" + s;
    }
  }

  // ---------------------------------------------------------------- parsing gives the meaning

  lemma OctetsShown(p: Piece)
    requires p.Quad?
    ensures forall o :: o in Octets(p) ==> o != "" && '.' !in o && ':' !in o
    ensures forall i :: 0 <= i < 4 ==> Octet(Octets(p), i) == Some([p.a, p.b, p.c, p.d][i])
  {
    DigitsRoundTrip(p.a, 10);
    DigitsRoundTrip(p.b, 10);
    DigitsRoundTrip(p.c, 10);
    DigitsRoundTrip(p.d, 10);
  }

  lemma {:induction false} JoinHas(parts: seq<string>, sep: string, c: char)
    requires c !in sep && forall p :: p in parts ==> c !in p
    ensures c !in Join(parts, sep)
  {
    if |parts| > 1 {
      assert parts[0] in parts;
      JoinHas(parts[1..], sep, c);
    } else if |parts| == 1 {
      assert parts[0] in parts;
    }
  }

  lemma QuadShown(p: Piece)
    requires p.Quad? && ValidPiece(p)
    ensures ParseToken(Show(p)) == Numbers(PieceWords(p)) && Show(p) != "" && ':' !in Show(p)
  {
    QuadSplit(p);
    QuadParsed(p, Show(p));
    QuadPlain(p);
  }

  lemma QuadPlain(p: Piece)
    requires p.Quad?
    ensures ':' !in Show(p)
  {
    OctetsShown(p);
    JoinHas(Octets(p), ".", ':');
  }

  lemma QuadParsed(p: Piece, token: string)
    requires p.Quad? && '.' in token && SplitOn(token, '.') == Octets(p)
    ensures ParseToken(token) == Numbers(PieceWords(p))
  {
    OctetsShown(p);
  }

  lemma QuadSplit(p: Piece)
    requires p.Quad?
    ensures SplitOn(Show(p), '.') == Octets(p) && '.' in Show(p)
  {
    var octets := Octets(p);
    OctetsShown(p);
    SplitJoin(octets, '.');
    DotInside(octets[0], Join(octets[1..], "."));
  }

  lemma DotInside(a: string, b: string)
    ensures '.' in a + "." + b
  {
    assert (a + "." + b)[|a|] == '.';
  }

  lemma {:induction false} PrefixAll(digits: string, rest: string)
    requires AllHex(digits) && (rest == "" || !IsHexDigit(rest[0]))
    ensures HexPrefix(digits + rest) == digits
  {
    if digits != "" {
      assert (digits + rest)[1..] == digits[1..] + rest;
      assert digits == [digits[0]] + digits[1..];
      assert digits[0] in digits;
      PrefixAll(digits[1..], rest);
    } else {
      assert digits + rest == rest;
    }
  }

  lemma HexShown(p: Piece)
    requires p.Hex? && ValidPiece(p)
    ensures ParseToken(Show(p)) == Numbers(PieceWords(p)) && Show(p) != "" && ':' !in Show(p)
  {
    PrefixAll(p.digits, ZoneSuffix(p.zone));
    assert '.' !in Show(p) && ':' !in Show(p);
  }

  lemma NumbersInjective(a: seq<nat>, b: seq<nat>)
    ensures Numbers(a) == Numbers(b) <==> a == b
  {
    if Numbers(a) == Numbers(b) {
      forall i | 0 <= i < |a| ensures a[i] == b[i] {
        assert Numbers(a)[i] == Numbers(b)[i];
      }
    }
  }

  lemma NumbersConcat(a: seq<nat>, b: seq<nat>)
    ensures Numbers(a + b) == Numbers(a) + Numbers(b)
  {
  }

  lemma {:induction false} ShownPieces(pieces: seq<Piece>)
    requires ValidPieces(pieces)
    ensures ParseTokens(ShowAll(pieces)) == Numbers(Words(pieces)) && Clean(ShowAll(pieces))
    ensures |ShowAll(pieces)| == |pieces|
  {
    if pieces != [] {
      ShownPieces(pieces[1..]);
      assert pieces[0] in pieces && ValidPiece(pieces[0]);
      if pieces[0].Quad? { QuadShown(pieces[0]); } else { HexShown(pieces[0]); }
      NumbersConcat(PieceWords(pieces[0]), Words(pieces[1..]));
      assert ShowAll(pieces)[1..] == ShowAll(pieces[1..]);
    }
  }

  lemma PartShown(pieces: seq<Piece>)
    requires ValidPieces(pieces)
    ensures ParsePart(Join(ShowAll(pieces), ":")) == Numbers(Words(pieces))
  {
    ShownPieces(pieces);
    JoinNoDouble(ShowAll(pieces));
    if pieces != [] { SplitJoin(ShowAll(pieces), ':'); }
  }

  lemma ParseFull(pieces: seq<Piece>)
    requires ValidPieces(pieces) && |Words(pieces)| >= 8
    ensures ExpandIpv6(Join(ShowAll(pieces), ":")) == Numbers(Words(pieces))
  {
    ShownPieces(pieces);
    JoinNoDouble(ShowAll(pieces));
    PartShown(pieces);
    ExpandWhole(Join(ShowAll(pieces), ":"));
  }

  lemma HalvesAround(l: string, r: string)
    requires DoubleColon(l) == |l| && (l != "" ==> l[|l| - 1] != ':') && DoubleColon(r) == |r|
    ensures Halves(l + "::" + r) == (l, r)
  {
    FindDouble(l, r);
    var s := l + "::" + r;
    assert s[..|l|] == l && s[|l| + 2..] == r && r[..|r|] == r;
  }

  lemma ParseCompressed(left: seq<Piece>, right: seq<Piece>)
    requires ValidText(Compressed(left, right))
    ensures ExpandIpv6(Render(Compressed(left, right))) == Padded(Words(left), Words(right))
  {
    var l, r := Join(ShowAll(left), ":"), Join(ShowAll(right), ":");
    PartJoined(left);
    PartJoined(right);
    HalvesAround(l, r);
    ExpandHalves(l + "::" + r, l, r, Words(left), Words(right));
  }

  function Padded(left: seq<nat>, right: seq<nat>): seq<Word>
  {
    Numbers(left) + Numbers(Zeros(8 - |left| - |right|)) + Numbers(right)
  }

  lemma NumbersAround(a: seq<nat>, b: seq<nat>, c: seq<nat>)
    ensures Numbers(a + b + c) == Numbers(a) + Numbers(b) + Numbers(c)
  {
  }

  lemma ExpandHalves(s: string, l: string, r: string, x: seq<nat>, y: seq<nat>)
    requires Halves(s) == (l, r) && ParsePart(l) == Numbers(x) && ParsePart(r) == Numbers(y)
    ensures ExpandIpv6(s) == Padded(x, y)
  {
  }

  lemma PartJoined(pieces: seq<Piece>)
    requires ValidPieces(pieces)
    ensures var s := Join(ShowAll(pieces), ":");
      ParsePart(s) == Numbers(Words(pieces)) && DoubleColon(s) == |s| && (s != "" ==> s[|s| - 1] != ':')
  {
    ShownPieces(pieces);
    JoinNoDouble(ShowAll(pieces));
    PartShown(pieces);
  }

  lemma ParseShown(t: Text)
    requires ValidText(t)
    ensures ExpandIpv6(Render(t)) == Numbers(Meaning(t))
  {
    match t {
      case Full(pieces) => ParseFull(pieces);
      case Compressed(left, right) =>
        ParseCompressed(left, right);
        NumbersAround(Words(left), Zeros(8 - |Words(left)| - |Words(right)|), Words(right));
    }
  }

  // ---- letter case

  function LowerPiece(p: Piece): Piece { if p.Hex? then Hex(Lower(p.digits), Lower(p.zone)) else p }

  function LowerPieces(pieces: seq<Piece>): seq<Piece>
  {
    if pieces == [] then [] else [LowerPiece(pieces[0])] + LowerPieces(pieces[1..])
  }

  function LowerText(t: Text): Text
  {
    match t
    case Full(pieces) => Full(LowerPieces(pieces))
    case Compressed(left, right) => Compressed(LowerPieces(left), LowerPieces(right))
  }

  lemma {:induction false} JoinLower(parts: seq<string>, lower: seq<string>, sep: string)
    requires |parts| == |lower| && Lower(sep) == sep && forall i :: 0 <= i < |parts| ==> lower[i] == Lower(parts[i])
    ensures Lower(Join(parts, sep)) == Join(lower, sep)
  {
    if |parts| > 1 {
      LowerConcat(parts[0] + sep, Join(parts[1..], sep));
      LowerConcat(parts[0], sep);
      JoinLower(parts[1..], lower[1..], sep);
    }
  }

  lemma {:induction false} AlreadyLower(s: string)
    requires forall c :: c in s ==> LowerChar(c) == c
    ensures Lower(s) == s
  {
    if s != "" { AlreadyLower(s[1..]); }
  }

  lemma QuadLower(p: Piece)
    requires p.Quad?
    ensures Lower(Show(p)) == Show(p)
  {
    var octets := Octets(p);
    DigitsRoundTrip(p.a, 10);
    DigitsRoundTrip(p.b, 10);
    DigitsRoundTrip(p.c, 10);
    DigitsRoundTrip(p.d, 10);
    forall i | 0 <= i < 4 ensures Lower(octets[i]) == octets[i] { AlreadyLower(octets[i]); }
    JoinLower(octets, octets, ".");
  }

  lemma PieceLower(p: Piece)
    requires ValidPiece(p)
    ensures ValidPiece(LowerPiece(p)) && PieceWords(LowerPiece(p)) == PieceWords(p)
      && Show(LowerPiece(p)) == Lower(Show(p))
  {
    if p.Hex? {
      ValueLower(p.digits, 16);
      AllHexLower(p.digits);
      PlainLower(p.zone);
      LowerConcat(p.digits, ZoneSuffix(p.zone));
      LowerConcat("%", p.zone);
      AlreadyLower("%");
    } else {
      QuadLower(p);
    }
  }

  lemma AllHexLower(s: string)
    requires AllHex(s)
    ensures AllHex(Lower(s))
  {
    forall c | c in Lower(s) ensures IsHexDigit(c) {
      var i :| 0 <= i < |s| && Lower(s)[i] == c;
      assert IsHexDigit(s[i]);
    }
  }

  lemma PlainLower(zone: string)
    requires PlainZone(zone)
    ensures PlainZone(Lower(zone))
  {
    forall c | c in Lower(zone) ensures IsZoneChar(c) {
      var i :| 0 <= i < |zone| && Lower(zone)[i] == c;
      assert IsZoneChar(zone[i]);
    }
  }

  lemma {:induction false} PiecesLower(pieces: seq<Piece>)
    requires ValidPieces(pieces)
    ensures ValidPieces(LowerPieces(pieces)) && |LowerPieces(pieces)| == |pieces|
      && Words(LowerPieces(pieces)) == Words(pieces)
    ensures forall i :: 0 <= i < |pieces| ==> Inner(LowerPieces(pieces)[i]) == Inner(pieces[i])
  {
    if pieces != [] {
      assert pieces[0] in pieces;
      PieceLower(pieces[0]);
      PiecesLower(pieces[1..]);
      assert LowerPieces(pieces)[1..] == LowerPieces(pieces[1..]);
      forall p | p in LowerPieces(pieces) ensures ValidPiece(p) {
        if p != LowerPiece(pieces[0]) { assert p in LowerPieces(pieces[1..]); }
      }
    }
  }

  lemma ShownLower(pieces: seq<Piece>)
    requires ValidPieces(pieces)
    ensures |ShowAll(pieces)| == |pieces| == |ShowAll(LowerPieces(pieces))|
    ensures forall i :: 0 <= i < |pieces| ==> ShowAll(LowerPieces(pieces))[i] == Lower(ShowAll(pieces)[i])
  {
    ShownCount(pieces);
    forall i | 0 <= i < |pieces| ensures ShowAll(LowerPieces(pieces))[i] == Lower(ShowAll(pieces)[i]) {
      ShownLowerAt(pieces, i);
    }
  }

  lemma {:induction false} ShownCount(pieces: seq<Piece>)
    ensures |ShowAll(pieces)| == |pieces| == |ShowAll(LowerPieces(pieces))|
  {
    if pieces != [] { ShownCount(pieces[1..]); }
  }

  lemma {:induction false} ShownLowerAt(pieces: seq<Piece>, i: nat)
    requires ValidPieces(pieces) && i < |pieces|
    ensures i < |ShowAll(pieces)| && i < |ShowAll(LowerPieces(pieces))|
    ensures ShowAll(LowerPieces(pieces))[i] == Lower(ShowAll(pieces)[i])
  {
    ShownCount(pieces);
    if i == 0 {
      assert pieces[0] in pieces;
      PieceLower(pieces[0]);
    } else {
      ShownLowerAt(pieces[1..], i - 1);
    }
  }

  lemma PartLower(pieces: seq<Piece>)
    requires ValidPieces(pieces)
    ensures Lower(Join(ShowAll(pieces), ":")) == Join(ShowAll(LowerPieces(pieces)), ":")
  {
    ShownLower(pieces);
    JoinLower(ShowAll(pieces), ShowAll(LowerPieces(pieces)), ":");
  }

  lemma TextLower(t: Text)
    requires ValidText(t)
    ensures ValidText(LowerText(t)) && Meaning(LowerText(t)) == Meaning(t)
  {
    match t {
      case Full(pieces) => PiecesLower(pieces);
      case Compressed(left, right) =>
        PiecesLower(left);
        PiecesLower(right);
    }
  }

  lemma LowerAround(l: string, r: string)
    ensures Lower(l + "::" + r) == Lower(l) + "::" + Lower(r)
  {
    LowerConcat(l + "::", r);
    LowerConcat(l, "::");
    AlreadyLower("::");
  }

  lemma RenderLower(t: Text)
    requires ValidText(t)
    ensures Render(LowerText(t)) == Lower(Render(t))
  {
    match t {
      case Full(pieces) => PartLower(pieces);
      case Compressed(left, right) =>
        PartLower(left);
        PartLower(right);
        LowerAround(Join(ShowAll(left), ":"), Join(ShowAll(right), ":"));
    }
  }

  predicate Address(words: seq<nat>) { |words| == 8 && forall i :: 0 <= i < 8 ==> words[i] < 0x10000 }

  lemma {:induction false} WordsFit(pieces: seq<Piece>)
    requires ValidPieces(pieces)
    ensures forall w :: w in Words(pieces) ==> w < 0x10000
  {
    if pieces != [] {
      assert pieces[0] in pieces && ValidPiece(pieces[0]);
      if pieces[0].Hex? {
        ValueBound(pieces[0].digits, 16);
        assert Power16(1) == 16 && Power16(2) == 256 && Power16(3) == 4096 && Power16(4) == 65536;
      }
      WordsFit(pieces[1..]);
    }
  }

  /** Whatever text of an address is entered, in any letter case, parsing yields the eight words it denotes. */
  lemma ParsingGivesMeaning(t: Text)
    requires ValidText(t)
    ensures ExpandIpv6(Lower(Render(t))) == Numbers(Meaning(t)) && Address(Meaning(t))
  {
    TextLower(t);
    RenderLower(t);
    ParseShown(LowerText(t));
    MeaningFits(t);
  }

  lemma MeaningFits(t: Text)
    requires ValidText(t)
    ensures Address(Meaning(t))
  {
    match t {
      case Full(pieces) => WordsFit(pieces);
      case Compressed(left, right) =>
        WordsFit(left);
        WordsFit(right);
        var zeros := Zeros(8 - |Words(left)| - |Words(right)|);
        assert forall w :: w in zeros ==> w == 0;
        assert Meaning(t) == Words(left) + zeros + Words(right);
    }
    forall i | 0 <= i < 8 ensures Meaning(t)[i] < 0x10000 {
      assert Meaning(t)[i] in Meaning(t);
    }
  }

  // ---------------------------------------------------------------- printing

  datatype Run = NoRun | Run(start: nat, length: nat)

  predicate ZeroRun(words: seq<Word>, a: int, b: int)
  {
    0 <= a <= b <= |words| && forall i :: a <= i < b ==> words[i] == Some(0)
  }

  /** Sections 4.2.2 and 4.2.3 of RFC 5952: the leftmost of the longest zero runs, if one has two words or more. */
  ghost predicate Chosen(words: seq<Word>, run: Run)
  {
    match run
    case NoRun => forall a, b :: ZeroRun(words, a, b) ==> b - a < 2
    case Run(start, length) =>
      length >= 2 && ZeroRun(words, start, start + length)
      && forall a, b :: ZeroRun(words, a, b) ==> b - a < length || (b - a == length && start <= a)
  }

  lemma ChosenUnique(words: seq<Word>, r: Run, q: Run)
    requires Chosen(words, r) && Chosen(words, q)
    ensures r == q
  {
    if r.Run? { assert ZeroRun(words, r.start, r.start + r.length); }
    if q.Run? { assert ZeroRun(words, q.start, q.start + q.length); }
  }

  /** The run `r` is the choice among the zero runs that end by `index`. */
  ghost predicate ChosenUpTo(words: seq<Word>, run: Run, index: int)
  {
    match run
    case NoRun => forall a, b :: ZeroRun(words, a, b) && b <= index ==> b - a < 2
    case Run(start, length) =>
      length >= 2 && start + length <= index && ZeroRun(words, start, start + length)
      && forall a, b :: ZeroRun(words, a, b) && b <= index ==> b - a < length || (b - a == length && start <= a)
  }

  /** No zero run crosses the index. */
  predicate Boundary(words: seq<Word>, index: int)
  {
    0 <= index <= |words| && (index == 0 || index == |words| || words[index - 1] != Some(0) || words[index] != Some(0))
  }

  lemma PastRun(words: seq<Word>, run: Run, index: nat, end: nat)
    requires Boundary(words, index) && ChosenUpTo(words, run, index)
    requires index < end <= |words| && ZeroRun(words, index, end) && (end < |words| ==> words[end] != Some(0))
    requires index > 0 ==> words[index - 1] != Some(0)
    ensures ChosenUpTo(words, if end - index > (if run.Run? then run.length else 0) && end - index >= 2
                       then Run(index, end - index) else run, end)
  {
    forall a, b | ZeroRun(words, a, b) && a < b && index < b <= end ensures a >= index {
    }
  }

  lemma PastWord(words: seq<Word>, run: Run, index: nat)
    requires index < |words| && words[index] != Some(0) && ChosenUpTo(words, run, index)
    ensures ChosenUpTo(words, run, index + 1)
  {
    forall a, b | ZeroRun(words, a, b) && b == index + 1 ensures a == b {
    }
    assert ZeroRun(words, index, index);
  }

  /** The printer's scan for the run it compresses. */
  method FindRun(words: seq<Word>) returns (run: Run)
    ensures Chosen(words, run)
  {
    run := NoRun;
    var index := 0;
    while index < |words|
      invariant 0 <= index <= |words| && ChosenUpTo(words, run, index)
      invariant index > 0 && index < |words| && words[index] == Some(0) ==> words[index - 1] != Some(0)
    {
      if words[index] != Some(0) {
        PastWord(words, run, index);
        index := index + 1;
      } else {
        var end := index;
        while end < |words| && words[end] == Some(0)
          invariant index <= end <= |words| && ZeroRun(words, index, end)
          decreases |words| - end
        {
          end := end + 1;
        }
        PastRun(words, run, index, end);
        var bestLength := if run.Run? then run.length else 0;
        if end - index > bestLength && end - index >= 2 { run := Run(index, end - index); }
        index := end;
      }
    }
  }

  function HexPieces(words: seq<nat>): seq<Piece>
  {
    if words == [] then [] else [Hex(ToDigits(words[0], 16), "")] + HexPieces(words[1..])
  }

  /** The printed form, as a text. */
  function TextOf(words: seq<nat>, run: Run): Text
    requires run.Run? ==> run.start + run.length <= |words|
  {
    match run
    case NoRun => Full(HexPieces(words))
    case Run(start, length) => Compressed(HexPieces(words[..start]), HexPieces(words[start + length..]))
  }

  lemma {:induction false} HexPiecesRead(words: seq<nat>)
    requires forall w :: w in words ==> w < 0x10000
    ensures ValidPieces(HexPieces(words)) && Words(HexPieces(words)) == words && |HexPieces(words)| == |words|
    ensures forall p :: p in HexPieces(words) ==> Inner(p)
    ensures LowerPieces(HexPieces(words)) == HexPieces(words)
  {
    if words != [] {
      assert forall w :: w in words[1..] ==> w in words;
      HexPiecesRead(words[1..]);
      assert words[0] in words;
      HexRead(words[0]);
      assert HexPieces(words)[1..] == HexPieces(words[1..]);
    }
  }

  lemma HexRead(w: nat)
    requires w < 0x10000
    ensures var p := Hex(ToDigits(w, 16), "");
      ValidPiece(p) && PieceWords(p) == [w] && LowerPiece(p) == p
  {
    DigitsRoundTrip(w, 16);
    assert Power16(1) == 16 && Power16(2) == 256 && Power16(3) == 4096 && Power16(4) == 65536;
    WordDigits(w, 4);
    AlreadyLower(ToDigits(w, 16));
  }

  lemma CutOut(words: seq<nat>, start: nat, length: nat)
    requires ZeroRun(Numbers(words), start, start + length)
    ensures words[..start] + Zeros(length) + words[start + length..] == words
  {
    forall i | start <= i < start + length ensures words[i] == 0 {
      assert Numbers(words)[i] == Some(0);
    }
    assert Zeros(length) == words[start..start + length];
  }

  lemma CompressedDenotes(words: seq<nat>, start: nat, length: nat)
    requires Address(words) && length >= 2 && ZeroRun(Numbers(words), start, start + length)
    ensures var t := Compressed(HexPieces(words[..start]), HexPieces(words[start + length..]));
      ValidText(t) && Meaning(t) == words && LowerText(t) == t
  {
    var left, right := words[..start], words[start + length..];
    PartRead(words, left);
    PartRead(words, right);
    CutOut(words, start, length);
  }

  lemma PartRead(words: seq<nat>, part: seq<nat>)
    requires Address(words) && forall w :: w in part ==> w in words
    ensures ValidPieces(HexPieces(part)) && Words(HexPieces(part)) == part && |HexPieces(part)| == |part|
    ensures forall i :: 0 <= i < |part| ==> Inner(HexPieces(part)[i])
    ensures LowerPieces(HexPieces(part)) == HexPieces(part)
  {
    forall w | w in part ensures w < 0x10000 {
      assert w in words;
    }
    HexPiecesRead(part);
  }

  /** The printed text of an address is an accepted text of that address, in lower case. */
  lemma PrintedDenotes(words: seq<nat>, run: Run)
    requires Address(words) && Chosen(Numbers(words), run)
    ensures ValidText(TextOf(words, run)) && Meaning(TextOf(words, run)) == words
    ensures LowerText(TextOf(words, run)) == TextOf(words, run)
  {
    match run {
      case NoRun =>
        PartRead(words, words);
      case Run(start, length) => CompressedDenotes(words, start, length);
    }
  }

  /** Parsing the printed text of any address gives the address back. */
  lemma PrintParse(words: seq<nat>, run: Run)
    requires Address(words) && Chosen(Numbers(words), run)
    ensures ExpandIpv6(Render(TextOf(words, run))) == Numbers(words)
    ensures Lower(Render(TextOf(words, run))) == Render(TextOf(words, run))
  {
    PrintedDenotes(words, run);
    ParseShown(TextOf(words, run));
    RenderLower(TextOf(words, run));
  }

  // ---------------------------------------------------------------- the policy and the address list

  /** A word as the operand of a bitwise operation. */
  function Bits(w: Word): nat { if w.Some? then w.value else 0 }

  /** The product accepts 2000::/3 outside these ranges. */
  predicate Global(words: seq<Word>)
  {
    |words| >= 8 &&
    var special :=
      (words[0] == Some(0x2001)
       && (words[1] == Some(0) || (words[1] == Some(2) && words[2] == Some(0))
           || Bits(words[1]) / 16 == 1 || Bits(words[1]) / 16 == 2 || words[1] == Some(0x0db8)))
      || words[0] == Some(0x2002);
    var excluded := (words[0] == Some(0x3fff) && Bits(words[1]) / 0x1000 == 0)
                    || ((forall i :: 0 <= i < 5 ==> words[i] == Some(0)) && words[5] == Some(0xffff))
                    || (words[0] == Some(0x0064) && words[1] == Some(0xff9b));
    Bits(words[0]) / 0x2000 == 1 && !special && !excluded
  }

  datatype Canonical = Printed(text: string) | Invalid | NotGlobal

  /** A written address, and one that is global too. */
  ghost predicate Denotes(value: string, words: seq<nat>)
  {
    exists t :: ValidText(t) && Render(t) == value && Meaning(t) == words
  }

  ghost predicate Publishable(value: string)
  {
    exists words :: |words| == 8 && Denotes(value, words) && Global(Numbers(words))
  }

  ghost predicate Prints(words: seq<nat>, run: Run, text: string)
  {
    Address(words) && Global(Numbers(words)) && Chosen(Numbers(words), run) && text == Render(TextOf(words, run))
  }

  /** The value denotes a global address, and the text is the one form section 4 of RFC 5952 gives it. */
  ghost predicate CanonicalOf(value: string, text: string)
  {
    exists words, run :: Denotes(value, words) && Prints(words, run, text)
  }

  lemma CanonicalIsPublishable(value: string, text: string)
    requires CanonicalOf(value, text)
    ensures Publishable(value)
  {
  }

  lemma DenotesParsed(value: string, words: seq<nat>)
    requires Denotes(value, words)
    ensures Numbers(words) == ExpandIpv6(Lower(value)) && Address(words)
  {
    var t :| ValidText(t) && Render(t) == value && Meaning(t) == words;
    ParsingGivesMeaning(t);
  }

  function ShowWord(w: Word): string { if w.Some? then ToDigits(w.value, 16) else "NaN" }

  function ShowWords(words: seq<Word>): (texts: seq<string>)
    ensures |texts| == |words|
  {
    if words == [] then [] else [ShowWord(words[0])] + ShowWords(words[1..])
  }

  function JoinHex(words: seq<Word>): string { Join(ShowWords(words), ":") }

  function Printing(words: seq<Word>, run: Run): string
    requires run.Run? ==> run.start + run.length <= |words|
  {
    match run
    case NoRun => JoinHex(words)
    case Run(start, length) => JoinHex(words[..start]) + "::" + JoinHex(words[start + length..])
  }

  ghost predicate PrintedFrom(words: seq<Word>, text: string)
  {
    exists run :: Chosen(words, run) && text == Printing(words, run)
  }

  /**
   * The canonical text of a trimmed input; `isIp` is the library's verdict on it, which takes the accepted texts and
   * other texts with a zone identifier.
   */
  method CanonicalIp(value: string, isIp: bool) returns (r: Canonical)
    requires Accepted(value) ==> isIp
    ensures r.Invalid? <==> !isIp
    ensures r.Printed? <==> isIp && Global(ExpandIpv6(Lower(value)))
    ensures r.Printed? ==> PrintedFrom(ExpandIpv6(Lower(value)), r.text)
    ensures Accepted(value) && r.Printed? ==> CanonicalOf(value, r.text)
    ensures Accepted(value) ==> (r.Printed? <==> Publishable(value))
    ensures OpenZone(value) && r.Printed? ==> EndsInNaN(r.text)
  {
    if !isIp { return Invalid; }
    var expanded := ExpandIpv6(Lower(value));
    AtLeastEight(Lower(value));
    if !Global(expanded) {
      NotPublishable(value);
      return NotGlobal;
    }
    var run := FindRun(expanded);
    match run {
      case NoRun => r := Printed(JoinHex(expanded));
      case Run(start, length) => r := Printed(JoinHex(expanded[..start]) + "::" + JoinHex(expanded[start + length..]));
    }
    assert r.text == Printing(expanded, run);
    if Accepted(value) { AcceptedPrints(value, run); }
    if OpenZone(value) {
      OpenZoneNaN(value);
      PrintsNaN(expanded, run);
    }
  }

  lemma AcceptedPrints(value: string, run: Run)
    requires Accepted(value) && Global(ExpandIpv6(Lower(value))) && Chosen(ExpandIpv6(Lower(value)), run)
    ensures CanonicalOf(value, Printing(ExpandIpv6(Lower(value)), run)) && Publishable(value)
  {
    var t :| ValidText(t) && Render(t) == value;
    var words := Meaning(t);
    assert Denotes(value, words);
    DenotesParsed(value, words);
    PrintingNumbers(words, run);
    assert Prints(words, run, Printing(Numbers(words), run));
  }

  lemma PrintingNumbers(words: seq<nat>, run: Run)
    requires Chosen(Numbers(words), run)
    ensures Printing(Numbers(words), run) == Render(TextOf(words, run))
  {
    match run {
      case NoRun => ShowNumbers(words);
      case Run(start, length) =>
        ShowNumbers(words[..start]);
        ShowNumbers(words[start + length..]);
        assert Numbers(words)[..start] == Numbers(words[..start]);
        assert Numbers(words)[start + length..] == Numbers(words[start + length..]);
    }
  }

  lemma {:induction false} ShowNumbers(words: seq<nat>)
    ensures ShowWords(Numbers(words)) == ShowAll(HexPieces(words))
  {
    if words != [] {
      ShowNumbers(words[1..]);
      assert Numbers(words)[1..] == Numbers(words[1..]);
      assert HexPieces(words)[1..] == HexPieces(words[1..]);
      assert Show(HexPieces(words)[0]) == ToDigits(words[0], 16) + "" == ShowWord(Numbers(words)[0]);
    }
  }

  lemma NotPublishable(value: string)
    requires !Global(ExpandIpv6(Lower(value)))
    ensures !Publishable(value)
  {
    forall words | Denotes(value, words)
      ensures Numbers(words) == ExpandIpv6(Lower(value)) { DenotesParsed(value, words); }
  }

  // ---- zones that do not follow a group of digits

  /** The text ends in `::` or in an embedded IPv4 address. */
  predicate OpenEnd(t: Text)
  {
    match t
    case Full(pieces) => pieces != [] && pieces[|pieces| - 1].Quad?
    case Compressed(_, right) => right == [] || right[|right| - 1].Quad?
  }

  ghost predicate ZoneOn(t: Text, zone: string, value: string)
  {
    ValidText(t) && OpenEnd(t) && zone != "" && PlainZone(zone) && value == Render(t) + ("%" + zone)
  }

  ghost predicate OpenZone(value: string) { exists t, zone :: ZoneOn(t, zone, value) }

  predicate EndsInNaN(text: string) { |text| >= 3 && text[|text| - 3..] == "NaN" }

  /** The last word of such a text is no number. */
  lemma OpenZoneNaN(value: string)
    requires OpenZone(value)
    ensures EndsInNone(ExpandIpv6(Lower(value)))
  {
    var t, zone :| ZoneOn(t, zone, value);
    ZoneLower(t, zone, value);
    ZoneNaN(LowerText(t), Lower(zone), Lower(value));
  }

  predicate EndsInNone(words: seq<Word>) { words != [] && words[|words| - 1] == None }

  lemma ZoneLower(t: Text, zone: string, value: string)
    requires ZoneOn(t, zone, value)
    ensures ZoneOn(LowerText(t), Lower(zone), Lower(value))
  {
    LowerConcat(Render(t), "%" + zone);
    LowerConcat("%", zone);
    AlreadyLower("%");
    PlainLower(zone);
    TextLower(t);
    RenderLower(t);
    OpenLower(t);
  }

  lemma ZoneNaN(t: Text, zone: string, value: string)
    requires ZoneOn(t, zone, value)
    ensures EndsInNone(ExpandIpv6(value))
  {
    match t {
      case Full(pieces) => FullZoneNaN(pieces, zone);
      case Compressed(left, right) => CompressedZoneNaN(left, right, zone);
    }
  }

  lemma OpenLower(t: Text)
    requires ValidText(t) && OpenEnd(t)
    ensures OpenEnd(LowerText(t))
  {
    match t {
      case Full(pieces) => LowerLast(pieces);
      case Compressed(_, right) => LowerLast(right);
    }
  }

  lemma {:induction false} LowerLast(pieces: seq<Piece>)
    ensures |LowerPieces(pieces)| == |pieces|
    ensures pieces != [] ==> LowerPieces(pieces)[|pieces| - 1] == LowerPiece(pieces[|pieces| - 1])
  {
    if pieces != [] { LowerLast(pieces[1..]); }
  }

  lemma {:induction false} JoinSuffix(parts: seq<string>, last: string, sep: string, suffix: string)
    ensures Join(parts + [last], sep) + suffix == Join(parts + [last + suffix], sep)
  {
    if parts != [] {
      JoinSuffix(parts[1..], last, sep, suffix);
      assert (parts + [last])[1..] == parts[1..] + [last];
      assert (parts + [last + suffix])[1..] == parts[1..] + [last + suffix];
    }
  }

  lemma {:induction false} LastParsed(tokens: seq<string>)
    requires tokens != []
    ensures var words, last := ParseTokens(tokens), ParseToken(tokens[|tokens| - 1]);
      words != [] && words[|words| - 1] == last[|last| - 1]
  {
    if |tokens| > 1 { LastParsed(tokens[1..]); } else { assert ParseTokens(tokens[1..]) == []; }
  }

  /** An octet with a zone is no number. */
  lemma QuadZoneNaN(p: Piece, zone: string)
    requires p.Quad? && PlainZone(zone)
    ensures var token := Show(p) + ("%" + zone);
      ParseToken(token)[1] == None && |ParseToken(token)| == 2 && token != "" && ':' !in token
  {
    var first, last := Octets(p)[..3], Octets(p)[3];
    var octets := first + [last + ("%" + zone)];
    assert Octets(p) == first + [last];
    OctetsShown(p);
    JoinSuffix(first, last, ".", "%" + zone);
    assert '.' !in zone && ':' !in zone;
    forall o | o in octets ensures o != "" && '.' !in o && ':' !in o {
      if o != last + ("%" + zone) { assert o in Octets(p); } else { assert last in Octets(p); }
    }
    SplitJoin(octets, '.');
    JoinHas(octets, ".", ':');
    DotInside(octets[0], Join(octets[1..], "."));
    assert octets[3][|last|] == '%' && '%' in octets[3];
  }

  /** A list of groups that ends in an IPv4 address and a zone. */
  lemma PartZoneNaN(first: seq<Piece>, last: Piece, zone: string)
    requires ValidPieces(first) && last.Quad? && ValidPiece(last) && PlainZone(zone)
    ensures var s := Join(ShowAll(first + [last]), ":") + ("%" + zone);
      EndsInNone(ParsePart(s)) && DoubleColon(s) == |s|
  {
    var token := Show(last) + ("%" + zone);
    ZonedTokens(first, last, zone);
    QuadZoneNaN(last, zone);
    JoinNoDouble(ShowAll(first) + [token]);
    LastParsed(ShowAll(first) + [token]);
  }

  lemma ZonedTokens(first: seq<Piece>, last: Piece, zone: string)
    requires ValidPieces(first) && last.Quad? && ValidPiece(last) && PlainZone(zone)
    ensures var s, tokens :=
      Join(ShowAll(first + [last]), ":") + ("%" + zone), ShowAll(first) + [Show(last) + ("%" + zone)];
      s == Join(tokens, ":") && Clean(tokens) && s != "" && SplitOn(s, ':') == tokens
  {
    ShownSnoc(first, last);
    JoinSuffix(ShowAll(first), Show(last), ":", "%" + zone);
    ShownPieces(first);
    QuadZoneNaN(last, zone);
    CleanTokens(ShowAll(first), Show(last) + ("%" + zone));
  }

  lemma CleanTokens(tokens: seq<string>, token: string)
    requires Clean(tokens) && token != "" && ':' !in token
    ensures Clean(tokens + [token]) && Join(tokens + [token], ":") != ""
    ensures SplitOn(Join(tokens + [token], ":"), ':') == tokens + [token]
  {
    JoinNoDouble(tokens + [token]);
    SplitJoin(tokens + [token], ':');
  }

  lemma {:induction false} ShownSnoc(pieces: seq<Piece>, p: Piece)
    ensures ShowAll(pieces + [p]) == ShowAll(pieces) + [Show(p)] && Words(pieces + [p]) == Words(pieces) + PieceWords(p)
  {
    if pieces == [] {
      assert ([] + [p])[1..] == [];
    } else {
      ShownSnoc(pieces[1..], p);
      assert (pieces + [p])[1..] == pieces[1..] + [p];
    }
  }

  /** The zone changes no number of words. */
  lemma ZonedCount(first: seq<Piece>, last: Piece, zone: string)
    requires ValidPieces(first) && last.Quad? && ValidPiece(last) && PlainZone(zone)
    ensures |ParsePart(Join(ShowAll(first + [last]), ":") + ("%" + zone))| == |Words(first + [last])|
  {
    ZonedTokens(first, last, zone);
    ParseSnoc(ShowAll(first), Show(last) + ("%" + zone));
    ShownPieces(first);
    QuadZoneNaN(last, zone);
    ShownSnoc(first, last);
  }

  lemma {:induction false} ParseSnoc(tokens: seq<string>, token: string)
    ensures ParseTokens(tokens + [token]) == ParseTokens(tokens) + ParseToken(token)
  {
    if tokens == [] {
      assert ([] + [token])[1..] == [];
    } else {
      ParseSnoc(tokens[1..], token);
      assert (tokens + [token])[1..] == tokens[1..] + [token];
    }
  }

  lemma FullZoneNaN(pieces: seq<Piece>, zone: string)
    requires ValidText(Full(pieces)) && OpenEnd(Full(pieces)) && PlainZone(zone)
    ensures EndsInNone(ExpandIpv6(Render(Full(pieces)) + ("%" + zone)))
  {
    var first, last := pieces[..|pieces| - 1], pieces[|pieces| - 1];
    assert pieces == first + [last] && last in pieces;
    PartZoneNaN(first, last, zone);
    ZonedCount(first, last, zone);
    ExpandWhole(Join(ShowAll(pieces), ":") + ("%" + zone));
  }

  lemma ExpandWhole(s: string)
    requires DoubleColon(s) == |s| && |ParsePart(s)| >= 8
    ensures ExpandIpv6(s) == ParsePart(s)
  {
    assert s[..|s|] == s && Halves(s) == (s, "");
    assert ExpandIpv6(s) == ParsePart(s) + [] + [];
  }

  lemma CompressedZoneNaN(left: seq<Piece>, right: seq<Piece>, zone: string)
    requires ValidText(Compressed(left, right)) && OpenEnd(Compressed(left, right)) && PlainZone(zone)
    ensures EndsInNone(ExpandIpv6(Render(Compressed(left, right)) + ("%" + zone)))
  {
    var l, tail := Join(ShowAll(left), ":"), Join(ShowAll(right), ":") + ("%" + zone);
    PartJoined(left);
    TailZoneNaN(right, zone);
    RenderTail(left, right, zone);
    HalvesAround(l, tail);
    ExpandEnds(l + "::" + tail, l, tail);
  }

  lemma TailZoneNaN(right: seq<Piece>, zone: string)
    requires ValidPieces(right) && (right == [] || right[|right| - 1].Quad?) && PlainZone(zone)
    ensures var tail := Join(ShowAll(right), ":") + ("%" + zone);
      EndsInNone(ParsePart(tail)) && DoubleColon(tail) == |tail|
  {
    if right == [] {
      LoneZoneNaN(zone);
    } else {
      assert right == right[..|right| - 1] + [right[|right| - 1]] && right[|right| - 1] in right;
      PartZoneNaN(right[..|right| - 1], right[|right| - 1], zone);
    }
  }

  lemma ExpandEnds(s: string, l: string, r: string)
    requires Halves(s) == (l, r) && EndsInNone(ParsePart(r))
    ensures EndsInNone(ExpandIpv6(s))
  {
  }

  lemma LoneZoneNaN(zone: string)
    requires PlainZone(zone)
    ensures var s := "" + ("%" + zone);
      ParsePart(s) == [None] && DoubleColon(s) == |s|
  {
    var s := "%" + zone;
    assert '.' !in zone && ':' !in zone;
    NoColon(s);
    SplitPrefix(s, "", ':');
    assert s + "" == s && "" + s == s;
    assert SplitOn(s, ':') == [s];
    assert ParseTokens([s]) == ParseToken(s) + ParseTokens([s][1..]);
    assert [s][1..] == [];
    assert HexPrefix(s) == "" && ParseToken(s) == [None];
  }

  /** What is printed of such words ends accordingly. */
  lemma PrintsNaN(words: seq<Word>, run: Run)
    requires EndsInNone(words) && Chosen(words, run)
    ensures EndsInNaN(Printing(words, run))
  {
    match run {
      case NoRun => JoinEndsInNaN(words);
      case Run(start, length) =>
        assert start + length < |words|;
        JoinEndsInNaN(words[start + length..]);
    }
  }

  lemma {:induction false} JoinEndsInNaN(words: seq<Word>)
    requires EndsInNone(words)
    ensures EndsInNaN(JoinHex(words))
  {
    if |words| > 1 {
      JoinEndsInNaN(words[1..]);
      assert JoinHex(words) == ShowWord(words[0]) + ":" + JoinHex(words[1..]);
    } else {
      assert ShowWords(words) == ["NaN"];
    }
  }

  lemma LoneZoneExpanded(left: seq<Piece>, zone: string)
    requires ValidText(Compressed(left, [])) && PlainZone(zone)
    ensures ExpandIpv6(Render(Compressed(left, [])) + ("%" + zone)) == LoneWords(Words(left))
  {
    var l, tail := Join(ShowAll(left), ":"), "" + ("%" + zone);
    PartJoined(left);
    LoneZoneNaN(zone);
    RenderTail(left, [], zone);
    HalvesAround(l, tail);
    ExpandLone(l + "::" + tail, l, tail, Words(left));
  }

  function LoneWords(left: seq<nat>): seq<Word> { Numbers(left) + Numbers(Zeros(7 - |left|)) + [None] }

  lemma RenderTail(left: seq<Piece>, right: seq<Piece>, zone: string)
    ensures Render(Compressed(left, right)) + ("%" + zone) ==
      Join(ShowAll(left), ":") + "::" + (Join(ShowAll(right), ":") + ("%" + zone))
  {
  }

  lemma ExpandLone(s: string, l: string, r: string, x: seq<nat>)
    requires Halves(s) == (l, r) && ParsePart(l) == Numbers(x) && ParsePart(r) == [None]
    ensures ExpandIpv6(s) == LoneWords(x)
  {
  }

  /** Such a text can pass every check. */
  method NoNumber(zone: string) returns (value: string, r: Canonical)
    requires zone != "" && PlainZone(zone)
    ensures OpenZone(value) && r.Printed? && EndsInNaN(r.text)
  {
    ghost var words := [0x2606, 0x4700];
    var left := HexPieces([0x2606, 0x4700]);
    HexPiecesRead(words);
    value := Render(Compressed(left, [])) + ("%" + zone);
    assert ZoneOn(Compressed(left, []), zone, value);
    ZoneLower(Compressed(left, []), zone, value);
    LoneZoneExpanded(left, Lower(zone));
    StartsGlobal(ExpandIpv6(Lower(value)));
    r := CanonicalIp(value, true);
  }

  lemma StartsGlobal(words: seq<Word>)
    requires words == LoneWords([0x2606, 0x4700])
    ensures Global(words)
  {
    assert words[0] == Some(0x2606) && words[1] == Some(0x4700) && |words| == 8;
  }

  // ---- zones with a colon

  /** Seven groups and one with a zone that holds a colon: a ninth word follows the eight of the address. */
  lemma ColonInZone(first: seq<Piece>, digits: string, x: string, y: string)
    requires ValidPieces(first + [Hex(digits, "")]) && ValidText(Full(first + [Hex(digits, "")]))
    requires x != "" && PlainZone(x) && 1 <= |y| <= 4 && AllHex(y)
    ensures var t := Full(first + [Hex(digits, "")]);
      ExpandIpv6(Render(t) + ("%" + x) + (":" + y)) == Numbers(Meaning(t) + [ValueOf(y, 16)])
  {
    var last, zoned, group := Hex(digits, ""), Hex(digits, x), Hex(y, "");
    WithZone(first, digits, x);
    WithGroup(first + [zoned], y);
    ShownSnoc(first, last);
    ShownSnoc(first, zoned);
    ShownSnoc(first + [zoned], group);
    ValidGroups(first, digits, x, y);
    ParseFull(first + [zoned] + [group]);
  }

  lemma ValidGroups(first: seq<Piece>, digits: string, x: string, y: string)
    requires ValidPieces(first + [Hex(digits, "")]) && PlainZone(x) && 1 <= |y| <= 4 && AllHex(y)
    ensures ValidPieces(first + [Hex(digits, x)] + [Hex(y, "")])
  {
    assert Hex(digits, "") in first + [Hex(digits, "")];
    assert forall p :: p in first ==> p in first + [Hex(digits, "")];
  }

  lemma WithGroup(pieces: seq<Piece>, y: string)
    requires pieces != []
    ensures Join(ShowAll(pieces + [Hex(y, "")]), ":") == Join(ShowAll(pieces), ":") + (":" + y)
  {
    ShownSnoc(pieces, Hex(y, ""));
    assert Show(Hex(y, "")) == y + "" == y;
    JoinSnoc(ShowAll(pieces), y, ":");
  }

  lemma WithZone(first: seq<Piece>, digits: string, x: string)
    requires x != ""
    ensures Join(ShowAll(first + [Hex(digits, x)]), ":") == Join(ShowAll(first + [Hex(digits, "")]), ":") + ("%" + x)
  {
    ShownSnoc(first, Hex(digits, ""));
    ShownSnoc(first, Hex(digits, x));
    JoinSuffix(ShowAll(first), digits, ":", "%" + x);
    assert Show(Hex(digits, "")) == digits + "" == digits;
  }

  lemma {:induction false} JoinSnoc(parts: seq<string>, token: string, sep: string)
    requires parts != []
    ensures Join(parts + [token], sep) == Join(parts, sep) + (sep + token)
  {
    if |parts| > 1 {
      JoinSnoc(parts[1..], token, sep);
      assert (parts + [token])[1..] == parts[1..] + [token];
    } else {
      assert (parts + [token])[1..] == [token];
    }
  }

  /** Nothing in such a text being zero, nine groups are printed. */
  lemma NineGroups(first: seq<Piece>, digits: string, x: string, y: string, text: string)
    requires ValidPieces(first + [Hex(digits, "")]) && ValidText(Full(first + [Hex(digits, "")]))
    requires x != "" && PlainZone(x) && 1 <= |y| <= 4 && AllHex(y)
    requires 0 !in Words(first + [Hex(digits, "")]) && ValueOf(y, 16) != 0
    requires PrintedFrom(ExpandIpv6(Render(Full(first + [Hex(digits, "")])) + ("%" + x) + (":" + y)), text)
    ensures |SplitOn(text, ':')| == 9
  {
    ColonInZone(first, digits, x, y);
    var words := Words(first + [Hex(digits, "")]) + [ValueOf(y, 16)];
    var run :| Chosen(Numbers(words), run) && text == Printing(Numbers(words), run);
    RunHasZero(words, run);
    PlainWords(Numbers(words));
    SplitJoin(ShowWords(Numbers(words)), ':');
  }

  lemma RunHasZero(words: seq<nat>, run: Run)
    requires Chosen(Numbers(words), run)
    ensures run.Run? ==> 0 in words
  {
    if run.Run? {
      assert Numbers(words)[run.start] == Some(0);
      assert words[run.start] == 0;
    }
  }

  lemma {:induction false} PlainWords(words: seq<Word>)
    ensures forall p :: p in ShowWords(words) ==> ':' !in p
  {
    if words != [] {
      PlainWords(words[1..]);
      if words[0].Some? { DigitsRoundTrip(words[0].value, 16); }
    }
  }

  /** Two addresses print equally exactly when they are the same. */
  lemma PrintEquallyIff(words: seq<nat>, words': seq<nat>, run: Run, run': Run)
    requires Address(words) && Address(words') && Chosen(Numbers(words), run) && Chosen(Numbers(words'), run')
    ensures Render(TextOf(words, run)) == Render(TextOf(words', run')) <==> words == words'
  {
    PrintParse(words, run);
    PrintParse(words', run');
    NumbersInjective(words, words');
    if words == words' { ChosenUnique(Numbers(words), run, run'); }
  }

  /** Two accepted inputs denote one address. */
  ghost predicate SameAddress(a: string, b: string)
  {
    exists words :: Denotes(a, words) && Denotes(b, words)
  }

  /** Two inputs, however written, have the same canonical text exactly when they denote the same address. */
  lemma CanonicalDecides(a: string, b: string, x: string, y: string)
    requires CanonicalOf(a, x) && CanonicalOf(b, y)
    ensures x == y <==> SameAddress(a, b)
  {
    var v, run :| Denotes(a, v) && Prints(v, run, x);
    var w, run' :| Denotes(b, w) && Prints(w, run', y);
    PrintEquallyIff(v, w, run, run');
    DenotesParsed(a, v);
    DenotesParsed(b, w);
    if SameAddress(a, b) {
      var words :| Denotes(a, words) && Denotes(b, words);
      DenotesParsed(a, words);
      DenotesParsed(b, words);
      NumbersInjective(v, words);
      NumbersInjective(w, words);
    }
  }

  /** A canonical text is accepted, and is its own canonical text. */
  lemma CanonicalIsFixed(value: string, text: string)
    requires CanonicalOf(value, text)
    ensures CanonicalOf(text, text) && SameAddress(value, text)
  {
    var words, run :| Denotes(value, words) && Prints(words, run, text);
    PrintedDenotes(words, run);
    assert Denotes(text, words) && Prints(words, run, text);
  }

  datatype Addresses = Canonicals(texts: seq<string>) | TooMany | BadAddress | Duplicate

  ghost predicate AllCanonical(values: seq<string>, texts: seq<string>)
  {
    |texts| == |values| && forall i {:trigger CanonicalOf(values[i], texts[i])} :: 0 <= i < |values| ==>
      CanonicalOf(values[i], texts[i])
  }

  /** Of these the library takes only texts with a meaning: without a zone, or with one after a group of digits. */
  ghost predicate Understood(values: seq<string>, isIp: string -> bool)
  {
    forall i :: 0 <= i < |values| && isIp(values[i]) ==> Accepted(values[i])
  }

  /** At most four publishable texts, no two of them of one address. */
  method PublicIpArray(values: seq<string>, isIp: string -> bool) returns (r: Addresses)
    requires forall i :: 0 <= i < |values| && Accepted(values[i]) ==> isIp(values[i])
    ensures r.TooMany? <==> |values| > 4
    ensures Understood(values, isIp) ==>
      (r.BadAddress? <==> |values| <= 4 && exists i :: 0 <= i < |values| && !Publishable(values[i]))
    ensures Understood(values, isIp) && r.Duplicate? ==>
      exists i, j :: 0 <= i < j < |values| && SameAddress(values[i], values[j])
    ensures Understood(values, isIp) && r.Canonicals? ==>
      && AllCanonical(values, r.texts)
      && forall i, j :: 0 <= i < j < |values| ==> !SameAddress(values[i], values[j])
  {
    if |values| > 4 { return TooMany; }
    var canonical := CanonicalAll(values, isIp);
    if canonical.None? { return BadAddress; }
    var distinct := set t | t in canonical.value;
    if Understood(values, isIp) {
      NoDuplicates(canonical.value, distinct);
      AllPublishable(values, canonical.value);
      DistinctAddresses(values, canonical.value);
    }
    r := if |distinct| != |canonical.value| then Duplicate else Canonicals(canonical.value);
  }

  method CanonicalAll(values: seq<string>, isIp: string -> bool) returns (r: Option<seq<string>>)
    requires forall i :: 0 <= i < |values| && Accepted(values[i]) ==> isIp(values[i])
    ensures Understood(values, isIp) && r.None? ==> exists i :: 0 <= i < |values| && !Publishable(values[i])
    ensures Understood(values, isIp) && r.Some? ==> AllCanonical(values, r.value)
  {
    var canonical: seq<string> := [];
    for i := 0 to |values|
      invariant Understood(values, isIp) ==> AllCanonical(values[..i], canonical)
    {
      var one := CanonicalIp(values[i], isIp(values[i]));
      if !one.Printed? {
        if Accepted(values[i]) { assert !Publishable(values[i]); } else { OnlyAccepted(values[i]); }
        return None;
      }
      if Understood(values, isIp) { OneMoreCanonical(values, i, canonical, one.text); }
      canonical := canonical + [one.text];
    }
    assert values[..|values|] == values;
    return Some(canonical);
  }

  lemma OnlyAccepted(value: string)
    ensures Publishable(value) ==> Accepted(value)
  {
  }

  lemma OneMoreCanonical(values: seq<string>, i: nat, texts: seq<string>, text: string)
    requires i < |values| && AllCanonical(values[..i], texts) && CanonicalOf(values[i], text)
    ensures AllCanonical(values[..i + 1], texts + [text])
  {
    forall j | 0 <= j < i + 1 ensures CanonicalOf(values[..i + 1][j], (texts + [text])[j]) {
      if j < i { assert CanonicalOf(values[..i][j], texts[j]); }
    }
  }

  lemma AllPublishable(values: seq<string>, texts: seq<string>)
    requires AllCanonical(values, texts)
    ensures forall i :: 0 <= i < |values| ==> Publishable(values[i])
  {
    forall i | 0 <= i < |values| ensures Publishable(values[i]) {
      CanonicalIsPublishable(values[i], texts[i]);
    }
  }

  lemma DistinctAddresses(values: seq<string>, texts: seq<string>)
    requires AllCanonical(values, texts)
    ensures NoneTwice(texts)
      <==> (forall i, j :: 0 <= i < j < |values| ==> !SameAddress(values[i], values[j]))
  {
    forall i, j | 0 <= i < j < |values| ensures texts[i] == texts[j] <==> SameAddress(values[i], values[j]) {
      CanonicalDecides(values[i], values[j], texts[i], texts[j]);
    }
  }

  ghost predicate NoneTwice(texts: seq<string>) { forall i, j :: 0 <= i < j < |texts| ==> texts[i] != texts[j] }

  lemma {:induction false} NoDuplicates(texts: seq<string>, distinct: set<string>)
    requires distinct == set t | t in texts
    ensures |distinct| <= |texts| && (|distinct| == |texts| <==> NoneTwice(texts))
  {
    if texts != [] {
      var n := |texts| - 1;
      var shorter, last := texts[..n], texts[n];
      var rest := set t | t in shorter;
      NoDuplicates(shorter, rest);
      OneMore(shorter, last);
      assert texts == shorter + [last];
      assert distinct == rest + {last};
      assert last in shorter <==> last in rest;
    }
  }

  lemma OneMore(texts: seq<string>, last: string)
    ensures NoneTwice(texts + [last]) <==> NoneTwice(texts) && last !in texts
  {
    if NoneTwice(texts + [last]) {
      forall i | 0 <= i < |texts| ensures texts[i] != last {
        assert (texts + [last])[i] == texts[i] && (texts + [last])[|texts|] == last;
      }
      forall i, j | 0 <= i < j < |texts| ensures texts[i] != texts[j] {
        assert (texts + [last])[i] == texts[i] && (texts + [last])[j] == texts[j];
      }
    }
  }
}
