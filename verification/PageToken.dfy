/** Page tokens: a paging sequence in decimal, then in base64 (section 4 of RFC 4648) as Go's StdEncoding does it. */
module PageToken {
  import opened Wrappers

  type Byte = x: int | 0 <= x < 256

  type Sextet = x: int | 0 <= x < 64

  // ----- base64 -----

  datatype Symbol = Letter(x: Sextet) | Pad

  function First(b0: Byte): Sextet {
    b0 / 4
  }

  function Second(b0: Byte, b1: Byte): Sextet {
    b0 % 4 * 16 + b1 / 16
  }

  function Third(b1: Byte, b2: Byte): Sextet {
    b1 % 16 * 4 + b2 / 64
  }

  function Fourth(b2: Byte): Sextet {
    b2 % 64
  }

  /** Three bytes to four letters; a short last group is padded. */
  function Symbols(b: seq<Byte>): seq<Symbol> {
    if b == [] then []
    else if |b| == 1 then [Letter(First(b[0])), Letter(Second(b[0], 0)), Pad, Pad]
    else if |b| == 2 then [Letter(First(b[0])), Letter(Second(b[0], b[1])), Letter(Third(b[1], 0)), Pad]
    else [Letter(First(b[0])), Letter(Second(b[0], b[1])), Letter(Third(b[1], b[2])), Letter(Fourth(b[2]))]
         + Symbols(b[3..])
  }

  function FirstByte(p: Sextet, q: Sextet): Byte {
    p * 4 + q / 16
  }

  function SecondByte(q: Sextet, u: Sextet): Byte {
    q % 16 * 16 + u / 4
  }

  function ThirdByte(u: Sextet, v: Sextet): Byte {
    u % 4 * 64 + v
  }

  /** Groups of four; padding only at the very end. Bits that padding leaves over are not looked at. */
  function Bytes(ss: seq<Symbol>): Option<seq<Byte>> {
    if ss == [] then Some([])
    else if |ss| < 4 || ss[0].Pad? || ss[1].Pad? then None
    else if ss[2].Pad? then
      if ss[3].Pad? && |ss| == 4 then Some([FirstByte(ss[0].x, ss[1].x)]) else None
    else if ss[3].Pad? then
      if |ss| == 4 then Some([FirstByte(ss[0].x, ss[1].x), SecondByte(ss[1].x, ss[2].x)]) else None
    else
      match Bytes(ss[4..])
      case None => None
      case Some(rest) =>
        Some([FirstByte(ss[0].x, ss[1].x), SecondByte(ss[1].x, ss[2].x), ThirdByte(ss[2].x, ss[3].x)] + rest)
  }

  lemma OneGroup(b0: Byte, b1: Byte, b2: Byte)
    ensures FirstByte(First(b0), Second(b0, b1)) == b0
    ensures SecondByte(Second(b0, b1), Third(b1, b2)) == b1
    ensures ThirdByte(Third(b1, b2), Fourth(b2)) == b2
  {
  }

  lemma OneByte(b: seq<Byte>)
    requires |b| == 1
    ensures Bytes(Symbols(b)) == Some([b[0]])
  {
    var ss := Symbols(b);
    assert ss[0].x == First(b[0]) && ss[1].x == Second(b[0], 0);
    LoneByte(b[0]);
  }

  lemma LoneByte(b0: Byte)
    ensures FirstByte(First(b0), Second(b0, 0)) == b0
  {
  }

  lemma TwoBytes(b: seq<Byte>)
    requires |b| == 2
    ensures Bytes(Symbols(b)) == Some([b[0], b[1]])
  {
    OneGroup(b[0], b[1], 0);
  }

  lemma LongGroup(b: seq<Byte>)
    requires |b| > 2 && Bytes(Symbols(b[3..])) == Some(b[3..])
    ensures Bytes(Symbols(b)) == Some([b[0], b[1], b[2]] + b[3..])
  {
    OneGroup(b[0], b[1], b[2]);
    assert Symbols(b)[4..] == Symbols(b[3..]);
  }

  lemma {:induction false} BytesOfSymbols(b: seq<Byte>)
    ensures Bytes(Symbols(b)) == Some(b)
    decreases |b|
  {
    if |b| == 1 {
      OneByte(b);
      assert b == [b[0]];
    } else if |b| == 2 {
      TwoBytes(b);
      assert b == [b[0], b[1]];
    } else if |b| > 2 {
      BytesOfSymbols(b[3..]);
      LongGroup(b);
      assert b == [b[0], b[1], b[2]] + b[3..];
    }
  }

  /** The alphabet of table 1 of RFC 4648. */
  function CharOf(s: Symbol): char {
    if s.Pad? then '='
    else if s.x < 26 then 'A' + s.x as char
    else if s.x < 52 then 'a' + (s.x - 26) as char
    else if s.x < 62 then '0' + (s.x - 52) as char
    else if s.x == 62 then '+' else '/'
  }

  function SymbolOf(c: char): Option<Symbol> {
    if 'A' <= c <= 'Z' then Some(Letter((c - 'A') as int))
    else if 'a' <= c <= 'z' then Some(Letter((c - 'a') as int + 26))
    else if '0' <= c <= '9' then Some(Letter((c - '0') as int + 52))
    else if c == '+' then Some(Letter(62))
    else if c == '/' then Some(Letter(63))
    else if c == '=' then Some(Pad)
    else None
  }

  lemma CharReads(s: Symbol)
    ensures SymbolOf(CharOf(s)) == Some(s) && CharOf(s) != '\r' && CharOf(s) != '\n'
  {
  }

  function Text(ss: seq<Symbol>): string {
    if ss == [] then "" else [CharOf(ss[0])] + Text(ss[1..])
  }

  /** The symbols of a text: line ends are skipped wherever they occur, and a character outside the alphabet is an error. */
  function Read(s: string): Option<seq<Symbol>> {
    if s == "" then Some([])
    else if s[0] == '\r' || s[0] == '\n' then Read(s[1..])
    else match (SymbolOf(s[0]), Read(s[1..]))
         case (Some(x), Some(rest)) => Some([x] + rest)
         case _ => None
  }

  lemma {:induction false} ReadText(ss: seq<Symbol>)
    ensures Read(Text(ss)) == Some(ss) && (Text(ss) == "" <==> ss == [])
  {
    if ss != [] {
      CharReads(ss[0]);
      ReadText(ss[1..]);
      assert Text(ss)[1..] == Text(ss[1..]);
      assert ss == [ss[0]] + ss[1..];
    }
  }

  function Encode(b: seq<Byte>): string {
    Text(Symbols(b))
  }

  function Decode(s: string): Option<seq<Byte>> {
    match Read(s)
    case None => None
    case Some(ss) => Bytes(ss)
  }

  /** Decoding undoes encoding, for all byte strings. */
  lemma Base64RoundTrip(b: seq<Byte>)
    ensures Decode(Encode(b)) == Some(b)
    ensures Encode(b) == "" <==> b == []
  {
    BytesOfSymbols(b);
    ReadText(Symbols(b));
  }

  // ----- decimal numbers -----

  const MAX_INT64 := 0x7FFF_FFFF_FFFF_FFFF

  /** strconv.FormatInt in base 10, of a number that is not negative. */
  function FormatInt(n: nat): seq<Byte> {
    (if n < 10 then [] else FormatInt(n / 10)) + [48 + n % 10]
  }

  function Digits(s: seq<Byte>): Option<nat> {
    if s == [] then Some(0)
    else match Digits(s[..|s| - 1])
         case None => None
         case Some(n) => if 48 <= s[|s| - 1] <= 57 then Some(n * 10 + (s[|s| - 1] - 48)) else None
  }

  /** strconv.ParseInt in base 10 and 64 bits: a sign, at least one digit, nothing else, and within range. */
  function ParseInt(s: seq<Byte>): Option<int> {
    var signed := s != [] && (s[0] == 43 || s[0] == 45);
    var digits := if signed then s[1..] else s;
    if digits == [] then None
    else match Digits(digits)
         case None => None
         case Some(n) =>
           var value := if signed && s[0] == 45 then -1 * (n as int) else n as int;
           if -MAX_INT64 - 1 <= value <= MAX_INT64 then Some(value) else None
  }

  lemma {:induction false} FormatDigits(n: nat)
    ensures FormatInt(n) != [] && 48 <= FormatInt(n)[0] <= 57 && Digits(FormatInt(n)) == Some(n)
  {
    if n >= 10 {
      FormatDigits(n / 10);
      assert FormatInt(n)[..|FormatInt(n)| - 1] == FormatInt(n / 10);
    } else {
      assert FormatInt(n)[..0] == [];
    }
  }

  lemma ParseFormat(n: nat)
    requires n <= MAX_INT64
    ensures ParseInt(FormatInt(n)) == Some(n)
  {
    FormatDigits(n);
  }

  // ----- tokens -----

  /** generateTokenForItem. */
  function TokenFor(pagingSequence: nat): string {
    Encode(FormatInt(pagingSequence))
  }

  /** parsePageToken: None is the bad request. */
  function ParsePageToken(token: string): Option<nat> {
    if token == "" then Some(0)
    else match Decode(token)
         case None => None
         case Some(b) =>
           match ParseInt(b)
           case None => None
           case Some(n) => if n < 0 then None else Some(n)
  }

  /** A token names the paging sequence it was made for, and is never the empty token. */
  lemma TokenRoundTrip(pagingSequence: nat)
    requires pagingSequence <= MAX_INT64
    ensures ParsePageToken(TokenFor(pagingSequence)) == Some(pagingSequence)
    ensures TokenFor(pagingSequence) != ""
  {
    var b := FormatInt(pagingSequence);
    FormatDigits(pagingSequence);
    Base64RoundTrip(b);
    ParseFormat(pagingSequence);
  }

  // ----- the token format, apart from how it works -----

  datatype Tokens = Tokens(show: nat -> string, parse: string -> Option<nat>) {
    /** The empty token is the start, and any other names the paging sequence it was made for. */
    ghost predicate RoundTrip() {
      && parse("") == Some(0)
      && forall n: nat | n <= MAX_INT64 :: show(n) != "" && parse(show(n)) == Some(n)
    }
  }

  function PageTokens(): Tokens {
    Tokens(TokenFor, ParsePageToken)
  }

  lemma PageTokensRoundTrip()
    ensures PageTokens().RoundTrip()
  {
    forall n: nat | n <= MAX_INT64 ensures TokenFor(n) != "" && ParsePageToken(TokenFor(n)) == Some(n) {
      TokenRoundTrip(n);
    }
  }
}
