/**
 The codec bit by bit: the characters of the encoding are the six-bit pieces of the bit stream of the
 bytes, most significant bit first (RFC 4648, section 4), and decoding lays them out again.
 */
module Base64Bits {
  import opened Bits
  import opened Base64
  import opened Base64Decoding
  import opened Base64Url

  const UPPER := "ABCDEFGHIJKLMNOPQRSTUVWXYZ"
  const LOWER := "abcdefghijklmnopqrstuvwxyz"
  const DIGITS := "0123456789"

  /** Table 1, and Table 2 of section 5, in their own order. */
  function Table(v: Sextet): char { (UPPER + LOWER + DIGITS + "+/")[v] }

  function URLTable(v: Sextet): char { (UPPER + LOWER + DIGITS + "-_")[v] }

  /** Bit `j` of a byte, the most significant first. */
  function BitOf(x: nat, j: nat): nat {
    match j
    case 0 => x / 128 % 2
    case 1 => x / 64 % 2
    case 2 => x / 32 % 2
    case 3 => x / 16 % 2
    case 4 => x / 8 % 2
    case 5 => x / 4 % 2
    case 6 => x / 2 % 2
    case _ => x % 2
  }

  /** Bit number `p` of a stream of bytes; past its end it is zero. */
  function BitAt(b: seq<Byte>, p: nat): nat { if p / 8 < |b| then BitOf(b[p / 8], p % 8) else 0 }

  lemma Small(b: seq<Byte>, p: nat)
    ensures BitAt(b, p) <= 1 && BitAt(b, p + 1) <= 1 && BitAt(b, p + 2) <= 1 && BitAt(b, p + 3) <= 1 && BitAt(b, p + 4) <= 1 && BitAt(b, p + 5) <= 1
  {
  }

  /** Six bits from number `p` on. */
  function SixFrom(b: seq<Byte>, p: nat): Sextet {
    Small(b, p);
    32 * BitAt(b, p) + 16 * BitAt(b, p + 1) + 8 * BitAt(b, p + 2) + 4 * BitAt(b, p + 3) + 2 * BitAt(b, p + 4) + BitAt(b, p + 5)
  }

  lemma RunAt(v: nat)
    ensures v < 26 ==> UPPER[v] as int == 65 + v && LOWER[v] as int == 97 + v
    ensures v < 10 ==> DIGITS[v] as int == 48 + v
  {
  }

  lemma PartAt(a: string, b: string, c: string, d: string, v: nat)
    requires v < |a| + |b| + |c| + |d|
    ensures (a + b + c + d)[v] == if v < |a| then a[v] else if v < |a| + |b| then b[v - |a|]
      else if v < |a| + |b| + |c| then c[v - |a| - |b|] else d[v - |a| - |b| - |c|]
  {
  }

  lemma TableIsChar(v: Sextet)
    ensures Table(v) == Char(v) && URLTable(v) == SafeChar(Char(v))
  {
    PartAt(UPPER, LOWER, DIGITS, "+/", v);
    PartAt(UPPER, LOWER, DIGITS, "-_", v);
    RunAt(if v < 26 then v else if v < 52 then v - 26 else if v < 62 then v - 52 else 0);
  }

  /** A byte is its eight bits. */
  lemma ByteIsBits(x: nat)
    requires x < 256
    ensures x == 128 * BitOf(x, 0) + 64 * BitOf(x, 1) + 32 * BitOf(x, 2) + 16 * BitOf(x, 3) + 8 * BitOf(x, 4) + 4 * BitOf(x, 5) + 2 * BitOf(x, 6) + BitOf(x, 7)
  {
    var h, l := x / 16, x % 16;
    assert x == h * 16 + l;
    Nibbles(h, l);
    hide BitOf;
    HalfIsBits(h);
    HalfIsBits(l);
  }

  lemma HalfIsBits(h: nat)
    requires h < 16
    ensures h == 8 * (h / 8) + 4 * (h / 4 % 2) + 2 * (h / 2 % 2) + h % 2
  {
  }

  /** The bits of a byte made of two halves. */
  lemma Nibbles(h: nat, l: nat)
    requires h < 16 && l < 16
    ensures var x := h * 16 + l;
      && BitOf(x, 0) == h / 8 && BitOf(x, 1) == h / 4 % 2 && BitOf(x, 2) == h / 2 % 2 && BitOf(x, 3) == h % 2
      && BitOf(x, 4) == l / 8 && BitOf(x, 5) == l / 4 % 2 && BitOf(x, 6) == l / 2 % 2 && BitOf(x, 7) == l % 2
  {
    UpperHalf(h, l);
    LowerHalf(h, l);
  }

  lemma UpperHalf(h: nat, l: nat)
    requires h < 16 && l < 16
    ensures var x := h * 16 + l; x / 128 % 2 == h / 8 && x / 64 % 2 == h / 4 % 2 && x / 32 % 2 == h / 2 % 2 && x / 16 % 2 == h % 2
  {
    var x := h * 16 + l;
    assert x / 16 == h && x / 32 == h / 2 && x / 64 == h / 4 && x / 128 == h / 8;
  }

  lemma LowerHalf(h: nat, l: nat)
    requires h < 16 && l < 16
    ensures var x := h * 16 + l; x / 8 % 2 == l / 8 && x / 4 % 2 == l / 4 % 2 && x / 2 % 2 == l / 2 % 2 && x % 2 == l % 2
  {
    var x := h * 16 + l;
    assert x / 8 == 2 * h + l / 8;
    Even(h, l / 8);
    assert x / 4 == 4 * h + l / 4;
    Even(2 * h, l / 4);
    assert x / 2 == 8 * h + l / 2;
    Even(4 * h, l / 2);
    Even(8 * h, l);
  }

  lemma Even(k: nat, y: nat)
    ensures (2 * k + y) % 2 == y % 2
  {
  }

  lemma BitsAreSmall(x: nat, j: nat)
    ensures BitOf(x, j) <= 1
  {
  }

  /** The byte at a place of a group, zero past its end. */
  function ByteAt(g: seq<Byte>, k: nat): nat { if k < |g| then g[k] else 0 }

  lemma BitAtByte(g: seq<Byte>, k: nat, j: nat)
    requires j < 8
    ensures BitAt(g, 8 * k + j) == BitOf(ByteAt(g, k), j)
  {
    assert (8 * k + j) / 8 == k && (8 * k + j) % 8 == j;
  }

  /** The four pieces of a word, by the bytes. */
  lemma WordPieces(x: nat, y: nat, z: nat)
    requires x < 256 && y < 256 && z < 256
    ensures var n := x * 65536 + y * 256 + z;
      n / 262144 == x / 4 && n / 4096 % 64 == x % 4 * 16 + y / 16 && n / 64 % 64 == y % 16 * 4 + z / 64 && n % 64 == z % 64
  {
    var n := x * 65536 + y * 256 + z;
    assert x == 4 * (x / 4) + x % 4 && y == 16 * (y / 16) + y % 16 && z == 64 * (z / 64) + z % 64;
    var k := x / 4 * 64 + (x % 4 * 16 + y / 16);
    By64(x / 4, x % 4 * 16 + y / 16);
    By64(k, y % 16 * 4 + z / 64);
    By64(k * 64 + (y % 16 * 4 + z / 64), z % 64);
    DivideTwice(n);
  }

  lemma By64(q: nat, r: nat)
    requires r < 64
    ensures (q * 64 + r) / 64 == q && (q * 64 + r) % 64 == r
  {
  }

  lemma DivideTwice(n: nat)
    ensures n / 4096 == n / 64 / 64 && n / 262144 == n / 64 / 64 / 64
  {
  }

  lemma PiecesAreBits(x: nat, y: nat, z: nat)
    requires x < 256 && y < 256 && z < 256
    ensures x / 4 == 32 * BitOf(x, 0) + 16 * BitOf(x, 1) + 8 * BitOf(x, 2) + 4 * BitOf(x, 3) + 2 * BitOf(x, 4) + BitOf(x, 5)
    ensures x % 4 * 16 + y / 16 == 32 * BitOf(x, 6) + 16 * BitOf(x, 7) + 8 * BitOf(y, 0) + 4 * BitOf(y, 1) + 2 * BitOf(y, 2) + BitOf(y, 3)
    ensures y % 16 * 4 + z / 64 == 32 * BitOf(y, 4) + 16 * BitOf(y, 5) + 8 * BitOf(y, 6) + 4 * BitOf(y, 7) + 2 * BitOf(z, 0) + BitOf(z, 1)
    ensures z % 64 == 32 * BitOf(z, 2) + 16 * BitOf(z, 3) + 8 * BitOf(z, 4) + 4 * BitOf(z, 5) + 2 * BitOf(z, 6) + BitOf(z, 7)
  {
    ByteIsBits(x);
    ByteIsBits(y);
    ByteIsBits(z);
    AllSmall(x);
    AllSmall(y);
    AllSmall(z);
    hide BitOf;
  }

  lemma AllSmall(x: nat)
    ensures BitOf(x, 0) <= 1 && BitOf(x, 1) <= 1 && BitOf(x, 2) <= 1 && BitOf(x, 3) <= 1
    ensures BitOf(x, 4) <= 1 && BitOf(x, 5) <= 1 && BitOf(x, 6) <= 1 && BitOf(x, 7) <= 1
  {
  }

  lemma GroupBits(g: seq<Byte>)
    ensures SixFrom(g, 0) as int == 32 * BitOf(ByteAt(g, 0), 0) + 16 * BitOf(ByteAt(g, 0), 1) + 8 * BitOf(ByteAt(g, 0), 2) + 4 * BitOf(ByteAt(g, 0), 3) + 2 * BitOf(ByteAt(g, 0), 4) + BitOf(ByteAt(g, 0), 5)
    ensures SixFrom(g, 6) as int == 32 * BitOf(ByteAt(g, 0), 6) + 16 * BitOf(ByteAt(g, 0), 7) + 8 * BitOf(ByteAt(g, 1), 0) + 4 * BitOf(ByteAt(g, 1), 1) + 2 * BitOf(ByteAt(g, 1), 2) + BitOf(ByteAt(g, 1), 3)
    ensures SixFrom(g, 12) as int == 32 * BitOf(ByteAt(g, 1), 4) + 16 * BitOf(ByteAt(g, 1), 5) + 8 * BitOf(ByteAt(g, 1), 6) + 4 * BitOf(ByteAt(g, 1), 7) + 2 * BitOf(ByteAt(g, 2), 0) + BitOf(ByteAt(g, 2), 1)
    ensures SixFrom(g, 18) as int == 32 * BitOf(ByteAt(g, 2), 2) + 16 * BitOf(ByteAt(g, 2), 3) + 8 * BitOf(ByteAt(g, 2), 4) + 4 * BitOf(ByteAt(g, 2), 5) + 2 * BitOf(ByteAt(g, 2), 6) + BitOf(ByteAt(g, 2), 7)
  {
    hide BitOf;
    ZeroHasNoBits();
  }

  lemma ZeroHasNoBits()
    ensures forall j: nat {:trigger BitOf(0, j)} :: BitOf(0, j) == 0
  {
  }

  lemma BytesAreSmall(g: seq<Byte>)
    ensures ByteAt(g, 0) < 256 && ByteAt(g, 1) < 256 && ByteAt(g, 2) < 256
  {
  }

  lemma WordOf(g: seq<Byte>)
    requires 1 <= |g| <= 3
    ensures Word(g) == ByteAt(g, 0) * 65536 + ByteAt(g, 1) * 256 + ByteAt(g, 2)
  {
  }

  /** The characters of one group are its six-bit pieces. */
  lemma QuadIsBits(g: seq<Byte>)
    requires 1 <= |g| <= 3
    ensures var q := Quad(Word(g));
      q == [Table(SixFrom(g, 0)), Table(SixFrom(g, 6)), Table(SixFrom(g, 12)), Table(SixFrom(g, 18))]
  {
    hide SixFrom, BitOf, Char, Table, URLTable, SafeChar, Word, Quad, ByteAt;
    var x, y, z := ByteAt(g, 0), ByteAt(g, 1), ByteAt(g, 2);
    BytesAreSmall(g);
    WordOf(g);
    QuadOf(Word(g));
    WordPieces(x, y, z);
    PiecesAreBits(x, y, z);
    GroupBits(g);
    TableIsChar(SixFrom(g, 0));
    TableIsChar(SixFrom(g, 6));
    TableIsChar(SixFrom(g, 12));
    TableIsChar(SixFrom(g, 18));
  }

  lemma BitsGoOn(b: seq<Byte>, k: nat, p: nat)
    requires k <= |b|
    ensures BitAt(b, 8 * k + p) == BitAt(b[k..], p)
  {
    assert (8 * k + p) / 8 == k + p / 8 && (8 * k + p) % 8 == p % 8;
  }

  lemma SixGoOn(b: seq<Byte>, p: nat)
    requires |b| >= 3 && p >= 24
    ensures SixFrom(b, p) == SixFrom(b[3..], p - 24)
  {
    hide BitAt;
    BitsGoOn(b, 3, p - 24);
    BitsGoOn(b, 3, p - 23);
    BitsGoOn(b, 3, p - 22);
    BitsGoOn(b, 3, p - 21);
    BitsGoOn(b, 3, p - 20);
    BitsGoOn(b, 3, p - 19);
  }

  lemma SixOfFront(b: seq<Byte>, p: nat)
    requires |b| >= 3 && p + 6 <= 24
    ensures SixFrom(b, p) == SixFrom(b[..3], p)
  {
    hide BitOf;
  }

  /** RFC 4648, section 4, character by character: number j is the Table 1 character of bits 6j to 6j + 5, as long
      as one of them is a bit of the bytes, and the padding character after that. */
  lemma {:induction false} EncodedIsBits(b: seq<Byte>, j: nat)
    requires j < |Encoded(b)|
    ensures |Encoded(b)| == (|b| + 2) / 3 * 4 
    ensures Encoded(b)[j] == if 6 * j < 8 * |b| then Table(SixFrom(b, 6 * j)) else '='
    decreases |b|
  {
    hide Quad, Word, SixFrom, Table;
    EncodedLength(b);
    if |b| <= 3 {
      QuadIsBits(b);
    } else {
      QuadIsBits(b[..3]);
      EncodedLength(b[3..]);
      if j < 4 {
        SixOfFront(b, 6 * j);
      } else {
        SixGoOn(b, 6 * j);
        EncodedIsBits(b[3..], j - 4);
      }
    }
  }

  /** Lines of 76 characters with a break between them, place by place. */
  lemma {:induction false} LinesAt(s: string, j: nat)
    requires j < |Lines(s)|
    ensures |Lines(s)| == |s| + 2 * ((|s| - 1) / 76)
    ensures j % 78 < 76 ==> j / 78 * 76 + j % 78 < |s| && Lines(s)[j] == s[j / 78 * 76 + j % 78]
    ensures j % 78 >= 76 ==> Lines(s)[j] == "\r\n"[j % 78 - 76]
    decreases |s|
  {
    if |s| > 76 {
      var rest := s[76..];
      assert Lines(s) == s[..76] + CRLF + Lines(rest);
      assert (|s| - 1) / 76 == (|rest| - 1) / 76 + 1;
      if j >= 78 {
        LinesAt(rest, j - 78);
        assert j % 78 == (j - 78) % 78 && j / 78 == (j - 78) / 78 + 1;
      } else {
        LinesAt(rest, 0);
      }
    }
  }

  /** The transported text: as many characters of Table 2 as there are six-bit pieces, and nothing else. */
  lemma TransportIsBits(b: seq<Byte>, j: nat)
    requires j < |Transport(b)|
    ensures |Transport(b)| == (8 * |b| + 5) / 6 && Transport(b)[j] == URLTable(SixFrom(b, 6 * j))
  {
    hide Transport, Safe, Strip, Encoded, SixFrom, Table, URLTable, SafeChar, Char;
    TransportIsURLSafe(b);
    PlainAndPadding(b);
    EncodedIsBits(b, j);
    TableIsChar(SixFrom(b, 6 * j));
  }

  // ---------------------------------------------------------------- decoding

  /** Bit `j` of a six-bit value. */
  function SixBitOf(v: nat, j: nat): nat {
    match j
    case 0 => v / 32 % 2
    case 1 => v / 16 % 2
    case 2 => v / 8 % 2
    case 3 => v / 4 % 2
    case 4 => v / 2 % 2
    case _ => v % 2
  }

  /** Bit number `p` of the values of a text; past its end it is zero. */
  function CharBitAt(t: string, p: nat): nat
    requires Clean(t)
  {
    if p / 6 < |t| then SixBitOf(Value(t[p / 6]), p % 6) else 0
  }

  function ValueAt(t: string, k: nat): nat
    requires Clean(t)
  {
    if k < |t| then Value(t[k]) else 0
  }

  lemma ValuesAreTable(v: Sextet, c: char)
    ensures IsAlphabet(c) ==> Table(Value(c)) == c
    ensures IsAlphabet(Table(v)) && Value(Table(v)) == v
  {
    TableIsChar(v);
    if IsAlphabet(c) { TableIsChar(Value(c)); }
  }

  lemma WordBytes(a: nat, b: nat, c: nat, d: nat)
    requires a < 64 && b < 64 && c < 64 && d < 64
    ensures var n := a * 262144 + b * 4096 + c * 64 + d;
      n / 65536 == a * 4 + b / 16 && n / 256 % 256 == b % 16 * 16 + c / 4 && n % 256 == c % 4 * 64 + d
  {
    assert b == 16 * (b / 16) + b % 16 && c == 4 * (c / 4) + c % 4;
    EightBits(a * 4 + b / 16, b % 16 * 16 + c / 4, c % 4 * 64 + d);
  }

  lemma FirstByteBits(a: nat, b: nat)
    requires a < 64 && b < 64
    ensures var x := a * 4 + b / 16;
      && BitOf(x, 0) == SixBitOf(a, 0) && BitOf(x, 1) == SixBitOf(a, 1) && BitOf(x, 2) == SixBitOf(a, 2) && BitOf(x, 3) == SixBitOf(a, 3)
      && BitOf(x, 4) == SixBitOf(a, 4) && BitOf(x, 5) == SixBitOf(a, 5) && BitOf(x, 6) == SixBitOf(b, 0) && BitOf(x, 7) == SixBitOf(b, 1)
  {
    Nibbles(a / 4, a % 4 * 4 + b / 16);
    HighNibble(a);
    TwoBits(a, b);
    assert a == 4 * (a / 4) + a % 4;
  }

  lemma SecondByteBits(b: nat, c: nat)
    requires b < 64 && c < 64
    ensures var x := b % 16 * 16 + c / 4;
      && BitOf(x, 0) == SixBitOf(b, 2) && BitOf(x, 1) == SixBitOf(b, 3) && BitOf(x, 2) == SixBitOf(b, 4) && BitOf(x, 3) == SixBitOf(b, 5)
      && BitOf(x, 4) == SixBitOf(c, 0) && BitOf(x, 5) == SixBitOf(c, 1) && BitOf(x, 6) == SixBitOf(c, 2) && BitOf(x, 7) == SixBitOf(c, 3)
  {
    Nibbles(b % 16, c / 4);
    LowNibble(b);
    HighNibble(c);
  }

  lemma LowNibble(v: nat)
    requires v < 64
    ensures v % 16 / 8 == SixBitOf(v, 2) && v % 16 / 4 % 2 == SixBitOf(v, 3) && v % 16 / 2 % 2 == SixBitOf(v, 4) && v % 16 % 2 == SixBitOf(v, 5)
  {
    assert v == v / 16 * 16 + v % 16;
    LowerHalf(v / 16, v % 16);
  }

  lemma HighNibble(v: nat)
    requires v < 64
    ensures v / 4 / 8 == SixBitOf(v, 0) && v / 4 / 4 % 2 == SixBitOf(v, 1) && v / 4 / 2 % 2 == SixBitOf(v, 2) && v / 4 % 2 == SixBitOf(v, 3)
  {
    assert v / 4 / 8 == v / 32 && v / 4 / 4 == v / 16 && v / 4 / 2 == v / 8;
  }

  lemma ThirdByteBits(c: nat, d: nat)
    requires c < 64 && d < 64
    ensures var x := c % 4 * 64 + d;
      && BitOf(x, 0) == SixBitOf(c, 4) && BitOf(x, 1) == SixBitOf(c, 5) && BitOf(x, 2) == SixBitOf(d, 0) && BitOf(x, 3) == SixBitOf(d, 1)
      && BitOf(x, 4) == SixBitOf(d, 2) && BitOf(x, 5) == SixBitOf(d, 3) && BitOf(x, 6) == SixBitOf(d, 4) && BitOf(x, 7) == SixBitOf(d, 5)
  {
    Nibbles(c % 4 * 4 + d / 16, d % 16);
    LowNibble(d);
    TwoBits(c, d);
    assert d == 16 * (d / 16) + d % 16;
  }

  /** The upper half of the third byte: two bits of each value. */
  lemma TwoBits(c: nat, d: nat)
    requires c < 64 && d < 64
    ensures var h := c % 4 * 4 + d / 16;
      h / 8 == SixBitOf(c, 4) && h / 4 % 2 == SixBitOf(c, 5) && h / 2 % 2 == SixBitOf(d, 0) && h % 2 == SixBitOf(d, 1)
  {
    var e, u := c % 4, d / 16;
    assert c == 4 * (c / 4) + e && c / 2 == 2 * (c / 4) + e / 2;
    assert u < 4 && d / 32 == u / 2;
    if e == 0 {} else if e == 1 {} else if e == 2 {} else {}
  }

  lemma ValueBits(t: string, p: nat)
    requires Clean(t)
    ensures CharBitAt(t, p) == SixBitOf(ValueAt(t, p / 6), p % 6)
  {
  }

  /** The three bytes of a group, bit by bit. */
  lemma BytesAreBits(q: string, k: nat, j: nat)
    requires |q| <= 4 && Clean(q) && k < 3 && j < 8
    ensures BitOf(Bytes(Bits24(q))[k], j) == CharBitAt(q, 8 * k + j)
  {
    hide BitOf, SixBitOf, Value, IsAlphabet, CharBitAt;
    var a, b, c, d := ValueAt(q, 0), ValueAt(q, 1), ValueAt(q, 2), ValueAt(q, 3);
    WordBytes(a, b, c, d);
    FirstByteBits(a, b);
    SecondByteBits(b, c);
    ThirdByteBits(c, d);
    ValueBits(q, 8 * k + j);
    assert Bits24(q) == a * 262144 + b * 4096 + c * 64 + d;
  }

  lemma QuadBits(t: string, q: nat, m: nat)
    requires Clean(t) && 4 * q < |t| && m < 24
    ensures CharBitAt(QuadAt(t, q), m) == CharBitAt(t, 24 * q + m)
  {
    hide SixBitOf, Value, IsAlphabet;
    assert (24 * q + m) / 6 == 4 * q + m / 6 && (24 * q + m) % 6 == m % 6;
  }

  /** Decoding lays out the six-bit values of the characters one after another, whatever the text. */
  lemma WholeIsBits(t: string, p: nat)
    requires Clean(t) && p < 8 * |Whole(t)|
    ensures BitAt(Whole(t), p) == CharBitAt(t, p)
  {
    hide Whole, Bits24, Bytes, BitOf, SixBitOf, QuadAt, CharBitAt;
    var i, j := p / 8, p % 8;
    var q, k := i / 3, i % 3;
    assert i == 3 * q + k && p == 24 * q + (8 * k + j);
    WholeAt(t, q, k);
    BytesAreBits(QuadAt(t, q), k, j);
    QuadBits(t, q, 8 * k + j);
  }

  /** base64DecToArr on any text short enough, without a block size: (3n + 1) / 4 bytes for the n alphabet characters
      in it, and their bits are the bits of the values of those characters. */
  lemma DecodingIsBits(s: string, p: nat)
    requires 3 * |Strip(s)| + 1 < 0x8000_0000
    ensures DecodeResult(s, 0).Some? && |DecodeResult(s, 0).value| == (3 * |Strip(s)| + 1) / 4
    ensures p < 8 * |DecodeResult(s, 0).value| ==> BitAt(DecodeResult(s, 0).value, p) == CharBitAt(Strip(s), p)
  {
    hide Whole, Strip, BitOf, CharBitAt;
    var t := Strip(s);
    OutLengthFits(|t|);
    if p < 8 * ((3 * |t| + 1) / 4) { WholeIsBits(t, p); }
  }

  /** What is stripped: all that is not in Table 1. */
  lemma StripKeepsTable(a: string, c: char, b: string)
    ensures Strip(a + [c] + b) == Strip(a) + (if exists v: Sextet :: Table(v) == c then [c] else "") + Strip(b)
  {
    hide Strip, Table, Value;
    StripAppend(a + [c], b);
    StripAppend(a, [c]);
    StripStep(c, "");
    StripNothing();
    assert [c] + "" == [c];
    forall v: Sextet ensures IsAlphabet(Table(v)) { ValuesAreTable(v, c); }
    if IsAlphabet(c) { ValuesAreTable(Value(c), c); }
  }
}
