/**
 The Base64 codec of the auth UI (base64.ts, base64url.ts) against RFC 4648.

 The two loops keep a 24-bit accumulator; the reference definitions below take the bytes in groups
 of three (RFC 4648, section 4) and the characters in lines of 76 (RFC 2045, section 6.8).
 */
module Base64 {
  import opened Wrappers
  import opened Bits

  type Byte = x: int | 0 <= x < 256

  type Sextet = x: int | 0 <= x < 64

  const CRLF := "\r\n"

  // ---------------------------------------------------------------- RFC 4648, section 4

  /** The 24 bits of an input group, missing bytes being zero. */
  function Word(g: seq<Byte>): (n: nat)
    requires 1 <= |g| <= 3
    ensures n < 0x100_0000
  {
    (g[0] as int) * 65536 + (if |g| > 1 then (g[1] as int) * 256 else 0) + (if |g| > 2 then g[2] as int else 0)
  }

  /** Table 1: upper case, lower case, digits, plus, slash. */
  function Char(v: Sextet): char {
    if v < 26 then 'A' + v as char
    else if v < 52 then 'a' + (v - 26) as char
    else if v < 62 then '0' + (v - 52) as char
    else if v == 62 then '+' else '/'
  }

  /** Four characters for a 24-bit word. */
  function Quad(n: nat): (s: string)
    requires n < 0x100_0000
    ensures |s| == 4
  {
    [Char(n / 262144), Char(n / 4096 % 64), Char(n / 64 % 64), Char(n % 64)]
  }

  /** A final group of one or two bytes keeps two or three characters and is padded. */
  function Group(g: seq<Byte>): string
    requires 1 <= |g| <= 3
  {
    Quad(Word(g))[..|g| + 1] + (if |g| == 1 then "==" else if |g| == 2 then "=" else "")
  }

  function Encoded(b: seq<Byte>): string {
    if b == [] then "" else if |b| <= 3 then Group(b) else Group(b[..3]) + Encoded(b[3..])
  }

  /** Lines of 76 characters with CRLF between them (RFC 2045, section 6.8). */
  function Lines(s: string): string {
    if |s| <= 76 then s else s[..76] + CRLF + Lines(s[76..])
  }

  // ---------------------------------------------------------------- encoding

  function Uint6ToB64(n: int): int {
    if n < 26 then n + 65 else if n < 52 then n + 71 else if n < 62 then n - 4 else if n == 62 then 43 else if n == 63 then 47 else 65
  }

  lemma CodeIsChar(v: Sextet)
    ensures 0 <= Uint6ToB64(v) < 128 && Uint6ToB64(v) as char == Char(v)
  {
  }

  /** The shift of byte number i within its group: (16 >>> nMod3) & 24. */
  function Shifted(x: nat, i: nat): nat
    requires i < 3
  {
    if i == 0 then x * 65536 else if i == 1 then x * 256 else x
  }

  /** String.fromCodePoint of the four six-bit pieces. */
  method FromCodePoints(n: nat) returns (s: string)
    requires n < 0x100_0000
    ensures s == Quad(n)
  {
    CodeIsChar(n / 262144 % 64);
    CodeIsChar(n / 4096 % 64);
    CodeIsChar(n / 64 % 64);
    CodeIsChar(n % 64);
    s := [Uint6ToB64(n / 262144 % 64) as char, Uint6ToB64(n / 4096 % 64) as char, Uint6ToB64(n / 64 % 64) as char, Uint6ToB64(n % 64) as char];
  }

  /** (i * 4 / 3) % 76 === 0 in exact arithmetic: 4i/3 is whole and a multiple of 76. */
  predicate BreakTest(i: nat) { i * 4 % 3 == 0 && i * 4 / 3 % 76 == 0 }

  /** A line holds 57 bytes. */
  lemma BreakEvery57(i: nat)
    ensures BreakTest(i) <==> i % 57 == 0
  {
    if BreakTest(i) {
      var k := i / 3;
      assert i == 3 * k && 4 * k % 76 == 0;
      assert 4 * k == 76 * (4 * k / 76);
      assert k == 19 * (4 * k / 76);
      assert i == 57 * (4 * k / 76);
    }
    if i % 57 == 0 {
      var q := i / 57;
      assert i == 57 * q && i * 4 == 3 * (76 * q);
    }
  }

  /** Where the group of byte i starts. */
  function GroupStart(i: nat): (start: nat)
    ensures start <= i && i - start == i % 3 && start % 3 == 0
  {
    i - i % 3
  }

  /** The groups of b joined as the loop joins them: a break before every nineteenth group but the first. */
  function Joined(b: seq<Byte>): string
    decreases |b|
  {
    if b == [] then ""
    else
      var last := GroupStart(|b| - 1);
      Joined(b[..last]) + (if last > 0 && last % 57 == 0 then CRLF else "") + Group(b[last..])
  }

  /** The output up to the group that starts here, with its break. */
  function Opened(b: seq<Byte>, start: nat): string
    requires start <= |b|
  {
    Joined(b[..start]) + (if start > 0 && start % 57 == 0 then CRLF else "")
  }

  /** What stands in the output when byte i is next. */
  function Progress(b: seq<Byte>, i: nat): string
    requires i <= |b|
  {
    var start := GroupStart(i);
    if i % 3 == 0 then Joined(b[..i])
    else if i < |b| then Opened(b, start)
    else Opened(b, start) + Quad(Word(b[start..]))
  }

  /** base64EncArr as written: RFC 4648, section 4, in lines of 76 characters. */
  method Base64EncArr(aBytes: seq<Byte>) returns (sB64: string)
    ensures sB64 == Lines(Encoded(aBytes))
  {
    hide Joined, Opened, Progress, Lines, Encoded, Word, Quad, BitOr, Shifted, BreakTest, GroupStart;
    var nMod3: nat := 2;
    var sB64Enc := "";
    var nUint24: nat := 0;
    var nIdx: nat := 0;
    var nLen := |aBytes|;
    NothingJoined(aBytes);
    while nIdx < nLen
      invariant nIdx <= nLen
      invariant nMod3 == if nIdx == 0 then 2 else (nIdx - 1) % 3
      invariant nIdx < nLen ==> nUint24 == if nIdx % 3 == 0 then 0 else Word(aBytes[GroupStart(nIdx)..nIdx])
      invariant sB64Enc == Progress(aBytes, nIdx)
    {
      nMod3 := nIdx % 3;
      BreakEvery57(nIdx);
      if nIdx > 0 && BreakTest(nIdx) {
        sB64Enc := sB64Enc + CRLF;
      }
      GroupOpened(aBytes, nIdx);
      AddByte(aBytes, nIdx, nUint24);
      nUint24 := BitOr(nUint24, Shifted(aBytes[nIdx], nMod3));
      if nMod3 == 2 || nLen - nIdx == 1 {
        var chars := FromCodePoints(nUint24);
        sB64Enc := sB64Enc + chars;
        nUint24 := 0;
        GroupClosed(aBytes, nIdx);
      } else {
        GroupContinues(aBytes, nIdx);
      }
      nIdx := nIdx + 1;
    }
    Trimmed(aBytes);
    JoinedIsEncoded(aBytes);
    sB64 := sB64Enc[..|sB64Enc| - 2 + nMod3] + (if nMod3 == 2 then "" else if nMod3 == 1 then "=" else "==");
  }

  lemma NothingJoined(b: seq<Byte>)
    ensures Progress(b, 0) == ""
  {
  }

  lemma GroupContinues(b: seq<Byte>, i: nat)
    requires i + 1 < |b| && i % 3 != 2
    ensures Progress(b, i + 1) == Opened(b, GroupStart(i))
  {
    hide Joined;
  }

  lemma JoinedOf(b: seq<Byte>)
    requires b != []
    ensures var last := GroupStart(|b| - 1); Joined(b) == Opened(b, last) + Group(b[last..])
  {
  }

  lemma GroupOpened(b: seq<Byte>, i: nat)
    requires i < |b|
    ensures Progress(b, i) + (if i > 0 && i % 57 == 0 then CRLF else "") == Opened(b, GroupStart(i))
  {
    hide Joined;
  }

  /** The characters of a group complete it, or end the text. */
  lemma GroupClosed(b: seq<Byte>, i: nat)
    requires i < |b| && (i % 3 == 2 || i + 1 == |b|)
    ensures Opened(b, GroupStart(i)) + Quad(Word(b[GroupStart(i)..i + 1])) == Progress(b, i + 1)
  {
    hide Word, Quad;
    var start := GroupStart(i);
    if i % 3 == 2 {
      assert start == i - 2;
      var c := b[..i + 1];
      assert GroupStart(|c| - 1) == start && c[..start] == b[..start] && c[start..] == b[start..i + 1];
      assert Group(c[start..]) == Quad(Word(c[start..]));
      assert (i + 1) % 3 == 0;
    } else {
      assert b[start..i + 1] == b[start..];
      assert GroupStart(i + 1) == start;
    }
  }

  /** The final substr and padding. */
  lemma Trimmed(b: seq<Byte>)
    ensures var s := Progress(b, |b|); var nMod3 := if |b| == 0 then 2 else (|b| - 1) % 3;
      && 0 <= |s| - 2 + nMod3 <= |s|
      && s[..|s| - 2 + nMod3] + (if nMod3 == 2 then "" else if nMod3 == 1 then "=" else "==") == Joined(b)
  {
    hide Word, Quad, Opened, Joined, GroupStart;
    var n := |b|;
    assert b[..n] == b;
    if n % 3 != 0 {
      var last := GroupStart(n - 1);
      assert last == GroupStart(n);
      JoinedOf(b);
      CutQuad(Opened(b, last), Quad(Word(b[last..])), n - last);
    } else if n > 0 {
      assert Progress(b, n) == Joined(b);
      JoinedIsLong(b);
    }
  }

  lemma CutQuad(s: string, quad: string, r: nat)
    requires |quad| == 4 && 1 <= r <= 2
    ensures (s + quad)[..|s + quad| - 2 + (r - 1)] == s + quad[..r + 1]
  {
  }

  lemma JoinedIsLong(b: seq<Byte>)
    requires |b| > 0
    ensures |Joined(b)| >= 4
  {
  }

  lemma AddByte(b: seq<Byte>, i: nat, acc: nat)
    requires i < |b| && acc == if i % 3 == 0 then 0 else Word(b[GroupStart(i)..i])
    ensures BitOr(acc, Shifted(b[i], i % 3)) == Word(b[GroupStart(i)..i + 1]) < 0x100_0000
  {
    var g := b[GroupStart(i)..i + 1];
    assert Pow2(8) == 256 && Pow2(16) == 65536 && Pow2(24) == 0x100_0000 by { Powers(); }
    if i % 3 == 0 {
      OrIsSum(0, 24, Shifted(b[i], 0));
    } else if i % 3 == 1 {
      OrIsSum(b[i - 1], 16, Shifted(b[i], 1));
    } else {
      OrIsSum((b[i - 2] as int) * 256 + b[i - 1] as int, 8, b[i]);
    }
  }

  lemma Powers()
    ensures Pow2(8) == 256 && Pow2(16) == 65536 && Pow2(24) == 0x100_0000 && Pow2(6) == 64 && Pow2(12) == 4096
      && Pow2(18) == 262144
  {
    assert Pow2(8) == 256;
    assert Pow2(16) == 256 * 256;
  }

  // ---------------------------------------------------------------- the loop encodes as RFC 4648 says

  lemma {:induction false} LastGroup(b: seq<Byte>)
    requires b != []
    ensures var last := GroupStart(|b| - 1); Encoded(b) == Encoded(b[..last]) + Group(b[last..])
    decreases |b|
  {
    hide Group;
    var last := GroupStart(|b| - 1);
    if |b| <= 3 {
      assert b[..0] == [] && b[0..] == b;
    } else {
      LastGroup(b[3..]);
      assert GroupStart(|b[3..]| - 1) == last - 3;
      assert b[3..][last - 3..] == b[last..];
      assert b[..last][..3] == b[..3] && b[..last][3..] == b[3..][..last - 3];
      if last == 3 { assert b[3..][..0] == []; }
    }
  }

  lemma {:induction false} EncodedLength(b: seq<Byte>)
    ensures |Encoded(b)| == (|b| + 2) / 3 * 4
    decreases |b|
  {
    hide Group;
    if |b| > 3 {
      EncodedLength(b[3..]);
      GroupIsFour(b[..3]);
    } else if b != [] {
      GroupIsFour(b);
    }
  }

  lemma LessALine(n: nat)
    requires n > 76
    ensures (n - 76) % 76 == n % 76
  {
  }

  /** A line break never falls inside a group, and never at the end. */
  lemma {:induction false} LinesAppend(s: string, g: string)
    requires |s| % 4 == 0 && |g| == 4
    ensures Lines(s + g) == Lines(s) + (if |s| > 0 && |s| % 76 == 0 then CRLF else "") + g
    decreases |s|
  {
    if |s| < 76 {
      assert |s + g| <= 76;
    } else if |s| == 76 {
      assert (s + g)[..76] == s && (s + g)[76..] == g;
    } else {
      LessALine(|s|);
      LinesAppend(s[76..], g);
      assert (s + g)[..76] == s[..76] && (s + g)[76..] == s[76..] + g;
      assert Lines(s + g) == s[..76] + CRLF + Lines(s[76..] + g);
    }
  }

  lemma GroupIsFour(g: seq<Byte>)
    requires 1 <= |g| <= 3
    ensures |Group(g)| == 4
  {
  }

  lemma {:induction false} JoinedIsEncoded(b: seq<Byte>)
    ensures Joined(b) == Lines(Encoded(b))
    decreases |b|
  {
    hide Group, Lines, BreakTest, Joined, Encoded;
    if b == [] {
      LinesOfNothing();
    } else {
      var last := GroupStart(|b| - 1);
      JoinedIsEncoded(b[..last]);
      LastGroup(b);
      GroupIsFour(b[last..]);
      EncodedLength(b[..last]);
      var k := last / 3;
      assert last == 3 * k && (last + 2) / 3 == k;
      LineLength(k);
      LinesAppend(Encoded(b[..last]), Group(b[last..]));
      JoinedOf(b);
    }
  }

  lemma LinesOfNothing()
    ensures Lines("") == "" && Joined([]) == "" && Encoded([]) == ""
  {
  }

  /** 57 bytes fill a line of 76 characters. */
  lemma LineLength(k: nat)
    ensures 4 * k % 76 == 0 <==> 3 * k % 57 == 0
  {
    if 4 * k % 76 == 0 {
      var q := 4 * k / 76;
      assert 4 * k == 76 * q;
      assert 3 * k == 57 * q;
    }
    if 3 * k % 57 == 0 {
      var q := 3 * k / 57;
      assert 3 * k == 57 * q;
      assert 4 * k == 76 * q;
    }
  }
}
