/** base64DecToArr, and the round trip with its exact limit. */
module Base64Decoding {
  import opened Wrappers
  import opened Bits
  import opened Base64

  // ---------------------------------------------------------------- reference

  predicate IsAlphabet(c: char) { 'A' <= c <= 'Z' || 'a' <= c <= 'z' || '0' <= c <= '9' || c == '+' || c == '/' }

  /** replace(/[^A-Za-z0-9+\/]/g, ""): everything outside the alphabet goes, padding and breaks included. */
  function Strip(s: string): (t: string)
    ensures forall k :: 0 <= k < |t| ==> IsAlphabet(t[k])
  {
    if s == "" then "" else (if IsAlphabet(s[0]) then [s[0]] else "") + Strip(s[1..])
  }

  /** The value of a character in Table 1. */
  function Value(c: char): Sextet
    requires IsAlphabet(c)
  {
    if 'A' <= c <= 'Z' then (c - 'A') as int
    else if 'a' <= c <= 'z' then (c - 'a') as int + 26
    else if '0' <= c <= '9' then (c - '0') as int + 52
    else if c == '+' then 62 else 63
  }

  predicate Clean(t: string) { forall k :: 0 <= k < |t| ==> IsAlphabet(t[k]) }

  /** The 24 bits of up to four characters, missing ones being zero. */
  function Bits24(q: string): (n: nat)
    requires |q| <= 4 && Clean(q)
    ensures n < 0x100_0000
  {
    (if |q| > 0 then Value(q[0]) as int * 262144 else 0) + (if |q| > 1 then Value(q[1]) as int * 4096 else 0)
    + (if |q| > 2 then Value(q[2]) as int * 64 else 0) + (if |q| > 3 then Value(q[3]) as int else 0)
  }

  function Bytes(n: nat): (b: seq<Byte>)
    requires n < 0x100_0000
    ensures |b| == 3
  {
    [n / 65536, n / 256 % 256, n % 256]
  }

  /** Three bytes for every group of four characters, the last one too if it is short. */
  function Whole(t: string): (b: seq<Byte>)
    requires Clean(t)
    ensures |b| == (|t| + 3) / 4 * 3
  {
    if t == "" then [] else if |t| <= 4 then Bytes(Bits24(t)) else Bytes(Bits24(t[..4])) + Whole(t[4..])
  }

  /** Whole groups give three bytes; a last group of one, two or three characters gives one, one or two. */
  function Decoded(t: string): (b: seq<Byte>)
    requires Clean(t)
    ensures |b| == (3 * |t| + 1) / 4
  {
    Whole(t)[..(3 * |t| + 1) / 4]
  }

  function Zeros(n: nat): (b: seq<Byte>)
    ensures |b| == n
  {
    seq(n, _ => 0)
  }

  /** Cut to a length, or filled up with zeros. */
  function Sized(b: seq<Byte>, n: nat): seq<Byte> { if n <= |b| then b[..n] else b + Zeros(n - |b|) }

  // ---------------------------------------------------------------- the loop as written

  function B64ToUint6(n: int): int {
    if n > 64 && n < 91 then n - 65 else if n > 96 && n < 123 then n - 71 else if n > 47 && n < 58 then n + 4
    else if n == 43 then 62 else if n == 47 then 63 else 0
  }

  /** x >> 2 works on a signed 32-bit integer. */
  function ToInt32(x: int): int { (x + 0x8000_0000) % 0x1_0000_0000 - 0x8000_0000 }

  function OutLength(n: nat): int { ToInt32(n * 3 + 1) / 4 }

  /** Math.ceil(a / b) * b, also for a negative length. */
  function RoundedUp(a: int, b: nat): int
    requires b > 0
  {
    -(-a / b) * b
  }

  /** nOutLen; a block size of zero is as good as none. */
  function OutSize(n: nat, nBlocksSize: nat): int {
    if nBlocksSize > 0 then RoundedUp(OutLength(n), nBlocksSize) else OutLength(n)
  }

  function Piece(n: nat, k: nat): (b: Byte)
    requires n < 0x100_0000 && k < 3
    ensures b == Bytes(n)[k]
  {
    if k == 0 then n / 65536 % 256 else if k == 1 then n / 256 % 256 else n % 256
  }

  function Placed(v: nat, k: nat): nat
    requires k < 4
  {
    if k == 0 then v * 262144 else if k == 1 then v * 4096 else if k == 2 then v * 64 else v
  }

  /** Where the group of character i starts, and the byte its group decodes to first. */
  function QuadStart(i: nat): (start: nat)
    ensures start <= i && i - start == i % 4
  {
    i / 4 * 4
  }

  function FirstByte(i: nat): nat { i / 4 * 3 }

  /** The inner loop: the three bytes of a word, as far as there is room. */
  method PutBytes(taBytes: array<Byte>, nUint24: nat, start: nat) returns (nOutIdx: nat)
    requires nUint24 < 0x100_0000 && start <= taBytes.Length
    modifies taBytes
    ensures nOutIdx == Min(taBytes.Length, start + 3)
    ensures taBytes[..nOutIdx] == old(taBytes[..start]) + Bytes(nUint24)[..nOutIdx - start]
    ensures taBytes[nOutIdx..] == old(taBytes[nOutIdx..])
  {
    hide Bytes;
    nOutIdx := start;
    var nMod3: nat := 0;
    while nMod3 < 3 && nOutIdx < taBytes.Length
      invariant nMod3 <= 3 && nOutIdx == start + nMod3 <= taBytes.Length
      invariant taBytes[..nOutIdx] == old(taBytes[..start]) + Bytes(nUint24)[..nMod3]
      invariant taBytes[nOutIdx..] == old(taBytes[nOutIdx..])
    {
      taBytes[nOutIdx] := Piece(nUint24, nMod3);
      nMod3 := nMod3 + 1;
      nOutIdx := nOutIdx + 1;
    }
  }

  /** What decoding a text gives: an error for a negative length, else the decoded groups cut or filled up
      to the length. */
  function DecodeResult(s: string, nBlocksSize: nat): Option<seq<Byte>> {
    var t := Strip(s);
    if OutSize(|t|, nBlocksSize) < 0 then None else Some(Sized(Whole(t), OutSize(|t|, nBlocksSize)))
  }

  /** The decoded groups as far as they are written, and zeros after them. */
  ghost predicate Filled(b: seq<Byte>, t: string, n: nat)
    requires Clean(t)
  {
    n <= |b| && n <= |Whole(t)| && b[..n] == Whole(t)[..n] && b[n..] == Zeros(|b| - n)
  }

  lemma NothingFilled(b: seq<Byte>, t: string)
    requires Clean(t) && forall k :: 0 <= k < |b| ==> b[k] == 0
    ensures Filled(b, t, 0)
  {
    hide Whole;
  }

  lemma FillsGroup(before: seq<Byte>, after: seq<Byte>, t: string, i: nat, start: nat, end: nat)
    requires Clean(t) && i < |t| && (i % 4 == 3 || i + 1 == |t|)
    requires Filled(before, t, start) && |after| == |before| && start <= end <= |after|
    requires end <= |Whole(t)| && end <= start + 3 && (start == FirstByte(i) || start == end)
    requires after[..end] == before[..start] + Bytes(Bits24(t[QuadStart(i)..i + 1]))[..end - start]
    requires after[end..] == before[end..]
    ensures Filled(after, t, end)
  {
    hide Whole, Bits24, Bytes, FirstByte;
    GroupDecoded(t, i, start, end);
    assert before[end..] == before[start..][end - start..];
    assert Zeros(|before| - start)[end - start..] == Zeros(|before| - end);
  }

  lemma AllFilled(b: seq<Byte>, t: string)
    requires Clean(t) && Filled(b, t, Min(|b|, |Whole(t)|))
    ensures b == Sized(Whole(t), |b|)
  {
    hide Whole;
    var n := Min(|b|, |Whole(t)|);
    assert b == b[..n] + b[n..];
  }

  /** base64DecToArr as written; new Uint8Array throws a RangeError for a negative length. */
  method Base64DecToArr(sBase64: string, nBlocksSize: nat) returns (r: Option<seq<Byte>>)
    ensures r == DecodeResult(sBase64, nBlocksSize)
  {
    hide Whole, Bits24, Bytes, BitOr, Placed, Strip, OutSize, QuadStart, FirstByte, Filled, Sized;
    var sB64Enc := Strip(sBase64);
    var nInLen := |sB64Enc|;
    var nOutLen := OutSize(nInLen, nBlocksSize);
    if nOutLen < 0 { return None; }
    var taBytes := new Byte[nOutLen](_ => 0);
    NoBits(sB64Enc, 0);
    NoByte();
    NothingFilled(taBytes[..], sB64Enc);
    var nUint24: nat, nOutIdx: nat, nInIdx: nat := 0, 0, 0;
    while nInIdx < nInLen
      invariant nInIdx <= nInLen
      invariant nOutIdx == Min(nOutLen, if nInIdx == nInLen then |Whole(sB64Enc)| else FirstByte(nInIdx))
      invariant nInIdx < nInLen ==> nUint24 == Bits24(sB64Enc[QuadStart(nInIdx)..nInIdx])
      invariant Filled(taBytes[..], sB64Enc, nOutIdx)
    {
      var nMod4 := nInIdx % 4;
      AddChar(sB64Enc, nInIdx, nUint24);
      nUint24 := BitOr(nUint24, Placed(B64ToUint6(sB64Enc[nInIdx] as int), nMod4));
      NextOut(sB64Enc, nInIdx);
      if nMod4 == 3 || nInLen - nInIdx == 1 {
        ghost var start, before := nOutIdx, taBytes[..];
        nOutIdx := PutBytes(taBytes, nUint24, nOutIdx);
        FillsGroup(before, taBytes[..], sB64Enc, nInIdx, start, nOutIdx);
        nUint24 := 0;
        if nMod4 == 3 { NoBits(sB64Enc, nInIdx + 1); }
      }
      nInIdx := nInIdx + 1;
    }
    AllFilled(taBytes[..], sB64Enc);
    r := Some(taBytes[..]);
  }

  lemma NoBits(t: string, i: nat)
    requires Clean(t) && i <= |t| && i % 4 == 0
    ensures QuadStart(i) == i && Bits24(t[QuadStart(i)..i]) == 0
  {
  }

  lemma NoByte()
    ensures FirstByte(0) == 0
  {
  }

  lemma NextOut(t: string, i: nat)
    requires Clean(t) && i < |t|
    ensures FirstByte(i) + 3 <= |Whole(t)|
    ensures i + 1 == |t| ==> |Whole(t)| == FirstByte(i) + 3
    ensures if i % 4 == 3 then FirstByte(i + 1) == FirstByte(i) + 3 else FirstByte(i + 1) == FirstByte(i) && QuadStart(i + 1) == QuadStart(i)
  {
    hide Whole;
  }

  /** A finished group of characters puts its bytes where the reference has them. */
  lemma GroupDecoded(t: string, i: nat, start: nat, end: nat)
    requires Clean(t) && i < |t| && (i % 4 == 3 || i + 1 == |t|)
    requires start <= end <= |Whole(t)| && end <= start + 3 && (start == FirstByte(i) || start == end)
    ensures Whole(t)[..end] == Whole(t)[..start] + Bytes(Bits24(t[QuadStart(i)..i + 1]))[..end - start]
  {
    hide Whole, Bits24, Bytes;
    var q := i / 4;
    assert QuadAt(t, q) == t[QuadStart(i)..i + 1];
    forall k | start <= k < end ensures Whole(t)[k] == Bytes(Bits24(t[QuadStart(i)..i + 1]))[k - start] {
      WholeAt(t, q, k - start);
    }
  }

  function Min(a: int, b: int): int { if a < b then a else b }

  lemma OutLengthFits(n: nat)
    ensures OutLength(n) <= (3 * n + 1) / 4
    ensures OutLength(n) == (3 * n + 1) / 4 <==> 3 * n + 1 < 0x8000_0000
  {
  }

  lemma CodeIsValue(c: char)
    requires IsAlphabet(c)
    ensures B64ToUint6(c as int) == Value(c)
  {
  }

  lemma AddChar(t: string, i: nat, acc: nat)
    requires Clean(t) && i < |t| && acc == Bits24(t[QuadStart(i)..i])
    ensures 0 <= B64ToUint6(t[i] as int) < 64 && B64ToUint6(t[i] as int) == Value(t[i])
    ensures BitOr(acc, Placed(B64ToUint6(t[i] as int), i % 4)) == Bits24(t[QuadStart(i)..i + 1])
  {
    hide B64ToUint6, Value, IsAlphabet;
    CodeIsValue(t[i]);
    var v: nat := Value(t[i]);
    var q := t[QuadStart(i)..i + 1];
    Powers();
    if i % 4 == 0 {
      OrIsSum(0, 24, v * 262144);
    } else if i % 4 == 1 {
      OrIsSum(Value(q[0]), 18, v * 4096);
    } else if i % 4 == 2 {
      OrIsSum(Value(q[0]) as int * 64 + Value(q[1]) as int, 12, v * 64);
    } else {
      OrIsSum(Value(q[0]) as int * 4096 + Value(q[1]) as int * 64 + Value(q[2]) as int, 6, v);
    }
  }

  /** The characters of group q. */
  function QuadAt(t: string, q: nat): (g: string)
    requires Clean(t) && 4 * q < |t|
    ensures |g| <= 4 && Clean(g)
  {
    if 4 * q + 4 <= |t| then t[4 * q..4 * q + 4] else t[4 * q..]
  }

  lemma NextQuad(t: string, q: nat)
    requires Clean(t) && q > 0 && 4 * q < |t|
    ensures QuadAt(t, q) == QuadAt(t[4..], q - 1)
  {
    if 4 * q + 4 <= |t| {
      assert t[4..][4 * q - 4..4 * q] == t[4 * q..4 * q + 4];
    } else {
      assert t[4..][4 * q - 4..] == t[4 * q..];
    }
  }

  lemma FirstQuad(t: string)
    requires Clean(t) && t != ""
    ensures Whole(t) == if |t| <= 4 then Bytes(Bits24(QuadAt(t, 0))) else Bytes(Bits24(QuadAt(t, 0))) + Whole(t[4..])
  {
    hide Bits24, Bytes;
    assert t[0..] == t && (|t| >= 4 ==> t[0..4] == t[..4]);
    assert |t| == 4 ==> t[..4] == t;
  }

  /** Byte k of group q comes from the characters of that group. */
  lemma {:induction false} WholeAt(t: string, q: nat, k: nat)
    requires Clean(t) && k < 3 && 4 * q < |t|
    ensures Whole(t)[3 * q + k] == Bytes(Bits24(QuadAt(t, q)))[k]
    decreases q
  {
    hide Bits24, Bytes, Whole, QuadAt;
    FirstQuad(t);
    if q > 0 {
      WholeAt(t[4..], q - 1, k);
      NextQuad(t, q);
      assert Whole(t)[3..] == Whole(t[4..]);
    }
  }

  // ---------------------------------------------------------------- round trip

  lemma StripNothing()
    ensures Strip("") == ""
  {
  }

  lemma StripStep(c: char, rest: string)
    ensures Strip([c] + rest) == (if IsAlphabet(c) then [c] else "") + Strip(rest)
  {
    hide IsAlphabet;
    assert ([c] + rest)[1..] == rest;
  }

  lemma {:induction false} StripAppend(a: string, b: string)
    ensures Strip(a + b) == Strip(a) + Strip(b)
  {
    hide IsAlphabet, Strip;
    if a == "" {
      StripNothing();
      assert a + b == b;
    } else {
      StripAppend(a[1..], b);
      StripStep(a[0], a[1..]);
      StripStep(a[0], a[1..] + b);
      assert a == [a[0]] + a[1..];
      assert a + b == [a[0]] + (a[1..] + b);
    }
  }

  lemma {:induction false} StripClean(t: string)
    requires Clean(t)
    ensures Strip(t) == t
  {
    if t != "" { StripClean(t[1..]); }
  }

  /** Line breaks are not part of the text. */
  lemma {:induction false} StripLines(s: string)
    ensures Strip(Lines(s)) == Strip(s)
    decreases |s|
  {
    hide Strip;
    if |s| > 76 {
      StripLines(s[76..]);
      StripAppend(s[..76] + CRLF, Lines(s[76..]));
      StripAppend(s[..76], CRLF);
      StripBreak();
      StripAppend(s[..76], s[76..]);
      assert s == s[..76] + s[76..];
    }
  }

  lemma StripBreak()
    ensures Strip(CRLF) == ""
  {
    assert CRLF[1..] == "\n";
    assert Strip("\n") == "" by { assert "\n"[1..] == ""; }
  }

  lemma StripPadding()
    ensures Strip("==") == "" && Strip("=") == ""
  {
    assert "="[1..] == "";
    assert "=="[1..] == "=";
  }

  function Padding(n: nat): string { if n % 3 == 1 then "==" else if n % 3 == 2 then "=" else "" }

  lemma QuadIsClean(n: nat)
    requires n < 0x100_0000
    ensures Clean(Quad(n))
  {
  }

  /** A group without its padding. */
  lemma PlainGroup(g: seq<Byte>)
    requires 1 <= |g| <= 3
    ensures Clean(Quad(Word(g))[..|g| + 1]) && Strip(Group(g)) == Quad(Word(g))[..|g| + 1]
    ensures Group(g) == Strip(Group(g)) + Padding(|g|)
  {
    hide Word, Quad, Strip;
    QuadIsClean(Word(g));
    var t := Quad(Word(g))[..|g| + 1];
    StripClean(t);
    StripPadding();
    StripAppend(t, Padding(|g|));
    assert t + "" == t;
  }

  /** Only the last group is padded. */
  lemma {:induction false} PlainAndPadding(b: seq<Byte>)
    ensures Encoded(b) == Strip(Encoded(b)) + Padding(|b|)
    ensures |Strip(Encoded(b))| == (4 * |b| + 2) / 3
    decreases |b|
  {
    hide Group, Strip, Quad, Word;
    if b == [] {
      StripClean("");
    } else if |b| <= 3 {
      PlainGroup(b);
    } else {
      PlainGroup(b[..3]);
      PlainAndPadding(b[3..]);
      StripAppend(Group(b[..3]), Encoded(b[3..]));
    }
  }

  lemma CharValue(v: Sextet)
    ensures IsAlphabet(Char(v)) && Value(Char(v)) == v
  {
  }

  /** Four characters of a word give the word back; so do fewer, if the bits they leave out are zero. */
  lemma QuadDecodes(n: nat, m: nat)
    requires n < 0x100_0000 && 2 <= m <= 4
    requires m == 2 ==> n % 4096 == 0
    requires m == 3 ==> n % 64 == 0
    ensures Clean(Quad(n)[..m]) && Bits24(Quad(n)[..m]) == n
  {
    hide Value, Char, IsAlphabet;
    var a, b, c, d := n / 262144, n / 4096 % 64, n / 64 % 64, n % 64;
    CharValue(a);
    CharValue(b);
    CharValue(c);
    CharValue(d);
    SixBits(n);
    hide *;
    var t := Quad(n)[..m];
    QuadOf(n);
    assert t == [Char(a), Char(b), Char(c), Char(d)][..m];
    BitsOf(t);
  }

  lemma QuadOf(n: nat)
    requires n < 0x100_0000
    ensures Quad(n) == [Char(n / 262144), Char(n / 4096 % 64), Char(n / 64 % 64), Char(n % 64)]
  {
  }

  lemma BitsOf(q: string)
    requires |q| <= 4 && Clean(q)
    ensures Bits24(q) == (if |q| > 0 then Value(q[0]) as int * 262144 else 0) + (if |q| > 1 then Value(q[1]) as int * 4096 else 0)
      + (if |q| > 2 then Value(q[2]) as int * 64 else 0) + (if |q| > 3 then Value(q[3]) as int else 0)
  {
  }

  lemma SixBits(n: nat)
    ensures n == n / 262144 * 262144 + n / 4096 % 64 * 4096 + n / 64 % 64 * 64 + n % 64
    ensures n % 64 == 0 ==> n == n / 262144 * 262144 + n / 4096 % 64 * 4096 + n / 64 % 64 * 64
    ensures n % 4096 == 0 ==> n == n / 262144 * 262144 + n / 4096 % 64 * 4096
  {
    var x := n / 64;
    var y := x / 64;
    assert n == 64 * x + n % 64 && x == 64 * y + x % 64;
    assert n / 4096 == y;
    assert y / 64 == n / 262144;
  }

  lemma GroupDecodes(g: seq<Byte>)
    requires 1 <= |g| <= 3
    ensures var t := Quad(Word(g))[..|g| + 1]; Clean(t) && Bytes(Bits24(t)) == g + Zeros(3 - |g|)
  {
    hide Quad, Bits24;
    WordBits(g);
    QuadDecodes(Word(g), |g| + 1);
  }

  lemma WordBits(g: seq<Byte>)
    requires 1 <= |g| <= 3
    ensures |g| == 1 ==> Word(g) % 4096 == 0
    ensures |g| == 2 ==> Word(g) % 64 == 0
    ensures Bytes(Word(g)) == g + Zeros(3 - |g|)
  {
    EightBits(g[0], if |g| > 1 then g[1] else 0, if |g| > 2 then g[2] else 0);
  }

  lemma EightBits(x: Byte, y: Byte, z: Byte)
    ensures var n := x as int * 65536 + y as int * 256 + z as int;
      && n / 65536 == x && n / 256 % 256 == y && n % 256 == z
      && (z == 0 ==> n % 64 == 0) && (y == 0 && z == 0 ==> n % 4096 == 0)
  {
    var n := x as int * 65536 + y as int * 256 + z as int;
    assert n / 256 == x as int * 256 + y as int;
    if z == 0 { assert n == 64 * (x as int * 1024 + y as int * 4); }
    if y == 0 && z == 0 { assert n == 4096 * (x as int * 16); }
  }

  /** How many bytes the last group of n bytes falls short of. */
  function Short(n: nat): nat { if n % 3 == 0 then 0 else 3 - n % 3 }

  /** Decoding whole groups gives the bytes back, and zeros for what the last group lacks. */
  lemma {:induction false} PlainIsWhole(b: seq<Byte>)
    ensures Whole(Strip(Encoded(b))) == b + Zeros(Short(|b|))
    decreases |b|
  {
    hide Group, Strip, Quad, Word, Bits24, Bytes;
    PlainAndPadding(b);
    if b == [] {
    } else if |b| <= 3 {
      PlainGroup(b);
      GroupDecodes(b);
    } else {
      var t := Strip(Encoded(b));
      PlainGroup(b[..3]);
      GroupDecodes(b[..3]);
      PlainIsWhole(b[3..]);
      PlainAndPadding(b[3..]);
      StripAppend(Group(b[..3]), Encoded(b[3..]));
      assert t[..4] == Strip(Group(b[..3])) && t[4..] == Strip(Encoded(b[3..]));
      assert b == b[..3] + b[3..];
    }
  }

  lemma PlainDecodes(b: seq<Byte>)
    ensures Decoded(Strip(Encoded(b))) == b
  {
    hide Strip, Encoded, Whole;
    PlainIsWhole(b);
    PlainAndPadding(b);
  }

  /** The length of the text that counts: four characters for three bytes, without breaks or padding. */
  function TextLength(n: nat): nat { (4 * n + 2) / 3 }

  /** Decoding an encoded array gives the array back exactly as long as three times its text length plus
      one fits a signed 32-bit integer; beyond that there is no result or one of the wrong length. */
  lemma RoundTrip(b: seq<Byte>)
    ensures DecodeResult(Lines(Encoded(b)), 0) == Some(b) <==> 3 * TextLength(|b|) + 1 < 0x8000_0000
  {
    hide Strip, Lines, Encoded, Whole, OutLength, TextLength;
    StripLines(Encoded(b));
    PlainIsWhole(b);
    PlainLength(b);
    OutLengthFits(TextLength(|b|));
    WholeLength(|b|);
    assert (b + Zeros(Short(|b|)))[..|b|] == b;
  }

  /** With a block size, the array comes back filled up with zeros to the next multiple of it. */
  lemma RoundTripInBlocks(b: seq<Byte>, nBlocksSize: nat)
    requires nBlocksSize > 0 && 3 * TextLength(|b|) + 1 < 0x8000_0000
    ensures var size := RoundedUp(|b|, nBlocksSize);
      && |b| <= size < |b| + nBlocksSize && IsMultiple(size, nBlocksSize)
      && DecodeResult(Lines(Encoded(b)), nBlocksSize) == Some(b + Zeros(size - |b|))
  {
    hide Strip, Lines, Encoded, Whole, OutLength, TextLength, RoundedUp;
    StripLines(Encoded(b));
    PlainIsWhole(b);
    PlainLength(b);
    OutLengthFits(TextLength(|b|));
    WholeLength(|b|);
    RoundsUp(|b|, nBlocksSize);
    var size: nat := RoundedUp(|b|, nBlocksSize);
    SizedZeros(b, Short(|b|), size);
  }

  lemma SizedZeros(b: seq<Byte>, n: nat, size: nat)
    requires |b| <= size
    ensures Sized(b + Zeros(n), size) == b + Zeros(size - |b|)
  {
  }

  ghost predicate IsMultiple(n: nat, b: nat) { exists q: nat :: n == q * b }

  lemma RoundsUp(a: nat, b: nat)
    requires b > 0
    ensures a <= RoundedUp(a, b) < a + b && IsMultiple(RoundedUp(a, b), b)
  {
    var n: int := a;
    var q: int := -n / b;
    assert -n == q * b + -n % b;
    assert RoundedUp(a, b) == -q * b;
    assert q <= 0;
    var up: nat := -q;
    assert RoundedUp(a, b) == up * b;
  }

  lemma PlainLength(b: seq<Byte>)
    ensures |Strip(Encoded(b))| == TextLength(|b|)
  {
    hide Strip, Encoded;
    PlainAndPadding(b);
  }

  lemma WholeLength(n: nat)
    ensures (3 * TextLength(n) + 1) / 4 == n
  {
  }
}
