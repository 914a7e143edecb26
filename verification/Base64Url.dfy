/** The URL-safe form in which passkey data travels (base64url.ts, passkey.ts; RFC 4648, section 5). */
module Base64Url {
  import opened Wrappers
  import opened Base64
  import opened Base64Decoding

  /** replace(/c/g, d) for one character, with any replacement. */
  function ReplaceAll(s: string, c: char, with: string): string {
    if s == "" then "" else (if s[0] == c then with else [s[0]]) + ReplaceAll(s[1..], c, with)
  }

  function Repeat(s: string, count: nat): string { if count == 0 then "" else s + Repeat(s, count - 1) }

  function Base64URLToBase64(base64url: string): string {
    var base64 := ReplaceAll(ReplaceAll(base64url, '-', "+"), '_', "/");
    if |base64| % 4 != 0 then base64 + Repeat("=", 4 - |base64| % 4) else base64
  }

  function Base64ToBase64URL(base64: string): string {
    ReplaceAll(ReplaceAll(ReplaceAll(base64, '+', "-"), '/', "_"), '=', "")
  }

  function TrimNewline(str: string): string { ReplaceAll(ReplaceAll(str, '\r', ""), '\n', "") }

  /** What serialize* sends for a byte array. */
  function Transport(b: seq<Byte>): string { TrimNewline(Base64ToBase64URL(Lines(Encoded(b)))) }

  /** RFC 4648, section 5. */
  predicate IsURLAlphabet(c: char) { 'A' <= c <= 'Z' || 'a' <= c <= 'z' || '0' <= c <= '9' || c == '-' || c == '_' }

  // ---------------------------------------------------------------- the replacements together

  function SafeChar(c: char): char { if c == '+' then '-' else if c == '/' then '_' else c }

  /** The alphabet characters of a text, made URL-safe. */
  function Safe(t: string): (u: string)
    ensures |u| == |t|
    ensures forall k :: 0 <= k < |t| ==> u[k] == SafeChar(t[k])
  {
    seq(|t|, k requires 0 <= k < |t| => SafeChar(t[k]))
  }

  predicate IsTextChar(c: char) { IsAlphabet(c) || c == '=' || c == '\r' || c == '\n' }

  lemma ReplaceOne(x: char, c: char, with: string)
    ensures ReplaceAll([x], c, with) == if x == c then with else [x]
    ensures ReplaceAll("", c, with) == ""
  {
    assert [x][1..] == "";
  }

  lemma ReplaceStep(x: char, rest: string, c: char, with: string)
    ensures ReplaceAll([x] + rest, c, with) == (if x == c then with else [x]) + ReplaceAll(rest, c, with)
  {
    assert ([x] + rest)[1..] == rest;
  }

  lemma {:induction false} ReplaceAppend(a: string, b: string, c: char, with: string)
    ensures ReplaceAll(a + b, c, with) == ReplaceAll(a, c, with) + ReplaceAll(b, c, with)
  {
    hide ReplaceAll;
    if a == "" {
      ReplaceOne(c, c, with);
      assert a + b == b;
    } else {
      ReplaceAppend(a[1..], b, c, with);
      ReplaceStep(a[0], a[1..], c, with);
      ReplaceStep(a[0], a[1..] + b, c, with);
      assert a == [a[0]] + a[1..];
      assert a + b == [a[0]] + (a[1..] + b);
    }
  }

  function Sent(s: string): string { TrimNewline(Base64ToBase64URL(s)) }

  lemma SentOne(x: char)
    ensures Sent([x]) == if x in {'=', '\r', '\n'} then "" else [SafeChar(x)]
  {
    hide ReplaceAll;
    ReplaceOne(x, '+', "-");
    var y := if x == '+' then '-' else x;
    ReplaceOne(y, '/', "_");
    var z := SafeChar(x);
    ReplaceOne(z, '=', "");
    ReplaceOne(z, '\r', "");
    ReplaceOne(z, '\n', "");
  }

  lemma SentAppend(a: string, b: string)
    ensures Sent(a + b) == Sent(a) + Sent(b)
  {
    hide ReplaceAll;
    ReplaceAppend(a, b, '+', "-");
    var a1, b1 := ReplaceAll(a, '+', "-"), ReplaceAll(b, '+', "-");
    ReplaceAppend(a1, b1, '/', "_");
    var a2, b2 := ReplaceAll(a1, '/', "_"), ReplaceAll(b1, '/', "_");
    ReplaceAppend(a2, b2, '=', "");
    var a3, b3 := ReplaceAll(a2, '=', ""), ReplaceAll(b2, '=', "");
    ReplaceAppend(a3, b3, '\r', "");
    ReplaceAppend(ReplaceAll(a3, '\r', ""), ReplaceAll(b3, '\r', ""), '\n', "");
  }

  /** Of an encoded text exactly the alphabet characters travel. */
  lemma {:induction false} SentIsSafe(s: string)
    requires forall k :: 0 <= k < |s| ==> IsTextChar(s[k])
    ensures Sent(s) == Safe(Strip(s))
  {
    hide Sent;
    if s == "" {
      assert Sent("") == "" by { SentNothing(); }
    } else {
      SentIsSafe(s[1..]);
      SentOne(s[0]);
      SentAppend([s[0]], s[1..]);
      assert s == [s[0]] + s[1..];
    }
  }

  lemma SentNothing()
    ensures Sent("") == ""
  {
  }

  // ---------------------------------------------------------------- which characters occur

  predicate IsText(s: string) { forall k :: 0 <= k < |s| ==> IsTextChar(s[k]) }

  lemma EncodedIsText(b: seq<Byte>)
    ensures IsText(Encoded(b))
  {
    hide Strip, Encoded;
    PlainAndPadding(b);
    var t, p := Strip(Encoded(b)), Padding(|b|);
    assert IsText(t) && IsText(p);
    assert forall k :: 0 <= k < |t + p| ==> (t + p)[k] == if k < |t| then t[k] else p[k - |t|];
  }

  lemma {:induction false} LinesIsText(s: string)
    requires IsText(s)
    ensures IsText(Lines(s))
    decreases |s|
  {
    hide IsTextChar;
    if |s| > 76 {
      LinesIsText(s[76..]);
      BreakIsText();
      var l := Lines(s[76..]);
      assert forall k :: 0 <= k < |Lines(s)| ==> Lines(s)[k] == if k < 76 then s[k] else if k < 78 then CRLF[k - 76] else l[k - 78];
    }
  }

  lemma BreakIsText()
    ensures |CRLF| == 2 && IsTextChar(CRLF[0]) && IsTextChar(CRLF[1])
  {
  }

  /** The transported text uses only the URL-safe alphabet and is ceil(4n / 3) characters long. */
  lemma TransportIsURLSafe(b: seq<Byte>)
    ensures Transport(b) == Safe(Strip(Encoded(b)))
    ensures |Transport(b)| == TextLength(|b|)
    ensures forall k :: 0 <= k < |Transport(b)| ==> IsURLAlphabet(Transport(b)[k])
  {
    hide Strip, Lines, Encoded, Sent;
    EncodedIsText(b);
    LinesIsText(Encoded(b));
    SentIsSafe(Lines(Encoded(b)));
    assert Transport(b) == Sent(Lines(Encoded(b))) by { TransportIsSent(b); }
    StripLines(Encoded(b));
    PlainAndPadding(b);
  }

  lemma TransportIsSent(b: seq<Byte>)
    ensures Transport(b) == Sent(Lines(Encoded(b)))
  {
  }

  // ---------------------------------------------------------------- the way back

  lemma {:induction false} SafeBack(t: string)
    requires Clean(t)
    ensures ReplaceAll(ReplaceAll(Safe(t), '-', "+"), '_', "/") == t
  {
    hide ReplaceAll, Safe;
    if t == "" {
      assert Safe(t) == "";
      ReplaceOne('x', '-', "+");
      ReplaceOne('x', '_', "/");
    } else {
      SafeBack(t[1..]);
      var c := SafeChar(t[0]);
      var rest := Safe(t[1..]);
      assert Safe(t) == [c] + rest;
      ReplaceStep(c, rest, '-', "+");
      var c1 := if c == '-' then '+' else c;
      ReplaceStep(c1, ReplaceAll(rest, '-', "+"), '_', "/");
      assert t == [t[0]] + t[1..];
    }
  }

  lemma PaddingCount(n: nat)
    ensures Padding(n) == if TextLength(n) % 4 != 0 then Repeat("=", 4 - TextLength(n) % 4) else ""
  {
    var q := n / 3;
    assert n == 3 * q + n % 3;
    assert TextLength(n) == 4 * q + (if n % 3 == 0 then 0 else n % 3 + 1);
    assert Repeat("=", 1) == "=" && Repeat("=", 2) == "==";
  }

  /** base64URLToBase64 restores the alphabet and the padding: the RFC 4648 section 4 text in one line. */
  lemma TransportRestored(b: seq<Byte>)
    ensures Base64URLToBase64(Transport(b)) == Encoded(b)
  {
    hide Strip, Encoded, Transport, Repeat, ReplaceAll, Padding, TextLength;
    TransportIsURLSafe(b);
    SafeBack(Strip(Encoded(b)));
    PaddingCount(|b|);
    PlainAndPadding(b);
    assert |Strip(Encoded(b))| == TextLength(|b|) by { TransportIsURLSafe(b); }
  }

  /** The whole passkey pipeline, with the limit of the decoder. */
  lemma PasskeyRoundTrip(b: seq<Byte>)
    ensures DecodeResult(Base64URLToBase64(Transport(b)), 0) == Some(b) <==> 3 * TextLength(|b|) + 1 < 0x8000_0000
  {
    hide Strip, Lines, Encoded, Whole, Transport, OutLength;
    TransportRestored(b);
    StripLines(Encoded(b));
    RoundTrip(b);
  }
}
