/** Reading and writing translation files token by token (parse.go, compose.go, main.go). */
module TranslationFile {
  import opened Wrappers
  import opened TranslationSort

  /** Tokens of the text.  The decoder hands out all but commas and colons; `Bad` is where it fails. */
  datatype Token = Open | Close | Comma | Colon | Str(s: string) | Other | Bad

  function DecoderTokens(text: seq<Token>): seq<Token> {
    if text == [] then [] else (if text[0].Comma? || text[0].Colon? then [] else [text[0]]) + DecoderTokens(text[1..])
  }

  // ---------------------------------------------------------------- parsing

  datatype TokenType = DelimStart | Key | Value

  function GetTokenType(i: nat): TokenType { if i == 0 then DelimStart else if i % 2 == 1 then Key else Value }

  /** What the loop has: the pairs so far, the one pair object it keeps reusing, and whether it panicked. */
  datatype ParseState = ParseState(pairs: seq<KeyValuePair>, curr: KeyValuePair, panicked: bool)

  function Handled(p: ParseState, tokenType: TokenType, t: Token): ParseState {
    if t.Bad? then p.(panicked := true)
    else match tokenType
    case DelimStart => p
    case Key => if t.Str? then p.(curr := KeyValuePair(t.s, p.curr.value)) else p.(panicked := true)
    case Value =>
      if t.Str? then ParseState(p.pairs + [KeyValuePair(p.curr.key, t.s)], KeyValuePair(p.curr.key, t.s), p.panicked) else p.(panicked := true)
  }

  /** dec.More(): another token follows and it does not close. */
  predicate More(rest: seq<Token>) { rest != [] && !rest[0].Close? }

  function Parsed(p: ParseState, i: nat, tokens: seq<Token>): ParseState
    decreases |tokens|
  {
    if tokens == [] || p.panicked then p
    else
      var q := Handled(p, GetTokenType(i), tokens[0]);
      if More(tokens[1..]) then Parsed(q, i + 1, tokens[1..]) else q
  }

  function Result(p: ParseState): Option<seq<KeyValuePair>> { if p.panicked then None else Some(p.pairs) }

  function Parse(tokens: seq<Token>): Option<seq<KeyValuePair>> {
    Result(Parsed(ParseState([], KeyValuePair("", ""), false), 0, tokens))
  }

  /** The pair object of GetKeyValuePairs: assigning a fresh one to the parameter of handleToken does
      not replace it. */
  class CurrPair {
    var key: string
    var value: string

    constructor ()
      ensures key == "" && value == ""
    {
      key, value := "", "";
    }
  }

  /** One token that the decoder could read. */
  method HandleToken(tokenType: TokenType, token: Token, currPair: CurrPair, pairs: seq<KeyValuePair>)
    returns (appended: seq<KeyValuePair>, panicked: bool)
    requires !token.Bad?
    modifies currPair
    ensures ParseState(appended, KeyValuePair(currPair.key, currPair.value), panicked)
      == Handled(ParseState(pairs, KeyValuePair(old(currPair.key), old(currPair.value)), false), tokenType, token)
  {
    appended, panicked := pairs, false;
    match tokenType {
      case DelimStart => return;
      case Key =>
        if !token.Str? { return pairs, true; }
        currPair.key := token.s;
      case Value =>
        if !token.Str? { return pairs, true; }
        currPair.value := token.s;
        appended := pairs + [KeyValuePair(currPair.key, currPair.value)];
    }
  }

  method GetKeyValuePairs(tokens: seq<Token>) returns (r: Option<seq<KeyValuePair>>)
    ensures r == Parse(tokens)
  {
    var pairs: seq<KeyValuePair> := [];
    var currPair := new CurrPair();
    var i: nat := 0;
    while i < |tokens|
      invariant i <= |tokens|
      invariant fresh(currPair)
      invariant Parse(tokens) == Result(Parsed(ParseState(pairs, KeyValuePair(currPair.key, currPair.value), false), i, tokens[i..]))
    {
      var t := tokens[i];
      assert tokens[i..][1..] == tokens[i + 1..];
      if t.Bad? { return None; }
      var panicked;
      pairs, panicked := HandleToken(GetTokenType(i), t, currPair, pairs);
      if panicked {
        return None;
      }
      if !More(tokens[i + 1..]) {
        return Some(pairs);
      }
      i := i + 1;
    }
    r := Some(pairs);
  }

  // ---------------------------------------------------------------- what is parsed

  /** The first `n` tokens are looked at: the first one, and the others up to the first that closes. */
  ghost predicate IsUsed(tokens: seq<Token>, n: nat) {
    && n <= |tokens| && (n == 0 <==> tokens == [])
    && (forall k :: 1 <= k < n ==> !tokens[k].Close?)
    && (n < |tokens| ==> tokens[n].Close?)
  }

  /** Strings in turn: a key, its value, the next key; the value of a last key may be missing. */
  ghost predicate ArePairsOf(pairs: seq<KeyValuePair>, strings: seq<Token>) {
    && (forall k :: 0 <= k < |strings| ==> strings[k].Str?)
    && |pairs| == |strings| / 2
    && forall j :: 0 <= j < |pairs| ==> pairs[j] == KeyValuePair(strings[2 * j].s, strings[2 * j + 1].s)
  }

  ghost predicate AllStrings(tokens: seq<Token>, n: nat)
    requires n <= |tokens|
  {
    forall k :: 0 <= k < n ==> tokens[k].Str?
  }

  lemma {:induction false} ParsedIs(p: ParseState, i: nat, tokens: seq<Token>, n: nat)
    requires !p.panicked && i % 2 == 1 && tokens != [] && IsUsed(tokens, n)
    ensures var q := Parsed(p, i, tokens);
      && (q.panicked <==> !AllStrings(tokens, n))
      && (!q.panicked ==> p.pairs <= q.pairs && ArePairsOf(q.pairs[|p.pairs|..], tokens[..n]))
    decreases |tokens|
  {
    hide Parsed;
    var q := Parsed(p, i, tokens);
    var h := Handled(p, Key, tokens[0]);
    ParsedStep(p, i, tokens);
    if !tokens[0].Str? {
      assert !AllStrings(tokens, n);
      Panics(h, i + 1, tokens[1..]);
    } else if n > 1 {
      assert tokens[1..][0] == tokens[1];
      ParsedStep(h, i + 1, tokens[1..]);
      var r := Handled(h, Value, tokens[1]);
      assert tokens[1..][1..] == tokens[2..];
      if !tokens[1].Str? {
        assert !AllStrings(tokens, n);
        Panics(r, i + 2, tokens[2..]);
      } else if n > 2 {
        ParsedIs(r, i + 2, tokens[2..], n - 2);
        TwoMore(tokens, n);
        if !q.panicked { PairsGoOn(p, q, tokens, n); }
      } else {
        assert q == r && q.pairs[|p.pairs|..] == [KeyValuePair(tokens[0].s, tokens[1].s)];
      }
    } else {
      assert q == h && q.pairs[|p.pairs|..] == [];
    }
  }

  lemma TwoMore(tokens: seq<Token>, n: nat)
    requires 2 < n <= |tokens| && tokens[0].Str? && tokens[1].Str?
    ensures AllStrings(tokens, n) <==> AllStrings(tokens[2..], n - 2)
  {
    if AllStrings(tokens[2..], n - 2) {
      forall k | 0 <= k < n ensures tokens[k].Str? {
        if k >= 2 { assert tokens[2..][k - 2] == tokens[k]; }
      }
    }
  }

  lemma PairsGoOn(p: ParseState, q: ParseState, tokens: seq<Token>, n: nat)
    requires 2 < n <= |tokens| && AllStrings(tokens, n)
    requires p.pairs + [KeyValuePair(tokens[0].s, tokens[1].s)] <= q.pairs && ArePairsOf(q.pairs[|p.pairs| + 1..], tokens[2..][..n - 2])
    ensures ArePairsOf(q.pairs[|p.pairs|..], tokens[..n])
  {
    var strings, pairs := tokens[..n], q.pairs[|p.pairs|..];
    assert pairs[0] == KeyValuePair(tokens[0].s, tokens[1].s);
    forall j | 0 <= j < |pairs| ensures pairs[j] == KeyValuePair(strings[2 * j].s, strings[2 * j + 1].s) {
      if j > 0 {
        assert pairs[j] == q.pairs[|p.pairs| + 1..][j - 1];
        assert tokens[2..][..n - 2][2 * (j - 1)] == strings[2 * j] && tokens[2..][..n - 2][2 * (j - 1) + 1] == strings[2 * j + 1];
      }
    }
  }

  lemma ParsedStep(p: ParseState, i: nat, tokens: seq<Token>)
    requires !p.panicked && tokens != []
    ensures var q := Handled(p, GetTokenType(i), tokens[0]);
      Parsed(p, i, tokens) == if More(tokens[1..]) then Parsed(q, i + 1, tokens[1..]) else q
  {
  }

  lemma Panics(p: ParseState, i: nat, tokens: seq<Token>)
    requires p.panicked
    ensures Parsed(p, i, tokens) == p
  {
  }

  /** What GetKeyValuePairs makes of any tokens, `n` of which it looks at.  It panics exactly if the decoder fails
      at the first or one of the others is no string; else it has the strings pair by pair, and drops a last key
      without a value. */
  lemma ParseMeans(tokens: seq<Token>, n: nat)
    requires IsUsed(tokens, n)
    ensures Parse(tokens).None? <==> n > 0 && (tokens[0].Bad? || !AllStrings(tokens[1..], n - 1))
    ensures Parse(tokens).Some? ==> ArePairsOf(Parse(tokens).value, if n == 0 then [] else tokens[1..n])
  {
    hide Parsed;
    var start := ParseState([], KeyValuePair("", ""), false);
    if tokens == [] {
      Nothing(start);
    } else {
      var p := Handled(start, DelimStart, tokens[0]);
      ParsedStep(start, 0, tokens);
      if n == 1 {
        assert tokens[1..1] == [];
      } else if p.panicked {
        Panics(p, 1, tokens[1..]);
      } else {
        assert tokens[1..][0] == tokens[1];
        ParsedIs(p, 1, tokens[1..], n - 1);
        assert tokens[1..][..n - 1] == tokens[1..n];
        var q := Parsed(p, 1, tokens[1..]);
        assert q.pairs[0..] == q.pairs;
      }
    }
  }

  lemma Nothing(p: ParseState)
    ensures Parsed(p, 0, []) == p
  {
  }

  // ---------------------------------------------------------------- composing

  function PairText(p: KeyValuePair): seq<Token> { [Str(p.key), Colon, Str(p.value)] }

  function BodyText(pairs: seq<KeyValuePair>): seq<Token> {
    if pairs == [] then []
    else
      var n := |pairs| - 1;
      BodyText(pairs[..n]) + (if n == 0 then [] else [Comma]) + PairText(pairs[n])
  }

  /** The written object: pairs separated by commas, none before the first or after the last. */
  function Text(pairs: seq<KeyValuePair>): seq<Token> { [Open] + BodyText(pairs) + [Close] }

  /** What may go wrong while a file is written.  The errors of the first and the last write are ignored;
      `pair` is the pair at which a write fails, and whether its line had been started. */
  datatype WriteFaults = WriteFaults(open: bool, first: bool, pair: Option<(nat, bool)>, last: bool)

  /** Where writing stops: at a failing pair, or nowhere. */
  function Stops(f: WriteFaults, n: nat): Option<(nat, bool)> { if f.pair.Some? && f.pair.value.0 < n then f.pair else None }

  function Separator(k: nat): seq<Token> { if k == 0 then [] else [Comma] }

  function Composed(pairs: seq<KeyValuePair>, f: WriteFaults): seq<Token> {
    var head: seq<Token> := if f.first then [] else [Open];
    match Stops(f, |pairs|)
    case None => head + BodyText(pairs) + (if f.last then [] else [Close])
    case Some(stop) => head + BodyText(pairs[..stop.0]) + (if stop.1 then Separator(stop.0) else [])
  }

  /** ComposeJSON as written: the file is emptied first, so a failure leaves it cut off. */
  method ComposeJSON(kvPairs: seq<KeyValuePair>, before: seq<Token>, f: WriteFaults) returns (file: seq<Token>, ok: bool)
    ensures ok <==> !f.open && !(f.pair.Some? && f.pair.value.0 < |kvPairs|)
    ensures file == if f.open then before else Composed(kvPairs, f)
  {
    if f.open { return before, false; }
    file := [];
    if !f.first { file := file + [Open]; }
    for i := 0 to |kvPairs|
      invariant file == (if f.first then [] else [Open]) + BodyText(kvPairs[..i])
      invariant f.pair.Some? ==> i <= f.pair.value.0
    {
      assert kvPairs[..i + 1][..i] == kvPairs[..i];
      var lineStart: seq<Token> := [Comma];
      if i == 0 { lineStart := []; }
      var fails := f.pair.Some? && f.pair.value.0 == i;
      if fails && !f.pair.value.1 { return file, false; }
      file := file + lineStart;
      if fails { return file, false; }
      file := file + [Str(kvPairs[i].key), Colon, Str(kvPairs[i].value)];
    }
    assert kvPairs[..|kvPairs|] == kvPairs;
    if !f.last { file := file + [Close]; }
    ok := true;
  }

  /** A reported success means the whole text exactly if the first and the last write did not fail. */
  lemma SuccessIsComplete(pairs: seq<KeyValuePair>, f: WriteFaults)
    requires Stops(f, |pairs|).None?
    ensures Composed(pairs, f) == Text(pairs) <==> !f.first && !f.last
  {
    if f.first && f.last {
      assert |Composed(pairs, f)| < |Text(pairs)|;
    } else if f.first || f.last {
      assert |Composed(pairs, f)| + 1 == |Text(pairs)|;
    }
  }

  // ---------------------------------------------------------------- the text, place by place

  /** An object of n pairs: open, key, colon, value, comma, and so on to close. */
  ghost predicate IsObject(text: seq<Token>, pairs: seq<KeyValuePair>) {
    && |text| == (if pairs == [] then 2 else 4 * |pairs| + 1)
    && text[0] == Open && text[|text| - 1] == Close
    && forall j :: 0 <= j < |pairs| ==>
      && text[4 * j + 1] == Str(pairs[j].key) && text[4 * j + 2] == Colon && text[4 * j + 3] == Str(pairs[j].value)
      && (j < |pairs| - 1 ==> text[4 * j + 4] == Comma)
  }

  /** Pair j stands from place 4 * j on, with a comma after it if another follows. */
  predicate StandsAt(text: seq<Token>, p: KeyValuePair, j: nat, another: bool)
    requires |text| >= 4 * j + (if another then 4 else 3)
  {
    text[4 * j] == Str(p.key) && text[4 * j + 1] == Colon && text[4 * j + 2] == Str(p.value) && (another ==> text[4 * j + 3] == Comma)
  }

  lemma {:induction false} BodyAt(pairs: seq<KeyValuePair>)
    ensures |BodyText(pairs)| == if pairs == [] then 0 else 4 * |pairs| - 1
    ensures forall j :: 0 <= j < |pairs| ==> StandsAt(BodyText(pairs), pairs[j], j, j < |pairs| - 1)
  {
    if pairs != [] {
      var n := |pairs| - 1;
      BodyAt(pairs[..n]);
      var b := BodyText(pairs[..n]);
      forall j | 0 <= j < |pairs| ensures StandsAt(BodyText(pairs), pairs[j], j, j < |pairs| - 1) {
        if j < n { assert StandsAt(b, pairs[..n][j], j, j < n - 1); }
      }
    }
  }

  lemma TextIsObject(pairs: seq<KeyValuePair>)
    ensures IsObject(Text(pairs), pairs)
  {
    hide BodyText;
    BodyAt(pairs);
    var b, t := BodyText(pairs), Text(pairs);
    forall j | 0 <= j < |pairs|
      ensures t[4 * j + 1] == Str(pairs[j].key) && t[4 * j + 2] == Colon && t[4 * j + 3] == Str(pairs[j].value)
      ensures j < |pairs| - 1 ==> t[4 * j + 4] == Comma
    {
      assert StandsAt(b, pairs[j], j, j < |pairs| - 1);
      assert t[4 * j + 1] == b[4 * j] && t[4 * j + 2] == b[4 * j + 1] && t[4 * j + 3] == b[4 * j + 2];
      if j < |pairs| - 1 { assert t[4 * j + 4] == b[4 * j + 3]; }
    }
  }

  lemma {:induction false} BodyPrefix(pairs: seq<KeyValuePair>, k: nat)
    requires k < |pairs|
    ensures BodyText(pairs[..k]) + (if k == 0 then [] else [Comma]) <= BodyText(pairs)
    decreases |pairs|
  {
    hide PairText;
    var n := |pairs| - 1;
    if k < n {
      BodyPrefix(pairs[..n], k);
      assert pairs[..n][..k] == pairs[..k];
    }
  }

  /** What a file holds after a write that fails: the text up to that write, without the opening if that was
      lost.  A failing write at pair k leaves k whole pairs, and the comma after them if the line was started. */
  lemma ComposedIsCut(pairs: seq<KeyValuePair>, f: WriteFaults)
    ensures var written := (if f.first then [Open] else []) + Composed(pairs, f); var text := Text(pairs);
      if f.pair.Some? && f.pair.value.0 < |pairs| then
        var k := f.pair.value.0;
        var size := if k == 0 then 1 else 4 * k + (if f.pair.value.1 then 1 else 0);
        size <= |text| && written == text[..size]
      else written == if f.last then text[..|text| - 1] else text
  {
    hide BodyText;
    if f.pair.Some? && f.pair.value.0 < |pairs| {
      var k := f.pair.value.0;
      BodyAt(pairs);
      BodyAt(pairs[..k]);
      BodyPrefix(pairs, k);
      var b := BodyText(pairs[..k]);
      hide StandsAt;
      assert b <= BodyText(pairs);
      assert [Open] + b + (if k == 0 then [] else [Comma]) <= Text(pairs);
      assert [Open] + b <= Text(pairs);
      assert (if f.first then [Open] else []) + Composed(pairs, f) == [Open] + b + (if f.pair.value.1 && k > 0 then [Comma] else []);
    } else {
      assert (if f.first then [Open] else []) + Composed(pairs, f) == [Open] + BodyText(pairs) + (if f.last then [] else [Close]);
    }
  }

  // ---------------------------------------------------------------- round trip

  function Flat(pairs: seq<KeyValuePair>): seq<Token> {
    if pairs == [] then [] else [Str(pairs[0].key), Str(pairs[0].value)] + Flat(pairs[1..])
  }

  lemma DecoderStep(t: Token, rest: seq<Token>)
    ensures DecoderTokens([t] + rest) == (if t.Comma? || t.Colon? then [] else [t]) + DecoderTokens(rest)
  {
    assert ([t] + rest)[1..] == rest;
  }

  lemma DecoderOne(t: Token)
    ensures DecoderTokens([t]) == if t.Comma? || t.Colon? then [] else [t]
    ensures DecoderTokens([]) == []
  {
    assert [t][1..] == [];
  }

  lemma {:induction false} DecoderAppend(a: seq<Token>, b: seq<Token>)
    ensures DecoderTokens(a + b) == DecoderTokens(a) + DecoderTokens(b)
  {
    hide DecoderTokens;
    if a == [] {
      DecoderOne(Open);
      assert a + b == b;
    } else {
      DecoderAppend(a[1..], b);
      DecoderStep(a[0], a[1..]);
      DecoderStep(a[0], a[1..] + b);
      assert a == [a[0]] + a[1..];
      assert a + b == [a[0]] + (a[1..] + b);
    }
  }

  lemma {:induction false} FlatAppend(a: seq<KeyValuePair>, p: KeyValuePair)
    ensures Flat(a + [p]) == Flat(a) + [Str(p.key), Str(p.value)]
  {
    if a == [] {
      assert [p][1..] == [];
    } else {
      FlatAppend(a[1..], p);
      assert (a + [p])[1..] == a[1..] + [p];
    }
  }

  lemma PairTokens(p: KeyValuePair)
    ensures DecoderTokens(PairText(p)) == [Str(p.key), Str(p.value)]
  {
    hide DecoderTokens;
    DecoderOne(Str(p.key));
    DecoderOne(Colon);
    DecoderOne(Str(p.value));
    DecoderAppend([Str(p.key)], [Colon]);
    DecoderAppend([Str(p.key), Colon], [Str(p.value)]);
    assert [Str(p.key)] + [Colon] == [Str(p.key), Colon];
    assert PairText(p) == [Str(p.key), Colon] + [Str(p.value)];
  }

  lemma {:induction false} BodyTokens(pairs: seq<KeyValuePair>)
    ensures DecoderTokens(BodyText(pairs)) == Flat(pairs)
  {
    hide DecoderTokens;
    DecoderOne(Comma);
    if pairs != [] {
      var n := |pairs| - 1;
      BodyTokens(pairs[..n]);
      var separator: seq<Token> := if n == 0 then [] else [Comma];
      DecoderAppend(BodyText(pairs[..n]) + separator, PairText(pairs[n]));
      DecoderAppend(BodyText(pairs[..n]), separator);
      PairTokens(pairs[n]);
      FlatAppend(pairs[..n], pairs[n]);
      assert pairs == pairs[..n] + [pairs[n]];
    }
  }

  /** One pair read, whatever the reused pair object still holds. */
  lemma ParsesOnePair(p: ParseState, i: nat, k: string, v: string, rest: seq<Token>)
    requires !p.panicked && i % 2 == 1 && rest != []
    ensures var r := ParseState(p.pairs + [KeyValuePair(k, v)], KeyValuePair(k, v), false);
      Parsed(p, i, [Str(k), Str(v)] + rest) == if rest[0].Close? then r else Parsed(r, i + 2, rest)
  {
    var ts := [Str(k), Str(v)] + rest;
    assert ts[1..] == [Str(v)] + rest && ts[1..][1..] == rest;
    var q := Handled(p, Key, Str(k));
    assert Parsed(p, i, ts) == Parsed(q, i + 1, ts[1..]);
    assert GetTokenType(i + 1) == Value;
  }

  lemma {:induction false} ParsesPairs(p: ParseState, i: nat, pairs: seq<KeyValuePair>)
    requires pairs != [] && !p.panicked && i % 2 == 1
    ensures Result(Parsed(p, i, Flat(pairs) + [Close])) == Some(p.pairs + pairs)
    decreases |pairs|
  {
    hide Parsed;
    var rest := Flat(pairs[1..]) + [Close];
    var r := ParseState(p.pairs + [pairs[0]], pairs[0], false);
    assert Flat(pairs) + [Close] == [Str(pairs[0].key), Str(pairs[0].value)] + rest;
    ParsesOnePair(p, i, pairs[0].key, pairs[0].value, rest);
    if |pairs| == 1 {
      assert p.pairs + [pairs[0]] == p.pairs + pairs;
    } else {
      assert rest[0] == Str(pairs[1].key);
      ParsesPairs(r, i + 2, pairs[1..]);
      assert p.pairs + [pairs[0]] + pairs[1..] == p.pairs + pairs;
    }
  }

  /** Reading back what was written gives the same pairs, for every list and so for the empty one. */
  lemma ParseOfText(pairs: seq<KeyValuePair>)
    ensures Parse(DecoderTokens(Text(pairs))) == Some(pairs)
  {
    hide DecoderTokens;
    DecoderOne(Open);
    DecoderOne(Close);
    DecoderAppend([Open] + BodyText(pairs), [Close]);
    DecoderAppend([Open], BodyText(pairs));
    BodyTokens(pairs);
    var start := ParseState([], KeyValuePair("", ""), false);
    var ts := [Open] + Flat(pairs) + [Close];
    assert ts[1..] == Flat(pairs) + [Close];
    if pairs == [] {
      assert ts[1..] == [Close];
    } else {
      assert ts[1] == Str(pairs[0].key);
      assert Parsed(start, 0, ts) == Parsed(start, 1, ts[1..]);
      ParsesPairs(start, 1, pairs);
      assert [] + pairs == pairs;
    }
  }

  /** `output` is the text of the stable sort of the pairs in `input`. */
  ghost predicate IsSortedFile(input: seq<Token>, output: seq<Token>) {
    Parse(DecoderTokens(input)).Some? && exists sorted :: IsStableSort(Parse(DecoderTokens(input)).value, sorted) && output == Text(sorted)
  }

  datatype Ending = Panicked | Failed | Finished

  /** doMain on one file. */
  method SortFile(text: seq<Token>, readError: bool, f: WriteFaults) returns (file: seq<Token>, r: Ending)
    ensures r.Panicked? <==> !readError && Parse(DecoderTokens(text)).None?
    ensures r.Panicked? || readError || f.open ==> file == text
    ensures r.Finished? ==> !readError && !f.open
    ensures r.Finished? && !f.first && !f.last ==> IsSortedFile(text, file)
    ensures !readError && f == WriteFaults(false, false, None, false) ==> !r.Failed?
  {
    if readError { return text, Failed; }
    var pairs := GetKeyValuePairs(DecoderTokens(text));
    if pairs.None? { return text, Panicked; }
    var sorted := SortKeyValuePairs(pairs.value);
    var ok;
    file, ok := ComposeJSON(sorted, text, f);
    if !ok { return file, Failed; }
    SuccessIsComplete(sorted, f);
    r := Finished;
  }

  /** doMain: the files in turn, up to the first that fails or panics; those after it stay as they are. */
  method DoMain(files: seq<seq<Token>>, readErrors: seq<bool>, faults: seq<WriteFaults>) returns (written: seq<seq<Token>>, r: Ending, n: nat)
    requires |readErrors| == |files| == |faults|
    ensures |written| == |files| && n <= |files|
    ensures r.Finished? <==> n == |files|
    ensures forall k :: 0 <= k < n && !faults[k].first && !faults[k].last ==> IsSortedFile(files[k], written[k])
    ensures forall k :: n < k < |files| ==> written[k] == files[k]
    ensures r.Panicked? ==> Parse(DecoderTokens(files[n])).None? && written == written[..n] + files[n..]
  {
    hide Parse, DecoderTokens, IsSortedFile;
    written := files;
    n := 0;
    r := Finished;
    while n < |files|
      invariant n <= |files| == |written|
      invariant forall k :: 0 <= k < n && !faults[k].first && !faults[k].last ==> IsSortedFile(files[k], written[k])
      invariant written[n..] == files[n..]
    {
      assert forall k :: n <= k < |files| ==> written[k] == written[n..][k - n] == files[n..][k - n] == files[k];
      var file;
      file, r := SortFile(files[n], readErrors[n], faults[n]);
      ghost var before := written;
      written := written[n := file];
      assert written[n + 1..] == before[n + 1..];
      if !r.Finished? { return; }
      n := n + 1;
    }
    r := Finished;
  }

  /** Sorting a file that was sorted leaves it as it is. */
  lemma SortFileIsIdempotent(input: seq<Token>, once: seq<Token>, twice: seq<Token>)
    requires IsSortedFile(input, once) && IsSortedFile(once, twice)
    ensures once == twice
  {
    hide IsStableSort, Text, DecoderTokens, Parse;
    var a :| IsStableSort(Parse(DecoderTokens(input)).value, a) && once == Text(a);
    ParseOfText(a);
    var b :| IsStableSort(Parse(DecoderTokens(once)).value, b) && twice == Text(b);
    SortIsIdempotent(Parse(DecoderTokens(input)).value, a, b);
  }
}
