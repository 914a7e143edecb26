/** The translation sorter (devtools/translationsorter): parse, stable sort, compose. */
module TranslationSort {
  import opened Wrappers
  import opened StringOrder

  datatype KeyValuePair = KeyValuePair(key: string, value: string)

  // ---------------------------------------------------------------- the comparator

  predicate IsV2Key(key: string) { "v2" <= key }

  lemma V2KeyMeans(key: string)
    ensures IsV2Key(key) <==> |key| >= 2 && key[0] == 'v' && key[1] == '2'
  {
    if IsV2Key(key) { assert key[0] == "v2"[0] && key[1] == "v2"[1]; }
  }

  predicate CmpKey(a: string, b: string) {
    if IsV2Key(a) && !IsV2Key(b) then false
    else if !IsV2Key(a) && IsV2Key(b) then true
    else if !IsV2Key(a) && !IsV2Key(b) then false
    else Less(a, b)
  }

  /** Neither goes before the other: equal v2 keys, or any two other keys. */
  predicate Tied(a: string, b: string) { !CmpKey(a, b) && !CmpKey(b, a) }

  lemma TiedMeans(a: string, b: string)
    ensures Tied(a, b) <==> (a == b || (!IsV2Key(a) && !IsV2Key(b)))
  {
    Total(a, b);
    Irreflexive(a);
  }

  /** A strict weak order: irreflexive, transitive, and being tied is transitive. */
  lemma CmpKeyIsStrictWeakOrder(a: string, b: string, c: string)
    ensures !CmpKey(a, a)
    ensures CmpKey(a, b) && CmpKey(b, c) ==> CmpKey(a, c)
    ensures Tied(a, b) && Tied(b, c) ==> Tied(a, c)
    ensures CmpKey(a, b) && Tied(b, c) ==> CmpKey(a, c)
    ensures Tied(a, b) && CmpKey(b, c) ==> CmpKey(a, c)
  {
    hide IsV2Key, Less;
    Irreflexive(a);
    TiedMeans(a, b);
    TiedMeans(b, c);
    TiedMeans(a, c);
    if Less(a, b) && Less(b, c) { Transitive(a, b, c); }
  }

  // ---------------------------------------------------------------- stable sorting

  ghost predicate Sorted(s: seq<KeyValuePair>) {
    forall i, j :: 0 <= i < j < |s| ==> !CmpKey(s[j].key, s[i].key)
  }

  /** The pairs tied with a key, in order. */
  function TiedWith(s: seq<KeyValuePair>, key: string): seq<KeyValuePair> {
    if s == [] then [] else (if Tied(s[0].key, key) then [s[0]] else []) + TiedWith(s[1..], key)
  }

  /** Sorted, and tied pairs keep their order; nothing is lost or added. */
  ghost predicate IsStableSort(input: seq<KeyValuePair>, output: seq<KeyValuePair>) {
    Sorted(output) && forall key :: TiedWith(output, key) == TiedWith(input, key)
  }

  lemma TiedWithNothing(key: string)
    ensures TiedWith([], key) == []
  {
  }

  lemma TiedWithStep(x: KeyValuePair, rest: seq<KeyValuePair>, key: string)
    ensures TiedWith([x] + rest, key) == (if Tied(x.key, key) then [x] else []) + TiedWith(rest, key)
  {
    hide Tied;
    assert ([x] + rest)[1..] == rest;
  }

  lemma {:induction false} TiedWithAppend(a: seq<KeyValuePair>, b: seq<KeyValuePair>, key: string)
    ensures TiedWith(a + b, key) == TiedWith(a, key) + TiedWith(b, key)
  {
    hide Tied, TiedWith;
    if a == [] {
      TiedWithNothing(key);
      assert a + b == b;
    } else {
      TiedWithAppend(a[1..], b, key);
      TiedWithStep(a[0], a[1..], key);
      TiedWithStep(a[0], a[1..] + b, key);
      assert a == [a[0]] + a[1..];
      assert a + b == [a[0]] + (a[1..] + b);
    }
  }

  lemma {:induction false} TiedWithFinds(s: seq<KeyValuePair>, key: string)
    ensures TiedWith(s, key) != [] <==> exists k :: 0 <= k < |s| && Tied(s[k].key, key)
  {
    hide Tied;
    if s != [] {
      TiedWithFinds(s[1..], key);
      if Tied(s[0].key, key) { assert Tied(s[0].key, key); }
      if TiedWith(s[1..], key) != [] {
        var k :| 0 <= k < |s[1..]| && Tied(s[1..][k].key, key);
        assert Tied(s[k + 1].key, key);
      }
      if exists k :: 0 <= k < |s| && Tied(s[k].key, key) {
        var k :| 0 <= k < |s| && Tied(s[k].key, key);
        if k > 0 { assert Tied(s[1..][k - 1].key, key); }
      }
    }
  }

  /** The first of a sorted list is not after anything in it. */
  lemma FirstIsLeast(a: seq<KeyValuePair>, key: string)
    requires Sorted(a) && a != [] && TiedWith(a, key) != []
    ensures !CmpKey(key, a[0].key)
  {
    hide Tied, CmpKey;
    TiedWithFinds(a, key);
    var k :| 0 <= k < |a| && Tied(a[k].key, key);
    CmpKeyIsStrictWeakOrder(a[0].key, a[0].key, key);
    TiedBelow(a[k].key, key, a[0].key);
  }

  lemma TiedBelow(x: string, key: string, first: string)
    requires Tied(x, key) && !CmpKey(x, first)
    ensures !CmpKey(key, first)
  {
    CmpKeyIsStrictWeakOrder(x, key, first);
  }

  /** A list has one stable sort. */
  lemma {:induction false} StableSortIsUnique(a: seq<KeyValuePair>, b: seq<KeyValuePair>)
    requires Sorted(a) && Sorted(b) && forall key :: TiedWith(a, key) == TiedWith(b, key)
    ensures a == b
  {
    hide CmpKey, Tied;
    if a == [] || b == [] {
      if a != [] { SelfTied(a); }
      if b != [] { SelfTied(b); }
    } else {
      SelfTied(a);
      SelfTied(b);
      FirstIsLeast(b, a[0].key);
      FirstIsLeast(a, b[0].key);
      FirstOf(a, a[0].key);
      FirstOf(b, a[0].key) by { assert Tied(b[0].key, a[0].key) by { BothNot(b[0].key, a[0].key); } }
      assert a[0] == b[0];
      forall key ensures TiedWith(a[1..], key) == TiedWith(b[1..], key) {
        var p := if Tied(a[0].key, key) then [a[0]] else [];
        assert TiedWith(a, key) == p + TiedWith(a[1..], key) && TiedWith(b, key) == p + TiedWith(b[1..], key);
        assert TiedWith(a[1..], key) == TiedWith(a, key)[|p|..] && TiedWith(b[1..], key) == TiedWith(b, key)[|p|..];
      }
      assert Sorted(a[1..]) && Sorted(b[1..]);
      StableSortIsUnique(a[1..], b[1..]);
      assert a == [a[0]] + a[1..] && b == [b[0]] + b[1..];
    }
  }

  lemma SelfTied(a: seq<KeyValuePair>)
    requires a != []
    ensures TiedWith(a, a[0].key) != [] && Tied(a[0].key, a[0].key)
  {
    Irreflexive(a[0].key);
  }

  lemma FirstOf(a: seq<KeyValuePair>, key: string)
    requires a != [] && Tied(a[0].key, key)
    ensures TiedWith(a, key) != [] && TiedWith(a, key)[0] == a[0]
  {
    hide Tied;
  }

  lemma BothNot(a: string, b: string)
    requires !CmpKey(a, b) && !CmpKey(b, a)
    ensures Tied(a, b)
  {
  }

  // ---------------------------------------------------------------- the sort

  /** sort.SliceStable on a copy, as a stable insertion sort in place. */
  method SortKeyValuePairs(kvPairs: seq<KeyValuePair>) returns (sorted: seq<KeyValuePair>)
    ensures IsStableSort(kvPairs, sorted)
  {
    hide CmpKey, Sorted, TiedWith;
    var out := new KeyValuePair[|kvPairs|](i requires 0 <= i < |kvPairs| => kvPairs[i]);
    assert out[..] == kvPairs;
    NothingToSort();
    for i := 0 to out.Length
      invariant Sorted(out[..i])
      invariant forall key :: TiedWith(out[..], key) == TiedWith(kvPairs, key)
    {
      Insert(out, i);
    }
    assert out[..out.Length] == out[..];
    sorted := out[..];
  }

  lemma NothingToSort()
    ensures Sorted([])
  {
  }

  /** The inner loop: element i moves down past everything it goes before. */
  method Insert(out: array<KeyValuePair>, i: nat)
    requires i < out.Length && Sorted(out[..i])
    modifies out
    ensures Sorted(out[..i + 1])
    ensures forall key :: TiedWith(out[..], key) == TiedWith(old(out[..]), key)
  {
    hide CmpKey, Sorted, TiedWith;
    var j := i;
    assert out[..i] + out[i + 1..i + 1] == out[..i];
    while j > 0 && CmpKey(out[j].key, out[j - 1].key)
      invariant 0 <= j <= i
      invariant Sorted(out[..j] + out[j + 1..i + 1])
      invariant forall k :: j < k <= i ==> CmpKey(out[j].key, out[k].key)
      invariant forall key :: TiedWith(out[..], key) == TiedWith(old(out[..]), key)
    {
      ghost var before := out[..];
      out[j], out[j - 1] := out[j - 1], out[j];
      SwapKeepsTies(before, j, out[..]);
      assert out[..j - 1] + out[j..i + 1] == before[..j] + before[j + 1..i + 1] by {
        assert before[..j] == before[..j - 1] + [before[j - 1]];
        assert out[j..i + 1] == [out[j]] + before[j + 1..i + 1];
      }
      j := j - 1;
    }
    assert out[..i + 1][..j] + out[..i + 1][j + 1..] == out[..j] + out[j + 1..i + 1];
    InsertedIsSorted(out[..i + 1], j);
  }

  /** Swapping two neighbours that are not tied leaves every class of ties in order. */
  lemma SwapKeepsTies(s: seq<KeyValuePair>, j: nat, t: seq<KeyValuePair>)
    requires 0 < j < |s| && CmpKey(s[j].key, s[j - 1].key) && t == s[j := s[j - 1]][j - 1 := s[j]]
    ensures forall key :: TiedWith(t, key) == TiedWith(s, key)
  {
    hide CmpKey, Tied;
    var front, back := s[..j - 1], s[j + 1..];
    var x, y := s[j - 1], s[j];
    assert s == front + ([x, y] + back) && t == front + ([y, x] + back);
    forall key ensures TiedWith(t, key) == TiedWith(s, key) {
      TiedWithAppend(front, [x, y] + back, key);
      TiedWithAppend(front, [y, x] + back, key);
      TiedWithAppend([x, y], back, key);
      TiedWithAppend([y, x], back, key);
      TwoTies(x, y, key);
    }
  }

  lemma TwoTies(x: KeyValuePair, y: KeyValuePair, key: string)
    requires CmpKey(y.key, x.key)
    ensures TiedWith([x, y], key) == TiedWith([y, x], key)
  {
    CmpKeyIsStrictWeakOrder(y.key, key, x.key);
    TiedSwap(x.key, key);
    assert !(Tied(x.key, key) && Tied(y.key, key));
    hide CmpKey, Tied;
    assert [x, y][1..] == [y] && [y, x][1..] == [x] && [x][1..] == [] && [y][1..] == [];
  }

  lemma TiedSwap(a: string, b: string)
    ensures Tied(a, b) <==> Tied(b, a)
  {
  }

  lemma InsertedIsSorted(s: seq<KeyValuePair>, j: nat)
    requires j < |s| && Sorted(s[..j] + s[j + 1..])
    requires forall k :: j < k < |s| ==> CmpKey(s[j].key, s[k].key)
    requires j > 0 ==> !CmpKey(s[j].key, s[j - 1].key)
    ensures Sorted(s)
  {
    hide CmpKey, Tied;
    var rest := s[..j] + s[j + 1..];
    assert forall i :: 0 <= i < j ==> rest[i] == s[i];
    assert forall k :: j < k < |s| ==> rest[k - 1] == s[k];
    forall a, b | 0 <= a < b < |s| ensures !CmpKey(s[b].key, s[a].key) {
      if a == j {
        Asymmetric(s[j].key, s[b].key);
      } else if b == j {
        if a < j - 1 {
          assert !CmpKey(rest[j - 1].key, rest[a].key);
          NotBefore(s[a].key, s[j - 1].key, s[j].key);
        }
      } else {
        var a1, b1 := if a < j then a else a - 1, if b < j then b else b - 1;
        assert !CmpKey(rest[b1].key, rest[a1].key);
      }
    }
  }

  lemma Asymmetric(a: string, b: string)
    requires CmpKey(a, b)
    ensures !CmpKey(b, a)
  {
    CmpKeyIsStrictWeakOrder(a, b, a);
  }

  lemma NotBefore(a: string, b: string, c: string)
    requires !CmpKey(b, a) && !CmpKey(c, b)
    ensures !CmpKey(c, a)
  {
    CmpKeyIsStrictWeakOrder(c, a, b);
    CmpKeyIsStrictWeakOrder(b, c, a);
  }

  // ---------------------------------------------------------------- what the sorted file looks like

  function Others(s: seq<KeyValuePair>): seq<KeyValuePair> {
    if s == [] then [] else (if IsV2Key(s[0].key) then [] else [s[0]]) + Others(s[1..])
  }

  lemma {:induction false} OthersAreTies(s: seq<KeyValuePair>)
    ensures Others(s) == TiedWith(s, "")
  {
    if s != [] {
      TiedMeans(s[0].key, "");
      hide Tied, CmpKey;
      OthersAreTies(s[1..]);
    }
  }

  /** The first part has no v2 key, and then only v2 keys come. */
  lemma {:induction false} OthersComeFirst(s: seq<KeyValuePair>)
    requires Sorted(s)
    ensures |Others(s)| <= |s| && s[..|Others(s)|] == Others(s)
    ensures forall k :: |Others(s)| <= k < |s| ==> IsV2Key(s[k].key)
  {
    if s != [] {
      assert Sorted(s[1..]);
      OthersComeFirst(s[1..]);
      if IsV2Key(s[0].key) {
        forall k | 0 <= k < |s| ensures IsV2Key(s[k].key) { if k > 0 { assert !CmpKey(s[k].key, s[0].key); } }
        OnlyV2(s);
      } else {
        assert s[..|Others(s)|] == [s[0]] + s[1..][..|Others(s[1..])|];
        forall k | |Others(s)| <= k < |s| ensures IsV2Key(s[k].key) { assert s[k] == s[1..][k - 1]; }
      }
    }
  }

  lemma {:induction false} OnlyV2(s: seq<KeyValuePair>)
    requires forall k :: 0 <= k < |s| ==> IsV2Key(s[k].key)
    ensures Others(s) == []
  {
    if s != [] { OnlyV2(s[1..]); }
  }

  /** Any stable sort of a file: the pairs without a v2 key in their original order, then the v2 pairs
      ascending by key; and it is the only one. */
  lemma SortedFile(input: seq<KeyValuePair>, output: seq<KeyValuePair>)
    requires IsStableSort(input, output)
    ensures var n := |Others(input)|;
      && n <= |output| && output[..n] == Others(input)
      && (forall k :: n <= k < |output| ==> IsV2Key(output[k].key))
      && (forall j, k :: n <= j < k < |output| ==> !Less(output[k].key, output[j].key))
    ensures forall other :: IsStableSort(input, other) ==> other == output
  {
    OthersAreTies(input);
    OthersAreTies(output);
    assert TiedWith(output, "") == TiedWith(input, "");
    OthersComeFirst(output);
    forall j, k | |Others(input)| <= j < k < |output| ensures !Less(output[k].key, output[j].key) {
      assert !CmpKey(output[k].key, output[j].key);
    }
    forall other | IsStableSort(input, other) ensures other == output {
      forall key ensures TiedWith(other, key) == TiedWith(output, key) {
        assert TiedWith(other, key) == TiedWith(input, key) && TiedWith(output, key) == TiedWith(input, key);
      }
      StableSortIsUnique(other, output);
    }
  }

  /** Sorting a sorted file changes nothing. */
  lemma SortIsIdempotent(input: seq<KeyValuePair>, once: seq<KeyValuePair>, twice: seq<KeyValuePair>)
    requires IsStableSort(input, once) && IsStableSort(once, twice)
    ensures once == twice
  {
    hide Sorted, TiedWith;
    StableSortIsUnique(once, twice);
  }
}
