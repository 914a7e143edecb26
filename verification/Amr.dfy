/** The authentication method references of a workflow (pkg/latte/amr.go). */
module Amr {
  import opened StringOrder

  const MFA := "mfa"

  /** How many sub-workflows report at least one method. */
  function AuthCount(lists: seq<seq<string>>): nat {
    if lists == [] then 0 else AuthCount(lists[..|lists| - 1]) + (if lists[|lists| - 1] != [] then 1 else 0)
  }

  function Union(lists: seq<seq<string>>): set<string> {
    if lists == [] then {} else Union(lists[..|lists| - 1]) + Elements(lists[|lists| - 1])
  }

  function Flatten(lists: seq<seq<string>>): seq<string> {
    if lists == [] then [] else Flatten(lists[..|lists| - 1]) + lists[|lists| - 1]
  }

  /** The methods of the sub-workflows in order, plus "mfa" if at least two of them authenticated. */
  function AmrOf(lists: seq<seq<string>>): seq<string> {
    SortUnique(Flatten(lists) + (if AuthCount(lists) >= 2 then [MFA] else []))
  }

  lemma {:induction false} FlattenElements(lists: seq<seq<string>>)
    ensures Elements(Flatten(lists)) == Union(lists)
  {
    if lists != [] {
      FlattenElements(lists[..|lists| - 1]);
    }
  }

  /** Strictly sorted, and exactly the union plus "mfa" iff at least two sub-workflows authenticated. */
  lemma AmrIsCanonical(lists: seq<seq<string>>)
    ensures StrictlySorted(AmrOf(lists))
    ensures Elements(AmrOf(lists)) == Union(lists) + (if AuthCount(lists) >= 2 then {MFA} else {})
  {
    var all := Flatten(lists) + (if AuthCount(lists) >= 2 then [MFA] else []);
    SortUniqueIsSorted(all);
    FlattenElements(lists);
    assert Elements(all) == Elements(Flatten(lists)) + (if AuthCount(lists) >= 2 then {MFA} else {});
  }

  lemma {:induction false} CountSplit(a: seq<seq<string>>, b: seq<seq<string>>)
    ensures AuthCount(a + b) == AuthCount(a) + AuthCount(b)
    ensures Union(a + b) == Union(a) + Union(b)
  {
    if b == [] {
      assert a + b == a;
    } else {
      CountSplit(a, b[..|b| - 1]);
      assert (a + b)[..|a + b| - 1] == a + b[..|b| - 1];
    }
  }

  lemma CountOne(x: seq<string>)
    ensures AuthCount([x]) == (if x != [] then 1 else 0) && Union([x]) == Elements(x)
  {
    assert [x][..0] == [];
  }

  lemma WithoutOne(b: seq<seq<string>>, k: nat)
    requires k < |b|
    ensures AuthCount(b) == AuthCount(b[..k] + b[k + 1..]) + (if b[k] != [] then 1 else 0)
    ensures Union(b) == Union(b[..k] + b[k + 1..]) + Elements(b[k])
  {
    hide AuthCount, Union, Elements;
    var left, mid, right := b[..k], [b[k]], b[k + 1..];
    assert b == (left + mid) + right;
    CountSplit(left + mid, right);
    CountSplit(left, mid);
    CountSplit(left, right);
    CountOne(b[k]);
  }

  lemma RemoveOne(b: seq<seq<string>>, k: nat)
    requires k < |b|
    ensures multiset(b[..k] + b[k + 1..]) == multiset(b) - multiset{b[k]}
  {
    assert b == b[..k] + [b[k]] + b[k + 1..];
    assert multiset(b) == multiset(b[..k]) + multiset{b[k]} + multiset(b[k + 1..]);
  }

  lemma {:induction false} PermutedCount(a: seq<seq<string>>, b: seq<seq<string>>)
    requires multiset(a) == multiset(b)
    ensures AuthCount(a) == AuthCount(b) && Union(a) == Union(b)
    decreases |a|
  {
    if a == [] {
      assert |b| == |multiset(b)| == 0;
    } else {
      var n := |a| - 1;
      assert a[n] in multiset(a);
      var k :| 0 <= k < |b| && b[k] == a[n];
      WithoutOne(a, n);
      WithoutOne(b, k);
      RemoveOne(a, n);
      RemoveOne(b, k);
      PermutedCount(a[..n] + a[n + 1..], b[..k] + b[k + 1..]);
    }
  }

  /** The order of the sub-workflows does not matter. */
  lemma AmrIgnoresOrder(a: seq<seq<string>>, b: seq<seq<string>>)
    requires multiset(a) == multiset(b)
    ensures AmrOf(a) == AmrOf(b)
  {
    PermutedCount(a, b);
    AmrIsCanonical(a);
    AmrIsCanonical(b);
    SortedUnique(AmrOf(a), AmrOf(b));
  }

  /** GetAMR as written: a map filled in two loops, its keys appended in whatever order the map gives
      them, then sorted in place.  The result does not depend on that order. */
  method GetAMR(lists: seq<seq<string>>) returns (amr: seq<string>)
    ensures amr == AmrOf(lists)
  {
    var amrSet: set<string> := {};
    var authCount := 0;
    for i := 0 to |lists|
      invariant amrSet == Union(lists[..i]) && authCount == AuthCount(lists[..i])
    {
      var amrs := lists[i];
      assert lists[..i + 1][..i] == lists[..i];
      ghost var before := amrSet;
      if |amrs| > 0 {
        authCount := authCount + 1;
        for j := 0 to |amrs|
          invariant amrSet == before + Elements(amrs[..j])
        {
          amrSet := amrSet + {amrs[j]};
          assert amrs[..j + 1] == amrs[..j] + [amrs[j]];
        }
        assert amrs[..|amrs|] == amrs;
      }
    }
    assert lists[..|lists|] == lists;
    if authCount >= 2 {
      amrSet := amrSet + {MFA};
    }
    var keys := KeysOf(amrSet);
    SortStrings(keys);
    amr := keys[..];
    AmrIsCanonical(lists);
    SortedUnique(amr, AmrOf(lists));
  }

  /** Ranging over a map gives its keys in any order. */
  method KeysOf(amrSet: set<string>) returns (keys: array<string>)
    ensures fresh(keys) && Distinct(keys[..]) && Elements(keys[..]) == amrSet
  {
    keys := new string[|amrSet|](_ => "");
    var n := 0;
    var left := amrSet;
    while left != {}
      invariant n + |left| == keys.Length && Elements(keys[..n]) !! left && Elements(keys[..n]) + left == amrSet
      invariant Distinct(keys[..n])
      decreases left
    {
      var k :| k in left;
      ghost var before := keys[..n];
      keys[n] := k;
      assert keys[..n + 1] == before + [k];
      assert k !in Elements(before);
      n := n + 1;
      left := left - {k};
    }
    assert keys[..n] == keys[..];
  }

  ghost predicate Distinct(s: seq<string>) { forall i, j :: 0 <= i < j < |s| ==> s[i] != s[j] }

  /** sort.Strings in place, as an insertion sort. */
  method SortStrings(a: array<string>)
    requires Distinct(a[..])
    modifies a
    ensures StrictlySorted(a[..]) && Elements(a[..]) == Elements(old(a[..]))
  {
    hide StrictlySorted, Elements, Distinct;
    EmptyIsSorted();
    for i := 0 to a.Length
      invariant StrictlySorted(a[..i])
      invariant Distinct(a[..]) && Elements(a[..]) == Elements(old(a[..]))
    {
      Sink(a, i);
    }
    assert a[..a.Length] == a[..];
  }

  lemma EmptyIsSorted()
    ensures StrictlySorted([])
  {
  }

  /** Element i moves down past everything it goes before. */
  method Sink(a: array<string>, i: nat)
    requires i < a.Length && StrictlySorted(a[..i]) && Distinct(a[..])
    modifies a
    ensures StrictlySorted(a[..i + 1])
    ensures Distinct(a[..]) && Elements(a[..]) == Elements(old(a[..]))
  {
    hide StrictlySorted, Elements, Distinct, Less;
    var j := i;
    assert a[..i] + a[i + 1..i + 1] == a[..i];
    while j > 0 && Less(a[j], a[j - 1])
      invariant 0 <= j <= i
      invariant StrictlySorted(a[..j] + a[j + 1..i + 1])
      invariant forall k :: j < k <= i ==> Less(a[j], a[k])
      invariant Distinct(a[..]) && Elements(a[..]) == Elements(old(a[..]))
    {
      ghost var before := a[..];
      a[j], a[j - 1] := a[j - 1], a[j];
      SwapKeepsElements(before, j, a[..]);
      assert a[..j - 1] + a[j..i + 1] == before[..j] + before[j + 1..i + 1] by {
        assert before[..j] == before[..j - 1] + [before[j - 1]];
        assert a[j..i + 1] == [a[j]] + before[j + 1..i + 1];
      }
      j := j - 1;
    }
    assert a[..i + 1][..j] + a[..i + 1][j + 1..] == a[..j] + a[j + 1..i + 1];
    if j > 0 { Apart(a[..], j - 1, j); }
    SunkIsSorted(a[..i + 1], j);
  }

  lemma Apart(s: seq<string>, i: nat, j: nat)
    requires Distinct(s) && i < j < |s|
    ensures s[i] != s[j]
  {
  }

  lemma SwapKeepsElements(s: seq<string>, j: nat, t: seq<string>)
    requires 0 < j < |s| && t == s[j := s[j - 1]][j - 1 := s[j]]
    ensures Elements(t) == Elements(s) && (Distinct(s) ==> Distinct(t))
  {
    forall x ensures x in t <==> x in s {
      if x in s { var k :| 0 <= k < |s| && s[k] == x; assert t[if k == j then j - 1 else if k == j - 1 then j else k] == x; }
      if x in t { var k :| 0 <= k < |t| && t[k] == x; assert s[if k == j then j - 1 else if k == j - 1 then j else k] == x; }
    }
  }

  lemma SunkIsSorted(s: seq<string>, j: nat)
    requires j < |s| && StrictlySorted(s[..j] + s[j + 1..])
    requires forall k :: j < k < |s| ==> Less(s[j], s[k])
    requires j > 0 ==> !Less(s[j], s[j - 1]) && s[j] != s[j - 1]
    ensures StrictlySorted(s)
  {
    hide Less;
    var rest := s[..j] + s[j + 1..];
    assert forall i :: 0 <= i < j ==> rest[i] == s[i];
    assert forall k :: j < k < |s| ==> rest[k - 1] == s[k];
    if j > 0 { Total(s[j], s[j - 1]); }
    forall a, b | 0 <= a < b < |s| ensures Less(s[a], s[b]) {
      if b == j {
        if a < j - 1 {
          assert Less(rest[a], rest[j - 1]);
          Transitive(s[a], s[j - 1], s[j]);
        }
      } else if a != j {
        var a1, b1 := if a < j then a else a - 1, if b < j then b else b - 1;
        assert Less(rest[a1], rest[b1]);
      }
    }
  }
}
