/** The byte-wise order on strings that Go's `<` and sort.Strings use. */
module StringOrder {

  predicate Less(a: string, b: string) {
    if b == [] then false
    else if a == [] then true
    else a[0] < b[0] || (a[0] == b[0] && Less(a[1..], b[1..]))
  }

  /** The first `k` characters are the same, and then `a` ends or has the smaller one. */
  ghost predicate DiffersAt(a: string, b: string, k: nat) {
    k <= |a| && k < |b| && a[..k] == b[..k] && (k < |a| ==> a[k] < b[k])
  }

  lemma {:induction false} LessMeans(a: string, b: string)
    ensures Less(a, b) <==> exists k: nat :: DiffersAt(a, b, k)
  {
    if a == [] {
      if b != [] { assert DiffersAt(a, b, 0); }
    } else if b != [] {
      LessMeans(a[1..], b[1..]);
      if Less(a, b) {
        if a[0] < b[0] {
          assert DiffersAt(a, b, 0);
        } else {
          var k: nat :| DiffersAt(a[1..], b[1..], k);
          assert a[..k + 1] == [a[0]] + a[1..][..k] && b[..k + 1] == [b[0]] + b[1..][..k];
          assert DiffersAt(a, b, k + 1);
        }
      }
      if k: nat :| DiffersAt(a, b, k) {
        if k > 0 {
          assert a[..k][0] == b[..k][0];
          assert a[1..][..k - 1] == a[..k][1..] && b[1..][..k - 1] == b[..k][1..];
          assert DiffersAt(a[1..], b[1..], k - 1);
        }
      }
    }
  }

  lemma {:induction false} Irreflexive(a: string)
    ensures !Less(a, a)
  {
    if a != [] { Irreflexive(a[1..]); }
  }

  lemma {:induction false} Transitive(a: string, b: string, c: string)
    requires Less(a, b) && Less(b, c)
    ensures Less(a, c)
  {
    if a != [] && a[0] == b[0] && b[0] == c[0] { Transitive(a[1..], b[1..], c[1..]); }
  }

  lemma {:induction false} Total(a: string, b: string)
    ensures a == b || Less(a, b) || Less(b, a)
  {
    if a != [] && b != [] && a[0] == b[0] {
      Total(a[1..], b[1..]);
      if a[1..] == b[1..] { assert a == [a[0]] + a[1..] && b == [b[0]] + b[1..]; }
    }
  }

  predicate StrictlySorted(s: seq<string>) {
    forall i, j :: 0 <= i < j < |s| ==> Less(s[i], s[j])
  }

  function Elements(s: seq<string>): set<string> { set x | x in s }

  /** A set has only one strictly sorted list. */
  lemma {:induction false} SortedUnique(a: seq<string>, b: seq<string>)
    requires StrictlySorted(a) && StrictlySorted(b) && Elements(a) == Elements(b)
    ensures a == b
  {
    if a == [] {
      assert forall k :: 0 <= k < |b| ==> b[k] in Elements(b);
    } else {
      assert a[0] in Elements(b);
      var j :| 0 <= j < |b| && b[j] == a[0];
      assert b[0] in Elements(a);
      var i :| 0 <= i < |a| && a[i] == b[0];
      if i > 0 && j > 0 {
        assert Less(a[0], b[0]) && Less(b[0], a[0]);
        Transitive(a[0], b[0], a[0]);
        Irreflexive(a[0]);
      }
      assert a[0] == b[0];
      forall x ensures x in Elements(a[1..]) <==> x in Elements(b[1..]) { TailElements(a, x); TailElements(b, x); }
      SortedUnique(a[1..], b[1..]);
      assert a == [a[0]] + a[1..] && b == [b[0]] + b[1..];
    }
  }

  lemma TailElements(a: seq<string>, x: string)
    requires StrictlySorted(a) && a != []
    ensures x in Elements(a[1..]) <==> x in Elements(a) && x != a[0]
  {
    Irreflexive(a[0]);
    if x in Elements(a) && x != a[0] {
      var i :| 0 <= i < |a| && a[i] == x;
      assert a[1..][i - 1] == x;
    }
  }

  /** Puts x in its place, once. */
  function Insert(s: seq<string>, x: string): seq<string> {
    if s == [] then [x]
    else if s[0] == x then s
    else if Less(x, s[0]) then [x] + s
    else [s[0]] + Insert(s[1..], x)
  }

  lemma {:induction false} InsertElements(s: seq<string>, x: string)
    ensures Elements(Insert(s, x)) == Elements(s) + {x}
  {
    if s != [] && s[0] != x && !Less(x, s[0]) {
      InsertElements(s[1..], x);
      assert Elements([s[0]] + Insert(s[1..], x)) == {s[0]} + Elements(Insert(s[1..], x));
      assert Elements(s) == {s[0]} + Elements(s[1..]) by { assert s == [s[0]] + s[1..]; }
    }
  }

  lemma {:induction false} InsertSorted(s: seq<string>, x: string)
    requires StrictlySorted(s)
    ensures StrictlySorted(Insert(s, x))
  {
    if s != [] && s[0] != x {
      if Less(x, s[0]) {
        forall j | 0 < j < |s| ensures Less(x, s[j]) { Transitive(x, s[0], s[j]); }
      } else {
        Total(x, s[0]);
        InsertSorted(s[1..], x);
        InsertElements(s[1..], x);
        var t := Insert(s[1..], x);
        forall j | 0 <= j < |t| ensures Less(s[0], t[j]) { assert t[j] in Elements(s[1..]) + {x}; }
      }
    }
  }

  function SortUnique(s: seq<string>): seq<string> {
    if s == [] then [] else Insert(SortUnique(s[1..]), s[0])
  }

  lemma {:induction false} SortUniqueIsSorted(s: seq<string>)
    ensures StrictlySorted(SortUnique(s)) && Elements(SortUnique(s)) == Elements(s)
  {
    if s != [] {
      SortUniqueIsSorted(s[1..]);
      InsertSorted(SortUnique(s[1..]), s[0]);
      InsertElements(SortUnique(s[1..]), s[0]);
      assert Elements(s) == {s[0]} + Elements(s[1..]) by { assert s == [s[0]] + s[1..]; }
    }
  }
}
