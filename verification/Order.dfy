// Go's string order and sorted key lists (sort.Strings over the keys of a map).

module Order {

  predicate Less(a: string, b: string) {
    if b == "" then false
    else if a == "" then true
    else a[0] < b[0] || (a[0] == b[0] && Less(a[1..], b[1..]))
  }

  predicate Sorted(s: seq<string>) {
    forall i, j :: 0 <= i < j < |s| ==> Less(s[i], s[j])
  }

  lemma {:induction false} LessIsTotal(a: string, b: string)
    ensures Less(a, b) || Less(b, a) || a == b
    ensures !(Less(a, b) && Less(b, a)) && !Less(a, a)
  {
    if a != "" && b != "" {
      LessIsTotal(a[1..], b[1..]);
      if a[0] == b[0] && a[1..] == b[1..] { assert a == [a[0]] + a[1..] == b; }
    }
    if a != "" { LessIsTotal(a[1..], a[1..]); }
  }

  lemma {:induction false} LessIsTransitive(a: string, b: string, c: string)
    requires Less(a, b) && Less(b, c)
    ensures Less(a, c)
  {
    if a != "" && a[0] == b[0] == c[0] { LessIsTransitive(a[1..], b[1..], c[1..]); }
  }

  lemma SomeMember(s: seq<string>)
    ensures s == [] || exists x :: x in s
  {
    if s != [] { assert s[0] in s; }
  }

  lemma SortedTail(s: seq<string>, x: string)
    requires Sorted(s) && s != []
    ensures x in s[1..] <==> x in s && x != s[0]
  {
    if x in s[1..] {
      var k :| 1 <= k < |s| && s[k] == x;
      LessIsTotal(s[0], s[k]);
    }
    if x in s && x != s[0] {
      var k :| 0 <= k < |s| && s[k] == x;
      assert s[1..][k - 1] == x;
    }
  }

  // Two sorted lists of the same strings are the same list.
  lemma {:induction false} SortedIsUnique(s: seq<string>, t: seq<string>)
    requires Sorted(s) && Sorted(t) && (forall x :: x in s <==> x in t)
    ensures s == t
  {
    SomeMember(s);
    SomeMember(t);
    if s != [] {
      assert s[0] in t;
      var i :| 0 <= i < |t| && t[i] == s[0];
      assert t[0] in s;
      var j :| 0 <= j < |s| && s[j] == t[0];
      LessIsTotal(s[0], t[0]);
      assert i == 0 && j == 0;
      forall x ensures x in s[1..] <==> x in t[1..] {
        LessIsTotal(s[0], s[0]);
        assert x in s[1..] <==> x in s && x != s[0] by { SortedTail(s, x); }
        assert x in t[1..] <==> x in t && x != t[0] by { SortedTail(t, x); }
      }
      SortedIsUnique(s[1..], t[1..]);
      assert s == [s[0]] + s[1..] && t == [t[0]] + t[1..];
    }
  }

  lemma SortedDistinct(s: seq<string>)
    requires Sorted(s)
    ensures forall i, j :: 0 <= i < j < |s| ==> s[i] != s[j]
  {
    forall i, j | 0 <= i < j < |s| ensures s[i] != s[j] { LessIsTotal(s[i], s[j]); }
  }

  // sort.Strings: a list in non-decreasing order, duplicates kept.
  predicate Ordered(s: seq<string>) {
    forall i, j :: 0 <= i < j < |s| ==> !Less(s[j], s[i])
  }

  function Insert(x: string, s: seq<string>): (r: seq<string>)
    ensures multiset(r) == multiset(s) + multiset{x}
    ensures |r| == |s| + 1 && forall y :: y in r <==> y == x || y in s
  {
    if s == [] || !Less(s[0], x) then
      assert [x] + s != [] && multiset([x] + s) == multiset{x} + multiset(s);
      [x] + s
    else
      assert s == [s[0]] + s[1..];
      [s[0]] + Insert(x, s[1..])
  }

  function Sort(s: seq<string>): (r: seq<string>)
    ensures multiset(r) == multiset(s) && |r| == |s|
  {
    if s == [] then [] else assert s == [s[0]] + s[1..]; Insert(s[0], Sort(s[1..]))
  }

  lemma NotLessIsTransitive(a: string, b: string, c: string)
    requires !Less(b, a) && !Less(c, b)
    ensures !Less(c, a)
  {
    LessIsTotal(a, b);
    LessIsTotal(b, c);
    if Less(c, a) && Less(a, b) { LessIsTransitive(c, a, b); }
  }

  lemma {:induction false} InsertKeepsOrdered(x: string, s: seq<string>)
    requires Ordered(s)
    ensures Ordered(Insert(x, s))
  {
    var r := Insert(x, s);
    if s == [] {
    } else if !Less(s[0], x) {
      forall j | 0 < j < |r| ensures !Less(r[j], r[0]) {
        LessIsTotal(s[0], s[0]);
        NotLessIsTransitive(x, s[0], s[j - 1]);
      }
    } else {
      InsertKeepsOrdered(x, s[1..]);
      forall j | 0 < j < |r| ensures !Less(r[j], r[0]) {
        assert r[j] in r[1..] && r[1..] == Insert(x, s[1..]);
        LessIsTotal(s[0], x);
        if r[j] != x {
          var k :| 0 <= k < |s[1..]| && s[1..][k] == r[j];
          assert s[k + 1] == r[j];
        }
      }
    }
  }

  lemma {:induction false} SortIsOrdered(s: seq<string>)
    ensures Ordered(Sort(s))
  {
    if s != [] {
      SortIsOrdered(s[1..]);
      InsertKeepsOrdered(s[0], Sort(s[1..]));
    }
  }

  // Sorting a sorted list changes nothing.
  lemma {:induction false} SortOrderedIsFixed(s: seq<string>)
    requires Ordered(s)
    ensures Sort(s) == s
  {
    if s != [] {
      SortOrderedIsFixed(s[1..]);
      assert |s| > 1 ==> !Less(s[1], s[0]);
    }
  }

  // The keys of a map in sorted order.
  ghost function Keys(keys: set<string>): (s: seq<string>)
    ensures forall x :: x in s <==> x in keys
    ensures |s| == |keys|
  {
    if keys == {} then [] else var x :| x in keys; Insert(x, Keys(keys - {x}))
  }

  lemma {:induction false} SortedInsert(x: string, s: seq<string>)
    requires Sorted(s) && x !in s
    ensures Sorted(Insert(x, s))
  {
    var r := Insert(x, s);
    if s == [] {
    } else if !Less(s[0], x) {
      assert s[0] in s;
      LessIsTotal(s[0], x);
      forall j | 0 < j < |r| ensures Less(r[0], r[j]) {
        if j > 1 { LessIsTransitive(x, s[0], s[j - 1]); }
      }
    } else {
      SortedInsert(x, s[1..]);
      forall j | 0 < j < |r| ensures Less(r[0], r[j]) {
        assert r[j] in r[1..] && r[1..] == Insert(x, s[1..]);
        if r[j] != x {
          var k :| 0 <= k < |s[1..]| && s[1..][k] == r[j];
          assert s[k + 1] == r[j];
        }
      }
    }
  }

  lemma {:induction false} KeysAreSorted(keys: set<string>)
    ensures Sorted(Keys(keys))
    decreases keys
  {
    if keys != {} {
      var x :| x in keys && Keys(keys) == Insert(x, Keys(keys - {x}));
      KeysAreSorted(keys - {x});
      SortedInsert(x, Keys(keys - {x}));
    }
  }

  lemma {:induction false} SubsetIsSmaller<T>(a: set<T>, b: set<T>)
    requires a <= b
    ensures |a| <= |b|
    decreases a
  {
    if a != {} {
      var x :| x in a;
      SubsetIsSmaller(a - {x}, b - {x});
    }
  }

  method Least(keys: set<string>) returns (least: string)
    requires keys != {}
    ensures least in keys && forall x :: x in keys && x != least ==> Less(least, x)
  {
    least :| least in keys;
    var others := keys - {least};
    while others != {}
      invariant least in keys && others <= keys
      invariant forall x :: x in keys && x !in others && x != least ==> Less(least, x)
      decreases others
    {
      var x :| x in others;
      others := others - {x};
      LessIsTotal(x, least);
      if Less(x, least) {
        forall y | y in keys && y !in others && y != x ensures Less(x, y) {
          if y != least { LessIsTransitive(x, least, y); }
        }
        least := x;
      }
    }
  }

  method SortedKeys(keys: set<string>) returns (s: seq<string>)
    ensures Sorted(s) && (forall x :: x in s <==> x in keys) && |s| == |keys|
  {
    s := [];
    var rest := keys;
    while rest != {}
      invariant rest <= keys
      invariant forall x :: x in keys <==> x in s || x in rest
      invariant Sorted(s) && |s| + |rest| == |keys|
      invariant forall i, x :: 0 <= i < |s| && x in rest ==> Less(s[i], x)
      decreases rest
    {
      var least := Least(rest);
      s := s + [least];
      rest := rest - {least};
    }
  }
}
