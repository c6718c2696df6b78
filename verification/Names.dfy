/** Names in byte order, and the one ascending list of a set of names. */
module Names {

  predicate Before(a: string, b: string)
    decreases |a|
  {
    b != "" && (a == "" || a[0] < b[0] || (a[0] == b[0] && Before(a[1..], b[1..])))
  }

  lemma {:induction false} BeforeOrder(a: string, b: string)
    ensures !Before(a, a)
    ensures a == b || Before(a, b) || Before(b, a)
    decreases |a|
  {
    if a != "" && b != "" {
      BeforeOrder(a[1..], b[1..]);
      if a[0] == b[0] && a[1..] == b[1..] { assert a == [a[0]] + a[1..] == b; }
    } else if a != "" {
      BeforeOrder(a[1..], "");
    }
  }

  lemma {:induction false} BeforeTrans(a: string, b: string, c: string)
    requires Before(a, b) && Before(b, c)
    ensures Before(a, c)
    decreases |a|
  {
    if a != "" && a[0] == b[0] == c[0] { BeforeTrans(a[1..], b[1..], c[1..]); }
  }

  predicate Ascending(s: seq<string>) { forall i, j :: 0 <= i < j < |s| ==> Before(s[i], s[j]) }

  function Insert(x: string, s: seq<string>): seq<string> {
    if s == [] || Before(x, s[0]) then [x] + s else [s[0]] + Insert(x, s[1..])
  }

  function Sort(s: seq<string>): seq<string> {
    if s == [] then [] else Insert(s[|s| - 1], Sort(s[..|s| - 1]))
  }

  lemma {:induction false} InsertAscends(x: string, s: seq<string>)
    requires Ascending(s) && x !in s
    ensures Ascending(Insert(x, s)) && forall y :: y in Insert(x, s) <==> y == x || y in s
  {
    if s != [] {
      BeforeOrder(x, s[0]);
      assert s == [s[0]] + s[1..];
      if Before(x, s[0]) {
        forall j | 0 <= j < |s| ensures Before(x, s[j]) { if j > 0 { BeforeTrans(x, s[0], s[j]); } }
      } else {
        InsertAscends(x, s[1..]);
        var t := Insert(x, s[1..]);
        forall j | 0 <= j < |t| ensures Before(s[0], t[j]) { assert t[j] in t; }
      }
    }
  }

  /** sort.Strings on a list without duplicates. */
  lemma {:induction false} SortAscends(s: seq<string>)
    requires forall i, j :: 0 <= i < j < |s| ==> s[i] != s[j]
    ensures Ascending(Sort(s)) && forall y :: y in Sort(s) <==> y in s
  {
    if s != [] {
      var init, x := s[..|s| - 1], s[|s| - 1];
      SortAscends(init);
      assert s == init + [x] && x !in init;
      InsertAscends(x, Sort(init));
    }
  }

  lemma HeadIsLeast(a: seq<string>, x: string)
    requires Ascending(a) && x in a
    ensures x == a[0] || Before(a[0], x)
  {}

  /** A set of names has one ascending list. */
  lemma {:induction false} AscendingUnique(a: seq<string>, b: seq<string>)
    requires Ascending(a) && Ascending(b) && forall y :: y in a <==> y in b
    ensures a == b
  {
    assert 0 < |b| ==> b[0] in a;
    assert 0 < |a| ==> a[0] in b;
    if a != [] {
      HeadIsLeast(a, b[0]);
      HeadIsLeast(b, a[0]);
      if a[0] != b[0] { BeforeTrans(a[0], b[0], a[0]); BeforeOrder(a[0], a[0]); }
      assert a == [a[0]] + a[1..] && b == [b[0]] + b[1..];
      forall y ensures y in a[1..] <==> y in b[1..] {
        BeforeOrder(a[0], a[0]);
        if y in a[1..] { assert y in a && y != a[0]; }
        if y in b[1..] { assert y in b && y != b[0]; }
      }
      AscendingUnique(a[1..], b[1..]);
    }
  }

  lemma {:induction false} HasListing(keys: set<string>) returns (s: seq<string>)
    ensures Ascending(s) && forall y :: y in s <==> y in keys
  {
    if keys == {} {
      s := [];
    } else {
      var x :| x in keys;
      var t := HasListing(keys - {x});
      InsertAscends(x, t);
      s := Insert(x, t);
    }
  }

  /** Sorting a list without duplicates gives the listing of its members. */
  lemma SortIsListing(s: seq<string>, keys: set<string>)
    requires forall i, j :: 0 <= i < j < |s| ==> s[i] != s[j]
    requires forall y :: y in s <==> y in keys
    ensures Sort(s) == Listing(keys)
  {
    SortAscends(s);
    AscendingUnique(Sort(s), Listing(keys));
  }

  ghost predicate Lists(s: seq<string>, keys: set<string>) { Ascending(s) && forall y :: y in s <==> y in keys }

  /** The ascending list of a set. */
  ghost function Listing(keys: set<string>): (s: seq<string>)
    ensures Ascending(s) && forall y :: y in s <==> y in keys
  {
    assert exists s :: Lists(s, keys) by { var s := HasListing(keys); assert Lists(s, keys); }
    var s :| Lists(s, keys);
    s
  }

  /** The names of a directory or a map, in order. */
  method InOrder(keys: set<string>) returns (names: seq<string>)
    ensures names == Listing(keys)
  {
    names := [];
    var todo := keys;
    while todo != {}
      invariant todo <= keys
      invariant forall n :: n in names <==> n in keys && n !in todo
      invariant forall i, j :: 0 <= i < j < |names| ==> names[i] != names[j]
      decreases todo
    {
      var n :| n in todo;
      todo := todo - {n};
      names := names + [n];
    }
    SortIsListing(names, keys);
    names := Sort(names);
  }

  /** In an ascending list the smaller names come first. */
  lemma SmallerIsEarlier(s: seq<string>, i: nat, j: nat)
    requires Ascending(s) && i < |s| && j < |s| && Before(s[i], s[j])
    ensures i < j
  {
    BeforeOrder(s[i], s[i]);
    if j < i { BeforeTrans(s[i], s[j], s[i]); }
  }

  /** One name is before another exactly if it is a proper beginning of it, or the first character in
      which they differ is smaller. */
  lemma {:induction false} BeforeMeans(a: string, b: string)
    ensures Before(a, b) <==>
      exists k :: 0 <= k <= |a| && k < |b| && a[..k] == b[..k] && (k == |a| || a[k] < b[k])
    decreases |a|
  {
    if a != "" && b != "" && a[0] == b[0] {
      BeforeMeans(a[1..], b[1..]);
      var x, y := a[1..], b[1..];
      if k :| 0 <= k <= |x| && k < |y| && x[..k] == y[..k] && (k == |x| || x[k] < y[k]) {
        assert a[..k + 1] == [a[0]] + x[..k] && b[..k + 1] == [b[0]] + y[..k];
      }
      if k :| 0 <= k <= |a| && k < |b| && a[..k] == b[..k] && (k == |a| || a[k] < b[k]) {
        assert k > 0;
        assert a[1..][..k - 1] == a[..k][1..] && b[1..][..k - 1] == b[..k][1..];
      }
    } else if b != "" {
      assert a[..0] == b[..0];
      if k :| 0 < k <= |a| && k < |b| && a[..k] == b[..k] && (k == |a| || a[k] < b[k]) {
        assert a[0] == a[..k][0] == b[..k][0];
      }
    }
  }
}
