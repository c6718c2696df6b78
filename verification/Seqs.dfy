/** Facts about sequences that several components share. */
module Seqs {

  ghost predicate NoDup<T(!new)>(s: seq<T>) {
    forall i, j :: 0 <= i < j < |s| ==> s[i] != s[j]
  }

  /** `a` can be obtained from `b` by deleting elements, keeping the order. */
  ghost predicate IsSubseq<T(!new)>(a: seq<T>, b: seq<T>) {
    if |b| == 0 then |a| == 0
    else
      || IsSubseq(a, b[..|b| - 1])
      || (|a| > 0 && a[|a| - 1] == b[|b| - 1] && IsSubseq(a[..|a| - 1], b[..|b| - 1]))
  }

  lemma {:induction false} SubseqEmpty<T(!new)>(b: seq<T>)
    ensures IsSubseq([], b)
  {
    if |b| > 0 { SubseqEmpty(b[..|b| - 1]); }
  }

  lemma {:induction false} SubseqRefl<T(!new)>(a: seq<T>)
    ensures IsSubseq(a, a)
  {
    if |a| > 0 { SubseqRefl(a[..|a| - 1]); }
  }

  lemma SubseqSnoc<T(!new)>(a: seq<T>, b: seq<T>, x: T)
    requires IsSubseq(a, b)
    ensures IsSubseq(a + [x], b + [x])
    ensures IsSubseq(a, b + [x])
  {
    assert (b + [x])[..|b|] == b && (a + [x])[..|a|] == a;
  }

  lemma {:induction false} SubseqTrans<T(!new)>(a: seq<T>, b: seq<T>, c: seq<T>)
    requires IsSubseq(a, b) && IsSubseq(b, c)
    ensures IsSubseq(a, c)
    decreases |c|
  {
    if |c| > 0 {
      var c' := c[..|c| - 1];
      if IsSubseq(b, c') {
        SubseqTrans(a, b, c');
      } else {
        var b' := b[..|b| - 1];
        if IsSubseq(a, b') {
          SubseqTrans(a, b', c');
        } else {
          SubseqTrans(a[..|a| - 1], b', c');
        }
      }
    }
  }

  /** A common prefix may be put before both sides. */
  lemma {:induction false} SubseqPrefix<T(!new)>(p: seq<T>, a: seq<T>, b: seq<T>)
    requires IsSubseq(a, b)
    ensures IsSubseq(p + a, p + b)
    decreases |b|
  {
    if |b| == 0 {
      assert p + a == p == p + b;
      SubseqRefl(p);
    } else {
      var b' := b[..|b| - 1];
      assert (p + b)[..|p + b| - 1] == p + b';
      if IsSubseq(a, b') {
        SubseqPrefix(p, a, b');
      } else {
        SubseqPrefix(p, a[..|a| - 1], b');
        assert (p + a)[..|p + a| - 1] == p + a[..|a| - 1];
      }
    }
  }

  lemma {:induction false} SubseqSuffix<T(!new)>(p: seq<T>, b: seq<T>)
    ensures IsSubseq(b, p + b)
    decreases |b|
  {
    if |b| == 0 {
      SubseqEmpty(p + b);
    } else {
      SubseqSuffix(p, b[..|b| - 1]);
      SubseqSnoc(b[..|b| - 1], p + b[..|b| - 1], b[|b| - 1]);
      assert b == b[..|b| - 1] + [b[|b| - 1]] && p + b == (p + b[..|b| - 1]) + [b[|b| - 1]];
    }
  }

  lemma {:induction false} NoDupCard<T(!new)>(s: seq<T>, keys: set<T>)
    requires NoDup(s)
    requires forall x :: x in s <==> x in keys
    ensures |s| == |keys|
    decreases |s|
  {
    if |s| == 0 {
      assert keys == {};
    } else {
      var last := s[|s| - 1];
      var rest := s[..|s| - 1];
      assert s == rest + [last];
      assert last in keys;
      NoDupCard(rest, keys - {last});
    }
  }
}
