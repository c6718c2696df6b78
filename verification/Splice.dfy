/** One body operation: the matches of a regular expression are cut out, replaced or
    accompanied by a text, and the rest of the body stays as it is. */
module Splice {
  import opened Config

  /** A match: its bounds and the bounds of its submatches. */
  datatype Match = Match(lo: nat, hi: nat, groups: seq<int>)

  /** The regular expression library: which patterns compile, the first `limit` matches of a
      pattern, and the expansion of a replacement template for one match. */
  datatype Engine = Engine(
    compiles: string -> bool,
    findAll: (string, Bytes, nat) -> seq<Match>,
    expand: (string, Bytes, Bytes, Match) -> Bytes)

  /** In bounds, ordered and non-overlapping. */
  ghost predicate Ordered(ms: seq<Match>, len: int) {
    && (forall i :: 0 <= i < |ms| ==> ms[i].lo <= ms[i].hi <= len)
    && (forall i, j :: 0 <= i < j < |ms| ==> ms[i].hi <= ms[j].lo)
  }

  function Min(a: int, b: int): int { if a <= b then a else b }

  /** What the rewriter needs to know of the library: matches are ordered, there are at most as
      many as asked for, and asking for fewer gives the first ones. */
  ghost predicate Lawful(e: Engine) {
    && (forall p, b, k: nat :: Ordered(e.findAll(p, b, k), |b|) && |e.findAll(p, b, k)| <= k)
    && (forall p, b, j: nat, k: nat :: j <= k ==>
      e.findAll(p, b, j) == e.findAll(p, b, k)[..Min(j, |e.findAll(p, b, k)|)])
  }

  /** What stands in the output for one match. */
  function Sub(e: Engine, op: BodyOp, body: Bytes, m: Match): Bytes
    requires m.lo <= m.hi <= |body|
  {
    match op.kind
    case Remove => []
    case Replace => e.expand(op.pattern, op.to, body, m)
    case InsertBefore => op.text + body[m.lo..m.hi]
    case InsertAfter => body[m.lo..m.hi] + op.text
    case OtherKind(_) => []
  }

  /** The matches lie at or after `last`. */
  ghost predicate Ready(ms: seq<Match>, last: nat, len: int) {
    last <= len && Ordered(ms, len) && (ms != [] ==> last <= ms[0].lo)
  }

  /** The output from position `last` of the body on: gaps as they are, matches substituted. */
  ghost function SpliceFrom(e: Engine, op: BodyOp, body: Bytes, ms: seq<Match>, last: nat): Bytes
    requires Ready(ms, last, |body|)
  {
    if ms == [] then body[last..]
    else body[last..ms[0].lo] + Sub(e, op, body, ms[0]) + SpliceFrom(e, op, body, ms[1..], ms[0].hi)
  }

  ghost function Spliced(e: Engine, op: BodyOp, body: Bytes, ms: seq<Match>): Bytes
    requires Ordered(ms, |body|)
  {
    SpliceFrom(e, op, body, ms, 0)
  }

  lemma Assoc<T>(a: seq<T>, b: seq<T>, c: seq<T>, d: seq<T>)
    ensures a + (b + c + d) == (a + b + c) + d
  {}

  lemma ReadyNext(ms: seq<Match>, last: nat, len: int)
    requires Ready(ms, last, len) && ms != []
    ensures Ready(ms[1..], ms[0].hi, len)
  {}

  lemma Unfold(e: Engine, op: BodyOp, body: Bytes, ms: seq<Match>, i: nat, last: nat)
    requires i < |ms| && Ready(ms[i..], last, |body|)
    ensures last <= ms[i].lo <= ms[i].hi <= |body| && Ready(ms[i + 1..], ms[i].hi, |body|)
    ensures SpliceFrom(e, op, body, ms[i..], last) == body[last..ms[i].lo] + Sub(e, op, body, ms[i]) +
      SpliceFrom(e, op, body, ms[i + 1..], ms[i].hi)
  {
    ReadyNext(ms[i..], last, |body|);
    assert ms[i..][0] == ms[i] && ms[i..][1..] == ms[i + 1..];
  }

  /** One turn of the splice loop: the gap before the match, then what stands for the match. */
  method Emit(e: Engine, op: BodyOp, body: Bytes, last: nat, m: Match, before: Bytes) returns (out: Bytes)
    requires last <= m.lo <= m.hi <= |body|
    ensures out == before + body[last..m.lo] + Sub(e, op, body, m)
  {
    out := before + body[last..m.lo];
    match op.kind {
      case Remove =>
      case Replace => out := out + e.expand(op.pattern, op.to, body, m);
      case InsertBefore =>
        out := out + op.text;
        out := out + body[m.lo..m.hi];
      case InsertAfter =>
        out := out + body[m.lo..m.hi];
        out := out + op.text;
      case OtherKind(_) =>
    }
  }

  /** The splice loop of applyBodyOp. */
  method SpliceLoop(e: Engine, op: BodyOp, body: Bytes, ms: seq<Match>) returns (out: Bytes)
    requires Ordered(ms, |body|)
    ensures out == Spliced(e, op, body, ms)
  {
    out := [];
    var last, i := 0, 0;
    assert ms[0..] == ms;
    while i < |ms|
      invariant 0 <= i <= |ms| && 0 <= last <= |body|
      invariant Ready(ms[i..], last, |body|)
      invariant out + SpliceFrom(e, op, body, ms[i..], last) == Spliced(e, op, body, ms)
    {
      var m := ms[i];
      Unfold(e, op, body, ms, i, last);
      Assoc(out, body[last..m.lo], Sub(e, op, body, m), SpliceFrom(e, op, body, ms[i + 1..], m.hi));
      hide SpliceFrom, Spliced, Ordered, Ready, Sub;
      out := Emit(e, op, body, last, m, out);
      last := m.hi;
      i := i + 1;
    }
    out := out + body[last..];
  }

  // ---- remove keeps exactly the complement of the matches ----

  predicate Covered(ms: seq<Match>, i: int) {
    exists k :: 0 <= k < |ms| && ms[k].lo <= i < ms[k].hi
  }

  /** The bytes from position `i` on that no match covers. */
  ghost function Uncovered(body: Bytes, ms: seq<Match>, i: nat): Bytes
    requires i <= |body|
    decreases |body| - i
  {
    if i == |body| then [] else
      (if Covered(ms, i) then [] else [body[i]]) + Uncovered(body, ms, i + 1)
  }

  lemma {:induction false} GapUncovered(body: Bytes, ms: seq<Match>, i: nat, j: nat)
    requires i <= j <= |body| && forall k :: i <= k < j ==> !Covered(ms, k)
    ensures Uncovered(body, ms, i) == body[i..j] + Uncovered(body, ms, j)
    decreases j - i
  {
    if i == j {
      assert body[i..j] == [];
    } else {
      GapUncovered(body, ms, i + 1, j);
      ghost var rest := Uncovered(body, ms, j);
      assert Uncovered(body, ms, i) == [body[i]] + Uncovered(body, ms, i + 1);
      hide Uncovered;
      assert body[i..j] == [body[i]] + body[i + 1..j];
      assert [body[i]] + (body[i + 1..j] + rest) == ([body[i]] + body[i + 1..j]) + rest;
    }
  }

  lemma {:induction false} MatchUncovered(body: Bytes, ms: seq<Match>, i: nat, j: nat)
    requires i <= j <= |body| && forall k :: i <= k < j ==> Covered(ms, k)
    ensures Uncovered(body, ms, i) == Uncovered(body, ms, j)
    decreases j - i
  {
    if i < j { MatchUncovered(body, ms, i + 1, j); }
  }

  /** A match that ends at or before `i` no longer matters. */
  lemma {:induction false} DropFirst(body: Bytes, ms: seq<Match>, i: nat)
    requires ms != [] && ms[0].hi <= i <= |body|
    ensures Uncovered(body, ms, i) == Uncovered(body, ms[1..], i)
    decreases |body| - i
  {
    if i < |body| {
      DropFirst(body, ms, i + 1);
      if Covered(ms, i) {
        var k :| 0 <= k < |ms| && ms[k].lo <= i < ms[k].hi;
        assert ms[1..][k - 1] == ms[k];
      }
      if Covered(ms[1..], i) {
        var k :| 0 <= k < |ms[1..]| && ms[1..][k].lo <= i < ms[1..][k].hi;
        assert ms[k + 1] == ms[1..][k];
      }
    }
  }

  lemma {:induction false} RemoveKeepsRest(e: Engine, op: BodyOp, body: Bytes, ms: seq<Match>, last: nat)
    requires op.kind == Remove && Ready(ms, last, |body|)
    ensures SpliceFrom(e, op, body, ms, last) == Uncovered(body, ms, last)
    decreases |ms|
  {
    if ms == [] {
      GapUncovered(body, ms, last, |body|);
    } else {
      var m := ms[0];
      GapUncovered(body, ms, last, m.lo);
      MatchUncovered(body, ms, m.lo, m.hi);
      DropFirst(body, ms, m.hi);
      ReadyNext(ms, last, |body|);
      RemoveKeepsRest(e, op, body, ms[1..], m.hi);
      hide Uncovered;
      assert body[last..m.lo] + [] == body[last..m.lo];
    }
  }

  /** Removing leaves exactly the bytes that no match covers, in order. */
  lemma RemoveIsComplement(e: Engine, op: BodyOp, body: Bytes, ms: seq<Match>)
    requires op.kind == Remove && Ordered(ms, |body|)
    ensures Spliced(e, op, body, ms) == Uncovered(body, ms, 0)
  {
    RemoveKeepsRest(e, op, body, ms, 0);
  }

  // ---- what an insert adds can be found again and erased ----

  predicate Inserts(op: BodyOp) { op.kind == InsertBefore || op.kind == InsertAfter }

  /** The position of the body at which the text goes in. */
  function Anchor(op: BodyOp, m: Match): nat { if op.kind == InsertBefore then m.lo else m.hi }

  /** Where the copies of the text end up in the output, `shift` bytes having been added already. */
  function Marks(op: BodyOp, ms: seq<Match>, shift: nat): seq<Match> {
    if ms == [] then []
    else
      var at := Anchor(op, ms[0]) + shift;
      [Match(at, at + |op.text|, [])] + Marks(op, ms[1..], shift + |op.text|)
  }

  /** A part of the body that lies before the first match is copied as it is. */
  lemma SpliceSkip(e: Engine, op: BodyOp, body: Bytes, ms: seq<Match>, a: nat, b: nat)
    requires a <= b && Ready(ms, b, |body|)
    ensures Ready(ms, a, |body|) && SpliceFrom(e, op, body, ms, a) == body[a..b] + SpliceFrom(e, op, body, ms, b)
  {
    if ms == [] {
      assert body[a..] == body[a..b] + body[b..];
    } else {
      var rest := Sub(e, op, body, ms[0]);
      var tail := SpliceFrom(e, op, body, ms[1..], ms[0].hi);
      assert SpliceFrom(e, op, body, ms, a) == body[a..ms[0].lo] + rest + tail;
      assert SpliceFrom(e, op, body, ms, b) == body[b..ms[0].lo] + rest + tail;
      hide SpliceFrom, Sub, Ordered;
      assert body[a..ms[0].lo] == body[a..b] + body[b..ms[0].lo];
      Assoc(body[a..b], body[b..ms[0].lo], rest, tail);
    }
  }

  lemma {:induction false} SpliceSize(e: Engine, op: BodyOp, body: Bytes, ms: seq<Match>, last: nat)
    requires Ready(ms, last, |body|)
    ensures Inserts(op) ==> |SpliceFrom(e, op, body, ms, last)| == |body| - last + |ms| * |op.text|
    ensures op.kind == Remove ==> |SpliceFrom(e, op, body, ms, last)| == |body| - last - Extent(ms)
    decreases |ms|
  {
    if ms != [] {
      ReadyNext(ms, last, |body|);
      SpliceSize(e, op, body, ms[1..], ms[0].hi);
      assert |ms| * |op.text| == |op.text| + |ms[1..]| * |op.text|;
    }
  }

  /** The number of bytes inside the matches. */
  function Extent(ms: seq<Match>): int {
    if ms == [] then 0 else ms[0].hi - ms[0].lo + Extent(ms[1..])
  }

  lemma Regroup(a: Bytes, b: Bytes, c: Bytes, d: Bytes)
    ensures a + (b + c) + d == a + (b + (c + d)) && a + (b + c) + d == (a + b) + (c + d)
  {}

  /** An insert copies the body up to the anchor, adds the text, and goes on at the anchor. */
  lemma InsertUnfold(e: Engine, op: BodyOp, body: Bytes, ms: seq<Match>, last: nat)
    requires Inserts(op) && Ready(ms, last, |body|) && ms != []
    ensures last <= Anchor(op, ms[0]) && Ready(ms[1..], Anchor(op, ms[0]), |body|)
    ensures SpliceFrom(e, op, body, ms, last) == body[last..Anchor(op, ms[0])] +
      (op.text + SpliceFrom(e, op, body, ms[1..], Anchor(op, ms[0])))
  {
    var m := ms[0];
    ReadyNext(ms, last, |body|);
    var rest := SpliceFrom(e, op, body, ms[1..], m.hi);
    if op.kind == InsertBefore {
      SpliceSkip(e, op, body, ms[1..], m.lo, m.hi);
      var gap, mid := body[last..m.lo], body[m.lo..m.hi];
      assert SpliceFrom(e, op, body, ms, last) == gap + (op.text + mid) + rest;
      hide SpliceFrom, Ordered;
      Regroup(gap, op.text, mid, rest);
    } else {
      var gap, mid := body[last..m.lo], body[m.lo..m.hi];
      assert SpliceFrom(e, op, body, ms, last) == gap + (mid + op.text) + rest;
      hide SpliceFrom, Ordered;
      assert body[last..m.hi] == gap + mid;
      Regroup(gap, mid, op.text, rest);
    }
  }

  /** `full` carries the output of the insert from `last + shift` on. */
  ghost predicate Carries(e: Engine, op: BodyOp, body: Bytes, ms: seq<Match>, last: nat, shift: nat, full: Bytes) {
    && Inserts(op) && Ready(ms, last, |body|) && last + shift <= |full|
    && full[last + shift..] == SpliceFrom(e, op, body, ms, last)
  }

  /** The pieces of a concatenation, found at the offsets `o <= p <= q`. */
  lemma Pieces<T>(full: seq<T>, o: nat, p: nat, q: nat, a: seq<T>, b: seq<T>, c: seq<T>)
    requires o <= |full| && full[o..] == a + (b + c) && p == o + |a| && q == p + |b|
    ensures q <= |full| && full[o..p] == a && full[p..q] == b && full[q..] == c
  {
    var t := full[o..];
    assert t[..|a|] == a;
    assert t[|a|..|a| + |b|] == b;
    assert t[|a| + |b|..] == c;
  }

  /** What the insert wrote up to and including the first copy of the text; the rest carries on. */
  lemma CarriesNext(e: Engine, op: BodyOp, body: Bytes, ms: seq<Match>, last: nat, shift: nat, full: Bytes)
    requires Carries(e, op, body, ms, last, shift, full) && ms != []
    ensures var a, l := Anchor(op, ms[0]), |op.text|;
      && last <= a <= |body| && a + shift + l <= |full|
      && full[last + shift..a + shift] == body[last..a]
      && full[a + shift..a + shift + l] == op.text
      && Carries(e, op, body, ms[1..], a, shift + l, full)
  {
    var a, l := Anchor(op, ms[0]), |op.text|;
    InsertUnfold(e, op, body, ms, last);
    hide SpliceFrom, Ordered, Ready;
    Pieces(full, last + shift, a + shift, a + shift + l, body[last..a], op.text, SpliceFrom(e, op, body, ms[1..], a));
  }

  /** Erasing the marks from `start` on gives back the body from `last` on. */
  ghost predicate Erases(e: Engine, rm: BodyOp, body: Bytes, marks: seq<Match>, last: nat, start: nat, full: Bytes) {
    && last <= |body| && Ready(marks, start, |full|)
    && SpliceFrom(e, rm, full, marks, start) == body[last..]
  }

  /** Every mark is a copy of the text. */
  ghost predicate Spells(full: Bytes, marks: seq<Match>, text: Bytes) {
    forall k :: 0 <= k < |marks| ==> marks[k].lo <= marks[k].hi <= |full| && full[marks[k].lo..marks[k].hi] == text
  }

  /** One more mark in front. */
  lemma EraseHead(
    e: Engine, rm: BodyOp, body: Bytes, full: Bytes, mark: Match, rest: seq<Match>, last: nat, a: nat, start: nat)
    requires rm.kind == Remove && Erases(e, rm, body, rest, a, mark.hi, full)
    requires start <= mark.lo <= mark.hi <= |full| && last <= a <= |body| && full[start..mark.lo] == body[last..a]
    ensures Erases(e, rm, body, [mark] + rest, last, start, full)
  {
    var marks := [mark] + rest;
    assert marks[0] == mark && marks[1..] == rest;
    ReadyCons(mark, rest, start, |full|);
    var tail := SpliceFrom(e, rm, full, rest, mark.hi);
    assert SpliceFrom(e, rm, full, marks, start) == full[start..mark.lo] + [] + tail;
    hide SpliceFrom, Ordered, Ready;
    assert body[last..] == body[last..a] + body[a..];
  }

  lemma ReadyCons(mark: Match, rest: seq<Match>, start: nat, len: int)
    requires start <= mark.lo <= mark.hi <= len && Ready(rest, mark.hi, len)
    ensures Ready([mark] + rest, start, len)
  {
    var marks := [mark] + rest;
    forall i, j | 0 <= i < j < |marks| ensures marks[i].hi <= marks[j].lo {
      assert marks[j] == rest[j - 1];
      if i == 0 && j > 1 { assert rest[0].hi <= rest[j - 1].lo; }
    }
  }

  lemma EraseNone(e: Engine, op: BodyOp, rm: BodyOp, body: Bytes, last: nat, shift: nat, full: Bytes)
    requires Carries(e, op, body, [], last, shift, full)
    ensures Erases(e, rm, body, [], last, last + shift, full)
  {}

  lemma SpellsCons(full: Bytes, mark: Match, rest: seq<Match>, text: Bytes)
    requires Spells(full, rest, text) && mark.lo <= mark.hi <= |full| && full[mark.lo..mark.hi] == text
    ensures Spells(full, [mark] + rest, text)
  {}

  lemma {:induction false} EraseFrom(
    e: Engine, op: BodyOp, rm: BodyOp, body: Bytes, ms: seq<Match>, last: nat, shift: nat, full: Bytes)
    requires Carries(e, op, body, ms, last, shift, full) && rm.kind == Remove
    ensures Erases(e, rm, body, Marks(op, ms, shift), last, last + shift, full)
    ensures Spells(full, Marks(op, ms, shift), op.text) && |Marks(op, ms, shift)| == |ms|
    decreases |ms|
  {
    hide Carries, Erases, SpliceFrom, Ordered, Ready;
    if ms == [] {
      EraseNone(e, op, rm, body, last, shift, full);
    } else {
      var a, l := Anchor(op, ms[0]), |op.text|;
      var mark, rest := Match(a + shift, a + shift + l, []), Marks(op, ms[1..], shift + l);
      assert Marks(op, ms, shift) == [mark] + rest;
      hide Marks;
      CarriesNext(e, op, body, ms, last, shift, full);
      EraseFrom(e, op, rm, body, ms[1..], a, shift + l, full);
      hide Spells, Anchor;
      assert mark.hi == a + (shift + l);
      EraseHead(e, rm, body, full, mark, rest, last, a, last + shift);
      SpellsCons(full, mark, rest, op.text);
    }
  }

  /** Both inserts can be undone: the copies of the text stand where Marks says, and removing
      them from the output gives back the body. */
  lemma InsertThenErase(e: Engine, op: BodyOp, rm: BodyOp, body: Bytes, ms: seq<Match>)
    requires Inserts(op) && rm.kind == Remove && Ordered(ms, |body|)
    ensures var out, marks := Spliced(e, op, body, ms), Marks(op, ms, 0);
      && Ordered(marks, |out|) && |marks| == |ms|
      && Spliced(e, rm, out, marks) == body
      && Spells(out, marks, op.text)
  {
    var out := Spliced(e, op, body, ms);
    assert out[0..] == out && body[0..] == body;
    assert Carries(e, op, body, ms, 0, 0, out);
    hide Carries, SpliceFrom, Marks;
    EraseFrom(e, op, rm, body, ms, 0, 0, out);
  }

  // ---- a library that obeys the contract ----

  /** The first `k` occurrences of a literal pattern at or after `from`. */
  function FindLiteral(pat: string, body: Bytes, from: nat, k: nat): seq<Match>
    requires from <= |body|
    decreases |body| - from
  {
    if k == 0 || pat == "" || from + |pat| > |body| then []
    else if body[from..from + |pat|] == pat then
      [Match(from, from + |pat|, [])] + FindLiteral(pat, body, from + |pat|, k - 1)
    else FindLiteral(pat, body, from + 1, k)
  }

  function LiteralEngine(): Engine {
    Engine(p => p != "", (p: string, b: Bytes, k: nat) => FindLiteral(p, b, 0, k), (p, to, b, m) => to)
  }

  lemma {:induction false} LiteralOrdered(pat: string, body: Bytes, from: nat, k: nat)
    requires from <= |body|
    ensures Ready(FindLiteral(pat, body, from, k), from, |body|) && |FindLiteral(pat, body, from, k)| <= k
    decreases |body| - from
  {
    if k == 0 || pat == "" || from + |pat| > |body| {
    } else if body[from..from + |pat|] == pat {
      LiteralOrdered(pat, body, from + |pat|, k - 1);
      ReadyCons(Match(from, from + |pat|, []), FindLiteral(pat, body, from + |pat|, k - 1), from, |body|);
    } else {
      LiteralOrdered(pat, body, from + 1, k);
    }
  }

  lemma {:induction false} LiteralPrefix(pat: string, body: Bytes, from: nat, j: nat, k: nat)
    requires from <= |body| && j <= k
    ensures FindLiteral(pat, body, from, j) ==
      FindLiteral(pat, body, from, k)[..Min(j, |FindLiteral(pat, body, from, k)|)]
    decreases |body| - from
  {
    if j == 0 || pat == "" || from + |pat| > |body| {
    } else if body[from..from + |pat|] == pat {
      LiteralPrefix(pat, body, from + |pat|, j - 1, k - 1);
    } else {
      LiteralPrefix(pat, body, from + 1, j, k);
    }
  }

  /** The contract can be met: literal search meets it. */
  lemma LiteralIsLawful()
    ensures Lawful(LiteralEngine())
  {
    var e := LiteralEngine();
    forall p, b, k: nat ensures Ordered(e.findAll(p, b, k), |b|) && |e.findAll(p, b, k)| <= k {
      LiteralOrdered(p, b, 0, k);
    }
    forall p, b, j: nat, k: nat | j <= k
      ensures e.findAll(p, b, j) == e.findAll(p, b, k)[..Min(j, |e.findAll(p, b, k)|)]
    {
      LiteralPrefix(p, b, 0, j, k);
    }
  }
}
