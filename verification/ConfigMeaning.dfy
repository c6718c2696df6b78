/** What a profile must look like to be accepted, and which messages its groups are for, said in
    plain numbers, words and characters. */
module ConfigMeaning {
  import opened Config

  // ---- what validation accepts ----

  lemma HeaderOpIff(o: HeaderOp)
    ensures GoodHeaderOp(o) <==>
      && (o.kind == SetHeader || o.kind == UnsetHeader)
      && 0 < |o.name| < 129
      && (forall i :: 0 <= i < |o.name| ==>
            var c := o.name[i]; 'a' <= c <= 'z' || 'A' <= c <= 'Z' || '0' <= c <= '9' || c in "._~-")
      && Lower(o.name) !in [
           "host", "authorization", "cookie", "content-length", "transfer-encoding", "content-encoding", "connection",
           "upgrade", "keep-alive", "proxy-authenticate", "proxy-authorization", "te", "trailer", "location", "date"]
      && (o.kind == SetHeader ==>
            Lower(o.name) != "set-cookie" && forall i :: 0 <= i < |o.value| ==> o.value[i] !in "\r\n\0")
      && (o.kind == UnsetHeader ==> Lower(o.name) != "content-type" && o.value == "")
  {
    assert forall c: char :: c in "._~-" <==> c in {'.', '_', '~', '-'};
    assert forall c: char :: Lowercase(LowerChar(c)) <==> 'a' <= c <= 'z' || 'A' <= c <= 'Z';
    NoneOf(o.value);
  }

  lemma NoneOf(v: string)
    ensures (forall i :: 0 <= i < |v| ==> v[i] !in "\r\n\0") <==> '\r' !in v && '\n' !in v && '\0' !in v
  {
    assert forall c: char :: c in "\r\n\0" <==> c == '\r' || c == '\n' || c == '\0';
  }

  lemma BodyOpIff(compiles: string -> bool, o: BodyOp)
    ensures GoodBodyOp(compiles, o) <==>
      && o.kind in {Remove, Replace, InsertBefore, InsertAfter}
      && 1 <= |o.pattern| <= 512 && compiles(o.pattern)
      && (o.to != "" ==> o.kind == Replace)
      && (o.text != "" ==> o.kind != Replace)
      && (o.text == "" ==> o.kind in {Remove, Replace})
      && 0 <= o.maxMatches <= 4096
  {}

  lemma RuleIff(r: PriorRule)
    ensures GoodRule(r) <==>
      && r.from !in ["", "*"] && r.accept != []
      && forall v :: v in r.accept ==> v in {Mutate, Skip}
  {
    assert forall i :: 0 <= i < |r.accept| ==> r.accept[i] in r.accept;
  }

  lemma SelectorsIff(g: Group)
    ensures GoodSelectors(g) <==>
      && !g.on.OtherPhase?
      && (g.on == OnFrame ==>
            && g.headers == [] && g.status == [] && g.contentType == []
            && (forall d :: d in g.direction ==> d in ["c2s", "s2c"])
            && (forall o :: o in g.opcode ==> o in ["text", "binary", "continuation"]))
      && (g.on != OnFrame ==> g.direction == [] && g.opcode == [])
  {
    assert forall i :: 0 <= i < |g.direction| ==> g.direction[i] in g.direction;
    assert forall i :: 0 <= i < |g.opcode| ==> g.opcode[i] in g.opcode;
  }

  lemma GroupIff(compiles: string -> bool, g: Group)
    ensures GoodGroup(compiles, g) <==>
      && 0 < |g.body| + |g.headers| < 33
      && GoodSelectors(g)
      && (forall s :: s in g.status ==> 99 < s < 600)
      && (forall o :: o in g.body ==> GoodBodyOp(compiles, o))
      && (forall o :: o in g.headers ==> GoodHeaderOp(o))
  {
    hide GoodSelectors, GoodBodyOp, GoodHeaderOp;
    assert forall i :: 0 <= i < |g.status| ==> g.status[i] in g.status;
    assert forall i :: 0 <= i < |g.body| ==> g.body[i] in g.body;
    assert forall i :: 0 <= i < |g.headers| ==> g.headers[i] in g.headers;
  }

  lemma NameIff(s: string)
    ensures GoodName(s) <==>
      && 0 < |s| < 65
      && (forall i :: 0 <= i < |s| ==> 'a' <= s[i] <= 'z' || '0' <= s[i] <= '9' || s[i] in "_-")
      && !('0' <= s[0] <= '9') && s[0] != '-'
  {
    assert forall c: char :: c in "_-" <==> c == '_' || c == '-';
  }

  lemma ProfileIff(compiles: string -> bool, p: Profile)
    ensures GoodProfile(compiles, p) <==>
      && p.mode in {Enforce, Observe, Off} && p.denyResponse != "" && |p.groups| < 17
      && (forall g :: g in p.groups ==> GoodName(g.name) && GoodGroup(compiles, g))
      && (forall i, j :: 0 <= i < |p.groups| && 0 <= j < |p.groups| && p.groups[i].name == p.groups[j].name ==> i == j)
      && (forall r :: r in p.prior ==> GoodRule(r))
  {
    hide GoodName, GoodGroup, GoodRule;
    assert forall i :: 0 <= i < |p.groups| ==> p.groups[i] in p.groups;
    assert forall i :: 0 <= i < |p.prior| ==> p.prior[i] in p.prior;
  }

  /** The defaults: 256 matches, the response phase, and text frames; nothing else is touched. */
  lemma FilledMeans(p: Profile, i: nat, j: nat)
    requires i < |p.groups|
    ensures var q := Filled(p); var g, f := p.groups[i], q.groups[i];
      && q == p.(groups := q.groups) && |q.groups| == |p.groups|
      && f == g.(on := f.on, opcode := f.opcode, body := f.body)
      && f.on == (if g.on == Unset then OnResponse else g.on)
      && f.opcode == (if g.on == OnFrame && g.opcode == [] then ["text"] else g.opcode)
      && |f.body| == |g.body|
      && (j < |g.body| ==>
            var o := g.body[j];
            f.body[j] == o.(maxMatches := if o.maxMatches == 0 then 256 else o.maxMatches))
  {}

  // ---- words ----

  predicate Blank(c: char) { c == ' ' || c == '\t' || c == '\n' || c == '\r' }

  predicate Blanks(s: string) { forall i :: 0 <= i < |s| ==> Blank(s[i]) }

  /** Upper-case letters become their small ones, and nothing else changes. */
  lemma LowerMeans(s: string)
    ensures |Lower(s)| == |s|
    ensures forall i :: 0 <= i < |s| ==>
      Lower(s)[i] == if 'A' <= s[i] <= 'Z' then "abcdefghijklmnopqrstuvwxyz"[s[i] as int - 'A' as int] else s[i]
  {
    forall i | 0 <= i < |s|
      ensures Lower(s)[i] == if 'A' <= s[i] <= 'Z' then "abcdefghijklmnopqrstuvwxyz"[s[i] as int - 'A' as int] else s[i]
    {
      if 'A' <= s[i] <= 'Z' { Letter(s[i] as int - 'A' as int); }
    }
  }

  lemma Letter(k: nat)
    requires k < 26
    ensures "abcdefghijklmnopqrstuvwxyz"[k] == (('a' as int + k) as char)
  {}

  lemma LowerConcat(a: string, b: string)
    ensures Lower(a + b) == Lower(a) + Lower(b)
  {}

  lemma LowerBlanks(s: string)
    requires Blanks(s)
    ensures Lower(s) == s
  {}

  lemma {:induction false} TrimLeftBlanks(a: string, b: string)
    requires Blanks(a) && b != "" && !Blank(b[0])
    ensures TrimLeft(a + b) == b
    decreases |a|
  {
    if a == "" {
      assert a + b == b;
    } else {
      TrimLeftBlanks(a[1..], b);
      assert (a + b)[1..] == a[1..] + b;
    }
  }

  lemma {:induction false} TrimRightBlanks(a: string, b: string)
    requires Blanks(b) && a != "" && !Blank(a[|a| - 1])
    ensures TrimRight(a + b) == a
    decreases |b|
  {
    if b == "" {
      assert a + b == a;
    } else {
      TrimRightBlanks(a, b[..|b| - 1]);
      assert (a + b)[..|a + b| - 1] == a + b[..|b| - 1];
    }
  }

  /** A text after a character that is not blank loses only an end of its own. */
  lemma {:induction false} TrimRightAfter(a: string, b: string) returns (b': string)
    requires a != "" && !Blank(a[|a| - 1])
    ensures TrimRight(a + b) == a + b'
    decreases |b|
  {
    if b == "" {
      b' := "";
      assert a + b == a;
    } else if Blank(b[|b| - 1]) {
      b' := TrimRightAfter(a, b[..|b| - 1]);
      assert (a + b)[..|a + b| - 1] == a + b[..|b| - 1];
    } else {
      b' := b;
    }
  }

  lemma {:induction false} UpToFirst(a: string, c: char, b: string)
    requires c !in a && (b == "" || b[0] == c)
    ensures UpTo(a + b, c) == a
    decreases |a|
  {
    if a == "" {
      assert a + b == b;
    } else {
      UpToFirst(a[1..], c, b);
      assert (a + b)[1..] == a[1..] + b;
    }
  }

  // ---- which messages a group is for ----

  /** A media type in a header: no blank at its ends and no semicolon. */
  predicate MediaType(base: string) {
    base != "" && !Blank(base[0]) && !Blank(base[|base| - 1]) && ';' !in base
  }

  /** `base` is one of the wanted types, or ends with a wanted suffix. */
  predicate Wants(want: seq<string>, base: string) {
    want == [] || exists i :: 0 <= i < |want| && Fits(Lower(Trim(want[i])), base)
  }

  predicate Fits(w: string, base: string) {
    base == w || (w != "" && w[0] == '+' && |w| <= |base| && base[|base| - |w|..] == w)
  }

  /** Whatever blanks surround it, whatever its case and whatever parameters follow it, a content
      type is allowed exactly if its media type is wanted. */
  lemma TypeMeans(want: seq<string>, l: string, base: string, r: string, params: string)
    requires MediaType(base) && Blanks(l) && Blanks(r)
    ensures TypeAllowed(want, l + base + r + ";" + params) <==> Wants(want, Lower(base))
    ensures TypeAllowed(want, l + base + r) <==> Wants(want, Lower(base))
  {
    BareType(l, base, r);
    TypeWithParams(l, base, r, params);
    TypeIsWanted(want, Lower(base));
    hide Trim, UpTo, Lower, Wants, TypeIs;
  }

  lemma BareType(l: string, base: string, r: string)
    requires MediaType(base) && Blanks(l) && Blanks(r)
    ensures Trim(UpTo(Lower(Trim(l + base + r)), ';')) == Lower(base)
  {
    LowerKeeps(base);
    assert l + base + r == l + (base + r);
    TrimLeftBlanks(l, base + r);
    TrimRightBlanks(base, r);
    UpToFirst(Lower(base), ';', "");
    assert Lower(base) + "" == Lower(base);
    TrimPlain(Lower(base));
  }

  lemma TypeWithParams(l: string, base: string, r: string, params: string)
    requires MediaType(base) && Blanks(l) && Blanks(r)
    ensures Trim(UpTo(Lower(Trim(l + base + r + ";" + params)), ';')) == Lower(base)
  {
    LowerKeeps(base);
    LowerBlanks(r);
    var small, head := Lower(base), base + r + ";";
    assert l + base + r + ";" + params == l + (head + params);
    TrimLeftBlanks(l, head + params);
    var p' := TrimRightAfter(head, params);
    LowerParts(base, r, p');
    hide TrimLeft, TrimRight, Lower;
    UpToFirst(small + r, ';', ";" + Lower(p'));
    TrimLeftBlanks("", small + r);
    assert "" + (small + r) == small + r;
    TrimRightBlanks(small, r);
  }

  lemma LowerParts(base: string, r: string, p: string)
    requires Blanks(r)
    ensures Lower(base + r + ";" + p) == (Lower(base) + r) + (";" + Lower(p))
  {
    LowerConcat(base + r + ";", p);
    LowerConcat(base + r, ";");
    LowerConcat(base, r);
    LowerBlanks(r);
    assert Lower(";") == ";";
  }

  lemma LowerKeeps(base: string)
    requires MediaType(base)
    ensures MediaType(Lower(base))
  {
    var s := Lower(base);
    assert forall c: char :: LowerChar(c) == ';' <==> c == ';';
    assert forall c: char :: Blank(LowerChar(c)) <==> Blank(c);
  }

  lemma TrimPlain(s: string)
    requires MediaType(s)
    ensures Trim(s) == s
  {}

  lemma TypeIsWanted(want: seq<string>, base: string)
    ensures (|want| == 0 || exists i :: 0 <= i < |want| && TypeIs(base, Lower(Trim(want[i])))) <==> Wants(want, base)
  {}

  /** A response group is for the statuses and types it lists, and for all where it lists none. */
  lemma ResponseMeans(g: Group, status: int, contentType: string)
    ensures Matches(g, status, contentType) <==>
      && (g.status == [] || exists i :: 0 <= i < |g.status| && g.status[i] == status)
      && TypeAllowed(g.contentType, contentType)
    ensures g.contentType == [] ==> TypeAllowed(g.contentType, contentType)
  {}

  /** The same word, whatever the case of its letters. */
  predicate SameWord(a: string, b: string) {
    |a| == |b| && forall i :: 0 <= i < |a| ==> LowerChar(a[i]) == LowerChar(b[i])
  }

  predicate Lists(list: seq<string>, word: string) { exists i :: 0 <= i < |list| && SameWord(list[i], word) }

  /** A frame group is for the directions and opcodes it lists, and for all where it lists none. */
  lemma FrameMeans(g: Group, direction: string, opcode: string)
    ensures MatchesFrame(g, direction, opcode) <==>
      (g.direction == [] || Lists(g.direction, direction)) && (g.opcode == [] || Lists(g.opcode, opcode))
  {
    forall a, b ensures Lower(a) == Lower(b) <==> SameWord(a, b) {
      if Lower(a) == Lower(b) {
        assert |a| == |Lower(a)| == |b|;
        forall i | 0 <= i < |a| ensures LowerChar(a[i]) == LowerChar(b[i]) { assert Lower(a)[i] == Lower(b)[i]; }
      }
    }
  }

  /** The limits of the rewriter. */
  lemma Limits()
    ensures MATCH_BUDGET == 4096 && DEFAULT_MAX_MATCH == 256 && MAX_MATCHES_PER_OP == 4096
  {}
}
