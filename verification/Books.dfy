/** Bookkeeping for things that move between a queue, the hands of several holders and a
    list of finished things: `loc` is right about every thing, and nothing is in two places. */
module Books {
  import opened Seqs

  datatype Spot<K> = InQueue | Held(holder: K) | Finished

  datatype Book<T, K> = Book(loc: map<T, Spot<K>>, q: seq<T>, done: seq<T>, hands: map<K, seq<T>>)

  ghost predicate Justified<T(!new), K(!new)>(b: Book<T, K>, t: T)
    requires t in b.loc
  {
    match b.loc[t]
    case InQueue => t in b.q
    case Held(k) => k in b.hands && t in b.hands[k]
    case Finished => t in b.done
  }

  ghost predicate Balanced<T(!new), K(!new)>(b: Book<T, K>) {
    && NoDup(b.q)
    && NoDup(b.done)
    && (forall k :: k in b.hands ==> NoDup(b.hands[k]))
    && (forall t :: t in b.q ==> t in b.loc && b.loc[t] == InQueue)
    && (forall t :: t in b.done ==> t in b.loc && b.loc[t] == Finished)
    && (forall k, t :: k in b.hands && t in b.hands[k] ==> t in b.loc && b.loc[t] == Held(k))
    && (forall t :: t in b.loc ==> Justified(b, t))
  }

  function Moved<T, K>(loc: map<T, Spot<K>>, ts: seq<T>, p: Spot<K>): map<T, Spot<K>> {
    map t | t in loc :: if t in ts then p else loc[t]
  }

  /** A new thing appears in the empty hand of a new holder. */
  lemma Arrive<T(!new), K(!new)>(b: Book<T, K>, t: T, k: K)
    requires Balanced(b) && t !in b.loc && k !in b.hands
    ensures Balanced(b.(loc := b.loc[t := Held(k)], hands := b.hands[k := [t]]))
  {
    var b' := b.(loc := b.loc[t := Held(k)], hands := b.hands[k := [t]]);
    forall x | x in b'.loc ensures Justified(b', x) {
      if x != t { assert Justified(b, x); }
    }
  }

  /** Some of the queue moves into a hand, in front of what that hand holds. */
  lemma Grab<T(!new), K(!new)>(b: Book<T, K>, live: seq<T>, dead: seq<T>, k: K, hand: seq<T>)
    requires Balanced(b) && k in b.hands && hand == dead + b.hands[k]
    requires NoDup(live) && NoDup(dead)
    requires forall t :: t in live <==> t in b.q && t !in dead
    requires forall t :: t in dead ==> t in b.q
    ensures Balanced(b.(loc := Moved(b.loc, dead, Held(k)), q := live, hands := b.hands[k := hand]))
  {
    var b' := b.(loc := Moved(b.loc, dead, Held(k)), q := live, hands := b.hands[k := hand]);
    forall t | t in dead ensures t !in b.hands[k] && t !in b.done {}
    forall i, j | 0 <= i < j < |hand| ensures hand[i] != hand[j] {
      if i < |dead| && j >= |dead| { assert hand[i] in dead && hand[j] in b.hands[k]; }
    }
    forall x | x in b'.loc ensures Justified(b', x) { assert Justified(b, x); }
    forall o, t | o in b'.hands && t in b'.hands[o] ensures t in b'.loc && b'.loc[t] == Held(o) {
      if o != k { assert t in b.hands[o]; }
    }
  }

  /** The head of the queue moves to the end of a hand. */
  lemma TakeHead<T(!new), K(!new)>(b: Book<T, K>, k: K, hand: seq<T>)
    requires Balanced(b) && k in b.hands && b.q != [] && hand == b.hands[k] + [b.q[0]]
    ensures Balanced(b.(loc := b.loc[b.q[0] := Held(k)], q := b.q[1..], hands := b.hands[k := hand]))
  {
    var t := b.q[0];
    var b' := b.(loc := b.loc[t := Held(k)], q := b.q[1..], hands := b.hands[k := hand]);
    assert t in b.q && b.loc[t] == InQueue;
    assert t !in b.hands[k];
    forall x | x in b.q[1..] ensures x in b.q && x != t {}
    forall x | x in b'.loc ensures Justified(b', x) {
      if x != t {
        assert Justified(b, x);
        if b.loc[x] == InQueue { var i :| 0 <= i < |b.q| && b.q[i] == x; assert b.q[1..][i - 1] == x; }
      } else { assert hand[|hand| - 1] == t; }
    }
    forall o, x | o in b'.hands && x in b'.hands[o] ensures x in b'.loc && b'.loc[x] == Held(o) {
      if o != k { assert x in b.hands[o]; }
    }
  }

  /** The only thing in a hand moves to the end of the queue. */
  lemma Append<T(!new), K(!new)>(b: Book<T, K>, t: T, k: K)
    requires Balanced(b) && k in b.hands && b.hands[k] == [t]
    ensures Balanced(b.(loc := b.loc[t := InQueue], q := b.q + [t], hands := b.hands[k := []]))
  {
    var b' := b.(loc := b.loc[t := InQueue], q := b.q + [t], hands := b.hands[k := []]);
    assert t in b.hands[k] && b.loc[t] == Held(k);
    forall x | x in b'.loc ensures Justified(b', x) {
      if x == t { assert b'.q[|b.q|] == t; } else { assert Justified(b, x); }
    }
    forall o, x | o in b'.hands && x in b'.hands[o] ensures x in b'.loc && b'.loc[x] == Held(o) {
      assert x in b.hands[o];
    }
  }

  /** The first thing in a hand is finished. */
  lemma Finish<T(!new), K(!new)>(b: Book<T, K>, t: T, k: K, hand: seq<T>)
    requires Balanced(b) && k in b.hands && b.hands[k] == [t] + hand
    ensures Balanced(b.(loc := b.loc[t := Finished], done := b.done + [t], hands := b.hands[k := hand]))
  {
    var b' := b.(loc := b.loc[t := Finished], done := b.done + [t], hands := b.hands[k := hand]);
    assert b.hands[k][0] == t && b.loc[t] == Held(k);
    forall i | 0 <= i < |hand| ensures hand[i] == b.hands[k][i + 1] {}
    assert t !in hand;
    forall x | x in b'.loc ensures Justified(b', x) {
      if x == t { assert b'.done[|b.done|] == t; } else { assert Justified(b, x); }
    }
    forall o, x | o in b'.hands && x in b'.hands[o] ensures x in b'.loc && b'.loc[x] == Held(o) {
      assert x in b.hands[o];
    }
  }
}
