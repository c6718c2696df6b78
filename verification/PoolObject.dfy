/** The part of the pool that lives under its mutex, as the code keeps it: a slice of a buffer
    that is filtered in place, a closed flag and a counter.  Every method is one critical
    section; time is read by the caller and passed in, and the effect on the condition
    variable is returned. */
module PoolObject {
  import opened PoolQueue

  /** The filter of takeExpiredLocked: the kept tasks overwrite the front of the window, and the
      write index never passes the read index. */
  method Compact(c: Settings, a: array<Task>, lo: nat, n: nat, now: int) returns (kept: nat, dead: seq<Task>)
    requires lo + n <= a.Length
    modifies a
    ensures kept <= n && a[lo..lo + kept] == Live(c, old(a[lo..lo + n]), now)
    ensures dead == Dead(c, old(a[lo..lo + n]), now)
  {
    ghost var q := a[lo..lo + n];
    var i := 0;
    kept, dead := 0, [];
    while i < n
      invariant 0 <= kept <= i <= n
      invariant forall k :: i <= k < n ==> a[lo + k] == q[k]
      invariant kept == |Live(c, q[..i], now)|
      invariant forall k :: 0 <= k < kept ==> a[lo + k] == Live(c, q[..i], now)[k]
      invariant dead == Dead(c, q[..i], now)
    {
      var t := a[lo + i];
      assert q[..i + 1] == q[..i] + [t];
      LiveSnoc(c, q[..i], t, now);
      if LeftAt(c, t, now) < c.minBudget {
        dead := dead + [t];
      } else {
        a[lo + kept] := t;
        kept := kept + 1;
      }
      i := i + 1;
    }
    assert q[..n] == q;
  }

  /** A larger buffer with the same tasks at its front. */
  method Grown(a: array<Task>, lo: nat, n: nat) returns (b: array<Task>)
    requires lo + n <= a.Length
    ensures fresh(b) && b.Length > n && b[..n] == a[lo..lo + n]
  {
    b := new Task[2 * n + 1](_ => Task(0, 0, 0));
    var i := 0;
    while i < n
      invariant 0 <= i <= n
      invariant forall k :: 0 <= k < i ==> b[k] == a[lo + k]
    {
      b[i] := a[lo + i];
      i := i + 1;
    }
  }

  class Pool {
    const settings: Settings
    var buf: array<Task>
    var lo: nat
    var n: nat
    var closed: bool
    var accepted: nat

    ghost predicate Valid()
      reads this
    {
      lo + n <= buf.Length
    }

    ghost function Contents(): seq<Task>
      requires Valid()
      reads this, buf
    {
      buf[lo..lo + n]
    }

    constructor (c: Settings)
      ensures Valid() && fresh(buf) && settings == c
      ensures Contents() == [] && !closed && accepted == 0
    {
      settings := c;
      buf := new Task[Cap(c)](_ => Task(0, 0, 0));
      lo, n, closed, accepted := 0, 0, false, 0;
    }

    /** takeExpiredLocked: the kept tasks are written over the front of the same slice. */
    method TakeExpired(now: int) returns (dead: seq<Task>, wake: Wake)
      requires Valid()
      modifies this`n, buf
      ensures Valid()
      ensures Contents() == Live(settings, old(Contents()), now)
      ensures dead == Dead(settings, old(Contents()), now)
      ensures wake == if dead == [] then Nobody else All
    {
      n, dead := Compact(settings, buf, lo, n, now);
      wake := if |dead| > 0 then All else Nobody;
    }

    /** enqueueLocked: append, growing the buffer when its end is reached, and signal. */
    method Enqueue(t: Task) returns (wake: Wake)
      requires Valid()
      modifies this, buf
      ensures Valid() && (buf == old(buf) || fresh(buf))
      ensures Contents() == old(Contents()) + [t]
      ensures accepted == old(accepted) + 1 && closed == old(closed)
      ensures wake == One
    {
      if lo + n == buf.Length {
        var b := Grown(buf, lo, n);
        buf, lo := b, 0;
      }
      buf[lo + n] := t;
      n := n + 1;
      assert buf[lo..lo + n] == buf[lo..lo + n - 1] + [t];
      accepted := accepted + 1;
      wake := One;
    }

    /** One pass of the loop in pop. */
    method PopOnce(now: int) returns (dead: seq<Task>, r: PopResult, wake: Wake)
      requires Valid()
      modifies this`lo, this`n, buf
      ensures Valid()
      ensures r == PopVerdict(settings, old(Contents()), closed, now)
      ensures dead == Dead(settings, old(Contents()), now)
      ensures Contents() == PopQueue(settings, old(Contents()), now)
      ensures wake == PopWake(settings, old(Contents()), now)
    {
      dead, wake := TakeExpired(now);
      if n > 0 {
        ghost var live := Contents();
        r := Got(buf[lo]);
        lo, n := lo + 1, n - 1;
        assert Contents() == live[1..];
        wake := All;
      } else {
        r := if closed then Exit else if |dead| > 0 then Again else Sleep;
      }
    }

    /** The second critical section of Submit. */
    method TryEnter(t: Task) returns (r: EnterResult, wake: Wake)
      requires Valid()
      modifies this, buf
      ensures Valid() && (buf == old(buf) || fresh(buf)) && closed == old(closed)
      ensures r == EnterVerdict(settings, old(Contents()), closed)
      ensures Contents() == old(Contents()) + (if r == Accepted then [t] else [])
      ensures accepted == old(accepted) + (if r == Accepted then 1 else 0)
      ensures wake == if r == Accepted then One else Nobody
    {
      wake := Nobody;
      if closed {
        r := Refused;
      } else if n < Cap(settings) {
        wake := Enqueue(t);
        r := Accepted;
      } else {
        r := if settings.wait then MustWait else Shed;
      }
    }

    /** One pass of the wait loop in submitWaitLocked and, when the loop ends, what follows it. */
    method WaitOnce(t: Task, timedOut: bool, now: int) returns (r: LoopResult, dead: seq<Task>, wake: Wake)
      requires Valid()
      modifies this, buf
      ensures Valid() && (buf == old(buf) || fresh(buf)) && closed == old(closed)
      ensures r == LoopVerdict(settings, old(Contents()), closed, timedOut, now)
      ensures accepted == old(accepted) + (if r == Leave(Accepted) then 1 else 0)
      ensures match r
        case TakeDead =>
          && Contents() == Live(settings, old(Contents()), now)
          && dead == Dead(settings, old(Contents()), now) && wake == All
        case Doze => Contents() == old(Contents()) && dead == [] && wake == Nobody
        case Leave(e) =>
          && dead == [] && Contents() == old(Contents()) + (if e == Accepted then [t] else [])
          && wake == if e == Accepted then One else Nobody
    {
      dead, wake := [], Nobody;
      if n >= Cap(settings) && !timedOut && !closed {
        ghost var q := Contents();
        dead, wake := TakeExpired(now);
        if |dead| > 0 {
          r := TakeDead;
        } else {
          NoDeadIsLive(settings, q, now);
          r := Doze;
        }
      } else if closed {
        r := Leave(Refused);
      } else if n < Cap(settings) {
        wake := Enqueue(t);
        r := Leave(Accepted);
      } else {
        r := Leave(Refused);
      }
    }

    /** The critical section of Close. */
    method Close() returns (wake: Wake)
      requires Valid()
      modifies this`closed
      ensures Valid() && closed && Contents() == old(Contents()) && wake == All
    {
      closed := true;
      wake := All;
    }
  }
}
