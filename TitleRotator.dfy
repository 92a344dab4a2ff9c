/**
  The hero section's title rotator: a fixed list of title items, each with an
  `active` class, and the index of the item to show next. Each tick of the
  rotation clears every item's `active` class, sets it on the item at the
  current index, and moves the index on by one, wrapping at the end.
 */
module TitleRotator {

  /** The flags after a tick that showed item `k` of `n`: only `k` is set. */
  function OnlyActive(n: nat, k: nat): (flags: seq<bool>)
    requires k < n
    ensures |flags| == n && flags[k]
    ensures forall i :: 0 <= i < n && i != k ==> !flags[i]
  {
    seq(n, i => i == k)
  }

  /** The index that follows `k` in a list of `n` items. */
  function Next(k: nat, n: nat): (r: nat)
    requires k < n
    ensures r < n
    ensures r == 0 <==> k == n - 1
  {
    (k + 1) % n
  }

  /** The index after `ticks` ticks that started at index `k`. */
  function IndexAfter(k: nat, n: nat, ticks: nat): (r: nat)
    requires k < n
    ensures r < n
  {
    if ticks == 0 then k else Next(IndexAfter(k, n, ticks - 1), n)
  }

  /** Ticks move the index round the list: from `k`, `ticks` ticks reach
      `(k + ticks) % n`, so the list is visited in order and cyclically. */
  lemma {:induction false} IndexAfterIsModular(k: nat, n: nat, ticks: nat)
    requires k < n
    ensures IndexAfter(k, n, ticks) == (k + ticks) % n
  {
    if ticks > 0 {
      IndexAfterIsModular(k, n, ticks - 1);
      ModSucc(k + ticks - 1, n);
      var prev := (k + ticks - 1) % n;
      assert IndexAfter(k, n, ticks) == (prev + 1) % n;
      if prev + 1 == n {
        ModUnique(prev + 1, n, 1, 0);
      } else {
        ModUnique(prev + 1, n, 0, prev + 1);
      }
    }
  }

  /** `%` is determined by any quotient-and-remainder split. */
  lemma ModUnique(x: int, n: int, q: int, r: int)
    requires n > 0 && 0 <= r < n && x == q * n + r
    ensures x % n == r
  {
    var d := x / n - q;
    assert d * n == r - x % n;
    MultipleInOpenRange(d, n);
  }

  /** The only multiple of `n` strictly between `-n` and `n` is zero. */
  lemma MultipleInOpenRange(d: int, n: int)
    requires n > 0 && -n < d * n < n
    ensures d == 0
  {
  }

  /** Adding one to `x` adds one to its remainder, wrapping at `n`. */
  lemma ModSucc(x: nat, n: nat)
    requires n > 0
    ensures (x + 1) % n == if x % n + 1 == n then 0 else x % n + 1
  {
    var q, r := x / n, x % n;
    if r + 1 == n {
      ModUnique(x + 1, n, q + 1, 0);
    } else {
      ModUnique(x + 1, n, q, r + 1);
    }
  }

  /** With four items the items shown by the first five ticks are 0, 1, 2,
      3 and then 0 again. */
  lemma FourItemsCycle()
    ensures IndexAfter(0, 4, 0) == 0 && IndexAfter(0, 4, 1) == 1
    ensures IndexAfter(0, 4, 2) == 2 && IndexAfter(0, 4, 3) == 3
    ensures IndexAfter(0, 4, 4) == 0
  {
  }

  class Rotator {
    /** Whether each title item carries the `active` class. */
    const items: array<bool>
    /** The index of the item the next tick shows. */
    var currentIndex: nat

    ghost predicate Valid()
      reads this
    {
      items.Length > 0 && currentIndex < items.Length
    }

    /** The rotator as the page sets it up: the items keep whatever classes
        the markup gave them, and the first tick will show item 0. */
    constructor (initial: seq<bool>)
      requires |initial| > 0
      ensures Valid() && fresh(items)
      ensures items[..] == initial && currentIndex == 0
    {
      items := new bool[|initial|](i requires 0 <= i < |initial| => initial[i]);
      currentIndex := 0;
    }

    /** One tick: afterwards exactly the item at the old index is active and
        the index has moved on by one, wrapping at the end of the list. */
    method Rotate()
      requires Valid()
      modifies this, items
      ensures Valid()
      ensures items[..] == OnlyActive(items.Length, old(currentIndex))
      ensures currentIndex == Next(old(currentIndex), items.Length)
    {
      var i := 0;
      while i < items.Length
        invariant 0 <= i <= items.Length
        invariant currentIndex == old(currentIndex)
        invariant forall j :: 0 <= j < i ==> !items[j]
      {
        items[i] := false;
        i := i + 1;
      }
      items[currentIndex] := true;
      currentIndex := (currentIndex + 1) % items.Length;
    }

    /** The startup delay's first tick followed by `ticks` interval ticks:
        afterwards the item shown is the one `ticks` places after the index
        the rotation started from. */
    method Run(ticks: nat)
      requires Valid()
      modifies this, items
      ensures Valid()
      ensures items[..] == OnlyActive(items.Length, IndexAfter(old(currentIndex), items.Length, ticks))
      ensures currentIndex == IndexAfter(old(currentIndex), items.Length, ticks + 1)
    {
      ghost var start := currentIndex;
      Rotate();
      var done := 0;
      while done < ticks
        invariant Valid() && 0 <= done <= ticks
        invariant items[..] == OnlyActive(items.Length, IndexAfter(start, items.Length, done))
        invariant currentIndex == IndexAfter(start, items.Length, done + 1)
      {
        Rotate();
        done := done + 1;
      }
    }
  }

  /** `initTitleRotator`: with no title items on the page there is no
      rotator; otherwise one over the items, starting at index 0. */
  method InitTitleRotator(initial: seq<bool>) returns (r: Rotator?)
    ensures r == null <==> |initial| == 0
    ensures r != null ==> fresh(r) && r.Valid() && fresh(r.items) && r.items[..] == initial && r.currentIndex == 0
  {
    if |initial| == 0 {
      return null;
    }
    r := new Rotator(initial);
  }

  /** The page's rotator over the given items: after the startup tick and
      `k - 1` interval ticks, that is on the `k`-th tick, exactly item
      `(k - 1) % n` is active. */
  method ShownOnTick(initial: seq<bool>, k: nat) returns (shown: seq<bool>)
    requires |initial| > 0 && k >= 1
    ensures shown == OnlyActive(|initial|, (k - 1) % |initial|)
  {
    var r := new Rotator(initial);
    r.Run(k - 1);
    IndexAfterIsModular(0, |initial|, k - 1);
    shown := r.items[..];
  }

  /** Four items shown through five ticks, as a client sees them. */
  method FourTitles()
  {
    var r := new Rotator([false, false, false, false]);
    r.Rotate();
    assert r.items[..] == [true, false, false, false];
    r.Rotate();
    assert r.items[..] == [false, true, false, false];
    r.Rotate();
    assert r.items[..] == [false, false, true, false];
    r.Rotate();
    assert r.items[..] == [false, false, false, true];
    r.Rotate();
    assert r.items[..] == [true, false, false, false];
  }
}
