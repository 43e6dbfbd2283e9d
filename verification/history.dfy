/**
 * The bounded per-session history: an ordered list of at most MAXSIZE
 * messages, appended at the tail, with the oldest message dropped from the
 * head once the list grows past MAXSIZE.
 */
module History {

  /** Capacity of a session's history. */
  const MAXSIZE: nat := 15

  function Min(a: int, b: int): (m: int)
  {
    if a <= b then a else b
  }

  /**
   * One append-then-trim step: add `e` at the tail; if the list is then
   * longer than MAXSIZE, drop its first element.
   */
  function Push<T>(h: seq<T>, e: T): (r: seq<T>)
    ensures |h| <= MAXSIZE ==> |r| <= MAXSIZE
    ensures |r| == if |h| < MAXSIZE then |h| + 1 else |h|
    ensures r == (h + [e])[|h| + 1 - |r|..]
    ensures r[|r| - 1] == e
  {
    var q := h + [e];
    if |q| > MAXSIZE then q[1..] else q
  }

  /** The result of appending every element of `xs`, in order, to `h`. */
  function PushAll<T>(h: seq<T>, xs: seq<T>): (r: seq<T>)
    decreases |xs|
  {
    if xs == [] then h else PushAll(Push(h, xs[0]), xs[1..])
  }

  /** The last min(|s|, MAXSIZE) elements of `s`, in their order in `s`. */
  function Newest<T>(s: seq<T>): (r: seq<T>)
    ensures |r| == Min(|s|, MAXSIZE)
    ensures r == s[|s| - |r|..]
  {
    if |s| <= MAXSIZE then s else s[|s| - MAXSIZE..]
  }

  /** Dropping a prefix that the window does not reach changes nothing. */
  lemma NewestOfSuffix<T>(s: seq<T>, k: nat)
    requires k <= |s| && |s| - k >= Min(|s|, MAXSIZE)
    ensures Newest(s[k..]) == Newest(s)
  {
    if |s| <= MAXSIZE {
      assert s[k..] == s;
    } else {
      assert s[k..][|s| - k - MAXSIZE..] == s[|s| - MAXSIZE..];
    }
  }

  /** Taking the window first and then appending more gives the same window. */
  lemma NewestAbsorbs<T>(a: seq<T>, b: seq<T>)
    ensures Newest(Newest(a) + b) == Newest(a + b)
  {
    var k := |a| - |Newest(a)|;
    assert (a + b)[k..] == Newest(a) + b;
    NewestOfSuffix(a + b, k);
  }

  /** On a history that respects the capacity, one step keeps the newest MAXSIZE items. */
  lemma PushIsNewest<T>(h: seq<T>, e: T)
    requires |h| <= MAXSIZE
    ensures Push(h, e) == Newest(h + [e])
  {
  }

  /**
   * FIFO eviction: appending `xs` to a history within capacity leaves exactly
   * the newest MAXSIZE items of the old history followed by `xs`, oldest first.
   */
  lemma {:induction false} PushAllIsNewest<T>(h: seq<T>, xs: seq<T>)
    requires |h| <= MAXSIZE
    ensures PushAll(h, xs) == Newest(h + xs)
    decreases |xs|
  {
    if xs == [] {
      assert h + xs == h;
    } else {
      var h1 := Push(h, xs[0]);
      PushAllIsNewest(h1, xs[1..]);
      PushIsNewest(h, xs[0]);
      NewestAbsorbs(h + [xs[0]], xs[1..]);
      assert (h + [xs[0]]) + xs[1..] == h + xs;
    }
  }

  /**
   * After N appends to an empty history it holds the last min(N, MAXSIZE)
   * appended items in arrival order.
   */
  lemma {:induction false} AppendsFromEmpty<T>(xs: seq<T>)
    ensures |PushAll([], xs)| == Min(|xs|, MAXSIZE)
    ensures PushAll([], xs) == xs[|xs| - Min(|xs|, MAXSIZE)..]
  {
    var empty: seq<T> := [];
    PushAllIsNewest(empty, xs);
    assert empty + xs == xs;
  }

  /** Sixteen appends to an empty history: the first is evicted, the other fifteen remain in order. */
  lemma {:induction false} SixteenAppends<T>(xs: seq<T>)
    requires |xs| == MAXSIZE + 1
    ensures PushAll([], xs) == xs[1..]
  {
    AppendsFromEmpty(xs);
  }
}
