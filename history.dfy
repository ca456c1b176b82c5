/** The constellation histories: each update is `[...prev.slice(-50), x]`,
    so a history keeps the newest 51 entries at most, oldest first. */
module History {

  /** The number of old entries that `slice(-50)` keeps. */
  const KEPT: nat := 50

  /** The last `min(k, |s|)` entries of `s` (`s.slice(-k)` for k > 0). */
  function Last<T>(s: seq<T>, k: nat): (r: seq<T>)
    ensures |r| == if |s| < k then |s| else k
    ensures forall i :: 0 <= i < |r| ==> r[i] == s[|s| - |r| + i]
  {
    if |s| <= k then s else s[|s| - k..]
  }

  /** `[...prev.slice(-50), x]`: the newest 50 entries of `h` in their
      order, then `x`. */
  function Push<T>(h: seq<T>, x: T): (r: seq<T>)
  {
    Last(h, KEPT) + [x]
  }

  /** One `Push` after another, in order. */
  function PushAll<T>(h: seq<T>, xs: seq<T>): seq<T> {
    if |xs| == 0 then h
    else Push(PushAll(h, xs[..|xs| - 1]), xs[|xs| - 1])
  }

  /** A push adds the new entry last, keeps what came before it in order, and
      never leaves more than 51 entries. */
  lemma PushShape<T>(h: seq<T>, x: T)
    ensures var r := Push(h, x);
      && |r| == (if |h| < KEPT then |h| else KEPT) + 1
      && |r| <= KEPT + 1
      && r[|r| - 1] == x
      && r[..|r| - 1] == Last(h, KEPT)
  {
    var r := Push(h, x);
    assert r[..|r| - 1] == Last(h, KEPT);
  }

  lemma LastOfLast<T>(s: seq<T>, j: nat, k: nat)
    requires j <= k
    ensures Last(Last(s, k), j) == Last(s, j)
  {
  }

  lemma LastSnoc<T>(s: seq<T>, x: T, k: nat)
    ensures Last(s, k) + [x] == Last(s + [x], k + 1)
  {
    var l, r := Last(s, k) + [x], Last(s + [x], k + 1);
    assert |l| == |r|;
    forall i | 0 <= i < |l|
      ensures l[i] == r[i]
    {
      if i < |l| - 1 {
        assert l[i] == Last(s, k)[i];
      }
    }
  }

  /** A push is the newest 51 entries of the history with the new entry
      appended, provided the history held no more than 51 before it. */
  lemma PushIsWindow<T>(h: seq<T>, x: T)
    requires |h| <= KEPT + 1
    ensures Push(h, x) == Last(h + [x], KEPT + 1)
  {
    LastSnoc(h, x, KEPT);
  }

  /** Any run of pushes onto a history of at most 51 entries leaves exactly
      the newest 51 entries of the history followed by the pushed entries.
      In particular nothing pushed is lost until 51 newer entries follow it,
      and the order of arrival is kept. */
  lemma {:induction false} PushAllIsWindow<T>(h: seq<T>, xs: seq<T>)
    requires |h| <= KEPT + 1
    ensures PushAll(h, xs) == Last(h + xs, KEPT + 1)
  {
    if |xs| > 0 {
      var n := |xs| - 1;
      var init, x := xs[..n], xs[n];
      PushAllIsWindow(h, init);
      var p := PushAll(h, init);
      assert p == Last(h + init, KEPT + 1);
      calc {
        PushAll(h, xs);
        Push(p, x);
        Last(p, KEPT) + [x];
        { LastOfLast(h + init, KEPT, KEPT + 1); }
        Last(h + init, KEPT) + [x];
        { LastSnoc(h + init, x, KEPT); }
        Last(h + init + [x], KEPT + 1);
        { assert h + init + [x] == h + xs; }
        Last(h + xs, KEPT + 1);
      }
    }
  }

  /** Pushing a concatenation is pushing its parts one after the other. */
  lemma {:induction false} PushAllAppend<T>(h: seq<T>, xs: seq<T>, ys: seq<T>)
    ensures PushAll(h, xs + ys) == PushAll(PushAll(h, xs), ys)
  {
    if |ys| == 0 {
      assert xs + ys == xs;
    } else {
      var n := |ys| - 1;
      PushAllAppend(h, xs, ys[..n]);
      assert (xs + ys)[..|xs + ys| - 1] == xs + ys[..n];
      assert (xs + ys)[|xs + ys| - 1] == ys[n];
    }
  }

  /** A history that held at most 51 entries still does after any pushes. */
  lemma PushAllBounded<T>(h: seq<T>, xs: seq<T>)
    requires |h| <= KEPT + 1
    ensures |PushAll(h, xs)| <= KEPT + 1
  {
    PushAllIsWindow(h, xs);
  }
}
