/** The 50-point chart trace `signalData`: built once with display times
    0..49 and then shifted by one point per tick. */
module Trace {
  import opened Signal

  /** `{ ...p, displayTime: d }`: the display time becomes d and every other
      field is copied. */
  function Relabel(p: SignalPoint, d: int): (q: SignalPoint)
    ensures q.displayTime == d
    ensures q.time == p.time && q.absoluteTime == p.absoluteTime
    ensures q.snr == p.snr && q.baseSignal == p.baseSignal && q.ber == p.ber
    ensures q.tx == p.tx && q.rx == p.rx && q.combinedSignal == p.combinedSignal
  {
    p.(displayTime := d)
  }

  /** The initial trace: the generated points with `displayTime: index`. */
  function Initial(points: seq<SignalPoint>): (t: seq<SignalPoint>)
    ensures |t| == |points|
    ensures forall i :: 0 <= i < |t| ==> t[i] == Relabel(points[i], i)
  {
    seq(|points|, i requires 0 <= i < |points| => Relabel(points[i], i))
  }

  /** The tick's updater: drop the oldest point and append the new one with
      the display time after the newest. An empty trace makes
      `prevData[prevData.length - 1].displayTime` throw, and the updater
      returns the trace unchanged. */
  function Advance(buf: seq<SignalPoint>, p: SignalPoint): (r: seq<SignalPoint>)
    ensures |r| == |buf|
    ensures |buf| == 0 ==> r == buf
    ensures 0 < |buf| ==> r[..|r| - 1] == buf[1..]
    ensures 0 < |buf| ==> r[|r| - 1] == Relabel(p, buf[|buf| - 1].displayTime + 1)
  {
    if |buf| == 0 then buf
    else buf[1..] + [Relabel(p, buf[|buf| - 1].displayTime + 1)]
  }

  /** Display times go up by one from each point to the next. */
  predicate Consecutive(buf: seq<SignalPoint>) {
    forall i :: 0 < i < |buf| ==> buf[i].displayTime == buf[i - 1].displayTime + 1
  }

  lemma InitialConsecutive(points: seq<SignalPoint>)
    ensures Consecutive(Initial(points))
    ensures forall i :: 0 <= i < |points| ==> Initial(points)[i].displayTime == i
  {
  }

  /** A tick keeps the display times consecutive, and moves the whole window
      on by one. */
  lemma AdvanceConsecutive(buf: seq<SignalPoint>, p: SignalPoint)
    requires Consecutive(buf)
    ensures Consecutive(Advance(buf, p))
    ensures 1 < |buf| ==> Advance(buf, p)[0].displayTime == buf[0].displayTime + 1
  {
    var r := Advance(buf, p);
    if 0 < |buf| {
      forall i | 0 < i < |r|
        ensures r[i].displayTime == r[i - 1].displayTime + 1
      {
        if i < |r| - 1 {
          assert r[i] == buf[i + 1] && r[i - 1] == buf[i];
        } else {
          assert r[i - 1] == buf[|buf| - 1];
        }
      }
    }
  }

  /** The trace after one tick per point of `ps`. */
  function AdvanceAll(buf: seq<SignalPoint>, ps: seq<SignalPoint>): seq<SignalPoint> {
    if |ps| == 0 then buf
    else Advance(AdvanceAll(buf, ps[..|ps| - 1]), ps[|ps| - 1])
  }

  /** The display times `last + 1`, `last + 2`, ... that successive ticks
      give to the points of `ps`. */
  function Stamped(ps: seq<SignalPoint>, last: int): (r: seq<SignalPoint>)
    ensures |r| == |ps|
    ensures forall j :: 0 <= j < |ps| ==> r[j] == Relabel(ps[j], last + 1 + j)
  {
    seq(|ps|, j requires 0 <= j < |ps| => Relabel(ps[j], last + 1 + j))
  }

  /** Each tick stamps its point one after the newest display time, so k
      ticks move the newest display time on by k. */
  lemma {:induction false} AdvanceAllNewest(buf: seq<SignalPoint>, ps: seq<SignalPoint>)
    requires 0 < |buf|
    ensures var r := AdvanceAll(buf, ps);
      |r| == |buf| && r[|r| - 1].displayTime == buf[|buf| - 1].displayTime + |ps|
  {
    if |ps| > 0 {
      AdvanceAllNewest(buf, ps[..|ps| - 1]);
    }
  }

  /** After k ticks on a trace of n >= k points, the trace is its newest
      n - k points followed by the k new points, stamped with the display
      times that follow the old newest one. */
  lemma {:induction false} AdvanceAllWindow(buf: seq<SignalPoint>, ps: seq<SignalPoint>)
    requires 0 < |buf| && |ps| <= |buf|
    ensures AdvanceAll(buf, ps) == buf[|ps|..] + Stamped(ps, buf[|buf| - 1].displayTime)
  {
    if |ps| > 0 {
      var n := |ps| - 1;
      var last := buf[|buf| - 1].displayTime;
      var prev := AdvanceAll(buf, ps[..n]);
      AdvanceAllWindow(buf, ps[..n]);
      AdvanceAllNewest(buf, ps[..n]);
      StampedSnoc(ps, last);
      AdvanceShape(prev, ps[n]);
      ShiftWindow(buf, n, Stamped(ps[..n], last), Relabel(ps[n], last + n + 1));
    }
  }

  /** Dropping the head of `buf[n..] + s` and appending x gives
      `buf[n + 1..] + (s + [x])`. */
  lemma ShiftWindow<T>(buf: seq<T>, n: nat, s: seq<T>, x: T)
    requires n < |buf|
    ensures (buf[n..] + s)[1..] + [x] == buf[n + 1..] + (s + [x])
  {
    assert (buf[n..] + s)[1..] == buf[n + 1..] + s;
  }

  lemma AdvanceShape(buf: seq<SignalPoint>, p: SignalPoint)
    requires 0 < |buf|
    ensures Advance(buf, p) == buf[1..] + [Relabel(p, buf[|buf| - 1].displayTime + 1)]
  {
  }

  lemma StampedSnoc(ps: seq<SignalPoint>, last: int)
    requires 0 < |ps|
    ensures var n := |ps| - 1;
      Stamped(ps, last) == Stamped(ps[..n], last) + [Relabel(ps[n], last + n + 1)]
  {
    var n := |ps| - 1;
    var l, r := Stamped(ps, last), Stamped(ps[..n], last) + [Relabel(ps[n], last + n + 1)];
    assert |l| == |r|;
    forall j | 0 <= j < |l|
      ensures l[j] == r[j]
    {
      if j < n {
        assert r[j] == Stamped(ps[..n], last)[j];
      }
    }
  }
}
