/**
 * The motion detector behind `detect_user_input`: a bounded history of raw
 * samples per axis and the verdict "the mean change between adjacent
 * samples exceeds the threshold".
 */
module MotionDetector {
  import opened DriftConfig
  import opened Analog

  /** One `append` followed by the single `pop(0)` that keeps the list at capacity. */
  function Observe(h: seq<real>, v: real): (r: seq<real>)
    ensures |r| > 0 && r[|r| - 1] == v
    ensures |h| <= HistoryCapacity ==> |r| == if |h| < HistoryCapacity then |h| + 1 else HistoryCapacity
  {
    var appended := h + [v];
    if |appended| > HistoryCapacity then appended[1..] else appended
  }

  /** The last min(|vs|, HistoryCapacity) elements of `vs`, oldest first. */
  function Window(vs: seq<real>): (w: seq<real>)
    ensures |w| <= HistoryCapacity
  {
    if |vs| <= HistoryCapacity then vs else vs[|vs| - HistoryCapacity..]
  }

  /** The history after observing every value of `vs`, in order, starting from `h`. */
  function Feed(h: seq<real>, vs: seq<real>): seq<real>
    decreases |vs|
  {
    if vs == [] then h else Feed(Observe(h, vs[0]), vs[1..])
  }

  /** Observing one more value keeps the history equal to the window of everything seen. */
  lemma ObserveWindow(vs: seq<real>, v: real)
    ensures Observe(Window(vs), v) == Window(vs + [v])
  {
  }

  lemma {:induction false} FeedWindow(us: seq<real>, vs: seq<real>)
    ensures Feed(Window(us), vs) == Window(us + vs)
    decreases |vs|
  {
    if vs == [] {
      assert us + vs == us;
    } else {
      ObserveWindow(us, vs[0]);
      assert us + vs == (us + [vs[0]]) + vs[1..];
      FeedWindow(us + [vs[0]], vs[1..]);
    }
  }

  /** A history grown from empty holds exactly the last min(n, 10) values fed to it, in order. */
  lemma FeedFromEmpty(vs: seq<real>)
    ensures Feed([], vs) == Window(vs)
    ensures |Feed([], vs)| <= HistoryCapacity
  {
    assert Window([]) == [];
    FeedWindow([], vs);
    assert [] + vs == vs;
  }

  /** `abs(h[i] - h[i-1])`: how far sample `i` moved from its predecessor. */
  function Change(h: seq<real>, i: nat): real
    requires 1 <= i < |h|
  {
    Abs(h[i] - h[i - 1])
  }

  /** `sum(abs(h[i] - h[i-1]) for i in range(1, len(h)))`, accumulated left to right. */
  function SumChanges(h: seq<real>): (s: real)
    ensures s >= 0.0
    decreases |h|
  {
    if |h| < 2 then 0.0 else SumChanges(h[..|h| - 1]) + Change(h, |h| - 1)
  }

  /** The verdict of `detect_user_input` on the history it has just updated. */
  predicate IsMoving(h: seq<real>)
  {
    |h| > 2 && SumChanges(h) / ((|h| - 1) as real) > MotionThreshold
  }

  /** A history of identical samples has no change at all, so it never reads as movement. */
  lemma {:induction false} ConstantHistoryStill(h: seq<real>)
    requires forall i :: 0 <= i < |h| ==> h[i] == h[0]
    ensures SumChanges(h) == 0.0
    ensures !IsMoving(h)
    decreases |h|
  {
    if |h| >= 2 {
      ConstantHistoryStill(h[..|h| - 1]);
    }
  }

  lemma {:induction false} SumChangesAtLeast(h: seq<real>, d: real)
    requires |h| >= 1
    requires forall i :: 1 <= i < |h| ==> Change(h, i) >= d
    ensures SumChanges(h) >= d * ((|h| - 1) as real)
    decreases |h|
  {
    if |h| >= 2 {
      var p := h[..|h| - 1];
      forall i | 1 <= i < |p| ensures Change(p, i) == Change(h, i) {}
      SumChangesAtLeast(p, d);
      var k := (|p| - 1) as real;
      assert (|h| - 1) as real == k + 1.0;
      assert d * (k + 1.0) == d * k + d;
      assert SumChanges(h) == SumChanges(p) + Change(h, |h| - 1);
    }
  }

  lemma {:induction false} SumChangesAtMost(h: seq<real>, d: real)
    requires |h| >= 1
    requires forall i :: 1 <= i < |h| ==> Change(h, i) <= d
    ensures SumChanges(h) <= d * ((|h| - 1) as real)
    decreases |h|
  {
    if |h| >= 2 {
      var p := h[..|h| - 1];
      forall i | 1 <= i < |p| ensures Change(p, i) == Change(h, i) {}
      SumChangesAtMost(p, d);
      var k := (|p| - 1) as real;
      assert (|h| - 1) as real == k + 1.0;
      assert d * (k + 1.0) == d * k + d;
      assert SumChanges(h) == SumChanges(p) + Change(h, |h| - 1);
    }
  }

  /** At least three samples, each differing from its predecessor by more than the threshold: movement. */
  lemma SteadyChangeIsMoving(h: seq<real>, d: real)
    requires |h| > 2
    requires d > MotionThreshold
    requires forall i :: 1 <= i < |h| ==> Change(h, i) >= d
    ensures IsMoving(h)
  {
    SumChangesAtLeast(h, d);
    var m := (|h| - 1) as real;
    var s := SumChanges(h);
    assert s >= d * m;
    assert s / m >= d by {
      assert s / m * m == s;
    }
  }

  /** Samples that never move by more than the threshold never read as movement. */
  lemma QuietHistoryStill(h: seq<real>)
    requires forall i :: 1 <= i < |h| ==> Change(h, i) <= MotionThreshold
    ensures !IsMoving(h)
  {
    if |h| > 2 {
      SumChangesAtMost(h, MotionThreshold);
      var m := (|h| - 1) as real;
      var s := SumChanges(h);
      assert s <= MotionThreshold * m;
      assert s / m <= MotionThreshold by {
        assert s / m * m == s;
      }
    }
  }
}
