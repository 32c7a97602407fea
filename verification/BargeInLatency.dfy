/** barge_in_latency.py: the scan for a lasting drop of received loudness after an onset. */
module BargeInLatency {
  import opened Contracts

  datatype Frame = Frame(at: real, rms: real)

  /** Twelve decibels down. */
  const ATTENUATION: real := 0.251188643150958

  // -- Baseline -----------------------------------------------------------------------

  function Before(frames: seq<Frame>, onset: real): seq<Frame> {
    if frames == [] then []
    else
      var rest, last := Before(frames[..|frames| - 1], onset), frames[|frames| - 1];
      if onset - 120.0 <= last.at < onset then rest + [last] else rest
  }

  function After(frames: seq<Frame>, onset: real): seq<Frame> {
    if frames == [] then []
    else
      var rest, last := After(frames[..|frames| - 1], onset), frames[|frames| - 1];
      if last.at < onset then rest else rest + [last]
  }

  predicate Ascending(s: seq<real>) { forall i | 0 < i < |s| :: s[i - 1] <= s[i] }

  function Inserted(x: real, s: seq<real>): (r: seq<real>)
    requires Ascending(s)
    ensures Ascending(r) && |r| == |s| + 1 && multiset(r) == multiset(s) + multiset{x}
    ensures r[0] == x || (s != [] && r[0] == s[0])
  {
    if s == [] || x <= s[0] then [x] + s
    else
      assert s == [s[0]] + s[1..];
      [s[0]] + Inserted(x, s[1..])
  }

  function Sorted(s: seq<real>): (r: seq<real>)
    ensures Ascending(r) && |r| == |s| && multiset(r) == multiset(s)
  {
    if s == [] then []
    else
      assert s == [s[0]] + s[1..];
      Inserted(s[0], Sorted(s[1..]))
  }

  function Loudness(frames: seq<Frame>): (r: seq<real>)
    ensures |r| == |frames|
  {
    seq(|frames|, i requires 0 <= i < |frames| => frames[i].rms)
  }

  function Median(s: seq<real>): real requires s != [] {
    var t := Sorted(s);
    if |t| % 2 == 1 then t[|t| / 2] else (t[|t| / 2 - 1] + t[|t| / 2]) / 2.0
  }

  /** Enough, recent and loud enough reference audio. */
  predicate HasBaseline(frames: seq<Frame>, onset: real) {
    var b := Before(frames, onset);
    |b| >= 4 && onset - b[|b| - 1].at <= 40.0 && Median(Loudness(b)) >= 120.0
  }

  function Threshold(frames: seq<Frame>, onset: real): real requires HasBaseline(frames, onset) {
    Median(Loudness(Before(frames, onset))) * ATTENUATION
  }

  // -- Quiet runs -----------------------------------------------------------------------

  /** Frame j continues the quiet of frame j - 1. */
  predicate Continues(f: seq<Frame>, threshold: real, j: nat) requires 0 < j < |f| {
    f[j - 1].rms <= threshold && f[j].at - f[j - 1].at <= 60.0
  }

  /** Frames i to j are quiet without a gap. */
  predicate QuietRun(f: seq<Frame>, threshold: real, i: nat, j: nat) requires i <= j < |f| {
    (forall k | i <= k <= j :: f[k].rms <= threshold) && (forall k | i < k <= j :: f[k].at - f[k - 1].at <= 60.0)
  }

  /** The run from i through j lasts, and cannot be begun earlier. */
  predicate Lasting(f: seq<Frame>, threshold: real, i: nat, j: nat) {
    && i < j < |f| && QuietRun(f, threshold, i, j) && (i > 0 ==> !Continues(f, threshold, i))
    && f[j].at - f[i].at >= 100.0
  }

  function RunStart(f: seq<Frame>, threshold: real, j: nat): (i: nat)
    requires j < |f| && f[j].rms <= threshold
    ensures i <= j && QuietRun(f, threshold, i, j) && (i > 0 ==> !Continues(f, threshold, i))
  {
    if j > 0 && Continues(f, threshold, j) then RunStart(f, threshold, j - 1) else j
  }

  /** The beginning of a run is determined by any frame of it. */
  lemma {:induction false} RunStartUnique(f: seq<Frame>, threshold: real, i: nat, j: nat)
    requires i <= j < |f| && QuietRun(f, threshold, i, j) && (i > 0 ==> !Continues(f, threshold, i))
    ensures RunStart(f, threshold, j) == i
    decreases j
  {
    if i < j {
      assert f[j - 1].rms <= threshold;
      RunStartUnique(f, threshold, i, j - 1);
    }
  }

  lemma {:induction false} RunStartOfPrefix(f: seq<Frame>, x: Frame, threshold: real, j: nat)
    requires j < |f| && f[j].rms <= threshold
    ensures RunStart(f + [x], threshold, j) == RunStart(f, threshold, j)
    decreases j
  {
    if j > 0 && Continues(f, threshold, j) { RunStartOfPrefix(f, x, threshold, j - 1); }
  }

  /** Quiet has lasted long enough by frame j. */
  predicate Reached(f: seq<Frame>, threshold: real, j: nat) requires j < |f| {
    f[j].rms <= threshold && f[j].at - f[RunStart(f, threshold, j)].at >= 100.0
  }

  lemma ReachedIff(f: seq<Frame>, threshold: real, j: nat)
    requires j < |f|
    ensures Reached(f, threshold, j) <==> exists i :: Lasting(f, threshold, i, j)
  {
    forall i | Lasting(f, threshold, i, j) ensures RunStart(f, threshold, j) == i {
      RunStartUnique(f, threshold, i, j);
    }
    if Reached(f, threshold, j) { assert Lasting(f, threshold, RunStart(f, threshold, j), j); }
  }

  /** What the scan remembers after the frames in f: the last frame's time and, when that frame
      is quiet, where its run began. */
  ghost predicate Remembers(f: seq<Frame>, threshold: real, quietAt: Option<real>, previous: Option<real>) {
    && previous == (if f == [] then None else Some(f[|f| - 1].at))
    && quietAt == (if f == [] || f[|f| - 1].rms > threshold then None
                   else Some(f[RunStart(f, threshold, |f| - 1)].at))
  }

  ghost predicate NotReached(f: seq<Frame>, threshold: real) { forall j | 0 <= j < |f| :: !Reached(f, threshold, j) }

  lemma NextFrame(f: seq<Frame>, x: Frame, threshold: real)
    requires NotReached(f, threshold)
    ensures forall j | 0 <= j < |f| :: !Reached(f + [x], threshold, j)
    ensures x.rms <= threshold && f != [] && f[|f| - 1].rms <= threshold && x.at - f[|f| - 1].at <= 60.0 ==>
              RunStart(f + [x], threshold, |f|) == RunStart(f, threshold, |f| - 1)
  {
    forall j | 0 <= j < |f| ensures !Reached(f + [x], threshold, j) {
      assert !Reached(f, threshold, j);
      if f[j].rms <= threshold { RunStartOfPrefix(f, x, threshold, j); }
    }
    if f != [] && f[|f| - 1].rms <= threshold { RunStartOfPrefix(f, x, threshold, |f| - 1); }
  }

  function Kept(quietAt: Option<real>, previous: Option<real>, x: Frame): Option<real> {
    if previous.Some? && x.at - previous.value > 60.0 then None else quietAt
  }

  /** Where a frame's run began, in terms of what the scan remembers. */
  lemma RunThroughNext(f: seq<Frame>, x: Frame, threshold: real, quietAt: Option<real>, previous: Option<real>)
    requires Remembers(f, threshold, quietAt, previous) && NotReached(f, threshold) && x.rms <= threshold
    ensures var g, kept := f + [x], Kept(quietAt, previous, x);
            g[RunStart(g, threshold, |f|)].at == if kept.None? then x.at else kept.value
  {
    NextFrame(f, x, threshold);
  }

  lemma SeenNext(f: seq<Frame>, x: Frame, threshold: real, quietAt: Option<real>, previous: Option<real>)
    requires Remembers(f, threshold, quietAt, previous) && NotReached(f, threshold)
    ensures var g, kept := f + [x], Kept(quietAt, previous, x);
            && (x.rms > threshold ==> Remembers(g, threshold, None, Some(x.at)) && NotReached(g, threshold))
            && (x.rms <= threshold && kept.None? ==>
                  Remembers(g, threshold, Some(x.at), Some(x.at)) && NotReached(g, threshold))
            && (x.rms <= threshold && kept.Some? && x.at - kept.value < 100.0 ==>
                  Remembers(g, threshold, kept, Some(x.at)) && NotReached(g, threshold))
            && (x.rms <= threshold && kept.Some? && x.at - kept.value >= 100.0 ==>
                  Reached(g, threshold, |f|) && kept.value == g[RunStart(g, threshold, |f|)].at)
  {
    NextFrame(f, x, threshold);
    if x.rms <= threshold { RunThroughNext(f, x, threshold, quietAt, previous); }
  }

  /** The beginning, relative to the onset, of the first run to last; none exactly when no run does. */
  ghost predicate FirstLasting(f: seq<Frame>, threshold: real, onset: real, r: Option<real>) {
    if r.None? then forall i: nat, j: nat :: !Lasting(f, threshold, i, j)
    else exists i: nat, j: nat :: LastsFirst(f, threshold, i, j) && r.value == f[i].at - onset
  }

  ghost predicate LastsFirst(f: seq<Frame>, threshold: real, i: nat, j: nat) {
    Lasting(f, threshold, i, j) && forall k: nat, l: nat | Lasting(f, threshold, k, l) :: j <= l
  }

  /** No answer without reference audio; otherwise the first run at or below the threshold that
      lasts 100 ms with no gap over 60 ms. */
  method ReceiverAttenuation(frames: seq<Frame>, onset: real) returns (r: Option<real>)
    ensures if HasBaseline(frames, onset) then FirstLasting(After(frames, onset), Threshold(frames, onset), onset, r)
            else r == None
  {
    var before := Before(frames, onset);
    if |before| < 4 || onset - before[|before| - 1].at > 40.0 { return None; }
    var baseline := Median(Loudness(before));
    if baseline < 120.0 { return None; }
    r := Scan(frames, onset, baseline * ATTENUATION);
  }

  method Scan(frames: seq<Frame>, onset: real, threshold: real) returns (r: Option<real>)
    ensures FirstLasting(After(frames, onset), threshold, onset, r)
  {
    var quietAt, previous: Option<real> := None, None;
    var n := 0;
    while n < |frames|
      invariant 0 <= n <= |frames|
      invariant Remembers(After(frames[..n], onset), threshold, quietAt, previous)
      invariant NotReached(After(frames[..n], onset), threshold)
    {
      var x := frames[n];
      ghost var f := After(frames[..n], onset);
      AfterNext(frames, onset, n);
      if x.at >= onset {
        SeenNext(f, x, threshold, quietAt, previous);
        if previous.Some? && x.at - previous.value > 60.0 { quietAt := None; }
        previous := Some(x.at);
        if x.rms > threshold {
          quietAt := None;
        } else if quietAt.None? {
          quietAt := Some(x.at);
        } else if x.at - quietAt.value >= 100.0 {
          FirstReached(frames, onset, threshold, n, f, x);
          return Some(quietAt.value - onset);
        }
      }
      n := n + 1;
    }
    assert frames[..|frames|] == frames;
    NothingLasts(After(frames, onset), threshold);
    r := None;
  }

  lemma AfterNext(frames: seq<Frame>, onset: real, n: nat)
    requires n < |frames|
    ensures After(frames[..n + 1], onset)
         == if frames[n].at < onset then After(frames[..n], onset) else After(frames[..n], onset) + [frames[n]]
  {
    assert frames[..n + 1][..n] == frames[..n];
  }

  lemma {:induction false} AfterPrefix(frames: seq<Frame>, onset: real, n: nat)
    requires n <= |frames|
    ensures After(frames[..n], onset) <= After(frames, onset)
    decreases |frames|
  {
    if n < |frames| {
      assert frames[..|frames| - 1][..n] == frames[..n];
      AfterPrefix(frames[..|frames| - 1], onset, n);
    } else {
      assert frames[..n] == frames;
    }
  }

  lemma {:induction false} RunStartOfLonger(f: seq<Frame>, g: seq<Frame>, threshold: real, j: nat)
    requires f <= g && j < |f| && f[j].rms <= threshold
    ensures RunStart(g, threshold, j) == RunStart(f, threshold, j)
    decreases j
  {
    if j > 0 && Continues(f, threshold, j) { RunStartOfLonger(f, g, threshold, j - 1); }
  }

  lemma NothingLasts(f: seq<Frame>, threshold: real)
    requires NotReached(f, threshold)
    ensures forall i: nat, j: nat :: !Lasting(f, threshold, i, j)
  {
    forall i: nat, j: nat ensures !Lasting(f, threshold, i, j) {
      if j < |f| {
        ReachedIff(f, threshold, j);
        assert !Reached(f, threshold, j);
      }
    }
  }

  /** The first frame to reach the duration decides. */
  lemma FirstReached(frames: seq<Frame>, onset: real, threshold: real, n: nat, f: seq<Frame>, x: Frame)
    requires n < |frames| && x == frames[n] && x.at >= onset && f == After(frames[..n], onset)
    requires NotReached(f, threshold) && Reached(f + [x], threshold, |f|)
    ensures var g, i := After(frames, onset), RunStart(f + [x], threshold, |f|);
            && |f| < |g| && LastsFirst(g, threshold, i, |f|) && g[i] == (f + [x])[i]
  {
    var g := After(frames, onset);
    AfterNext(frames, onset, n);
    AfterPrefix(frames, onset, n + 1);
    RunStartOfLonger(f + [x], g, threshold, |f|);
    forall k: nat, l: nat | l < |f| ensures !Lasting(g, threshold, k, l) {
      ReachedIff(g, threshold, l);
      if f[l].rms <= threshold { RunStartOfLonger(f, g, threshold, l); }
      assert !Reached(f, threshold, l);
    }
  }

  /** With frames in time order it does not matter where in a run one starts counting: a lasting
      run exists iff some quiet stretch without a gap spans 100 ms. */
  lemma InOrderAnyStretchCounts(f: seq<Frame>, threshold: real)
    requires forall i, j | 0 <= i < j < |f| :: f[i].at <= f[j].at
    ensures (exists i, j :: Lasting(f, threshold, i, j))
       <==> exists i: nat, j: nat :: i < j < |f| && QuietRun(f, threshold, i, j) && f[j].at - f[i].at >= 100.0
  {
    forall i: nat, j: nat | i < j < |f| && QuietRun(f, threshold, i, j) && f[j].at - f[i].at >= 100.0
      ensures exists k :: Lasting(f, threshold, k, j)
    {
      StretchStartsNoLater(f, threshold, i, j);
      assert Lasting(f, threshold, RunStart(f, threshold, j), j);
    }
  }

  lemma {:induction false} StretchStartsNoLater(f: seq<Frame>, threshold: real, i: nat, j: nat)
    requires i <= j < |f| && QuietRun(f, threshold, i, j)
    ensures RunStart(f, threshold, j) <= i
    decreases j
  {
    if i < j {
      assert f[j - 1].rms <= threshold;
      StretchStartsNoLater(f, threshold, i, j - 1);
    }
  }
}
