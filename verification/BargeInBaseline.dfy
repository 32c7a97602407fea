/** What the reference loudness of barge_in_latency.py is, however its frames are arranged. */
module BargeInBaseline {
  import opened BargeInLatency

  /** In the 120 milliseconds before the onset. */
  predicate Recent(x: Frame, onset: real) { onset - 120.0 <= x.at && x.at < onset }

  /** The reference frames are exactly the recent ones, in the order they came. */
  lemma {:induction false} ReferenceFilters(f: seq<Frame>, x: Frame, g: seq<Frame>, onset: real)
    ensures Before([], onset) == []
    ensures Before([x], onset) == if Recent(x, onset) then [x] else []
    ensures Before(f + g, onset) == Before(f, onset) + Before(g, onset)
    decreases |g|
  {
    assert Before([], onset) == [] && [x][..0] == [];
    if g == [] {
      assert f + g == f && Before(f, onset) + [] == Before(f, onset);
    } else {
      var n := |g| - 1;
      assert (f + g)[..|f + g| - 1] == f + g[..n] && (f + g)[|f + g| - 1] == g[n];
      ReferenceFilters(f, x, g[..n], onset);
      assert (Before(f, onset) + Before(g[..n], onset)) + [g[n]] == Before(f, onset) + (Before(g[..n], onset) + [g[n]]);
    }
  }

  lemma LeastFirst(s: seq<real>, x: real)
    requires Ascending(s) && x in s
    ensures s[0] <= x
  {
    var i :| 0 <= i < |s| && s[i] == x;
    AscendingAll(s, 0, i);
  }

  lemma {:induction false} AscendingAll(s: seq<real>, i: nat, j: nat)
    requires Ascending(s) && i <= j < |s|
    ensures s[i] <= s[j]
    decreases j
  {
    if i < j { AscendingAll(s, i, j - 1); }
  }

  lemma SameLeast(s: seq<real>, t: seq<real>)
    requires Ascending(s) && Ascending(t) && s != [] && t != [] && multiset(s) == multiset(t)
    ensures s[0] == t[0]
  {
    assert s[0] in multiset(t) && t[0] in multiset(s);
    LeastFirst(t, s[0]);
    LeastFirst(s, t[0]);
  }

  lemma RestsAgree(s: seq<real>, t: seq<real>)
    requires s != [] && t != [] && s[0] == t[0] && multiset(s) == multiset(t)
    ensures multiset(s[1..]) == multiset(t[1..])
  {
    assert s == [s[0]] + s[1..] && t == [t[0]] + t[1..];
    assert multiset(s[1..]) == multiset(s) - multiset{s[0]};
  }

  /** Values have only one ascending arrangement. */
  lemma {:induction false} OneArrangement(s: seq<real>, t: seq<real>)
    requires |s| == |t| && Ascending(s) && Ascending(t) && multiset(s) == multiset(t)
    ensures s == t
    decreases |s|
  {
    if s != [] {
      SameLeast(s, t);
      RestsAgree(s, t);
      OneArrangement(s[1..], t[1..]);
      assert s == [s[0]] + s[1..] && t == [t[0]] + t[1..];
    }
  }

  /** The median is the middle value of any ascending arrangement, or halfway between the two in the
      middle. */
  lemma MedianIsMiddle(s: seq<real>, t: seq<real>)
    requires s != [] && Ascending(t) && multiset(t) == multiset(s)
    ensures var n := |t|;
            && n == |s|
            && Median(s) == if n % 2 == 1 then t[n / 2] else (t[n / 2 - 1] + t[n / 2]) / 2.0
  {
    assert |multiset(t)| == |t| && |multiset(s)| == |s|;
    OneArrangement(Sorted(s), t);
  }

  /** There is a baseline exactly with four recent frames or more, the last of them no more than 40
      milliseconds old, and a median loudness of at least 120; the threshold is twelve decibels
      below that median. */
  lemma BaselineDecides(frames: seq<Frame>, onset: real, t: seq<real>)
    requires var b := Before(frames, onset);
             Ascending(t) && multiset(t) == multiset(Loudness(b))
    ensures var b := Before(frames, onset);
            var median := if |t| == 0 then 0.0
                          else if |t| % 2 == 1 then t[|t| / 2] else (t[|t| / 2 - 1] + t[|t| / 2]) / 2.0;
            && |t| == |b|
            && (HasBaseline(frames, onset) <==> |b| >= 4 && onset - b[|b| - 1].at <= 40.0 && median >= 120.0)
            && (HasBaseline(frames, onset) ==> Threshold(frames, onset) == median * 0.251188643150958)
  {
    var b := Before(frames, onset);
    assert |multiset(t)| == |t| && |multiset(Loudness(b))| == |b|;
    if b != [] { MedianIsMiddle(Loudness(b), t); }
  }
}
