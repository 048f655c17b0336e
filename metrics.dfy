/** The measured metrics of the first application's report (pbl3_v4.py,
    find_freq_at_db and update_info) over an already evaluated magnitude
    curve: w are frequencies in units of pi and hdb the magnitudes in dB,
    as freqz and 20*log10 produce them. */
module Metrics {
  import opened Common

  /** np.diff(np.sign(hdb - target)) is nonzero at i: the samples i and
      i + 1 lie on different sides of the target (or one touches it). */
  predicate SignChangeAt(hdb: seq<real>, target: real, i: nat)
    requires i + 1 < |hdb|
  {
    Sign(hdb[i] - target) != Sign(hdb[i + 1] - target)
  }

  /** indices[0] of np.where(...) from position k on. */
  function FirstSignChangeFrom(hdb: seq<real>, target: real, k: nat): (r: Option<nat>)
    decreases |hdb| - k
    ensures r.Some? ==>
      && k <= r.value && r.value + 1 < |hdb|
      && SignChangeAt(hdb, target, r.value)
      && forall j :: k <= j < r.value ==> !SignChangeAt(hdb, target, j)
    ensures r.None? ==> forall j :: k <= j && j + 1 < |hdb| ==> !SignChangeAt(hdb, target, j)
  {
    if k + 1 >= |hdb| then None
    else if SignChangeAt(hdb, target, k) then Some(k)
    else FirstSignChangeFrom(hdb, target, k + 1)
  }

  function FirstSignChange(hdb: seq<real>, target: real): Option<nat>
  {
    FirstSignChangeFrom(hdb, target, 0)
  }

  /** find_freq_at_db: the first crossing of the target level, linearly
      interpolated between its two samples, or the left sample when their
      dB values are within 1e-6 of each other. */
  function FindFreqAtDb(w: seq<real>, hdb: seq<real>, target: real): Option<real>
  {
    match FirstSignChange(hdb, target)
    case None => None
    case Some(idx) =>
      if idx + 1 < |w| then
        var w1, w2 := w[idx], w[idx + 1];
        var db1, db2 := hdb[idx], hdb[idx + 1];
        if Abs(db2 - db1) > 0.000001 then
          Some(Interpolate(w1, w2, db1, db2, target))
        else
          Some(w1)
      else
        None
  }

  /** The straight line through (db1, w1) and (db2, w2) read at target. */
  function Interpolate(w1: real, w2: real, db1: real, db2: real, target: real): real
    requires db2 != db1
  {
    w1 + (target - db1) * (w2 - w1) / (db2 - db1)
  }

  /** For a crossing between db1 and db2, the interpolation weight
      (target - db1) / (db2 - db1) lies in [0, 1]. */
  lemma InterpolationWeight(db1: real, db2: real, target: real)
    requires Sign(db1 - target) != Sign(db2 - target)
    requires db2 != db1
    ensures 0.0 <= (target - db1) / (db2 - db1) <= 1.0
  {
    var t := (target - db1) / (db2 - db1);
    assert t * (db2 - db1) == target - db1;
    if db1 < db2 {
      assert db1 <= target <= db2;
    } else {
      assert db2 <= target <= db1;
    }
  }

  lemma BetweenEnds(w1: real, w2: real, t: real)
    requires 0.0 <= t <= 1.0
    ensures MinReal(w1, w2) <= w1 + t * (w2 - w1) <= MaxReal(w1, w2)
  {
    if w1 <= w2 {
      NonnegativeProduct(t, w2 - w1);
      NonnegativeProduct(1.0 - t, w2 - w1);
    } else {
      NonnegativeProduct(t, w1 - w2);
      NonnegativeProduct(1.0 - t, w1 - w2);
    }
  }

  lemma QuotientTimes(a: real, b: real, d: real)
    requires d != 0.0
    ensures a * b / d == a / d * b
  {
  }

  /** The search answers None exactly when no adjacent pair crosses the
      target (or the crossing has no right-hand frequency); otherwise its
      answer lies between the two frequencies of the first crossing, and is
      the left one when the dB values are within 1e-6. */
  lemma FindFreqAtDbSpec(w: seq<real>, hdb: seq<real>, target: real)
    ensures var r := FindFreqAtDb(w, hdb, target);
      && (r.None? <==>
            (forall j: nat :: j + 1 < |hdb| ==> !SignChangeAt(hdb, target, j))
            || (FirstSignChange(hdb, target).Some? && FirstSignChange(hdb, target).value + 1 >= |w|))
      && (r.Some? ==>
            var idx := FirstSignChange(hdb, target).value;
            && idx + 1 < |w| && idx + 1 < |hdb|
            && SignChangeAt(hdb, target, idx)
            && (forall j: nat :: j < idx ==> !SignChangeAt(hdb, target, j))
            && MinReal(w[idx], w[idx + 1]) <= r.value <= MaxReal(w[idx], w[idx + 1])
            && (Abs(hdb[idx + 1] - hdb[idx]) <= 0.000001 ==> r.value == w[idx]))
  {
    match FirstSignChange(hdb, target)
    case None =>
    case Some(idx) =>
      if idx + 1 < |w| {
        var db1, db2 := hdb[idx], hdb[idx + 1];
        if Abs(db2 - db1) > 0.000001 {
          InterpolatedBetween(w[idx], w[idx + 1], db1, db2, target);
        }
      }
  }

  /** The interpolated crossing lies between the two frequencies. */
  lemma InterpolatedBetween(w1: real, w2: real, db1: real, db2: real, target: real)
    requires Sign(db1 - target) != Sign(db2 - target)
    requires db2 != db1
    ensures MinReal(w1, w2) <= Interpolate(w1, w2, db1, db2, target) <= MaxReal(w1, w2)
  {
    var t := (target - db1) / (db2 - db1);
    assert Interpolate(w1, w2, db1, db2, target) == w1 + t * (w2 - w1) by {
      QuotientTimes(target - db1, w2 - w1, db2 - db1);
    }
    InterpolationWeight(db1, db2, target);
    BetweenEnds(w1, w2, t);
  }

  /** s[w > thr]: the entries of s at the positions where w exceeds thr, in
      order (numpy boolean-mask indexing). */
  function Select(s: seq<real>, w: seq<real>, thr: real): (r: seq<real>)
    requires |s| == |w|
    ensures |r| <= |s|
    ensures forall x :: x in r ==> x in s
  {
    if |w| == 0 then []
    else (if w[0] > thr then [s[0]] else []) + Select(s[1..], w[1..], thr)
  }

  /** An entry is selected exactly when some position above thr holds it. */
  lemma {:induction false} SelectMembers(s: seq<real>, w: seq<real>, thr: real, x: real)
    requires |s| == |w|
    ensures x in Select(s, w, thr) <==> exists i :: 0 <= i < |w| && w[i] > thr && s[i] == x
  {
    if |w| > 0 {
      SelectMembers(s[1..], w[1..], thr, x);
      if x in Select(s[1..], w[1..], thr) {
        var i :| 0 <= i < |w| - 1 && w[1..][i] > thr && s[1..][i] == x;
        assert w[i + 1] > thr && s[i + 1] == x;
      }
      if exists i :: 0 <= i < |w| && w[i] > thr && s[i] == x {
        var i :| 0 <= i < |w| && w[i] > thr && s[i] == x;
        if i > 0 {
          assert w[1..][i - 1] > thr && s[1..][i - 1] == x;
        }
      }
    }
  }

  /** The indices from i on where w exceeds thr, in increasing order: the
      positions numpy's boolean mask w > thr keeps. */
  function PositionsFrom(w: seq<real>, thr: real, i: nat): (p: seq<nat>)
    requires i <= |w|
    decreases |w| - i
    ensures forall k :: 0 <= k < |p| ==> i <= p[k] < |w| && w[p[k]] > thr
    ensures forall k, l :: 0 <= k < l < |p| ==> p[k] < p[l]
    ensures forall j :: i <= j < |w| && w[j] > thr ==> j in p
  {
    if i == |w| then []
    else (if w[i] > thr then [i] else []) + PositionsFrom(w, thr, i + 1)
  }

  /** Select(s[i..], w[i..], thr) takes s at exactly those positions. */
  lemma {:induction false} SelectAtPositions(s: seq<real>, w: seq<real>, thr: real, i: nat)
    requires |s| == |w| && i <= |w|
    decreases |w| - i
    ensures var p := PositionsFrom(w, thr, i);
      var r := Select(s[i..], w[i..], thr);
      && |r| == |p|
      && forall k :: 0 <= k < |r| ==> r[k] == s[p[k]]
  {
    if i < |w| {
      SelectAtPositions(s, w, thr, i + 1);
      assert s[i..][1..] == s[i + 1..];
      assert w[i..][1..] == w[i + 1..];
    }
  }

  /** The masked frequencies w[w > thr] and levels hdb[w > thr] stay
      aligned: both are read at the same increasing positions, those where
      w exceeds thr. */
  lemma MasksAligned(w: seq<real>, hdb: seq<real>, thr: real)
    requires |w| == |hdb|
    ensures var p := PositionsFrom(w, thr, 0);
      && |Select(w, w, thr)| == |p| == |Select(hdb, w, thr)|
      && (forall k :: 0 <= k < |p| ==> Select(w, w, thr)[k] == w[p[k]])
      && (forall k :: 0 <= k < |p| ==> Select(hdb, w, thr)[k] == hdb[p[k]])
  {
    SelectAtPositions(w, w, thr, 0);
    SelectAtPositions(hdb, w, thr, 0);
    assert w[0..] == w && hdb[0..] == hdb;
  }

  /** Selecting the frequencies themselves keeps only values above thr. */
  lemma SelectAbove(w: seq<real>, thr: real)
    ensures forall x :: x in Select(w, w, thr) ==> x > thr
  {
    forall x | x in Select(w, w, thr)
      ensures x > thr
    {
      SelectMembers(w, w, thr, x);
    }
  }

  lemma {:induction false} SelectNonempty(s: seq<real>, w: seq<real>, thr: real)
    requires |s| == |w|
    ensures |Select(s, w, thr)| > 0 <==> exists i :: 0 <= i < |w| && w[i] > thr
  {
    if |w| > 0 {
      SelectNonempty(s[1..], w[1..], thr);
      if exists i :: 0 <= i < |w| && w[i] > thr {
        var i :| 0 <= i < |w| && w[i] > thr;
        if i > 0 {
          assert w[1..][i - 1] > thr;
        }
      }
      if exists i :: 0 <= i < |w| - 1 && w[1..][i] > thr {
        var i :| 0 <= i < |w| - 1 && w[1..][i] > thr;
        assert w[i + 1] > thr;
      }
    }
  }

  lemma {:induction false} SelectLength(s: seq<real>, t: seq<real>, w: seq<real>, thr: real)
    requires |s| == |w| && |t| == |w|
    ensures |Select(s, w, thr)| == |Select(t, w, thr)|
  {
    if |w| > 0 {
      SelectLength(s[1..], t[1..], w[1..], thr);
    }
  }

  /** The stopband search of update_info: its level is -40 dB when a -40 dB
      crossing is found and -30 dB otherwise. */
  datatype StopbandSearch = StopbandSearch(level: real, edge: Option<real>)

  /** The search over the region w > wc + 0.05, skipped when wc >= 0.8 or
      the region is empty. */
  function SearchStopRegion(w: seq<real>, hdb: seq<real>, wc: real, level: real): Option<real>
    requires |w| == |hdb|
  {
    if wc < 0.8 then
      var region := Select(w, w, wc + 0.05);
      if |region| > 0 then FindFreqAtDb(region, Select(hdb, w, wc + 0.05), level) else None
    else None
  }

  /** The -40 dB search with its -30 dB fallback. */
  function StopbandEdge(w: seq<real>, hdb: seq<real>, wc: real): StopbandSearch
    requires |w| == |hdb|
  {
    var e40 := SearchStopRegion(w, hdb, wc, -40.0);
    if e40.Some? then StopbandSearch(-40.0, e40)
    else StopbandSearch(-30.0, SearchStopRegion(w, hdb, wc, -30.0))
  }

  /** Any edge found lies strictly inside the stop region, above
      wc + 0.05; none is found when wc >= 0.8; the -30 dB level is reported
      exactly when the -40 dB search found nothing. */
  lemma StopbandEdgeSpec(w: seq<real>, hdb: seq<real>, wc: real)
    requires |w| == |hdb|
    ensures var s := StopbandEdge(w, hdb, wc);
      && (s.level == -40.0 <==> SearchStopRegion(w, hdb, wc, -40.0).Some?)
      && (s.level == -40.0 || s.level == -30.0)
      && (wc >= 0.8 ==> s.edge.None?)
      && (s.edge.Some? ==> s.edge.value > wc + 0.05)
  {
    var s := StopbandEdge(w, hdb, wc);
    if s.edge.Some? {
      var thr := wc + 0.05;
      var region := Select(w, w, thr);
      var levels := Select(hdb, w, thr);
      SelectAbove(w, thr);
      FindFreqAtDbSpec(region, levels, s.level);
      var idx := FirstSignChange(levels, s.level).value;
      assert region[idx] in region && region[idx + 1] in region;
    }
  }

  /** The largest entry of a nonempty sequence (np.max). */
  function MaxOf(s: seq<real>): (m: real)
    requires |s| > 0
    ensures m in s
    ensures forall x :: x in s ==> x <= m
  {
    if |s| == 1 then s[0]
    else
      var rest := MaxOf(s[1..]);
      assert forall x :: x in s ==> x == s[0] || x in s[1..];
      if s[0] < rest then rest else s[0]
  }

  /** The smallest entry of a nonempty sequence (np.min). */
  function MinOf(s: seq<real>): (m: real)
    requires |s| > 0
    ensures m in s
    ensures forall x :: x in s ==> m <= x
  {
    if |s| == 1 then s[0]
    else
      var rest := MinOf(s[1..]);
      assert forall x :: x in s ==> x == s[0] || x in s[1..];
      if s[0] < rest then s[0] else rest
  }

  /** min_stopband_atten_db: minus the peak over w > wc + 0.1 when wc < 0.9
      and that region is not empty, else minus the lowest level of the
      whole curve. */
  function MinStopbandAttenuation(w: seq<real>, hdb: seq<real>, wc: real): real
    requires |w| == |hdb| > 0
  {
    if wc < 0.9 && |Select(w, w, wc + 0.1)| > 0 then
      SelectLength(w, hdb, w, wc + 0.1);
      -MaxOf(Select(hdb, w, wc + 0.1))
    else
      -MinOf(hdb)
  }

  /** In the guarded region every level is at most -A and one reaches it;
      otherwise -A is the lowest level of the curve. */
  lemma MinStopbandAttenuationSpec(w: seq<real>, hdb: seq<real>, wc: real)
    requires |w| == |hdb| > 0
    ensures var a := MinStopbandAttenuation(w, hdb, wc);
      if wc < 0.9 && (exists i :: 0 <= i < |w| && w[i] > wc + 0.1) then
        && (forall i :: 0 <= i < |w| && w[i] > wc + 0.1 ==> hdb[i] <= -a)
        && (exists i :: 0 <= i < |w| && w[i] > wc + 0.1 && hdb[i] == -a)
      else
        && (forall i :: 0 <= i < |hdb| ==> -a <= hdb[i])
        && (exists i :: 0 <= i < |hdb| && hdb[i] == -a)
  {
    var thr := wc + 0.1;
    var a := MinStopbandAttenuation(w, hdb, wc);
    SelectNonempty(w, w, thr);
    if wc < 0.9 && (exists i :: 0 <= i < |w| && w[i] > thr) {
      SelectLength(w, hdb, w, thr);
      var levels := Select(hdb, w, thr);
      assert a == -MaxOf(levels);
      forall i | 0 <= i < |w| && w[i] > thr
        ensures hdb[i] <= -a
      {
        SelectMembers(hdb, w, thr, hdb[i]);
      }
      SelectMembers(hdb, w, thr, -a);
    } else {
      assert forall i :: 0 <= i < |hdb| ==> hdb[i] in hdb;
    }
  }

  /** transition_width: |stopband edge - passband edge| when both exist. */
  function TransitionWidth(pass: Option<real>, stop: Option<real>): (t: Option<real>)
    ensures t.Some? <==> pass.Some? && stop.Some?
    ensures t.Some? ==> t.value >= 0.0 && (t.value == stop.value - pass.value || t.value == pass.value - stop.value)
  {
    if pass.Some? && stop.Some? then Some(Abs(stop.value - pass.value)) else None
  }

  /** The measured metrics of one design. */
  datatype Measures = Measures(passbandEdge: Option<real>, stopband: StopbandSearch,
                               transition: Option<real>, attenuation: real)

  function Measure(w: seq<real>, hdb: seq<real>, wc: real): (m: Measures)
    requires |w| == |hdb| > 0
    ensures m.passbandEdge == FindFreqAtDb(w, hdb, -3.0)
    ensures m.stopband == StopbandEdge(w, hdb, wc)
    ensures m.attenuation == MinStopbandAttenuation(w, hdb, wc)
    ensures m.transition.Some? <==> m.passbandEdge.Some? && m.stopband.edge.Some?
    ensures m.transition.Some? ==>
      m.transition.value == Abs(m.stopband.edge.value - m.passbandEdge.value)
  {
    var pass := FindFreqAtDb(w, hdb, -3.0);
    var stop := StopbandEdge(w, hdb, wc);
    Measures(pass, stop, TransitionWidth(pass, stop.edge), MinStopbandAttenuation(w, hdb, wc))
  }

  /** numpy's isclose(a, b) with atol = 1e-10 and the default rtol = 1e-5. */
  predicate IsClose(a: real, b: real)
  {
    Abs(a - b) <= 0.0000000001 + 0.00001 * Abs(b)
  }

  /** np.allclose(h, h[::-1], atol=1e-10). */
  predicate AllCloseReversed(h: seq<real>)
  {
    forall i :: 0 <= i < |h| ==> IsClose(h[i], h[|h| - 1 - i])
  }

  /** The four types of linear-phase FIR filter. */
  datatype PhaseType = TypeI | TypeII | TypeIII | TypeIV

  /** By the parity of N and the numerical symmetry test. */
  function ClassifyPhase(h: seq<real>): (t: PhaseType)
    ensures (t == TypeI || t == TypeIII) <==> |h| % 2 == 1
    ensures (t == TypeI || t == TypeII) <==> AllCloseReversed(h)
  {
    if |h| % 2 == 1 then
      if AllCloseReversed(h) then TypeI else TypeIII
    else
      if AllCloseReversed(h) then TypeII else TypeIV
  }

  /** Exact symmetry passes the numerical test, so a symmetric design is
      reported as type I (odd N) or type II (even N). */
  lemma SymmetricClassification(h: seq<real>)
    requires Symmetric(h)
    ensures ClassifyPhase(h) == (if |h| % 2 == 1 then TypeI else TypeII)
  {
    assert AllCloseReversed(h) by {
      forall i | 0 <= i < |h|
        ensures IsClose(h[i], h[|h| - 1 - i])
      {
        assert h[i] == h[|h| - 1 - i];
      }
    }
  }
}
