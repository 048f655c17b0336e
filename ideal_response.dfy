/** The ideal (unwindowed) impulse responses of the first application
    (pbl3_v4.py, ideal_filter): lowpass, highpass, bandpass and bandstop,
    centred at alpha = (N - 1)/2, with sine left abstract. Cutoffs arrive
    as fractions of pi and are turned into radians by multiplying by pi. */
module IdealResponse {
  import opened Common

  /** The four entries of the filter-type menu. */
  datatype BandKind = Lowpass | Highpass | Bandpass | Bandstop

  /** The tolerance below which |n - alpha| counts as the centre sample. */
  const CentreTolerance: real := 0.0000000001

  /** n - alpha for sample i of an N-tap response. */
  function Offset(n: nat, i: nat): real
  {
    i as real - (n - 1) as real / 2.0
  }

  /** sin(w k) / (pi k): the ideal lowpass of cutoff w at offset k. */
  function SincTerm(sin: real -> real, w: real, k: real): real
    requires k != 0.0
  {
    sin(w * k) / (Pi * k)
  }

  /** Sample i of the ideal response; wc1 and wc2 in radians. The centre
      sample takes the closed-form limit of the quotient. */
  function IdealTap(kind: BandKind, n: nat, i: nat, wc1: real, wc2: real, sin: real -> real): real
  {
    var k := Offset(n, i);
    if Abs(k) < CentreTolerance then
      match kind
      case Lowpass => wc1 / Pi
      case Highpass => 1.0 - wc1 / Pi
      case Bandpass => (wc2 - wc1) / Pi
      case Bandstop => 1.0 - (wc2 - wc1) / Pi
    else
      match kind
      case Lowpass => SincTerm(sin, wc1, k)
      case Highpass => SincTerm(sin, Pi, k) - SincTerm(sin, wc1, k)
      case Bandpass => SincTerm(sin, wc2, k) - SincTerm(sin, wc1, k)
      case Bandstop => SincTerm(sin, Pi, k) - (SincTerm(sin, wc2, k) - SincTerm(sin, wc1, k))
  }

  /** The N taps for normalized cutoffs f1 and f2 (fractions of pi); f2 is
      read only by the band filters. */
  function IdealTaps(kind: BandKind, n: nat, f1: real, f2: real, sin: real -> real): (h: seq<real>)
    ensures |h| == n
  {
    seq(n, i requires 0 <= i < n => IdealTap(kind, n, i, f1 * Pi, f2 * Pi, sin))
  }

  /** ideal_filter: a zeroed array filled by a loop over the samples. */
  method IdealFilter(kind: BandKind, n: nat, f1: real, f2: real, sin: real -> real)
    returns (h: array<real>)
    ensures h.Length == n && h[..] == IdealTaps(kind, n, f1, f2, sin)
  {
    var wc1 := f1 * Pi;
    var wc2 := f2 * Pi;
    h := new real[n](_ => 0.0);
    for i := 0 to n
      invariant forall j :: 0 <= j < i ==> h[j] == IdealTap(kind, n, j, wc1, wc2, sin)
    {
      h[i] := ComputeTap(kind, n, i, wc1, wc2, sin);
    }
  }

  /** The body of ideal_filter's loop for sample i: the closed-form limit
      at the centre, differences of sine quotients elsewhere. */
  method ComputeTap(kind: BandKind, n: nat, i: nat, wc1: real, wc2: real, sin: real -> real)
    returns (t: real)
    ensures t == IdealTap(kind, n, i, wc1, wc2, sin)
  {
    var alpha := (n - 1) as real / 2.0;
    var k := i as real - alpha;
    assert k == Offset(n, i);
    if Abs(k) < CentreTolerance {
      match kind {
        case Lowpass => t := wc1 / Pi;
        case Highpass => t := 1.0 - wc1 / Pi;
        case Bandpass => t := (wc2 - wc1) / Pi;
        case Bandstop => t := 1.0 - (wc2 - wc1) / Pi;
      }
    } else {
      OffCentreNonzero(k);
      var sincTerm := SincTerm(sin, Pi, k);
      var term1 := SincTerm(sin, wc1, k);
      match kind {
        case Lowpass => t := term1;
        case Highpass => t := sincTerm - term1;
        case Bandpass =>
          var term2 := SincTerm(sin, wc2, k);
          t := term2 - term1;
        case Bandstop =>
          var term2 := SincTerm(sin, wc2, k);
          t := sincTerm - (term2 - term1);
      }
    }
  }

  lemma OffCentreNonzero(k: real)
    requires !(Abs(k) < CentreTolerance)
    ensures k != 0.0
  {
  }

  /** The tolerance test picks out exactly the middle sample: it fires for
      i == (N - 1)/2 when N is odd and never when N is even. */
  lemma CentreIsMiddle(n: nat, i: nat)
    ensures Abs(Offset(n, i)) < CentreTolerance <==> 2 * i + 1 == n
  {
    var k := Offset(n, i);
    var d := 2 * i - (n - 1);
    assert 2.0 * k == d as real;
    if d != 0 {
      assert d >= 1 || d <= -1;
      assert Abs(k) >= 0.5;
    }
  }

  /** The centre tap for odd N is the closed-form limit: f1 for lowpass,
      1 - f1 for highpass, f2 - f1 for bandpass, 1 - (f2 - f1) for bandstop. */
  lemma IdealCentreTap(kind: BandKind, n: nat, f1: real, f2: real, sin: real -> real)
    requires n % 2 == 1
    ensures var c := IdealTaps(kind, n, f1, f2, sin)[(n - 1) / 2];
      c == match kind
           case Lowpass => f1
           case Highpass => 1.0 - f1
           case Bandpass => f2 - f1
           case Bandstop => 1.0 - (f2 - f1)
  {
    CentreIsMiddle(n, (n - 1) / 2);
    assert f1 * Pi / Pi == f1;
    assert (f2 * Pi - f1 * Pi) / Pi == f2 - f1;
  }

  lemma NegatedQuotient(a: real, b: real)
    requires b != 0.0
    ensures (-a) / (-b) == a / b
  {
  }

  /** With an odd sine, sin(w k)/(pi k) is even in k. */
  lemma SincTermEven(sin: real -> real, w: real, k: real)
    requires OddFunction(sin)
    requires k != 0.0
    ensures SincTerm(sin, w, -k) == SincTerm(sin, w, k)
  {
    assert w * -k + w * k == 0.0;
    assert sin(w * -k) == -sin(w * k);
    assert Pi * -k == -(Pi * k);
    NegatedQuotient(sin(w * k), Pi * k);
  }

  lemma IdealTapMirror(kind: BandKind, n: nat, i: nat, wc1: real, wc2: real, sin: real -> real)
    requires OddFunction(sin)
    requires i < n
    ensures IdealTap(kind, n, i, wc1, wc2, sin) == IdealTap(kind, n, n - 1 - i, wc1, wc2, sin)
  {
    var k := Offset(n, i);
    assert Offset(n, n - 1 - i) == -k;
    if Abs(k) >= CentreTolerance {
      SincTermEven(sin, Pi, k);
      SincTermEven(sin, wc1, k);
      SincTermEven(sin, wc2, k);
    }
  }

  /** For an odd sine, every ideal response is symmetric,
      h[i] == h[N-1-i]: a type I design for odd N, type II for even N. */
  lemma IdealTapsSymmetric(kind: BandKind, n: nat, f1: real, f2: real, sin: real -> real)
    requires OddFunction(sin)
    ensures Symmetric(IdealTaps(kind, n, f1, f2, sin))
  {
    var h := IdealTaps(kind, n, f1, f2, sin);
    var wc1, wc2 := f1 * Pi, f2 * Pi;
    forall i | 0 <= i < n
      ensures h[i] == h[n - 1 - i]
    {
      assert h[i] == IdealTap(kind, n, i, wc1, wc2, sin);
      assert h[n - 1 - i] == IdealTap(kind, n, n - 1 - i, wc1, wc2, sin);
      IdealTapMirror(kind, n, i, wc1, wc2, sin);
    }
  }

  /** The source's stand-in for the delayed unit impulse delta[n - alpha]:
      1 at the centre and sin(pi k)/(pi k) elsewhere. */
  function ImpulseTap(n: nat, i: nat, sin: real -> real): real
  {
    var k := Offset(n, i);
    if Abs(k) < CentreTolerance then 1.0 else SincTerm(sin, Pi, k)
  }

  /** Highpass is the impulse minus the lowpass of the same cutoff, and
      bandstop is the impulse minus the bandpass of the same cutoffs. */
  lemma {:induction false} Complementarity(n: nat, f1: real, f2: real, sin: real -> real)
    ensures var lp := IdealTaps(Lowpass, n, f1, f2, sin);
      var hp := IdealTaps(Highpass, n, f1, f2, sin);
      var bp := IdealTaps(Bandpass, n, f1, f2, sin);
      var bs := IdealTaps(Bandstop, n, f1, f2, sin);
      forall i :: 0 <= i < n ==>
        && hp[i] + lp[i] == ImpulseTap(n, i, sin)
        && bs[i] + bp[i] == ImpulseTap(n, i, sin)
  {
  }

  /** Bandpass is the lowpass at f2 minus the lowpass at f1. */
  lemma BandpassIsDifference(n: nat, f1: real, f2: real, sin: real -> real)
    ensures var bp := IdealTaps(Bandpass, n, f1, f2, sin);
      forall i :: 0 <= i < n ==>
        bp[i] == IdealTaps(Lowpass, n, f2, f2, sin)[i] - IdealTaps(Lowpass, n, f1, f1, sin)[i]
  {
    forall i | 0 <= i < n
      ensures IdealTaps(Bandpass, n, f1, f2, sin)[i]
              == IdealTaps(Lowpass, n, f2, f2, sin)[i] - IdealTaps(Lowpass, n, f1, f1, sin)[i]
    {
      assert (f2 * Pi - f1 * Pi) / Pi == f2 * Pi / Pi - f1 * Pi / Pi;
    }
  }
}
