/** Kaiser's design formulas as the first application applies them
    (pbl3_v4.py, design_kaiser_filter): from the ripple delta and the band
    edges wp < ws (fractions of pi) to the attenuation A, the shape
    parameter beta, an odd filter order in [11, 201] and the cutoff in the
    middle of the transition band. log10 and x^0.4 are left abstract. */
module KaiserDesign {
  import opened Common

  /** The ValueErrors the design raises before computing anything; a text
      that is not a number fails float() first. */
  datatype KaiserError = NotANumber | RippleOutOfRange | EdgesNotIncreasing | EdgesOutOfRange

  /** A = attenuation in dB, transitionWidth = ws - wp and cutoff in
      radians. */
  datatype KaiserParams = KaiserParams(order: int, beta: real, attenuation: real,
                                       transitionWidth: real, cutoff: real)

  const MaxKaiserOrder: int := 201

  /** beta by the three-way rule on A (pow(x, 0.4) is x**0.4). */
  function KaiserBeta(a: real, pow: (real, real) -> real): real
  {
    if a > 50.0 then 0.1102 * (a - 8.7)
    else if 21.0 <= a <= 50.0 then 0.5842 * pow(a - 21.0, 0.4) + 0.07886 * (a - 21.0)
    else 0.0
  }

  /** (A - 8) / (2.285 dw): the real-valued order estimate. */
  function OrderEstimate(a: real, dw: real): real
    requires dw > 0.0
  {
    (a - 8.0) / (2.285 * dw)
  }

  /** The design itself, on the parsed entries (None when the text is not
      a number). */
  function DesignKaiser(delta: Option<real>, wpEntry: Option<real>, wsEntry: Option<real>,
                        log10: real -> real, pow: (real, real) -> real)
    : (r: Result<KaiserParams, KaiserError>)
    ensures r == Err(NotANumber) <==> delta.None? || wpEntry.None? || wsEntry.None?
    ensures r == Err(RippleOutOfRange) <==>
      delta.Some? && wpEntry.Some? && wsEntry.Some? && (delta.value <= 0.0 || delta.value >= 1.0)
    ensures r == Err(EdgesNotIncreasing) <==>
      delta.Some? && wpEntry.Some? && wsEntry.Some? && 0.0 < delta.value < 1.0
      && wpEntry.value * Pi >= wsEntry.value * Pi
    ensures r == Err(EdgesOutOfRange) <==>
      delta.Some? && wpEntry.Some? && wsEntry.Some? && 0.0 < delta.value < 1.0
      && wpEntry.value * Pi < wsEntry.value * Pi
      && (wpEntry.value * Pi <= 0.0 || wsEntry.value * Pi >= Pi)
    ensures r.Ok? ==>
      var p := r.value;
      var wp, ws := wpEntry.value * Pi, wsEntry.value * Pi;
      && 0.0 < wp < ws < Pi
      && p.attenuation == -20.0 * log10(delta.value)
      && p.transitionWidth == ws - wp
      && p.order % 2 == 1 && 11 <= p.order <= MaxKaiserOrder
      && (var e := OrderEstimate(p.attenuation, ws - wp);
          e <= MaxKaiserOrder as real ==> e <= p.order as real)
      && p.order as real < (if OrderEstimate(p.attenuation, ws - wp) < 10.0 then 12.0
                            else OrderEstimate(p.attenuation, ws - wp) + 2.0)
      && (OrderEstimate(p.attenuation, ws - wp) > MaxKaiserOrder as real ==> p.order == MaxKaiserOrder)
      && (p.attenuation < 21.0 ==> p.beta == 0.0)
      && (21.0 <= p.attenuation <= 50.0 ==>
            p.beta == 0.5842 * pow(p.attenuation - 21.0, 0.4) + 0.07886 * (p.attenuation - 21.0))
      && (p.attenuation > 50.0 ==> p.beta == 0.1102 * (p.attenuation - 8.7))
      && wp < p.cutoff < ws
      && p.cutoff - wp == ws - p.cutoff
  {
    if delta.None? || wpEntry.None? || wsEntry.None? then Err(NotANumber)
    else
      var d := delta.value;
      var wp := wpEntry.value * Pi;
      var ws := wsEntry.value * Pi;
      if d <= 0.0 || d >= 1.0 then Err(RippleOutOfRange)
      else if wp >= ws then Err(EdgesNotIncreasing)
      else if wp <= 0.0 || ws >= Pi then Err(EdgesOutOfRange)
      else
        var a := -20.0 * log10(d);
        var dw := ws - wp;
        var beta := KaiserBeta(a, pow);
        var raw := Ceil(OrderEstimate(a, dw));
        var m := OddOrderInRange(raw, MaxKaiserOrder);
        var wc := (wp + ws) / 2.0;
        Ok(KaiserParams(m, beta, a, dw, wc))
  }

  lemma EstimateMonotone(a1: real, a2: real, dw: real)
    requires dw > 0.0 && a1 <= a2
    ensures OrderEstimate(a1, dw) <= OrderEstimate(a2, dw)
  {
    var q := 2.285 * dw;
    assert (a2 - 8.0) / q - (a1 - 8.0) / q == (a2 - a1) / q;
  }

  /** A smaller ripple never gives a smaller order, for the same band
      edges, when log10 is increasing. */
  lemma OrderMonotoneInRipple(d1: real, d2: real, wp: real, ws: real,
                              log10: real -> real, pow: (real, real) -> real)
    requires forall x, y :: 0.0 < x <= y ==> log10(x) <= log10(y)
    requires 0.0 < d1 <= d2 < 1.0
    requires DesignKaiser(Some(d2), Some(wp), Some(ws), log10, pow).Ok?
    ensures DesignKaiser(Some(d1), Some(wp), Some(ws), log10, pow).Ok?
    ensures DesignKaiser(Some(d1), Some(wp), Some(ws), log10, pow).value.order
            >= DesignKaiser(Some(d2), Some(wp), Some(ws), log10, pow).value.order
  {
    var dw := ws * Pi - wp * Pi;
    var a1, a2 := -20.0 * log10(d1), -20.0 * log10(d2);
    assert log10(d1) <= log10(d2);
    EstimateMonotone(a2, a1, dw);
    CeilMonotone(OrderEstimate(a2, dw), OrderEstimate(a1, dw));
    OddOrderInRangeMonotone(Ceil(OrderEstimate(a2, dw)), Ceil(OrderEstimate(a1, dw)), MaxKaiserOrder);
  }

  /** delta = 0.01, wp = 0.4 pi, ws = 0.6 pi: A = 40 dB, beta from the
      middle branch, raw estimate 32 / (2.285 * 0.2 pi) in (22, 23], so the
      order is 23 and the cutoff 0.5 pi. */
  lemma ConcreteDesign(log10: real -> real, pow: (real, real) -> real)
    requires log10(0.01) == -2.0
    ensures var r := DesignKaiser(Some(0.01), Some(0.4), Some(0.6), log10, pow);
      && r.Ok?
      && r.value.attenuation == 40.0
      && r.value.beta == 0.5842 * pow(19.0, 0.4) + 0.07886 * 19.0
      && r.value.order == 23
      && r.value.cutoff == 0.5 * Pi
  {
    var dw := 0.6 * Pi - 0.4 * Pi;
    assert dw == 0.2 * Pi;
    var e := OrderEstimate(40.0, dw);
    assert e == 32.0 / (2.285 * (0.2 * Pi));
    assert 22.0 * (2.285 * (0.2 * Pi)) < 32.0 <= 23.0 * (2.285 * (0.2 * Pi));
    assert 22.0 < e <= 23.0;
    assert Ceil(e) == 23;
  }
}
