/** The control panel of the first application (pbl3_v4.py): the text
    entries and Tk variables it keeps, the validators and +/- steppers that
    rewrite them, the Kaiser design button, and the design update_filter
    computes from them. An entry's text is modelled by the number float()
    or int() reads from it, None when the text does not parse. */
module Controls {
  import opened Common
  import opened Windows
  import opened IdealResponse
  import opened KaiserDesign
  import opened Pipeline
  import opened Metrics

  const MinOrder: int := 11
  const MaxOrder: int := 201
  const DefaultOrder: int := 51
  const MinBeta: real := 0.0
  const MaxBeta: real := 15.0
  const DefaultBeta: real := 8.0

  /** Every order the panel ever holds: odd, in [11, 201]. */
  predicate ValidOrder(n: int)
  {
    n % 2 == 1 && MinOrder <= n <= MaxOrder
  }

  /** validate_order: an integer in [11, 201], an even one moved up to the
      next odd number. */
  function ValidateOrder(entry: Option<int>): (r: Option<int>)
    ensures r.Some? <==> entry.Some? && MinOrder <= entry.value <= MaxOrder
    ensures r.Some? ==> ValidOrder(r.value) && entry.value <= r.value <= entry.value + 1
  {
    match entry
    case None => None
    case Some(v) =>
      if MinOrder <= v <= MaxOrder then
        Some(if v % 2 == 0 then (if MaxOrder < v + 1 then MaxOrder else v + 1) else v)
      else None
  }

  /** adjust_order: current + delta, one step further in delta's direction
      (up when delta is 0) when that is even, then clamped. */
  function AdjustedOrder(current: int, delta: int): (r: int)
    ensures ValidOrder(r)
    ensures ValidOrder(current + delta) ==> r == current + delta
    ensures delta >= 0 ==> ClampInt(MinOrder, MaxOrder, current + delta) <= r
                           <= ClampInt(MinOrder, MaxOrder, current + delta + 1)
    ensures delta < 0 ==> ClampInt(MinOrder, MaxOrder, current + delta - 1) <= r
                          <= ClampInt(MinOrder, MaxOrder, current + delta)
  {
    var v := current + delta;
    var step := if delta > 0 then 1 else if delta < 0 then -1 else 1;
    ClampInt(MinOrder, MaxOrder, if v % 2 == 0 then v + step else v)
  }

  /** The - button undoes the + button (steps of 2) away from the ends. */
  lemma AdjustOrderUndo(n: int)
    requires ValidOrder(n)
    ensures n + 2 <= MaxOrder ==> AdjustedOrder(AdjustedOrder(n, 2), -2) == n
    ensures n - 2 >= MinOrder ==> AdjustedOrder(AdjustedOrder(n, -2), 2) == n
  {
  }

  /** Clamping a value already rounded to the grid, with ends on the grid,
      leaves it on the grid, so formatting it again changes nothing, and it
      is within half a unit of the clamped unrounded value. */
  lemma RoundThenClamp(x: real, scale: nat, a: real, b: real, lo: int, hi: int)
    requires DecimalScale(scale) && lo <= hi
    requires a == lo as real / scale as real && b == hi as real / scale as real
    ensures var c := ClampReal(a, b, RoundTo(x, scale));
      && RoundTo(c, scale) == c
      && OnGrid(c, scale)
      && Abs(c - ClampReal(a, b, x)) <= 0.5 / scale as real
  {
    QuotientMonotone(lo, hi, scale);
    if x < a {
      RoundStaysBelow(x, scale, lo);
      RoundToMultiple(lo, scale);
      MultipleOnGrid(lo, scale);
    } else if x > b {
      RoundStaysAbove(x, scale, hi);
      RoundToMultiple(hi, scale);
      MultipleOnGrid(hi, scale);
    } else {
      RoundStaysAbove(x, scale, lo);
      RoundStaysBelow(x, scale, hi);
      RoundToSpec(x, scale);
      RoundToIdempotent(x, scale);
    }
  }

  /** adjust_beta: round(beta + delta, 1) clamped to [0, 15], written back
      with one decimal. */
  function AdjustedBeta(current: real, delta: real): (b: real)
    ensures MinBeta <= b <= MaxBeta && OnGrid(b, 10)
    ensures Abs(b - ClampReal(MinBeta, MaxBeta, current + delta)) <= 0.05
  {
    RoundThenClamp(current + delta, 10, MinBeta, MaxBeta, 0, 150);
    RoundTo(ClampReal(MinBeta, MaxBeta, RoundTo(current + delta, 10)), 10)
  }

  /** validate_beta_and_update: a beta in [0, 15] is kept, written back
      with one decimal; anything else is refused. */
  function CheckedBeta(entry: Option<real>): (r: Option<real>)
    ensures r.Some? <==> entry.Some? && MinBeta <= entry.value <= MaxBeta
    ensures r.Some? ==> MinBeta <= r.value <= MaxBeta && OnGrid(r.value, 10)
                        && Abs(r.value - entry.value) <= 0.05
  {
    match entry
    case None => None
    case Some(v) =>
      if MinBeta <= v <= MaxBeta then
        RoundToSpec(v, 10);
        RoundToWithin(v, 10, 0, 150);
        Some(RoundTo(v, 10))
      else None
  }

  /** validate_freq: in Hz a cutoff must lie in [1, fs/2) (and the sample
      rate must parse); normalized it must lie in [0.01, 0.99]. */
  function ValidateFreq(entry: Option<real>, unitHz: bool, fs: Option<real>): (r: Option<real>)
    ensures r.Some? <==>
      && entry.Some?
      && (if unitHz then fs.Some? && 1.0 <= entry.value < fs.value / 2.0
          else 0.01 <= entry.value <= 0.99)
    ensures r.Some? ==> r.value == entry.value
  {
    match entry
    case None => None
    case Some(v) =>
      if unitHz then
        match fs
        case None => None
        case Some(f) => if 1.0 <= v < f / 2.0 then Some(v) else None
      else if 0.01 <= v <= 0.99 then Some(v) else None
  }

  /** freq_to_normalized: Hz divided by the Nyquist frequency fs/2. A
      sample rate that does not parse, or is zero, raises. */
  function FreqToNormalized(v: real, unitHz: bool, fs: Option<real>): (r: Option<real>)
    ensures r.None? <==> unitHz && (fs.None? || fs.value == 0.0)
    ensures r.Some? && !unitHz ==> r.value == v
    ensures r.Some? && unitHz ==> r.value * fs.value == 2.0 * v
  {
    if unitHz then
      match fs
      case None => None
      case Some(f) => if f == 0.0 then None else Some(v * 2.0 / f)
    else Some(v)
  }

  /** Converting a normalized frequency to Hz and back gives it again. */
  lemma FreqToNormalizedInverse(f: real, fs: real)
    requires fs > 0.0
    ensures FreqToNormalized(f * fs / 2.0, true, Some(fs)) == Some(f)
  {
    var r := FreqToNormalized(f * fs / 2.0, true, Some(fs));
    assert r.value * fs == f * fs;
  }

  /** The text a cutoff entry is rewritten to: one decimal in Hz, two
      normalized. */
  function FormatFreq(v: real, unitHz: bool): real
  {
    if unitHz then RoundTo(v, 10) else RoundTo(v, 100)
  }

  /** adjust_freq in Hz: clamped to [1, fs/2 - 1] (just 1 when fs/2 - 1 is
      below 1) and written with one decimal. */
  function AdjustedHz(v: real, delta: real, nyquist: real): (r: real)
    ensures r >= 1.0 && OnGrid(r, 10)
    ensures nyquist > 1.0 ==> r < nyquist
    ensures Abs(r - MaxReal(1.0, MinReal(nyquist - 1.0, v + delta))) <= 0.05
  {
    var x := MaxReal(1.0, MinReal(nyquist - 1.0, v + delta));
    RoundToSpec(x, 10);
    RoundToUnfold(x, 10);
    RoundHalfEvenBetween(x * 10.0, 10);
    RoundTo(x, 10)
  }

  /** adjust_freq normalized: round(v + delta, 2) clamped to [0.01, 0.99],
      written with two decimals. */
  function AdjustedNormalized(v: real, delta: real): (r: real)
    ensures 0.01 <= r <= 0.99 && OnGrid(r, 100)
    ensures Abs(r - ClampReal(0.01, 0.99, v + delta)) <= 0.005
  {
    RoundThenClamp(v + delta, 100, 0.01, 0.99, 1, 99);
    RoundTo(ClampReal(0.01, 0.99, RoundTo(v + delta, 100)), 100)
  }

  /** A stepped cutoff always passes validate_freq afterwards (in Hz when
      the sample rate exceeds 2 Hz). */
  lemma SteppedFreqValidates(v: real, delta: real, unitHz: bool, fs: real)
    requires unitHz ==> fs > 2.0
    ensures var r := if unitHz then AdjustedHz(v, delta, fs / 2.0) else AdjustedNormalized(v, delta);
      ValidateFreq(Some(r), unitHz, Some(fs)) == Some(r)
  {
  }

  /** The text a cutoff entry is reset to when it is refused. */
  function DefaultCutoff(unitHz: bool, second: bool): real
  {
    if unitHz then (if second then 400.0 else 200.0)
    else (if second then 0.40 else 0.20)
  }

  predicate IsBand(kind: BandKind)
  {
    kind == Bandpass || kind == Bandstop
  }

  /** The verdict of validate_and_update's checks on the two cutoffs. */
  datatype CutoffCheck = Accept(f1: real, f2: Option<real>) | RejectFirst | RejectSecond | Misordered

  /** validate_and_update's checks as written: the first cutoff, then (band
      filters only) the second, then wc1 < wc2 on the unrounded values. */
  function CheckCutoffs(kind: BandKind, unitHz: bool, fs: Option<real>,
                        c1: Option<real>, c2: Option<real>): (r: CutoffCheck)
    ensures r == RejectFirst <==> ValidateFreq(c1, unitHz, fs).None?
    ensures r == RejectSecond <==>
      ValidateFreq(c1, unitHz, fs).Some? && IsBand(kind) && ValidateFreq(c2, unitHz, fs).None?
    ensures r == Misordered <==>
      ValidateFreq(c1, unitHz, fs).Some? && IsBand(kind) && ValidateFreq(c2, unitHz, fs).Some?
      && c1.value >= c2.value
    ensures r.Accept? ==> r.f1 == c1.value && (r.f2.Some? <==> IsBand(kind))
                          && (r.f2.Some? ==> r.f2.value == c2.value && r.f1 < r.f2.value)
  {
    match ValidateFreq(c1, unitHz, fs)
    case None => RejectFirst
    case Some(w1) =>
      if IsBand(kind) then
        match ValidateFreq(c2, unitHz, fs)
        case None => RejectSecond
        case Some(w2) => if w1 >= w2 then Misordered else Accept(w1, Some(w2))
      else Accept(w1, None)
  }

  /** As written, the band check passes 0.301 < 0.304, yet both entries are
      then rewritten as 0.30, and the bandpass update_filter builds from
      them is zero everywhere. */
  lemma BandCheckedBeforeRounding(n: nat, sin: real -> real)
    ensures CheckCutoffs(Bandpass, false, None, Some(0.301), Some(0.304)) == Accept(0.301, Some(0.304))
    ensures FormatFreq(0.301, false) == 0.3 && FormatFreq(0.304, false) == 0.3
    ensures forall i :: 0 <= i < n ==> IdealTaps(Bandpass, n, 0.3, 0.3, sin)[i] == 0.0
  {
    RoundToUnfold(0.301, 100);
    RoundToUnfold(0.304, 100);
    assert RoundHalfEven(0.301 * 100.0) == 30;
    assert RoundHalfEven(0.304 * 100.0) == 30;
  }

  /** The corrected check: the cutoffs are rounded as the entries will
      show them before wc1 < wc2 is checked, and the rounded values are the
      ones accepted. */
  function CheckCutoffsRounded(kind: BandKind, unitHz: bool, fs: Option<real>,
                               c1: Option<real>, c2: Option<real>): (r: CutoffCheck)
    ensures r == RejectFirst <==> ValidateFreq(c1, unitHz, fs).None?
    ensures r == RejectSecond <==>
      ValidateFreq(c1, unitHz, fs).Some? && IsBand(kind) && ValidateFreq(c2, unitHz, fs).None?
    ensures r == Misordered <==>
      ValidateFreq(c1, unitHz, fs).Some? && IsBand(kind) && ValidateFreq(c2, unitHz, fs).Some?
      && FormatFreq(c1.value, unitHz) >= FormatFreq(c2.value, unitHz)
    ensures r.Accept? ==> r.f1 == FormatFreq(c1.value, unitHz) && (r.f2.Some? <==> IsBand(kind))
                          && (r.f2.Some? ==> r.f2.value == FormatFreq(c2.value, unitHz) && r.f1 < r.f2.value)
  {
    match ValidateFreq(c1, unitHz, fs)
    case None => RejectFirst
    case Some(w1) =>
      var g1 := FormatFreq(w1, unitHz);
      if IsBand(kind) then
        match ValidateFreq(c2, unitHz, fs)
        case None => RejectSecond
        case Some(w2) =>
          var g2 := FormatFreq(w2, unitHz);
          if g1 >= g2 then Misordered else Accept(g1, Some(g2))
      else Accept(g1, None)
  }

  /** Both checks agree wherever rounding keeps the cutoffs apart, and the
      corrected one then accepts the entries as rewritten. */
  lemma CheckCutoffsAgree(kind: BandKind, unitHz: bool, fs: Option<real>, c1: Option<real>, c2: Option<real>)
    requires IsBand(kind) && c1.Some? && c2.Some? ==>
               FormatFreq(c1.value, unitHz) < FormatFreq(c2.value, unitHz)
    ensures var a := CheckCutoffs(kind, unitHz, fs, c1, c2);
      var b := CheckCutoffsRounded(kind, unitHz, fs, c1, c2);
      && (a.Accept? <==> b.Accept?)
      && (a.Accept? ==> b.f1 == FormatFreq(a.f1, unitHz)
                        && (b.f2.Some? ==> b.f2.value == FormatFreq(a.f2.value, unitHz)))
  {
    if ValidateFreq(c1, unitHz, fs).Some? && IsBand(kind) && ValidateFreq(c2, unitHz, fs).Some? {
      if c2.value <= c1.value {
        RoundingMonotone(c2.value, c1.value, unitHz);
      }
    }
  }

  lemma RoundingMonotone(x: real, y: real, unitHz: bool)
    requires x <= y
    ensures FormatFreq(x, unitHz) <= FormatFreq(y, unitHz)
  {
    RoundToMonotone(x, y, if unitHz then 10 else 100);
  }

  /** In Hz the range check is made before rounding too: at fs = 1000 Hz a
      cutoff of 499.97 Hz is accepted and rewritten as 500.0, the Nyquist
      frequency itself, which validate_freq refuses. */
  lemma HzRoundingReachesNyquist()
    ensures ValidateFreq(Some(499.97), true, Some(1000.0)) == Some(499.97)
    ensures FormatFreq(499.97, true) == 500.0
    ensures ValidateFreq(Some(500.0), true, Some(1000.0)).None?
  {
    RoundToUnfold(499.97, 10);
    assert RoundHalfEven(499.97 * 10.0) == 5000;
  }

  /** The cutoff text design_kaiser_filter writes as written: wc/pi with
      three decimals, whatever the unit the panel is in. */
  function KaiserCutoffEntryAsWritten(wc: real): real
  {
    RoundTo(wc / Pi, 1000)
  }

  /** In Hz mode that text is read back as Hz: the 0.5 pi cutoff of the
      default Kaiser design becomes 0.001 pi at fs = 1000 Hz. */
  lemma KaiserCutoffReadAsHz()
    ensures KaiserCutoffEntryAsWritten(0.5 * Pi) == 0.5
    ensures FreqToNormalized(KaiserCutoffEntryAsWritten(0.5 * Pi), true, Some(1000.0)) == Some(0.001)
  {
    assert 0.5 * Pi / Pi == 500.0 / 1000.0;
    RoundToMultiple(500, 1000);
  }

  /** The corrected text: the normalized cutoff q = wc/pi in the panel's
      unit, three decimals (Hz needs the sample rate; without one the
      normalized value is kept). */
  function KaiserCutoffEntry(q: real, unitHz: bool, fs: Option<real>): real
  {
    if unitHz && fs.Some? then RoundTo(ToHz(q, fs.value), 1000)
    else RoundTo(q, 1000)
  }

  /** A normalized frequency in Hz: q times the Nyquist frequency. */
  function ToHz(q: real, fs: real): real
  {
    q * fs / 2.0
  }

  /** Read back through freq_to_normalized, the corrected text gives the
      designed cutoff q = wc/pi to within the rounding of three decimals. */
  lemma KaiserCutoffEntryRoundTrip(q: real, unitHz: bool, fs: Option<real>)
    requires unitHz ==> fs.Some? && fs.value > 0.0
    ensures var r := FreqToNormalized(KaiserCutoffEntry(q, unitHz, fs), unitHz, fs);
      && r.Some?
      && Abs(r.value - q) <= (if unitHz then 0.001 / fs.value else 0.0005)
  {
    if unitHz {
      HzEntryRoundTrip(q, fs.value);
    } else {
      RoundToSpec(q, 1000);
    }
  }

  lemma HzEntryRoundTrip(q: real, f: real)
    requires f > 0.0
    ensures var e := RoundTo(ToHz(q, f), 1000);
      Abs(e * 2.0 / f - q) <= 0.001 / f
  {
    RoundToSpec(ToHz(q, f), 1000);
    ToHzAndBack(q, f, RoundTo(ToHz(q, f), 1000));
  }

  /** An error of at most 0.0005 Hz on q * fs / 2 is one of at most
      0.001 / fs on q once divided by fs / 2. */
  lemma ToHzAndBack(q: real, f: real, e: real)
    requires f > 0.0
    requires Abs(e - q * f / 2.0) <= 0.5 / 1000.0
    ensures Abs(e * 2.0 / f - q) <= 0.001 / f
  {
    var d := e * 2.0 / f - q;
    assert d * f == 2.0 * (e - q * f / 2.0);
    DivideBound(d, f, 0.001);
  }

  /** The panel's state as a value, for stating what each handler leaves
      behind. */
  datatype PanelState = PanelState(filterOrder: int, orderEntry: Option<int>,
                                   cutoff1: Option<real>, cutoff2: Option<real>,
                                   betaEntry: Option<real>, sampleRate: Option<real>,
                                   unitHz: bool, kind: BandKind, window: WindowKind)

  /** validate_and_update on a panel state, as written: a refused cutoff
      is reset to its default, a misordered band changes nothing, and
      accepted cutoffs are rewritten in the entry format before
      update_filter runs (the second boolean). The written band need not
      be strictly ordered (see BandCheckedBeforeRounding). */
  function ValidateAndUpdateStep(s: PanelState): (r: (PanelState, bool))
    ensures var c := CheckCutoffs(s.kind, s.unitHz, s.sampleRate, s.cutoff1, s.cutoff2);
      && (r.1 <==> c.Accept?)
      && (c == RejectFirst ==> r.0 == s.(cutoff1 := Some(DefaultCutoff(s.unitHz, false))))
      && (c == RejectSecond ==> r.0 == s.(cutoff2 := Some(DefaultCutoff(s.unitHz, true))))
      && (c == Misordered ==> r.0 == s)
      && (c.Accept? ==>
            && r.0.cutoff1 == Some(FormatFreq(s.cutoff1.value, s.unitHz))
            && r.0 == s.(cutoff1 := r.0.cutoff1, cutoff2 := r.0.cutoff2)
            && (IsBand(s.kind) ==> r.0.cutoff2 == Some(FormatFreq(s.cutoff2.value, s.unitHz))
                                   && r.0.cutoff1.value <= r.0.cutoff2.value)
            && (!IsBand(s.kind) ==> r.0.cutoff2 == s.cutoff2))
  {
    match CheckCutoffs(s.kind, s.unitHz, s.sampleRate, s.cutoff1, s.cutoff2)
    case RejectFirst => (s.(cutoff1 := Some(DefaultCutoff(s.unitHz, false))), false)
    case RejectSecond => (s.(cutoff2 := Some(DefaultCutoff(s.unitHz, true))), false)
    case Misordered => (s, false)
    case Accept(f1, f2) =>
      if f2.Some? then
        RoundingMonotone(f1, f2.value, s.unitHz);
        (s.(cutoff1 := Some(FormatFreq(f1, s.unitHz)), cutoff2 := Some(FormatFreq(f2.value, s.unitHz))), true)
      else
        (s.(cutoff1 := Some(FormatFreq(f1, s.unitHz))), true)
  }

  /** The corrected step: the band is checked on the rounded cutoffs, so an
      accepted band is written strictly ordered. */
  function ValidateAndUpdateStepRounded(s: PanelState): (r: (PanelState, bool))
    ensures r.0 == s.(cutoff1 := r.0.cutoff1, cutoff2 := r.0.cutoff2)
    ensures r.1 <==> CheckCutoffsRounded(s.kind, s.unitHz, s.sampleRate, s.cutoff1, s.cutoff2).Accept?
    ensures r.1 && IsBand(s.kind) ==> r.0.cutoff1.Some? && r.0.cutoff2.Some?
                                       && r.0.cutoff1.value < r.0.cutoff2.value
  {
    match CheckCutoffsRounded(s.kind, s.unitHz, s.sampleRate, s.cutoff1, s.cutoff2)
    case RejectFirst => (s.(cutoff1 := Some(DefaultCutoff(s.unitHz, false))), false)
    case RejectSecond => (s.(cutoff2 := Some(DefaultCutoff(s.unitHz, true))), false)
    case Misordered => (s, false)
    case Accept(f1, f2) =>
      (s.(cutoff1 := Some(f1), cutoff2 := if f2.Some? then f2 else s.cutoff2), true)
  }

  /** Where rounding keeps the cutoffs of a band apart, the step as written
      and the corrected one leave the same panel behind. */
  lemma StepsAgree(s: PanelState)
    requires IsBand(s.kind) && s.cutoff1.Some? && s.cutoff2.Some? ==>
               FormatFreq(s.cutoff1.value, s.unitHz) < FormatFreq(s.cutoff2.value, s.unitHz)
    ensures ValidateAndUpdateStep(s) == ValidateAndUpdateStepRounded(s)
  {
    CheckCutoffsAgree(s.kind, s.unitHz, s.sampleRate, s.cutoff1, s.cutoff2);
  }

  /** adjust_freq on a panel state: the new state and whether
      update_filter runs. */
  function AdjustFreqStep(s: PanelState, second: bool, delta: real): (PanelState, bool)
  {
    var current := if second then s.cutoff2 else s.cutoff1;
    if current.None? || (s.unitHz && s.sampleRate.None?) then
      (if second then s.(cutoff2 := Some(DefaultCutoff(s.unitHz, false)))
       else s.(cutoff1 := Some(DefaultCutoff(s.unitHz, false))), false)
    else
      var stepped := if s.unitHz then AdjustedHz(current.value, delta, s.sampleRate.value / 2.0)
                     else AdjustedNormalized(current.value, delta);
      ValidateAndUpdateStep(if second then s.(cutoff2 := Some(stepped)) else s.(cutoff1 := Some(stepped)))
  }

  /** get_freq_step: 1% of the sample rate in Hz, 0.01 normalized; in Hz
      float() of the sample rate raises when it does not parse. */
  function FreqStep(unitHz: bool, fs: Option<real>): (r: Option<real>)
    ensures r.None? <==> unitHz && fs.None?
    ensures r.Some? && unitHz ==> r.value * 100.0 == fs.value
    ensures r.Some? && !unitHz ==> r.value == 0.01
  {
    if unitHz then (if fs.Some? then Some(fs.value * 0.01) else None) else Some(0.01)
  }

  /** Pressing a button of the only cutoff of a lowpass or highpass filter
      with a readable entry always redraws the filter (in Hz when the
      sample rate exceeds 2 Hz), with the stepped value written back. */
  lemma PressedLowpassCutoffRedraws(s: PanelState, up: bool)
    requires !IsBand(s.kind) && s.cutoff1.Some?
    requires s.unitHz ==> s.sampleRate.Some? && s.sampleRate.value > 2.0
    ensures var step := FreqStep(s.unitHz, s.sampleRate);
      && step.Some?
      && AdjustFreqStep(s, false, if up then step.value else -step.value).1
  {
    var step := FreqStep(s.unitHz, s.sampleRate).value;
    var delta := if up then step else -step;
    var fs := if s.unitHz then s.sampleRate.value else 4.0;
    SteppedFreqValidates(s.cutoff1.value, delta, s.unitHz, fs);
  }

  /** The model of the Tk variables and entries the handlers rewrite. */
  class ControlPanel {
    var filterOrder: int
    var orderEntry: Option<int>
    var cutoff1: Option<real>
    var cutoff2: Option<real>
    var betaEntry: Option<real>
    var sampleRate: Option<real>
    var unitHz: bool
    var kind: BandKind
    var window: WindowKind

    /** The order is odd and in range whatever the user does. */
    predicate Valid()
      reads this
    {
      ValidOrder(filterOrder)
    }

    function State(): PanelState
      reads this
    {
      PanelState(filterOrder, orderEntry, cutoff1, cutoff2, betaEntry, sampleRate, unitHz, kind, window)
    }

    /** The initial values of the Tk variables. */
    constructor ()
      ensures Valid()
      ensures State() == PanelState(DefaultOrder, Some(DefaultOrder), Some(0.20), Some(0.40),
                                    Some(DefaultBeta), Some(1000.0), false, Lowpass, Hamming)
    {
      filterOrder := DefaultOrder;
      orderEntry := Some(DefaultOrder);
      cutoff1 := Some(0.20);
      cutoff2 := Some(0.40);
      betaEntry := Some(DefaultBeta);
      sampleRate := Some(1000.0);
      unitHz := false;
      kind := Lowpass;
      window := Hamming;
    }

    /** adjust_order; update_filter always runs. */
    method AdjustOrder(delta: int) returns (redesign: bool)
      requires Valid()
      modifies this
      ensures Valid() && redesign
      ensures State() == old(State()).(filterOrder := AdjustedOrder(old(filterOrder), delta),
                                       orderEntry := Some(AdjustedOrder(old(filterOrder), delta)))
    {
      var newVal := AdjustedOrder(filterOrder, delta);
      filterOrder := newVal;
      orderEntry := Some(newVal);
      redesign := true;
    }

    /** validate_order_and_update: a refused entry resets the order to 51. */
    method ValidateOrderAndUpdate() returns (redesign: bool)
      requires Valid()
      modifies this
      ensures Valid()
      ensures redesign <==> ValidateOrder(old(orderEntry)).Some?
      ensures var n := match ValidateOrder(old(orderEntry))
                       case Some(v) => v
                       case None => DefaultOrder;
        State() == old(State()).(filterOrder := n, orderEntry := Some(n))
    {
      var orderVal := ValidateOrder(orderEntry);
      if orderVal.Some? {
        filterOrder := orderVal.value;
        orderEntry := Some(orderVal.value);
        redesign := true;
      } else {
        filterOrder := DefaultOrder;
        orderEntry := Some(DefaultOrder);
        redesign := false;
      }
    }

    /** adjust_beta; the design is redone only with the Kaiser window. */
    method AdjustBeta(delta: real) returns (redesign: bool)
      requires Valid()
      modifies this
      ensures Valid()
      ensures redesign <==> old(betaEntry).Some? && window == Kaiser
      ensures State() == old(State()).(betaEntry := Some(
        if old(betaEntry).Some? then AdjustedBeta(old(betaEntry).value, delta) else DefaultBeta))
    {
      match betaEntry {
        case Some(current) =>
          betaEntry := Some(AdjustedBeta(current, delta));
          redesign := window == Kaiser;
        case None =>
          betaEntry := Some(DefaultBeta);
          redesign := false;
      }
    }

    /** validate_beta_and_update: a refused beta is reset to 8.0. */
    method ValidateBetaAndUpdate() returns (redesign: bool)
      requires Valid()
      modifies this
      ensures Valid()
      ensures redesign <==> CheckedBeta(old(betaEntry)).Some? && window == Kaiser
      ensures State() == old(State()).(betaEntry := Some(
        if CheckedBeta(old(betaEntry)).Some? then CheckedBeta(old(betaEntry)).value else DefaultBeta))
    {
      var checked := CheckedBeta(betaEntry);
      if checked.Some? {
        betaEntry := checked;
        redesign := window == Kaiser;
      } else {
        betaEntry := Some(DefaultBeta);
        redesign := false;
      }
    }

    /** validate_and_update as written. */
    method ValidateAndUpdate() returns (redesign: bool)
      requires Valid()
      modifies this
      ensures Valid()
      ensures (State(), redesign) == ValidateAndUpdateStep(old(State()))
    {
      var check := CheckCutoffs(kind, unitHz, sampleRate, cutoff1, cutoff2);
      match check {
        case RejectFirst =>
          cutoff1 := Some(DefaultCutoff(unitHz, false));
          redesign := false;
        case RejectSecond =>
          cutoff2 := Some(DefaultCutoff(unitHz, true));
          redesign := false;
        case Misordered =>
          redesign := false;
        case Accept(f1, f2) =>
          cutoff1 := Some(FormatFreq(f1, unitHz));
          if f2.Some? {
            cutoff2 := Some(FormatFreq(f2.value, unitHz));
          }
          redesign := true;
      }
    }

    /** adjust_freq on the first (second == false) or second cutoff, for
      any delta: an entry or sample rate that does not parse resets the
      entry; otherwise the stepped value is written and
      validate_and_update runs. */
    method AdjustFreq(second: bool, delta: real) returns (redesign: bool)
      requires Valid()
      modifies this
      ensures Valid()
      ensures (State(), redesign) == AdjustFreqStep(old(State()), second, delta)
    {
      var current := if second then cutoff2 else cutoff1;
      if current.None? || (unitHz && sampleRate.None?) {
        if second {
          cutoff2 := Some(DefaultCutoff(unitHz, false));
        } else {
          cutoff1 := Some(DefaultCutoff(unitHz, false));
        }
        redesign := false;
      } else {
        var stepped;
        if unitHz {
          stepped := AdjustedHz(current.value, delta, sampleRate.value / 2.0);
        } else {
          stepped := AdjustedNormalized(current.value, delta);
        }
        if second {
          cutoff2 := Some(stepped);
        } else {
          cutoff1 := Some(stepped);
        }
        redesign := ValidateAndUpdate();
      }
    }

    /** A +/- button of a cutoff: the step is taken from get_freq_step
      before adjust_freq runs, so in Hz with a sample rate that does not
      parse the click raises there and changes nothing. */
    method PressFreqButton(second: bool, up: bool) returns (redesign: bool)
      requires Valid()
      modifies this
      ensures Valid()
      ensures var step := FreqStep(old(unitHz), old(sampleRate));
        if step.None? then State() == old(State()) && !redesign
        else (State(), redesign) == AdjustFreqStep(old(State()), second, if up then step.value else -step.value)
    {
      var step := FreqStep(unitHz, sampleRate);
      if step.None? {
        redesign := false;
      } else {
        redesign := AdjustFreq(second, if up then step.value else -step.value);
      }
    }

    /** design_kaiser_filter: on success the order, its entry, the cutoff
      entry (wc/pi with three decimals, whatever the unit; see
      KaiserCutoffReadAsHz), the window and the beta entry (three decimals)
      are rewritten; on an error nothing changes. */
    method DesignKaiserFilter(delta: Option<real>, wpEntry: Option<real>, wsEntry: Option<real>,
                        log10: real -> real, pow: (real, real) -> real)
      returns (result: Result<KaiserParams, KaiserError>)
      requires Valid()
      modifies this
      ensures Valid()
      ensures result == DesignKaiser(delta, wpEntry, wsEntry, log10, pow)
      ensures result.Err? ==> State() == old(State())
      ensures result.Ok? ==>
        var p := result.value;
        State() == old(State()).(filterOrder := p.order, orderEntry := Some(p.order),
                                 cutoff1 := Some(KaiserCutoffEntryAsWritten(p.cutoff)),
                                 window := Kaiser, betaEntry := Some(RoundTo(p.beta, 1000)))
    {
      result := DesignKaiser(delta, wpEntry, wsEntry, log10, pow);
      if result.Ok? {
        var p := result.value;
        filterOrder := p.order;
        orderEntry := Some(p.order);
        cutoff1 := Some(KaiserCutoffEntryAsWritten(p.cutoff));
        window := Kaiser;
        betaEntry := Some(RoundTo(p.beta, 1000));
      }
    }

    /** The cutoffs ideal_filter reads, normalized; the second only for the
      band filters. */
    function NormalizedCutoffs(): (r: Option<(real, real)>)
      reads this
    {
      match cutoff1
      case None => None
      case Some(c1) =>
        match FreqToNormalized(c1, unitHz, sampleRate)
        case None => None
        case Some(f1) =>
          if IsBand(kind) then
            match cutoff2
            case None => None
            case Some(c2) =>
              match FreqToNormalized(c2, unitHz, sampleRate)
              case None => None
              case Some(f2) => Some((f1, f2))
          else Some((f1, 0.0))
    }

    /** update_filter: the window and ideal response of the current
      settings and their product, with get_window's default (periodic)
      Kaiser window; None where the source raises. */
    function CurrentDesign(cos: real -> real, sin: real -> real,
                           kaiser: (real, nat) -> seq<real>): (r: Option<Design>)
      requires Valid()
      reads this
      ensures r.Some? ==> |r.value.windowed| == filterOrder
    {
      match NormalizedCutoffs()
      case None => None
      case Some(f) => DesignTaps(filterOrder, window, betaEntry, kind, f.0, f.1, cos, sin, kaiser, true)
    }
  }

  /** Whatever the user has done, every design the panel computes has an
      odd number of taps, and unless the Kaiser window is selected with a
      readable beta its coefficients are symmetric, so the report calls it
      a type I linear-phase filter. The Kaiser window the panel asks for
      is periodic; Pipeline.PeriodicKaiserDesignNotSymmetric shows type
      III reported for it. */
  lemma PanelDesignIsTypeI(p: ControlPanel, cos: real -> real, sin: real -> real,
                           kaiser: (real, nat) -> seq<real>)
    requires p.Valid()
    requires OddFunction(sin) && CosineLike(cos) && KaiserLike(kaiser)
    ensures p.CurrentDesign(cos, sin, kaiser).Some? <==> p.NormalizedCutoffs().Some?
    ensures p.CurrentDesign(cos, sin, kaiser).Some? ==>
      |p.CurrentDesign(cos, sin, kaiser).value.windowed| % 2 == 1
    ensures p.CurrentDesign(cos, sin, kaiser).Some? && (p.window != Kaiser || p.betaEntry.None?) ==>
      ClassifyPhase(p.CurrentDesign(cos, sin, kaiser).value.windowed) == TypeI
  {
    var f := p.NormalizedCutoffs();
    if f.Some? {
      DesignIsLinearPhase(p.filterOrder, p.window, p.betaEntry, p.kind, f.value.0, f.value.1,
                          cos, sin, kaiser, true);
    }
  }
}
