/** The second application (versao_atualizada_jarvis/versao_nova.py): a
    design driven by the filter requirements the user enters. A fixed table of windows is filtered
    by the stopband attenuation the user asks for; the design then derives
    the stopband edge and the cutoff from the passband edge and the
    transition width, the order from the chosen window's factor (or
    Kaiser's formula), and fills the ideal lowpass or highpass response.
    The library windows (scipy's get_window) are an abstract parameter. */
module SpecDesign {
  import opened Common
  import opened IdealResponse

  /** The columns of the window table the design reads: the name, the
      normalized transition width factor (transition width = factor / N),
      the stopband attenuation in dB and, for the Kaiser rows, beta. */
  datatype WindowEntry = WindowEntry(name: string, transitionFactor: real,
                                     attenuation: real, beta: Option<real>)

  /** window_parameters, in its insertion order. */
  const WindowTable: seq<WindowEntry> := [
    WindowEntry("Retangular", 0.9, 21.0, None),
    WindowEntry("Bartlett", 2.3, 25.0, None),
    WindowEntry("Hanning", 3.1, 44.0, None),
    WindowEntry("Hamming", 3.3, 53.0, None),
    WindowEntry("Blackman", 5.5, 75.0, None),
    WindowEntry("Kaiser_beta_4.54", 2.93, 50.0, Some(4.54)),
    WindowEntry("Kaiser_beta_6.76", 4.32, 70.0, Some(6.76)),
    WindowEntry("Kaiser_beta_8.96", 5.71, 90.0, Some(8.96))
  ]

  /** The filter-type value that selects the lowpass; any other value
      designs a highpass. */
  const LowpassName: string := "Passa-Baixa"

  /** The largest order the design allows. */
  const MaxSpecOrder: int := 501

  /** Python's `t in s` on strings: t occurs in s as a contiguous piece. */
  predicate HasSubstring(s: string, t: string)
    decreases |s|
  {
    if |s| < |t| then false
    else s[..|t|] == t || HasSubstring(s[1..], t)
  }

  /** The table entries whose attenuation meets the requirement, as names
      in table order. */
  function Available(table: seq<WindowEntry>, required: real): (names: seq<string>)
    ensures |names| <= |table|
  {
    if |table| == 0 then []
    else
      var last := table[|table| - 1];
      Available(table[..|table| - 1], required)
        + (if last.attenuation >= required then [last.name] else [])
  }

  /** A name is offered exactly when some entry of that name meets the
      requirement. */
  lemma {:induction false} AvailableMembers(table: seq<WindowEntry>, required: real, name: string)
    ensures name in Available(table, required) <==>
      exists i :: 0 <= i < |table| && table[i].name == name && table[i].attenuation >= required
  {
    if |table| > 0 {
      var init := table[..|table| - 1];
      AvailableMembers(init, required, name);
      if name in Available(init, required) {
        var i :| 0 <= i < |init| && init[i].name == name && init[i].attenuation >= required;
        assert table[i] == init[i];
      }
      if exists i :: 0 <= i < |table| && table[i].name == name && table[i].attenuation >= required {
        var i :| 0 <= i < |table| && table[i].name == name && table[i].attenuation >= required;
        if i < |init| {
          assert init[i] == table[i];
        }
      }
    }
  }

  /** A stricter requirement never offers more windows. */
  lemma {:induction false} AvailableShrinks(table: seq<WindowEntry>, r1: real, r2: real)
    requires r1 <= r2
    ensures forall name :: name in Available(table, r2) ==> name in Available(table, r1)
  {
    if |table| > 0 {
      AvailableShrinks(table[..|table| - 1], r1, r2);
    }
  }

  /** The names of the table are distinct. */
  lemma TableNamesDistinct()
    ensures forall i, j :: 0 <= i < j < |WindowTable| ==> WindowTable[i].name != WindowTable[j].name
  {
  }

  /** Every window kept meets the requirement and every window omitted
      fails it. */
  lemma AvailableExactly(required: real)
    ensures forall i :: 0 <= i < |WindowTable| ==>
      (WindowTable[i].name in Available(WindowTable, required) <==>
         WindowTable[i].attenuation >= required)
  {
    TableNamesDistinct();
    forall i | 0 <= i < |WindowTable|
      ensures WindowTable[i].name in Available(WindowTable, required)
              <==> WindowTable[i].attenuation >= required
    {
      AvailableMembers(WindowTable, required, WindowTable[i].name);
    }
  }

  /** No window is offered (the warning case) exactly when the
      requirement exceeds the 90 dB of the strongest Kaiser row. */
  lemma NoWindowOffered(required: real)
    ensures Available(WindowTable, required) == [] <==> required > 90.0
  {
    var names := Available(WindowTable, required);
    if required <= 90.0 {
      AvailableMembers(WindowTable, required, WindowTable[7].name);
    } else if names != [] {
      AvailableMembers(WindowTable, required, names[0]);
      assert false;
    }
  }

  /** At the default requirement of 50 dB the offer is Hamming, Blackman
      and the three Kaiser rows, in table order. */
  lemma DefaultOffer()
    ensures Available(WindowTable, 50.0)
      == ["Hamming", "Blackman", "Kaiser_beta_4.54", "Kaiser_beta_6.76", "Kaiser_beta_8.96"]
  {
    var t := WindowTable;
    assert t[..1][..0] == t[..0];
    assert Available(t[..1], 50.0) == [];
    assert t[..2][..1] == t[..1];
    assert Available(t[..2], 50.0) == [];
    assert t[..3][..2] == t[..2];
    assert Available(t[..3], 50.0) == [];
    assert t[..4][..3] == t[..3];
    assert Available(t[..4], 50.0) == ["Hamming"];
    assert t[..5][..4] == t[..4];
    assert Available(t[..5], 50.0) == ["Hamming", "Blackman"];
    assert t[..6][..5] == t[..5];
    assert Available(t[..6], 50.0) == ["Hamming", "Blackman", "Kaiser_beta_4.54"];
    assert t[..7][..6] == t[..6];
    assert Available(t[..7], 50.0) == ["Hamming", "Blackman", "Kaiser_beta_4.54", "Kaiser_beta_6.76"];
    assert t[..8][..7] == t[..7];
    assert Available(t[..8], 50.0) == ["Hamming", "Blackman", "Kaiser_beta_4.54", "Kaiser_beta_6.76", "Kaiser_beta_8.96"];
    assert t[..8] == t;
  }

  /** A name without a capital K does not contain "Kaiser". */
  lemma {:induction false} NoKaiserWithoutK(s: string)
    requires 'K' !in s
    ensures !HasSubstring(s, "Kaiser")
  {
    if |s| >= 6 {
      assert s[..6][0] == s[0];
      NoKaiserWithoutK(s[1..]);
    }
  }

  /** A name that starts with "Kaiser" contains it. */
  lemma KaiserPrefix(s: string)
    requires |s| >= 6 && s[..6] == "Kaiser"
    ensures HasSubstring(s, "Kaiser")
  {
  }

  /** The Kaiser rows are exactly the rows whose name contains "Kaiser". */
  lemma KaiserRowsByName()
    ensures forall i :: 0 <= i < |WindowTable| ==>
      (HasSubstring(WindowTable[i].name, "Kaiser") <==> WindowTable[i].beta.Some?)
  {
    forall i | 0 <= i < |WindowTable|
      ensures HasSubstring(WindowTable[i].name, "Kaiser") <==> WindowTable[i].beta.Some?
    {
      var e := WindowTable[i];
      if i < 5 {
        assert 'K' !in e.name;
        NoKaiserWithoutK(e.name);
      } else {
        assert e.name[..6] == "Kaiser";
        KaiserPrefix(e.name);
      }
    }
  }

  /** window_parameters[name]: the row of that name, None (a KeyError)
      when there is none, for instance before any window is selected. */
  function Lookup(name: string): Option<WindowEntry>
  {
    LookupIn(WindowTable, name)
  }

  /** The first row of the given name. */
  function LookupIn(table: seq<WindowEntry>, name: string): Option<WindowEntry>
  {
    if |table| == 0 then None
    else if table[0].name == name then Some(table[0])
    else LookupIn(table[1..], name)
  }

  /** The lookup finds a row exactly when the name is in the table, and
      the row it finds carries that name. */
  lemma {:induction false} LookupInSpec(table: seq<WindowEntry>, name: string)
    ensures var r := LookupIn(table, name);
      && (r.Some? <==> exists i :: 0 <= i < |table| && table[i].name == name)
      && (r.Some? ==> r.value in table && r.value.name == name)
  {
    if |table| > 0 && table[0].name != name {
      LookupInSpec(table[1..], name);
      assert forall i :: 1 <= i < |table| ==> table[i] == table[1..][i - 1];
    }
  }

  /** Every row of the table is found under its own name. */
  lemma LookupFindsEveryRow()
    ensures forall i :: 0 <= i < |WindowTable| ==> Lookup(WindowTable[i].name) == Some(WindowTable[i])
  {
    TableNamesDistinct();
    forall i | 0 <= i < |WindowTable|
      ensures Lookup(WindowTable[i].name) == Some(WindowTable[i])
    {
      LookupFirst(WindowTable, i);
    }
  }

  /** With distinct names, the lookup of row i's name stops at row i. */
  lemma {:induction false} LookupFirst(table: seq<WindowEntry>, i: nat)
    requires i < |table|
    requires forall j, k :: 0 <= j < k < |table| ==> table[j].name != table[k].name
    ensures LookupIn(table, table[i].name) == Some(table[i])
  {
    if i > 0 {
      assert table[0].name != table[i].name;
      assert table[1..][i - 1] == table[i];
      LookupFirst(table[1..], i - 1);
    }
  }

  /** Why design_filter stops: a field that is not a number, a passband
      edge at or above fs/2, a highpass stopband edge at or below 0, a
      division by zero (fs or the transition width is 0), a window name
      that is not in the table, or a library window whose length differs
      from the order (numpy refuses the product). */
  datatype DesignError = NotANumber | PassbandAboveNyquist | StopbandNotPositive
                       | DivisionByZero | UnknownWindow | WindowLengthMismatch

  /** What design_filter derives before it builds any array. deltaF is the
      transition width over fs; cutoffNorm is fc over fs/2. */
  datatype DesignPlan = DesignPlan(lowpass: bool, stopEdge: real, cutoff: real, deltaF: real,
                                   window: WindowEntry, rawOrder: int, order: int,
                                   cutoffNorm: real)

  /** The real-valued order before the ceiling: Kaiser's formula
      (A - 8) / (2.285 * 2 pi deltaF) for a window whose name contains
      "Kaiser", the table factor over deltaF for the others. */
  function OrderEstimateFor(windowName: string, entry: WindowEntry, a: real, deltaF: real): real
    requires deltaF != 0.0
  {
    if HasSubstring(windowName, "Kaiser") then (a - 8.0) / (2.285 * 2.0 * Pi * deltaF)
    else entry.transitionFactor / deltaF
  }

  /** design_filter up to the choice of the order and the normalized
      cutoff, on the parsed fields fs, fp, transition width and A. */
  function PlanDesign(fsEntry: Option<real>, fpEntry: Option<real>, twEntry: Option<real>,
                      aEntry: Option<real>, filterType: string, windowName: string)
    : (r: Result<DesignPlan, DesignError>)
    ensures r == Err(NotANumber) <==>
      fsEntry.None? || fpEntry.None? || twEntry.None? || aEntry.None?
    ensures r == Err(PassbandAboveNyquist) <==>
      fsEntry.Some? && fpEntry.Some? && twEntry.Some? && aEntry.Some?
      && fpEntry.value >= fsEntry.value / 2.0
    ensures r == Err(StopbandNotPositive) <==>
      fsEntry.Some? && fpEntry.Some? && twEntry.Some? && aEntry.Some?
      && fpEntry.value < fsEntry.value / 2.0
      && filterType != LowpassName && fpEntry.value - twEntry.value <= 0.0
    ensures r == Err(DivisionByZero) <==>
      fsEntry.Some? && fpEntry.Some? && twEntry.Some? && aEntry.Some?
      && fpEntry.value < fsEntry.value / 2.0
      && (filterType == LowpassName || fpEntry.value - twEntry.value > 0.0)
      && (fsEntry.value == 0.0 || (Lookup(windowName).Some? && twEntry.value == 0.0))
    ensures r == Err(UnknownWindow) <==>
      fsEntry.Some? && fpEntry.Some? && twEntry.Some? && aEntry.Some?
      && fpEntry.value < fsEntry.value / 2.0
      && (filterType == LowpassName || fpEntry.value - twEntry.value > 0.0)
      && fsEntry.value != 0.0 && Lookup(windowName).None?
    ensures r.Err? ==> r.error != WindowLengthMismatch
  {
    if fsEntry.None? || fpEntry.None? || twEntry.None? || aEntry.None? then Err(NotANumber)
    else
      var fs, fp, tw, a := fsEntry.value, fpEntry.value, twEntry.value, aEntry.value;
      if fp >= fs / 2.0 then Err(PassbandAboveNyquist)
      else
        var lowpass := filterType == LowpassName;
        var stop := if lowpass then fp + tw else fp - tw;
        var fc := (fp + stop) / 2.0;
        if !lowpass && stop <= 0.0 then Err(StopbandNotPositive)
        else if fs == 0.0 then Err(DivisionByZero)
        else
          var deltaF := tw / fs;
          match Lookup(windowName)
          case None => Err(UnknownWindow)
          case Some(entry) =>
            if deltaF == 0.0 then Err(DivisionByZero)
            else
              var raw := Ceil(OrderEstimateFor(windowName, entry, a, deltaF));
              Ok(DesignPlan(lowpass, stop, fc, deltaF, entry, raw,
                            OddOrderInRange(raw, MaxSpecOrder), fc / (fs / 2.0)))
  }

  /** What a successful plan holds: the edges and the cutoff in the
      middle of the transition band, deltaF = tw / fs, the ceiling of the
      order estimate, an odd order in [11, 501] not below the raw order
      when that fits, and fc normalized by fs / 2. */
  lemma PlanDesignSpec(fsEntry: Option<real>, fpEntry: Option<real>, twEntry: Option<real>,
                       aEntry: Option<real>, filterType: string, windowName: string)
    requires PlanDesign(fsEntry, fpEntry, twEntry, aEntry, filterType, windowName).Ok?
    ensures
      var p := PlanDesign(fsEntry, fpEntry, twEntry, aEntry, filterType, windowName).value;
      var fs, fp, tw := fsEntry.value, fpEntry.value, twEntry.value;
      && fp < fs / 2.0 && fs != 0.0 && tw != 0.0
      && (p.lowpass <==> filterType == LowpassName)
      && p.stopEdge == (if p.lowpass then fp + tw else fp - tw)
      && (!p.lowpass ==> p.stopEdge > 0.0)
      && p.cutoff - fp == p.stopEdge - p.cutoff
      && p.deltaF * fs == tw
      && Lookup(windowName) == Some(p.window)
      && p.rawOrder as real - 1.0 < OrderEstimateFor(windowName, p.window, aEntry.value, p.deltaF)
         <= p.rawOrder as real
      && p.order == OddOrderInRange(p.rawOrder, MaxSpecOrder)
      && p.order % 2 == 1 && 11 <= p.order <= MaxSpecOrder
      && (p.rawOrder <= MaxSpecOrder ==> p.rawOrder <= p.order)
      && p.order <= (if p.rawOrder + 1 < 11 then 11 else p.rawOrder + 1)
      && (p.rawOrder > MaxSpecOrder ==> p.order == MaxSpecOrder)
      && (p.rawOrder < 11 ==> p.order == 11)
      && p.cutoffNorm * fs == 2.0 * p.cutoff
  {
    var p := PlanDesign(fsEntry, fpEntry, twEntry, aEntry, filterType, windowName).value;
    var fs, tw := fsEntry.value, twEntry.value;
    QuotientTimesDivisor(tw, fs);
    QuotientTimesDivisor(p.cutoff, fs / 2.0);
  }

  /** A wider transition band never asks for a higher order (for Kaiser
      rows when A >= 8, below which the estimate is negative and the
      order is 11 anyway). */
  lemma WiderTransitionNoHigherOrder(fs: real, fp: real, tw1: real, tw2: real, a: real,
                                     filterType: string, windowName: string)
    requires fs > 0.0 && 0.0 < tw1 <= tw2
    requires HasSubstring(windowName, "Kaiser") ==> a >= 8.0
    requires PlanDesign(Some(fs), Some(fp), Some(tw1), Some(a), filterType, windowName).Ok?
    requires PlanDesign(Some(fs), Some(fp), Some(tw2), Some(a), filterType, windowName).Ok?
    ensures PlanDesign(Some(fs), Some(fp), Some(tw1), Some(a), filterType, windowName).value.order
            >= PlanDesign(Some(fs), Some(fp), Some(tw2), Some(a), filterType, windowName).value.order
  {
    var p1 := PlanDesign(Some(fs), Some(fp), Some(tw1), Some(a), filterType, windowName).value;
    var p2 := PlanDesign(Some(fs), Some(fp), Some(tw2), Some(a), filterType, windowName).value;
    PlanDesignSpec(Some(fs), Some(fp), Some(tw1), Some(a), filterType, windowName);
    PlanDesignSpec(Some(fs), Some(fp), Some(tw2), Some(a), filterType, windowName);
    assert p1.window == p2.window;
    assert 0.0 < p1.deltaF <= p2.deltaF by {
      DivideBothPositive(tw1, tw2, fs);
    }
    assert p1.window.transitionFactor >= 0.0 by {
      LookupInSpec(WindowTable, windowName);
    }
    EstimateShrinks(windowName, p1.window, a, p1.deltaF, p2.deltaF);
    CeilMonotone(OrderEstimateFor(windowName, p1.window, a, p2.deltaF),
                 OrderEstimateFor(windowName, p1.window, a, p1.deltaF));
    OddOrderInRangeMonotone(p2.rawOrder, p1.rawOrder, MaxSpecOrder);
  }

  lemma DivideBothPositive(x: real, y: real, d: real)
    requires d > 0.0 && 0.0 < x <= y
    ensures 0.0 < x / d <= y / d
  {
  }

  lemma EstimateShrinks(windowName: string, entry: WindowEntry, a: real, d1: real, d2: real)
    requires 0.0 < d1 <= d2
    requires HasSubstring(windowName, "Kaiser") ==> a >= 8.0
    requires !HasSubstring(windowName, "Kaiser") ==> entry.transitionFactor >= 0.0
    ensures OrderEstimateFor(windowName, entry, a, d2) <= OrderEstimateFor(windowName, entry, a, d1)
  {
    var num := if HasSubstring(windowName, "Kaiser") then a - 8.0 else entry.transitionFactor;
    var c := if HasSubstring(windowName, "Kaiser") then 2.285 * 2.0 * Pi else 1.0;
    assert OrderEstimateFor(windowName, entry, a, d1) == num / (c * d1);
    assert OrderEstimateFor(windowName, entry, a, d2) == num / (c * d2);
    QuotientAntitone(num, c * d1, c * d2);
  }

  lemma QuotientAntitone(num: real, q1: real, q2: real)
    requires num >= 0.0 && 0.0 < q1 <= q2
    ensures num / q2 <= num / q1
  {
  }

  /** ideal_lowpass as written, sample i of N: 2 fc at the centre and
      2 fc sin(wc k) / (wc k) elsewhere, with wc = fc pi. A cutoff of 0
      divides 0 by 0 (NaN in numpy) and is excluded. */
  function LowpassTapAsWritten(n: nat, i: nat, fcNorm: real, sin: real -> real): real
    requires fcNorm != 0.0
  {
    var k := Offset(n, i);
    if Abs(k) < CentreTolerance then 2.0 * fcNorm else ScaledSinc(sin, fcNorm, k)
  }

  /** 2 fc sin(wc k) / (wc k) with wc = fc pi. */
  function ScaledSinc(sin: real -> real, fcNorm: real, k: real): real
    requires fcNorm != 0.0 && k != 0.0
  {
    var wc := fcNorm * Pi;
    2.0 * fcNorm * sin(wc * k) / (wc * k)
  }

  /** ideal_highpass as written: 1 - 2 fc at the centre, and elsewhere the
      impulse term sin(pi k) / (pi k) minus the lowpass term above. */
  function HighpassTapAsWritten(n: nat, i: nat, fcNorm: real, sin: real -> real): real
    requires fcNorm != 0.0
  {
    var k := Offset(n, i);
    if Abs(k) < CentreTolerance then 1.0 - 2.0 * fcNorm
    else SincTerm(sin, Pi, k) - ScaledSinc(sin, fcNorm, k)
  }

  function LowpassTapsAsWritten(n: nat, fcNorm: real, sin: real -> real): (h: seq<real>)
    requires fcNorm != 0.0
    ensures |h| == n
  {
    seq(n, i requires 0 <= i < n => LowpassTapAsWritten(n, i, fcNorm, sin))
  }

  function HighpassTapsAsWritten(n: nat, fcNorm: real, sin: real -> real): (h: seq<real>)
    requires fcNorm != 0.0
    ensures |h| == n
  {
    seq(n, i requires 0 <= i < n => HighpassTapAsWritten(n, i, fcNorm, sin))
  }

  /** ideal_lowpass: a zeroed array filled by a loop over the samples. */
  method IdealLowpass(n: nat, fcNorm: real, sin: real -> real) returns (h: array<real>)
    requires fcNorm != 0.0
    ensures h.Length == n && h[..] == LowpassTapsAsWritten(n, fcNorm, sin)
  {
    h := new real[n](_ => 0.0);
    for i := 0 to n
      invariant forall j :: 0 <= j < i ==> h[j] == LowpassTapAsWritten(n, j, fcNorm, sin)
    {
      var centred := Offset(n, i);
      if Abs(centred) < CentreTolerance {
        h[i] := 2.0 * fcNorm;
      } else {
        OffCentreNonzero(centred);
        h[i] := ScaledSinc(sin, fcNorm, centred);
      }
    }
  }

  /** ideal_highpass: the same loop with the impulse minus the lowpass. */
  method IdealHighpass(n: nat, fcNorm: real, sin: real -> real) returns (h: array<real>)
    requires fcNorm != 0.0
    ensures h.Length == n && h[..] == HighpassTapsAsWritten(n, fcNorm, sin)
  {
    h := new real[n](_ => 0.0);
    for i := 0 to n
      invariant forall j :: 0 <= j < i ==> h[j] == HighpassTapAsWritten(n, j, fcNorm, sin)
    {
      var centred := Offset(n, i);
      if Abs(centred) < CentreTolerance {
        h[i] := 1.0 - 2.0 * fcNorm;
      } else {
        OffCentreNonzero(centred);
        var deltaImpulse := SincTerm(sin, Pi, centred);
        var lowpassTerm := ScaledSinc(sin, fcNorm, centred);
        h[i] := deltaImpulse - lowpassTerm;
      }
    }
  }

  /** 2 fc sin(wc k) / (wc k) is twice sin(wc k) / (pi k): the as-written
      lowpass term is twice the ideal lowpass of cutoff wc = fc pi. */
  lemma ScaledSincIsTwiceSinc(sin: real -> real, fcNorm: real, k: real)
    requires fcNorm != 0.0 && k != 0.0
    ensures ScaledSinc(sin, fcNorm, k) == 2.0 * SincTerm(sin, fcNorm * Pi, k)
  {
    var s := sin(fcNorm * Pi * k);
    assert ScaledSinc(sin, fcNorm, k) == 2.0 * fcNorm * s / (fcNorm * Pi * k);
    assert SincTerm(sin, fcNorm * Pi, k) == s / (Pi * k);
    CancelFactor(s, fcNorm, Pi * k);
  }

  lemma CancelFactor(s: real, f: real, d: real)
    requires f != 0.0 && d != 0.0
    ensures 2.0 * f * s / (f * d) == 2.0 * (s / d)
  {
  }

  /** ideal_lowpass as written is exactly twice the ideal lowpass of the
      same cutoff, at every sample: its passband gain is 2 (+6 dB). */
  lemma LowpassAsWrittenDoubled(n: nat, fcNorm: real, sin: real -> real)
    requires fcNorm != 0.0
    ensures forall i :: 0 <= i < n ==>
      LowpassTapsAsWritten(n, fcNorm, sin)[i] == 2.0 * IdealTaps(Lowpass, n, fcNorm, fcNorm, sin)[i]
  {
    forall i | 0 <= i < n
      ensures LowpassTapsAsWritten(n, fcNorm, sin)[i] == 2.0 * IdealTaps(Lowpass, n, fcNorm, fcNorm, sin)[i]
    {
      var k := Offset(n, i);
      if !(Abs(k) < CentreTolerance) {
        ScaledSincIsTwiceSinc(sin, fcNorm, k);
      } else {
        assert fcNorm * Pi / Pi == fcNorm;
      }
    }
  }

  /** ideal_highpass as written is the impulse minus twice the ideal
      lowpass, where the highpass of the same cutoff is the impulse minus
      the lowpass once. */
  lemma HighpassAsWrittenOvershoots(n: nat, fcNorm: real, sin: real -> real)
    requires fcNorm != 0.0
    ensures forall i :: 0 <= i < n ==>
      && HighpassTapsAsWritten(n, fcNorm, sin)[i]
         == ImpulseTap(n, i, sin) - 2.0 * IdealTaps(Lowpass, n, fcNorm, fcNorm, sin)[i]
      && IdealTaps(Highpass, n, fcNorm, fcNorm, sin)[i]
         == ImpulseTap(n, i, sin) - IdealTaps(Lowpass, n, fcNorm, fcNorm, sin)[i]
  {
    Complementarity(n, fcNorm, fcNorm, sin);
    forall i | 0 <= i < n
      ensures HighpassTapsAsWritten(n, fcNorm, sin)[i]
              == ImpulseTap(n, i, sin) - 2.0 * IdealTaps(Lowpass, n, fcNorm, fcNorm, sin)[i]
    {
      var k := Offset(n, i);
      if !(Abs(k) < CentreTolerance) {
        ScaledSincIsTwiceSinc(sin, fcNorm, k);
      } else {
        assert fcNorm * Pi / Pi == fcNorm;
      }
    }
  }

  /** The as-written responses of odd length N: centre taps 2 fc and
      1 - 2 fc, and, with an odd sine, symmetric about the centre. */
  lemma AsWrittenShape(n: nat, fcNorm: real, sin: real -> real)
    requires fcNorm != 0.0 && n % 2 == 1
    ensures LowpassTapsAsWritten(n, fcNorm, sin)[(n - 1) / 2] == 2.0 * fcNorm
    ensures HighpassTapsAsWritten(n, fcNorm, sin)[(n - 1) / 2] == 1.0 - 2.0 * fcNorm
    ensures OddFunction(sin) ==>
      Symmetric(LowpassTapsAsWritten(n, fcNorm, sin)) && Symmetric(HighpassTapsAsWritten(n, fcNorm, sin))
  {
    CentreIsMiddle(n, (n - 1) / 2);
    if OddFunction(sin) {
      var lp := IdealTaps(Lowpass, n, fcNorm, fcNorm, sin);
      var hp := IdealTaps(Highpass, n, fcNorm, fcNorm, sin);
      IdealTapsSymmetric(Lowpass, n, fcNorm, fcNorm, sin);
      IdealTapsSymmetric(Highpass, n, fcNorm, fcNorm, sin);
      LowpassAsWrittenDoubled(n, fcNorm, sin);
      HighpassAsWrittenOvershoots(n, fcNorm, sin);
      var hw := HighpassTapsAsWritten(n, fcNorm, sin);
      forall i | 0 <= i < n
        ensures hw[i] == hw[n - 1 - i]
      {
        assert hw[i] == hp[i] - lp[i];
        assert hw[n - 1 - i] == hp[n - 1 - i] - lp[n - 1 - i];
      }
    }
  }

  /** At the application's own defaults (53 taps, fc = 1750 Hz of
      fs/2 = 4000 Hz, so fc_norm = 0.4375) the centre tap as written is
      0.875, where the ideal lowpass has wc/pi = 0.4375. */
  lemma DefaultCentreTapDoubled(sin: real -> real)
    ensures LowpassTapsAsWritten(53, 0.4375, sin)[26] == 0.875
    ensures IdealTaps(Lowpass, 53, 0.4375, 0.4375, sin)[26] == 0.4375
  {
    IdealCentreTap(Lowpass, 53, 0.4375, 0.4375, sin);
    CentreIsMiddle(53, 26);
  }

  /** The arrays design_filter keeps: the plan it derived, the ideal
      response, the window and their product, the filter coefficients. */
  datatype FilterDesign = FilterDesign(plan: DesignPlan, ideal: seq<real>, window: seq<real>,
                                       coeffs: seq<real>)

  /** The band the filter-type value selects. */
  function KindOf(lowpass: bool): BandKind
  {
    if lowpass then Lowpass else Highpass
  }

  /** The steps of design_filter after the plan: the ideal response of
      the intended gain (the ideal lowpass or highpass of cutoff
      fc_norm pi), the library window and their product. */
  function DesignFromPlan(p: DesignPlan, sin: real -> real, getWindow: (WindowEntry, int) -> seq<real>)
    : (r: Result<FilterDesign, DesignError>)
    requires p.order % 2 == 1 && p.order >= 11
    ensures r.Err? <==> |getWindow(p.window, p.order)| != p.order
    ensures r.Err? ==> r.error == WindowLengthMismatch
    ensures r.Ok? ==>
      && r.value.plan == p
      && r.value.window == getWindow(p.window, p.order)
      && |r.value.ideal| == |r.value.window| == |r.value.coeffs| == p.order
      && (forall i :: 0 <= i < |r.value.coeffs| ==>
            r.value.coeffs[i] == r.value.ideal[i] * r.value.window[i])
      && r.value.ideal[(p.order - 1) / 2] == (if p.lowpass then p.cutoffNorm else 1.0 - p.cutoffNorm)
  {
    var h := IdealTaps(KindOf(p.lowpass), p.order, p.cutoffNorm, p.cutoffNorm, sin);
    var w := getWindow(p.window, p.order);
    if |w| != p.order then Err(WindowLengthMismatch)
    else
      IdealCentreTap(KindOf(p.lowpass), p.order, p.cutoffNorm, p.cutoffNorm, sin);
      Ok(FilterDesign(p, h, w, Product(h, w)))
  }

  /** design_filter on the parsed entries (getWindow(row, N) stands for
      scipy's get_window for that row's window and N samples). */
  function DesignFilterResult(fsEntry: Option<real>, fpEntry: Option<real>, twEntry: Option<real>,
                              aEntry: Option<real>, filterType: string, windowName: string,
                              sin: real -> real, getWindow: (WindowEntry, int) -> seq<real>)
    : (r: Result<FilterDesign, DesignError>)
    ensures var plan := PlanDesign(fsEntry, fpEntry, twEntry, aEntry, filterType, windowName);
      && (plan.Err? ==> r == Err(plan.error))
      && (plan.Ok? ==> plan.value.order % 2 == 1 && plan.value.order >= 11
                       && r == DesignFromPlan(plan.value, sin, getWindow))
  {
    match PlanDesign(fsEntry, fpEntry, twEntry, aEntry, filterType, windowName)
    case Err(e) => Err(e)
    case Ok(p) =>
      PlanDesignSpec(fsEntry, fpEntry, twEntry, aEntry, filterType, windowName);
      DesignFromPlan(p, sin, getWindow)
  }

  /** What scipy's windows are relied on for: N samples for every row. */
  ghost predicate WindowLengths(getWindow: (WindowEntry, int) -> seq<real>)
  {
    forall e: WindowEntry, n: nat :: |getWindow(e, n)| == n
  }

  /** With windows of the right length and symmetric, and an odd sine, a
      successful plan always gives a design, and its coefficients are
      symmetric about the centre tap: a linear-phase type I filter. */
  lemma DesignIsSymmetric(fsEntry: Option<real>, fpEntry: Option<real>, twEntry: Option<real>,
                          aEntry: Option<real>, filterType: string, windowName: string,
                          sin: real -> real, getWindow: (WindowEntry, int) -> seq<real>)
    requires OddFunction(sin) && WindowLengths(getWindow)
    requires forall e: WindowEntry, n: nat :: Symmetric(getWindow(e, n))
    requires PlanDesign(fsEntry, fpEntry, twEntry, aEntry, filterType, windowName).Ok?
    ensures var r := DesignFilterResult(fsEntry, fpEntry, twEntry, aEntry, filterType, windowName,
                                        sin, getWindow);
      && r.Ok? && Symmetric(r.value.coeffs) && |r.value.coeffs| % 2 == 1
  {
    var p := PlanDesign(fsEntry, fpEntry, twEntry, aEntry, filterType, windowName).value;
    PlanDesignSpec(fsEntry, fpEntry, twEntry, aEntry, filterType, windowName);
    var n: nat := p.order;
    assert |getWindow(p.window, n)| == n;
    assert Symmetric(getWindow(p.window, n));
    var h := IdealTaps(KindOf(p.lowpass), n, p.cutoffNorm, p.cutoffNorm, sin);
    IdealTapsSymmetric(KindOf(p.lowpass), n, p.cutoffNorm, p.cutoffNorm, sin);
    ProductSymmetric(h, getWindow(p.window, n));
  }

  /** scipy's get_window with its default fftbins, for a symmetric window
      sym(row, M) of M samples: the first N samples of the symmetric window
      of N + 1. */
  function PeriodicWindow(sym: (WindowEntry, int) -> seq<real>): (WindowEntry, int) -> seq<real>
  {
    (e: WindowEntry, n: int) => PeriodicSamples(sym(e, n + 1), n)
  }

  function PeriodicSamples(s: seq<real>, n: int): seq<real>
  {
    if 0 <= n < |s| then s[..n] else s
  }

  /** As written, design_filter takes every window from get_window with
      that default, so although the order is made odd for symmetry, the
      coefficients are not symmetric whenever the first ideal tap is not
      zero and the symmetric window of N + 1 samples differs between its
      first two samples (every window of the table but the rectangular
      one). */
  lemma PeriodicWindowDesignNotSymmetric(p: DesignPlan, sin: real -> real,
                                         sym: (WindowEntry, int) -> seq<real>)
    requires p.order % 2 == 1 && p.order >= 11
    requires OddFunction(sin)
    requires |sym(p.window, p.order + 1)| == p.order + 1 && Symmetric(sym(p.window, p.order + 1))
    requires sym(p.window, p.order + 1)[0] != sym(p.window, p.order + 1)[1]
    requires IdealTaps(KindOf(p.lowpass), p.order, p.cutoffNorm, p.cutoffNorm, sin)[0] != 0.0
    ensures var r := DesignFromPlan(p, sin, PeriodicWindow(sym));
      r.Ok? && !Symmetric(r.value.coeffs)
  {
    var n := p.order;
    var s := sym(p.window, n + 1);
    var h := IdealTaps(KindOf(p.lowpass), n, p.cutoffNorm, p.cutoffNorm, sin);
    assert PeriodicWindow(sym)(p.window, n) == s[..n];
    assert h[n - 1] == h[0] by {
      IdealTapsSymmetric(KindOf(p.lowpass), n, p.cutoffNorm, p.cutoffNorm, sin);
    }
    assert s[n - 1] == s[1] by {
      assert s[n - 1] == s[|s| - 1 - (n - 1)];
    }
    PeriodicProductEndsDiffer(h, s, n);
  }

  /** The ends of h times the first N samples of s differ when h is
      symmetric with a nonzero first tap and s differs between its first
      two samples but has its second again at N - 1. */
  lemma PeriodicProductEndsDiffer(h: seq<real>, s: seq<real>, n: nat)
    requires |h| == n >= 2 && |s| == n + 1
    requires h[n - 1] == h[0] != 0.0 && s[n - 1] == s[1] != s[0]
    ensures !Symmetric(Product(h, s[..n]))
  {
    var d := Product(h, s[..n]);
    assert d[0] == h[0] * s[0];
    assert d[n - 1] == h[0] * s[1];
    assert h[0] * s[0] != h[0] * s[1] by {
      assert h[0] * s[0] - h[0] * s[1] == h[0] * (s[0] - s[1]);
      assert s[0] - s[1] != 0.0;
    }
    assert d[0] != d[|d| - 1 - 0];
  }

  /** The application's defaults (fs 8000 Hz, fp 1500 Hz, transition
      500 Hz, 50 dB, lowpass) with the Hamming window: stopband edge
      2000 Hz, cutoff 1750 Hz, 3.3 / 0.0625 = 52.8 rounds up to order 53,
      fc_norm = 0.4375. */
  lemma DefaultHammingPlan()
    ensures PlanDesign(Some(8000.0), Some(1500.0), Some(500.0), Some(50.0), LowpassName, "Hamming")
            == Ok(DesignPlan(true, 2000.0, 1750.0, 0.0625, WindowTable[3], 53, 53, 0.4375))
  {
    TableNamesDistinct();
    LookupFirst(WindowTable, 3);
    assert !HasSubstring("Hamming", "Kaiser");
    assert Ceil(3.3 / 0.0625) == 53;
    assert OddOrderInRange(53, MaxSpecOrder) == 53;
  }

  /** The same defaults with the first Kaiser row (50 dB): Kaiser's
      formula gives 42 / (2.285 * 2 pi * 0.0625), between 46 and 47, so the
      order is 47. */
  lemma DefaultKaiserPlan()
    ensures var r := PlanDesign(Some(8000.0), Some(1500.0), Some(500.0), Some(50.0), LowpassName,
                                "Kaiser_beta_4.54");
      r.Ok? && r.value.order == 47 && r.value.window.beta == Some(4.54)
  {
    TableNamesDistinct();
    LookupFirst(WindowTable, 5);
    assert HasSubstring("Kaiser_beta_4.54", "Kaiser") by {
      assert "Kaiser_beta_4.54"[..6] == "Kaiser";
    }
    var e := 42.0 / (2.285 * 2.0 * Pi * 0.0625);
    assert 46.0 * (2.285 * 2.0 * Pi * 0.0625) < 42.0 <= 47.0 * (2.285 * 2.0 * Pi * 0.0625);
    assert 46.0 < e <= 47.0;
    assert Ceil(e) == 47;
    assert OddOrderInRange(47, MaxSpecOrder) == 47;
  }

  /** Every name offered is found in the table. */
  lemma OfferedNamesKnown(required: real)
    ensures forall k :: 0 <= k < |Available(WindowTable, required)| ==>
      Lookup(Available(WindowTable, required)[k]).Some?
  {
    var names := Available(WindowTable, required);
    forall k | 0 <= k < |names|
      ensures Lookup(names[k]).Some?
    {
      AvailableMembers(WindowTable, required, names[k]);
      LookupInSpec(WindowTable, names[k]);
    }
  }

  /** The empty selection (no window chosen yet) is not a table name. */
  lemma EmptySelectionUnknown()
    ensures Lookup("").None?
  {
    LookupInSpec(WindowTable, "");
  }

  /** The fields of the second application's window that the design reads
      and writes. */
  datatype AppState = AppState(fsEntry: Option<real>, fpEntry: Option<real>,
                               twEntry: Option<real>, attenEntry: Option<real>,
                               filterType: string, selectedWindow: string,
                               availableWindows: seq<string>,
                               filterCoeffs: Option<seq<real>>, calculatedOrder: Option<int>,
                               windowFunction: Option<seq<real>>,
                               idealResponse: Option<seq<real>>)

  /** The application object: the text entries (None when the text is not
      a number), the selections, the list of windows on offer and the
      last design's arrays (None before the first design). */
  class FilterDesignApp {
    var fsEntry: Option<real>
    var fpEntry: Option<real>
    var twEntry: Option<real>
    var attenEntry: Option<real>
    var filterType: string
    var selectedWindow: string
    var availableWindows: seq<string>
    var filterCoeffs: Option<seq<real>>
    var calculatedOrder: Option<int>
    var windowFunction: Option<seq<real>>
    var idealResponse: Option<seq<real>>

    function State(): AppState
      reads this
    {
      AppState(fsEntry, fpEntry, twEntry, attenEntry, filterType, selectedWindow,
               availableWindows, filterCoeffs, calculatedOrder, windowFunction, idealResponse)
    }

    /** Only table names are ever offered, and the selection is either
        empty or a table name. */
    predicate Valid()
      reads this
    {
      && (forall k :: 0 <= k < |availableWindows| ==> Lookup(availableWindows[k]).Some?)
      && (selectedWindow == "" || Lookup(selectedWindow).Some?)
    }

    /** The initial entries: 8000 Hz, 1500 Hz, 500 Hz, 50 dB, lowpass, no
        window selected or offered, no design. */
    constructor()
      ensures Valid()
      ensures State() == AppState(Some(8000.0), Some(1500.0), Some(500.0), Some(50.0),
                                  LowpassName, "", [], None, None, None, None)
    {
      fsEntry, fpEntry, twEntry, attenEntry := Some(8000.0), Some(1500.0), Some(500.0), Some(50.0);
      filterType, selectedWindow, availableWindows := LowpassName, "", [];
      filterCoeffs, calculatedOrder, windowFunction, idealResponse := None, None, None, None;
    }

    /** check_available_windows: a loop over the table keeping the names
        whose attenuation meets the entry; an attenuation that is not a
        number changes nothing. */
    method CheckAvailableWindows()
      requires Valid()
      modifies this
      ensures Valid()
      ensures old(attenEntry).None? ==> State() == old(State())
      ensures old(attenEntry).Some? ==>
        State() == old(State()).(availableWindows := Available(WindowTable, old(attenEntry).value))
    {
      if attenEntry.None? {
        return;
      }
      var required := attenEntry.value;
      var names: seq<string> := [];
      var i := 0;
      while i < |WindowTable|
        invariant 0 <= i <= |WindowTable|
        invariant names == Available(WindowTable[..i], required)
      {
        assert WindowTable[..i + 1][..i] == WindowTable[..i];
        if WindowTable[i].attenuation >= required {
          names := names + [WindowTable[i].name];
        }
        i := i + 1;
      }
      assert WindowTable[..i] == WindowTable;
      OfferedNamesKnown(required);
      availableWindows := names;
    }

    /** Choosing entry k of the read-only list on offer. */
    method SelectWindow(k: nat)
      requires Valid() && k < |availableWindows|
      modifies this
      ensures Valid()
      ensures State() == old(State()).(selectedWindow := old(availableWindows)[k])
    {
      selectedWindow := availableWindows[k];
    }

    /** design_filter: on success the coefficients, order, window and ideal
        response are stored together; on any error nothing changes. The
        only way to reach an unknown window is to design with no window
        selected. */
    method DesignFilter(sin: real -> real, getWindow: (WindowEntry, int) -> seq<real>)
      returns (r: Result<FilterDesign, DesignError>)
      requires Valid()
      modifies this
      ensures Valid()
      ensures r == DesignFilterResult(old(fsEntry), old(fpEntry), old(twEntry), old(attenEntry),
                                      old(filterType), old(selectedWindow), sin, getWindow)
      ensures r.Err? ==> State() == old(State())
      ensures r.Ok? ==>
        State() == old(State()).(filterCoeffs := Some(r.value.coeffs),
                                 calculatedOrder := Some(r.value.plan.order),
                                 windowFunction := Some(r.value.window),
                                 idealResponse := Some(r.value.ideal))
      ensures r == Err(UnknownWindow) ==> old(selectedWindow) == ""
    {
      var plan := PlanDesign(fsEntry, fpEntry, twEntry, attenEntry, filterType, selectedWindow);
      if plan.Err? {
        r := Err(plan.error);
        return;
      }
      var p := plan.value;
      PlanDesignSpec(fsEntry, fpEntry, twEntry, attenEntry, filterType, selectedWindow);
      var ideal := IdealFilter(KindOf(p.lowpass), p.order, p.cutoffNorm, p.cutoffNorm, sin);
      var window := getWindow(p.window, p.order);
      if |window| != p.order {
        r := Err(WindowLengthMismatch);
        return;
      }
      var coeffs := Product(ideal[..], window);
      filterCoeffs := Some(coeffs);
      calculatedOrder := Some(p.order);
      windowFunction := Some(window);
      idealResponse := Some(ideal[..]);
      r := Ok(FilterDesign(p, ideal[..], window, coeffs));
    }
  }
}

