# FIR window design, modelled in Dafny

The repository holds two Tk desktop applications that design FIR filters by
the windowing method. This project models the arithmetic and control logic
under their widgets and proves it.

`pbl3_v4.py` is the first application. It has a control panel with:
- the filter order, one or two cutoffs, the unit (normalized or Hz), the
  window and Kaiser's beta;
- validators and +/- steppers that rewrite those entries;
- a Kaiser design button, which estimates order, beta and cutoff from a
  ripple delta and two band edges.

From these settings, `update_filter` multiplies a window (`get_window`) by
an ideal lowpass, highpass, bandpass or bandstop response (`ideal_filter`).
`update_info` then reports the measured band edges, the transition width,
the stopband attenuation and the linear-phase type. It reads them off the
evaluated magnitude curve (`find_freq_at_db`).

`versao_atualizada_jarvis/versao_nova.py` is the second application. Its
design is driven by the filter requirements the user enters:
- A fixed table of windows is filtered by the required stopband
  attenuation (`check_available_windows`).
- The stopband edge and cutoff come from the passband edge and the
  transition width.
- The order comes from the chosen window's transition factor, or from
  Kaiser's formula. It is made odd and clamped to [11, 501].
- The ideal lowpass or highpass is multiplied by the library window.

Module by module:

- `Common` (common.dfy) holds `Option`/`Result`, ceiling, clamps, the
  odd-order rule, Python's `round` and fixed-decimal formatting (round
  half to even on the exact value), symmetry and the elementwise product.
- `Windows` (windows.dfy) is `get_window` of `pbl3_v4.py`. The Bartlett
  window is built by the same filling loop as the source.
- `IdealResponse` (ideal_response.dfy) is `ideal_filter`: the loop over
  the samples, the closed-form centre taps and the symmetry.
- `KaiserDesign` (kaiser.dfy) holds the formulas of
  `design_kaiser_filter`.
- `Metrics` (metrics.dfy) holds `find_freq_at_db` and the measured part
  of `update_info`.
- `Pipeline` (pipeline.dfy) is `update_filter`'s product of window and
  ideal response.
- `Controls` (controls.dfy) holds the validators and steppers, plus the
  class `ControlPanel`. That class owns the panel's Tk variables as
  fields, and its methods are the event handlers that rewrite them.
- `SpecDesign` (spec_design.dfy) is the second application: the window
  table, the class `FilterDesignApp` with `check_available_windows` and
  `design_filter`, and the as-written `ideal_lowpass`/`ideal_highpass`
  loops.

Numbers are Dafny reals, so the model is exact. `np.pi` is the real
constant 3.141592653589793.

Some values come from code the model cannot see. These are function-typed
parameters:
- sine, cosine, `log10` and `x ** 0.4`;
- scipy's symmetric Kaiser window of M samples, and the second
  application's `get_window`.

`pbl3_v4.py` calls `signal.get_window(("kaiser", beta), N)` with scipy's
default `fftbins=True`. That window is periodic: the first N samples of the
symmetric window of N + 1. The model builds it that way from the symmetric
one (`Windows.LibraryKaiser`).

A ghost predicate states what each proof relies on: an odd sine, a cosine
that is even and 2π-periodic with values in [-1, 1] and obeys the
double-angle identity, and symmetric library windows of the requested
length. A text entry is modelled by the number `float()` or `int()` reads
from it. It is `None` when the text does not parse.

The code keeps its state in the widgets of two applications and updates it
in event handlers; the model keeps it in two classes whose methods are
those handlers. Three facts about the code shape the model:
- the code does not check beta in the window generator;
- it has no N = 1 case, since its orders are at least 11;
- `get_window` falls back to Hamming instead of failing.

The first application's handlers model its code as written, including
the three of its defects listed under "## Findings"; each corrected
definition sits beside the as-written one with its intended property
proved. The second application's `design_filter` handler
(`SpecDesign.FilterDesignApp.DesignFilter`) is modelled with the corrected
ideal response; the as-written `ideal_lowpass`/`ideal_highpass` loops and
the periodic windows of its `get_window` calls sit beside it, each with
the lemma that exhibits its defect. "## Findings" lists all five.

## Model

| member | source | states |
|---|---|---|
| Common.Ceil | pbl3_v4.py:424 | `int(np.ceil(x))`: the least integer n with x <= n < x + 1 |
| Common.OddOrderInRange | pbl3_v4.py:427-431 | an even order is bumped to the next odd one, then the order is clamped: the result is odd and lies in [11, max]; an odd raw order in range is kept, an even one below max becomes raw + 1, a raw order above max gives max and one below 11 gives 11 |
| Common.OddOrderInRangeMonotone | versao_atualizada_jarvis/versao_nova.py:375-379 | a larger raw order never gives a smaller final order |
| Common.ClampReal | pbl3_v4.py:353 | `max(lo, min(hi, x))` lies in [lo, hi] and is x when x is inside |
| Common.ClampInt | pbl3_v4.py:547 | the integer clamp lies in [lo, hi] and is v when v is inside |
| Common.RoundHalfEven | pbl3_v4.py:352 | Python's `round`: the nearest integer, within 1/2, with ties going to the even one |
| Common.RoundToSpec | pbl3_v4.py:352 | `round(x, d)` and `f"{x:.df}"` give a value on the 10^-d grid within half a unit of x |
| Common.RoundToIdempotent | pbl3_v4.py:366 | formatting a value already formatted to d decimals changes nothing |
| Common.RoundToMonotone | pbl3_v4.py:631-637 | formatting to d decimals preserves the order of two values |
| Common.Product | pbl3_v4.py:814 | `h_ideal * window`: same length, sample i is the product of the two samples i |
| Common.ProductSymmetric | pbl3_v4.py:814 | the product of two symmetric sequences is symmetric |
| Windows.RectangularWindow | pbl3_v4.py:688-690 | N samples, all 1 |
| Windows.MakeBartlett | pbl3_v4.py:705-713 | the filling loop produces 2i/M up to the middle and 2 - 2i/M after it, for every sample |
| Windows.BartlettWindowShape | pbl3_v4.py:705-713 | the Bartlett window has N samples in [0, 1], starts at 0, is symmetric and peaks at 1 in the middle for odd N |
| Windows.CosineWindowShape | pbl3_v4.py:692-703 | the Hamming, Hanning and Blackman windows have samples in [0, 1] and are symmetric, for any cosine that is even, 2π-periodic, in [-1, 1] and obeys the double-angle identity |
| Windows.LibraryKaiserShape | pbl3_v4.py:715-719 | `get_window(("kaiser", beta), N)` has N samples; with the default `fftbins` its first sample is the first of the symmetric window of N + 1 and its last the second, so it is not symmetric; without, it is symmetric |
| Windows.GetWindow | pbl3_v4.py:673-728 | each menu entry gives its window; Kaiser with a beta that does not parse falls back to Hamming |
| Windows.WindowShape | pbl3_v4.py:673-728 | every window has N samples; every one but the periodic Kaiser window is symmetric, and the ones not from the library lie in [0, 1] |
| IdealResponse.IdealFilter | pbl3_v4.py:730-802 | the loop over a zeroed array leaves sample i equal to the ideal tap i of the chosen band, for all N samples |
| IdealResponse.ComputeTap | pbl3_v4.py:753-798 | one iteration of the loop: the closed-form limit at the centre, the sinc terms elsewhere |
| IdealResponse.CentreIsMiddle | pbl3_v4.py:756 | the `abs(n - alpha) < 1e-10` test fires exactly for the middle sample of odd N, and never for even N |
| IdealResponse.IdealCentreTap | pbl3_v4.py:753-790 | the centre tap is wc/π, 1 - wc/π, (wc2 - wc1)/π and 1 - (wc2 - wc1)/π for the four bands |
| IdealResponse.IdealTapsSymmetric | pbl3_v4.py:749-798 | with an odd sine every ideal response satisfies h[i] == h[N-1-i] |
| IdealResponse.Complementarity | pbl3_v4.py:762-771 | the highpass is the centred impulse minus the lowpass of the same cutoff, tap by tap |
| IdealResponse.BandpassIsDifference | pbl3_v4.py:774-782 | the bandpass is the lowpass at wc2 minus the lowpass at wc1, tap by tap |
| KaiserDesign.DesignKaiser | pbl3_v4.py:392-434 | each of the three errors is raised exactly when its condition holds, in the source's order. On success: A = -20 log10(delta); the order is odd, in [11, 201], below the estimate + 2 (below 12 when the estimate is under 10) and at least the estimate when that is at most 201; the order is 201 when the estimate exceeds 201; beta = 0 for A < 21, 0.5842(A - 21)^0.4 + 0.07886(A - 21) for 21 <= A <= 50 and 0.1102(A - 8.7) for A > 50; the cutoff is the midpoint, strictly between wp and ws |
| KaiserDesign.EstimateMonotone | pbl3_v4.py:423 | the estimate (A - 8)/(2.285 dw) grows with A |
| KaiserDesign.OrderMonotoneInRipple | pbl3_v4.py:411-431 | for fixed band edges and an increasing log10, a smaller delta never gives a smaller order |
| KaiserDesign.ConcreteDesign | pbl3_v4.py:399-434 | the default entries (delta 0.01, 0.4π, 0.6π) give A = 40 dB, beta from the middle branch, order 23 and cutoff 0.5π |
| Metrics.FirstSignChangeFrom | pbl3_v4.py:948-950 | `indices[0]`: the first i from k on where the sign of hdb - target changes between samples i and i + 1; None when there is none |
| Metrics.FindFreqAtDbSpec | pbl3_v4.py:945-961 | None exactly when no adjacent pair crosses the target; otherwise the answer lies between the two frequencies of the first crossing, and it is the left one when their levels are within 1e-6 |
| Metrics.InterpolatedBetween | pbl3_v4.py:955 | the linear interpolation at a crossing lies between the two frequencies |
| Metrics.SelectMembers | pbl3_v4.py:993-995 | the mask `w > thr` keeps exactly the samples at positions above thr |
| Metrics.PositionsFrom | pbl3_v4.py:993 | the positions the mask `w > thr` keeps: increasing, each above thr, and every position above thr among them |
| Metrics.SelectAtPositions | pbl3_v4.py:993-995 | masking a sequence takes it at exactly those positions, in order |
| Metrics.MasksAligned | pbl3_v4.py:993-995 | `w[mask]` and `hdb[mask]` have the same length and their k-th elements come from the same position of the curve |
| Metrics.StopbandEdgeSpec | pbl3_v4.py:990-1002 | the -40 dB level is used exactly when its search finds an edge, and -30 dB otherwise; no edge is found for wc >= 0.8; any edge lies above wc + 0.05 |
| Metrics.MaxOf | pbl3_v4.py:1012 | `np.max` is an element and bounds every element |
| Metrics.MinOf | pbl3_v4.py:1014 | `np.min` is an element and is below every element |
| Metrics.MinStopbandAttenuationSpec | pbl3_v4.py:1008-1016 | for wc < 0.9 with a nonempty region above wc + 0.1, -A is the peak level in that region; otherwise -A is the lowest level of the curve |
| Metrics.TransitionWidth | pbl3_v4.py:1005-1006 | defined exactly when both edges are; then it is their nonnegative distance |
| Metrics.Measure | pbl3_v4.py:987-1016 | the passband edge is the -3 dB crossing, the stopband search and attenuation are those of `StopbandEdge` and `MinStopbandAttenuation`, and the transition width exists exactly when both edges do and is then their distance |
| Metrics.ClassifyPhase | pbl3_v4.py:1034-1046 | type I or III exactly for odd N, and type I or II exactly when `allclose(h, h[::-1])` holds |
| Metrics.SymmetricClassification | pbl3_v4.py:1034-1046 | an exactly symmetric response is reported as type I (odd N) or type II (even N) |
| Pipeline.DesignTaps | pbl3_v4.py:804-814 | a design has window, ideal response and product of N samples each, the product taken sample by sample |
| Pipeline.DesignIsLinearPhase | pbl3_v4.py:804-814 | every design of N taps exists; unless it uses the periodic Kaiser window it is symmetric and reported as type I for odd N (type II for even N), and with the symmetric Kaiser window every design is; with the rectangular window it equals the ideal response |
| Pipeline.PeriodicKaiserDesignNotSymmetric | pbl3_v4.py:1034-1046 | as written, a Kaiser design whose first ideal tap is at least 0.001 in size, with a window that rises by at least 0.01 from its first sample to its second, fails `allclose(h, h[::-1])` and is reported as type III for odd N |
| Pipeline.PeriodicProductNotClose | pbl3_v4.py:814 | the product of a symmetric response with the first N samples of a rising symmetric window of N + 1 differs at its two ends by more than `isclose` allows |
| Controls.ValidateOrder | pbl3_v4.py:589-604 | accepted exactly for integers in [11, 201]; the result is odd, the entry itself or the entry + 1 |
| Controls.AdjustedOrder | pbl3_v4.py:540-548 | the stepped order is odd and in [11, 201]; it is current + delta when that is valid, and otherwise at most one step further in delta's direction, clamped |
| Controls.AdjustOrderUndo | pbl3_v4.py:540-548 | away from the ends, + then - (steps of 2) returns the order it started from, and so does - then + |
| Controls.AdjustedBeta | pbl3_v4.py:348-354 | the stepped beta lies in [0, 15] on the 0.1 grid, within 0.05 of the clamped sum |
| Controls.CheckedBeta | pbl3_v4.py:361-371 | accepted exactly for a beta in [0, 15]; the rewritten value is on the 0.1 grid, in range and within 0.05 |
| Controls.ValidateFreq | pbl3_v4.py:558-579 | accepted exactly for [1, fs/2) in Hz (with a sample rate that parses) and [0.01, 0.99] normalized; the value is returned unchanged |
| Controls.FreqToNormalized | pbl3_v4.py:581-587 | Hz times 2/fs, normalized unchanged; it fails exactly when a Hz conversion has no usable sample rate |
| Controls.FreqToNormalizedInverse | pbl3_v4.py:581-587 | normalizing a frequency given in Hz as f·fs/2 gives f back |
| Controls.AdjustedHz | pbl3_v4.py:521-526 | the stepped Hz cutoff is at least 1, on the 0.1 grid, below fs/2, and within 0.05 of the clamped sum |
| Controls.AdjustedNormalized | pbl3_v4.py:527-530 | the stepped normalized cutoff lies in [0.01, 0.99] on the 0.01 grid, within 0.005 of the clamped sum |
| Controls.SteppedFreqValidates | pbl3_v4.py:515-532 | a stepped cutoff always passes `validate_freq` afterwards |
| Controls.CheckCutoffs | pbl3_v4.py:606-627 | as written: the first cutoff, then for band filters the second, then wc1 < wc2 on the unrounded values; each verdict holds exactly under its condition |
| Controls.BandCheckedBeforeRounding | pbl3_v4.py:625-637 | 0.301 < 0.304 passes the check, both entries become 0.30, and the bandpass built from them is zero |
| Controls.CheckCutoffsRounded | pbl3_v4.py:625-637 | corrected: wc1 < wc2 is checked on the rounded values, so an accepted band keeps its rewritten cutoffs strictly ordered |
| Controls.CheckCutoffsAgree | pbl3_v4.py:625-637 | the two checks agree wherever rounding keeps the cutoffs apart, and the corrected one accepts the rounded values |
| Controls.HzRoundingReachesNyquist | pbl3_v4.py:630-633 | in Hz, 499.97 at fs = 1000 passes the range check and is rewritten as 500.0, which the check then refuses |
| Controls.KaiserCutoffReadAsHz | pbl3_v4.py:441 | as written, the 0.5π Kaiser cutoff is written as 0.500, which in Hz mode at fs = 1000 is read back as 0.001π |
| Controls.KaiserCutoffEntryRoundTrip | pbl3_v4.py:441 | corrected: the cutoff written in the panel's unit reads back as the designed wc/π, to within the three-decimal rounding |
| Controls.ValidateAndUpdateStep | pbl3_v4.py:606-639 | as written: a refused first or second cutoff is reset to its default, a misordered band changes nothing, and otherwise the accepted cutoffs are rewritten with one (Hz) or two decimals and the filter is redrawn; the rewritten band is ordered but may be equal |
| Controls.ValidateAndUpdateStepRounded | pbl3_v4.py:625-637 | corrected: the filter is redrawn exactly when the rounded check accepts, and an accepted band is written strictly ordered |
| Controls.StepsAgree | pbl3_v4.py:625-637 | wherever rounding keeps the cutoffs apart, the step as written and the corrected one leave the same panel |
| Controls.ControlPanel.constructor | pbl3_v4.py:50-64 | the initial order 51, cutoffs 0.20 and 0.40, beta 8.0 (line 109), fs 1000, normalized unit, lowpass, Hamming |
| Controls.ControlPanel.AdjustOrder | pbl3_v4.py:540-551 | the order and its entry become the stepped order, always valid; the filter is redrawn |
| Controls.ControlPanel.ValidateOrderAndUpdate | pbl3_v4.py:641-652 | an accepted entry becomes the order, and the filter is redrawn; a refused one resets the order to 51 |
| Controls.ControlPanel.AdjustBeta | pbl3_v4.py:348-359 | beta becomes the stepped value, or 8.0 when the entry does not parse; the filter is redrawn only for the Kaiser window |
| Controls.ControlPanel.ValidateBetaAndUpdate | pbl3_v4.py:361-374 | an accepted beta is rewritten with one decimal; a refused one is reset to 8.0 |
| Controls.ControlPanel.ValidateAndUpdate | pbl3_v4.py:606-639 | the new state and the redraw decision are those of the as-written step, and the order stays valid |
| Controls.ControlPanel.AdjustFreq | pbl3_v4.py:515-538 | `adjust_freq` itself, for any delta: an unreadable cutoff entry, or in Hz an unreadable sample rate, resets the entry to 200 / 0.20; otherwise the stepped value is written and the as-written validation step follows |
| Controls.FreqStep | pbl3_v4.py:252-258 | `get_freq_step`: 1% of the sample rate in Hz and 0.01 normalized; it fails exactly in Hz with a sample rate that does not parse |
| Controls.ControlPanel.PressFreqButton | pbl3_v4.py:149-167 | a +/- button takes the step first: in Hz with an unreadable sample rate the click changes nothing and does not redraw; otherwise it is `adjust_freq` with plus or minus that step |
| Controls.PressedLowpassCutoffRedraws | pbl3_v4.py:515-532 | pressing a button of the only cutoff of a lowpass or highpass filter with a readable entry always redraws the filter (in Hz when fs exceeds 2 Hz) |
| Controls.ControlPanel.DesignKaiserFilter | pbl3_v4.py:392-443 | the result is the Kaiser design; on success the order, its entry, the cutoff entry (wc/π with three decimals, whatever the unit), the Kaiser window and beta (three decimals) are written; on an error nothing changes |
| Controls.ControlPanel.CurrentDesign | pbl3_v4.py:804-814 | `update_filter` on the panel's settings gives N = filter order taps |
| Controls.PanelDesignIsTypeI | pbl3_v4.py:1034-1046 | whatever the user has done, a design exists exactly when the cutoffs can be normalized, it has an odd number of taps, and unless the Kaiser window is selected with a readable beta it is reported as type I |
| SpecDesign.AvailableMembers | versao_atualizada_jarvis/versao_nova.py:285-290 | a name is offered exactly when a table row of that name meets the required attenuation |
| SpecDesign.AvailableExactly | versao_atualizada_jarvis/versao_nova.py:285-290 | every row kept meets the threshold and every row omitted fails it |
| SpecDesign.AvailableShrinks | versao_atualizada_jarvis/versao_nova.py:285-290 | a stricter requirement never offers more windows |
| SpecDesign.NoWindowOffered | versao_atualizada_jarvis/versao_nova.py:292-296 | the "no window" warning appears exactly when more than 90 dB is asked for |
| SpecDesign.DefaultOffer | versao_atualizada_jarvis/versao_nova.py:33-93 | at the default 50 dB the offer is Hamming, Blackman and the three Kaiser rows, in table order |
| SpecDesign.KaiserRowsByName | versao_atualizada_jarvis/versao_nova.py:361-366 | the `'Kaiser' in window_name` test picks out exactly the rows that carry a beta |
| SpecDesign.LookupInSpec | versao_atualizada_jarvis/versao_nova.py:359 | `window_parameters[window_name]` finds a row exactly when one has that name, and the row has that name |
| SpecDesign.LookupFindsEveryRow | versao_atualizada_jarvis/versao_nova.py:359 | every row is found under its own name |
| SpecDesign.PlanDesign | versao_atualizada_jarvis/versao_nova.py:336-383 | each error happens exactly under its condition: a field that is not a number, fp >= fs/2, a highpass stopband edge <= 0, a zero fs or transition width, or an unknown window |
| SpecDesign.PlanDesignSpec | versao_atualizada_jarvis/versao_nova.py:343-383 | on success the stopband edge is fp ± tw and the cutoff is its midpoint with fp. Δf·fs = tw. The raw order is the ceiling of the window's or Kaiser's estimate; the final order is the odd-order rule applied to it with maximum 501: odd, in [11, 501], at least the raw order when that is at most 501, at most the raw order + 1 (or 11), 501 when the raw order exceeds 501 and 11 when it is below 11. fc_norm·fs = 2·fc |
| SpecDesign.WiderTransitionNoHigherOrder | versao_atualizada_jarvis/versao_nova.py:358-379 | a wider transition band never gives a higher order |
| SpecDesign.DefaultHammingPlan | versao_atualizada_jarvis/versao_nova.py:358-383 | the defaults (8000, 1500, 500, 50 dB, lowpass) with Hamming give stopband 2000 Hz, cutoff 1750 Hz, order 53 and fc_norm 0.4375 |
| SpecDesign.DefaultKaiserPlan | versao_atualizada_jarvis/versao_nova.py:361-366 | the same defaults with Kaiser_beta_4.54 give order 47 |
| SpecDesign.IdealLowpass | versao_atualizada_jarvis/versao_nova.py:429-444 | the loop fills every sample with the as-written lowpass tap |
| SpecDesign.IdealHighpass | versao_atualizada_jarvis/versao_nova.py:446-464 | the loop fills every sample with the as-written highpass tap |
| SpecDesign.AsWrittenShape | versao_atualizada_jarvis/versao_nova.py:429-464 | for odd N the centre taps are 2·fc_norm and 1 - 2·fc_norm, and with an odd sine both responses are symmetric |
| SpecDesign.LowpassAsWrittenDoubled | versao_atualizada_jarvis/versao_nova.py:429-444 | as written, every lowpass tap is twice the ideal lowpass tap sin(wc k)/(π k) |
| SpecDesign.HighpassAsWrittenOvershoots | versao_atualizada_jarvis/versao_nova.py:446-464 | as written, the highpass is the impulse minus twice the lowpass; the ideal highpass subtracts it once |
| SpecDesign.DefaultCentreTapDoubled | versao_atualizada_jarvis/versao_nova.py:437-438 | at the defaults the as-written centre tap is 0.875, where the ideal lowpass has 0.4375 |
| SpecDesign.DesignFromPlan | versao_atualizada_jarvis/versao_nova.py:385-407 | the design fails only on a window of the wrong length. Otherwise it keeps N-sample ideal response, window and coefficients, with the coefficients the samplewise product and the centre tap fc_norm (lowpass) or 1 - fc_norm (highpass) |
| SpecDesign.DesignFilterResult | versao_atualizada_jarvis/versao_nova.py:331-412 | the design fails with the plan's error when the plan fails; otherwise the plan's order is odd and at least 11, and the design is built from that plan |
| SpecDesign.DesignIsSymmetric | versao_atualizada_jarvis/versao_nova.py:385-407 | with an odd sine and symmetric windows of N samples, every successful plan gives symmetric coefficients of odd length |
| SpecDesign.PeriodicWindowDesignNotSymmetric | versao_atualizada_jarvis/versao_nova.py:390-406 | as written, with `get_window`'s default periodic windows, the coefficients are not symmetric whenever the first ideal tap is nonzero and the symmetric window of N + 1 differs between its first two samples |
| SpecDesign.PeriodicProductEndsDiffer | versao_atualizada_jarvis/versao_nova.py:406 | a symmetric response with a nonzero first tap, times the first N samples of such a window, differs at its two ends |
| SpecDesign.OfferedNamesKnown | versao_atualizada_jarvis/versao_nova.py:303-304 | every name in the drop-down is a table row |
| SpecDesign.EmptySelectionUnknown | versao_atualizada_jarvis/versao_nova.py:103 | the empty selection is not a table row |
| SpecDesign.FilterDesignApp.constructor | versao_atualizada_jarvis/versao_nova.py:95-112 | the initial entries are 8000, 1500, 500 and 50 dB, lowpass; no window is selected or offered, and there is no design |
| SpecDesign.FilterDesignApp.CheckAvailableWindows | versao_atualizada_jarvis/versao_nova.py:276-296 | the loop leaves exactly the offered names of the table for the entered attenuation, and nothing else changes; an attenuation that is not a number changes nothing |
| SpecDesign.FilterDesignApp.SelectWindow | versao_atualizada_jarvis/versao_nova.py:303-306 | choosing from the read-only drop-down selects an offered, known window |
| SpecDesign.FilterDesignApp.DesignFilter | versao_atualizada_jarvis/versao_nova.py:331-427 | the result is the design of the current entries. On success the coefficients, order, window and ideal response are stored together; on any error nothing changes; an unknown window arises only when no window is selected |

## Left out

- Widgets, layouts, callbacks, message boxes and the plots are left out. So are the text reports: `update_info`'s text, `get_window_info`, `show_calculations` and the theoretical main-lobe strings. So are the Hz/normalized display conversions (`convert_freqs_to_hz`, `convert_freqs_to_normalized`, `update_freq_labels`). They are presentation.
- Unit switching and filter-type changes in the first application are not modelled as handlers. The unit and band are fields that the handlers read.
- Sine, cosine, `log10`, `x ** 0.4`, scipy's Kaiser window, scipy's `get_window` and `signal.freqz` are parameters, because they are library numerics. The metrics take the magnitude curve in dB as given.
- Floating point is left out: values are exact reals. NaN and infinities are not modelled. A text such as "nan" or "inf" that `float()` accepts is treated as a number.
- `Windows.GetWindow`: the source's fallback to Hamming for a window name outside the menu is left out. The menu's six entries are a closed datatype. A Kaiser window that scipy itself fails to build is not modelled either; only a beta that does not parse falls back.
- Windows of fewer than 2 samples are left out: the source divides by M = N - 1 = 0. The orders are always at least 11.
- `SpecDesign.LowpassTapAsWritten`: fc_norm = 0 is excluded. Numpy then divides 0 by 0 and yields NaN taps instead of raising.
- `SpecDesign.DesignFilterResult` and `SpecDesign.FilterDesignApp.DesignFilter`: they use the ideal response of the intended gain, as described under Findings. The as-written loops are `SpecDesign.IdealLowpass` and `SpecDesign.IdealHighpass`.
- `SpecDesign.DesignIsSymmetric`: symmetry is stated only for symmetric library windows, the corrected half of the periodic-window finding. The as-written periodic windows are `SpecDesign.PeriodicWindow`, for which `SpecDesign.PeriodicWindowDesignNotSymmetric` shows the coefficients are not symmetric.
- `SpecDesign.WindowEntry`: the table's ripple, side-lobe and formula columns are left out. Only the report prints them.
- `Pipeline.PeriodicKaiserDesignNotSymmetric`: Kaiser samples are not computed (the Bessel function I0 is not modelled), so the lemma takes as a premise that the symmetric window rises from its first sample to its second, as a Kaiser window with beta > 0 does.
- `Controls.HzRoundingReachesNyquist` shows a cutoff accepted in Hz and then rewritten as the Nyquist frequency; no corrected variant is given, since the source's intent there is unclear.
- `Pipeline.DesignTaps`: numpy's refusal to multiply arrays of different lengths becomes `None`. That can only come from a library Kaiser window of the wrong length.
- The claim that every lowpass design of at least 20 dB has its passband edge below its stopband edge is left out. It needs the frequency response, which is a parameter here.

## Findings

| source | as written | input that shows it | evidently intended | confidence | as-written member | corrected member |
|---|---|---|---|---|---|---|
| pbl3_v4.py:441 | the Kaiser design writes its cutoff into the cutoff entry as wc/π with three decimals, whatever unit the panel is in | Hz mode, fs = 1000, default Kaiser entries: wc = 0.5π is written as 0.500, and `ideal_filter` reads it back as 0.5 Hz = 0.001π | the cutoff written in the panel's unit (250.0 Hz) | high, not executed | Controls.KaiserCutoffReadAsHz | Controls.KaiserCutoffEntryRoundTrip |
| pbl3_v4.py:625-637 | wc1 < wc2 is checked on the unrounded entries, which are then rewritten with two decimals | bandpass, 0.301 and 0.304: accepted, both rewritten as 0.30, and the ideal bandpass is zero at every tap | compare the values as they will be written | medium, not executed | Controls.BandCheckedBeforeRounding | Controls.CheckCutoffsRounded |
| pbl3_v4.py:715-719 | the Kaiser window is `get_window(("kaiser", beta), N)` with scipy's default `fftbins=True`, a periodic window that is not symmetric | the default Kaiser design (N = 23, cutoff 0.5π, so h[0] = -1/(11π)) with beta > 0: the window's first sample is below its last, the coefficients fail `allclose(h, h[::-1])`, and the report prints type III | the symmetric window (`fftbins=False`), which gives the type I linear-phase design the odd order is chosen for | medium, not executed | Pipeline.PeriodicKaiserDesignNotSymmetric | Pipeline.DesignIsLinearPhase |
| versao_atualizada_jarvis/versao_nova.py:429-464 | the lowpass tap is 2·fc_norm·sin(wc k)/(wc k) with wc = fc_norm·π and the centre is 2·fc_norm, which is twice the ideal lowpass sin(wc k)/(π k); the highpass subtracts that doubled lowpass from the impulse | the defaults (8000 Hz, 1500 Hz, 500 Hz, Hamming): N = 53, fc_norm = 0.4375, centre tap 0.875 instead of 0.4375, so the passband gain is 2 (+6 dB) and the highpass gain at DC is -1 | the ideal lowpass of cutoff wc, with centre fc_norm, and the highpass with centre 1 - fc_norm | high, not executed | SpecDesign.LowpassAsWrittenDoubled | SpecDesign.DesignFromPlan |
| versao_atualizada_jarvis/versao_nova.py:390-406 | every window comes from `signal.get_window` with scipy's default `fftbins=True`, which gives periodic windows, although line 374 makes the order odd for symmetry | the defaults with Hamming (N = 53): the periodic window starts at 0.08 but ends at the second sample of the symmetric Hamming window of 54, which is above 0.08, and the first ideal tap is nonzero, so the coefficients are not symmetric | symmetric windows (`fftbins=False`), giving symmetric type I coefficients | medium, not executed | SpecDesign.PeriodicWindowDesignNotSymmetric | SpecDesign.DesignIsSymmetric |
