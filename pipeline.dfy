/** update_filter of the first application (pbl3_v4.py): the selected
    window times the ideal response, and the linear-phase type the report
    then prints for it. Frequency responses (freqz) and plots are not part
    of this model. */
module Pipeline {
  import opened Common
  import opened Windows
  import opened IdealResponse
  import opened Metrics

  /** The three arrays update_filter computes. */
  datatype Design = Design(window: seq<real>, ideal: seq<real>, windowed: seq<real>)

  /** h_ideal * window for normalized cutoffs f1 and f2, with the Kaiser
      window taken as get_window is called with fftbins. numpy refuses the
      product of arrays of different lengths, which can only happen with a
      library Kaiser window of the wrong length; the design then fails. */
  function DesignTaps(n: nat, window: WindowKind, betaEntry: Option<real>, kind: BandKind,
                      f1: real, f2: real, cos: real -> real, sin: real -> real,
                      kaiser: (real, nat) -> seq<real>, fftbins: bool): (r: Option<Design>)
    requires n >= 2
    ensures r.Some? ==> |r.value.window| == n && |r.value.ideal| == n && |r.value.windowed| == n
    ensures r.Some? ==> forall i :: 0 <= i < n ==>
      r.value.windowed[i] == r.value.ideal[i] * r.value.window[i]
  {
    var w := Window(window, n, betaEntry, cos, kaiser, fftbins);
    var h := IdealTaps(kind, n, f1, f2, sin);
    if |w| == n then Some(Design(w, h, Product(h, w))) else None
  }

  /** Every design of N taps exists and, unless it uses the periodic
      Kaiser window, is symmetric when sine is odd and the cosine is as
      expected, so the report calls it type I for odd N (and type II for
      even N). With the symmetric Kaiser window (fftbins false) this holds
      of every design. A rectangular window leaves the ideal response
      unchanged. */
  lemma DesignIsLinearPhase(n: nat, window: WindowKind, betaEntry: Option<real>, kind: BandKind,
                            f1: real, f2: real, cos: real -> real, sin: real -> real,
                            kaiser: (real, nat) -> seq<real>, fftbins: bool)
    requires n >= 2
    requires OddFunction(sin) && CosineLike(cos) && KaiserLike(kaiser)
    ensures var r := DesignTaps(n, window, betaEntry, kind, f1, f2, cos, sin, kaiser, fftbins);
      && r.Some?
      && (window != Kaiser || betaEntry.None? || !fftbins ==>
            Symmetric(r.value.windowed)
            && ClassifyPhase(r.value.windowed) == (if n % 2 == 1 then TypeI else TypeII))
      && (window == Rectangular ==> r.value.windowed == r.value.ideal)
  {
    var w := Window(window, n, betaEntry, cos, kaiser, fftbins);
    var h := IdealTaps(kind, n, f1, f2, sin);
    WindowShape(window, n, betaEntry, cos, kaiser, fftbins);
    if window != Kaiser || betaEntry.None? || !fftbins {
      IdealTapsSymmetric(kind, n, f1, f2, sin);
      ProductSymmetric(h, w);
      SymmetricClassification(Product(h, w));
    }
  }

  /** As the application calls it, the Kaiser window is periodic, so a
      Kaiser design is not symmetric: whenever the first ideal tap is not
      negligible and the symmetric window of N + 1 samples rises by at least
      0.01 from its first sample to its second (as a Kaiser window with
      beta > 0 does), the symmetry test fails and the report prints type
      III for odd N (type IV for even N). */
  lemma PeriodicKaiserDesignNotSymmetric(n: nat, beta: real, kind: BandKind, f1: real, f2: real,
                                         cos: real -> real, sin: real -> real,
                                         kaiser: (real, nat) -> seq<real>)
    requires n >= 2
    requires OddFunction(sin)
    requires |kaiser(beta, n + 1)| == n + 1 && Symmetric(kaiser(beta, n + 1))
    requires 0.0 <= kaiser(beta, n + 1)[0] && kaiser(beta, n + 1)[0] + 0.01 <= kaiser(beta, n + 1)[1] <= 1.0
    requires Abs(IdealTaps(kind, n, f1, f2, sin)[0]) >= 0.001
    ensures var r := DesignTaps(n, Kaiser, Some(beta), kind, f1, f2, cos, sin, kaiser, true);
      && r.Some?
      && !AllCloseReversed(r.value.windowed)
      && ClassifyPhase(r.value.windowed) == (if n % 2 == 1 then TypeIII else TypeIV)
  {
    var s := kaiser(beta, n + 1);
    var h := IdealTaps(kind, n, f1, f2, sin);
    assert h[n - 1] == h[0] by {
      IdealTapsSymmetric(kind, n, f1, f2, sin);
    }
    assert s[n - 1] == s[1] by {
      assert s[n - 1] == s[|s| - 1 - (n - 1)];
    }
    PeriodicProductNotClose(h, s, n);
  }

  /** The product of a symmetric h with the first N samples of s, when s
      rises from its first sample to its second and comes back to the
      second at N - 1, fails the symmetry test at its two ends. */
  lemma PeriodicProductNotClose(h: seq<real>, s: seq<real>, n: nat)
    requires |h| == n >= 2 && |s| == n + 1
    requires h[n - 1] == h[0] && s[n - 1] == s[1]
    requires Abs(h[0]) >= 0.001
    requires 0.0 <= s[0] && s[0] + 0.01 <= s[1] <= 1.0
    ensures !AllCloseReversed(Product(h, s[..n]))
  {
    var d := Product(h, s[..n]);
    assert d[0] == h[0] * s[0];
    assert d[n - 1] == h[0] * s[1];
    ScaledNotClose(h[0], s[0], s[1]);
    assert !IsClose(d[0], d[|d| - 1 - 0]);
  }

  /** h * s0 and h * s1 fail numpy's isclose once s1 exceeds s0 by 0.01 and
      |h| >= 0.001. */
  lemma ScaledNotClose(h: real, s0: real, s1: real)
    requires Abs(h) >= 0.001
    requires 0.0 <= s0 && s0 + 0.01 <= s1 <= 1.0
    ensures !IsClose(h * s0, h * s1)
  {
    var a := Abs(h);
    var gap, top := a * (s1 - s0), a * s1;
    assert Abs(h * s0 - h * s1) == gap && Abs(h * s1) == top by {
      if h < 0.0 {
        assert a == -h;
        assert h * s0 - h * s1 == h * (s0 - s1) == (-h) * (s1 - s0);
        assert h * s1 == -top;
      }
      NonnegativeProduct(a, s1 - s0);
      NonnegativeProduct(a, s1);
    }
    assert gap >= 0.01 * a by {
      NonnegativeProduct(a, s1 - s0 - 0.01);
      assert gap - 0.01 * a == a * (s1 - s0 - 0.01);
    }
    assert top <= a by {
      NonnegativeProduct(a, 1.0 - s1);
      assert a - top == a * (1.0 - s1);
    }
  }
}
