/** The window functions of the first application (pbl3_v4.py, get_window):
    rectangular and Bartlett in exact arithmetic, Hanning, Hamming and
    Blackman over an abstract cosine, and Kaiser through an abstract library
    call. Windows are defined for 0 <= i <= M with M = N - 1. */
module Windows {
  import opened Common

  /** The six entries of the window menu. */
  datatype WindowKind = Rectangular | Hamming | Hanning | Blackman | Bartlett | Kaiser

  /** np.ones(N) */
  function RectangularWindow(n: nat): (w: seq<real>)
    ensures |w| == n
    ensures forall i :: 0 <= i < n ==> w[i] == 1.0
  {
    seq(n, _ => 1.0)
  }

  /** The triangular window: rising as 2i/M up to the middle, then falling
      as 2 - 2i/M. */
  function BartlettAt(n: nat, i: nat): real
    requires n >= 2
  {
    var m := (n - 1) as real;
    if i as real <= m / 2.0 then 2.0 * i as real / m else 2.0 - 2.0 * i as real / m
  }

  function BartlettWindow(n: nat): (w: seq<real>)
    requires n >= 2
    ensures |w| == n
  {
    seq(n, i requires 0 <= i < n => BartlettAt(n, i))
  }

  /** The Bartlett branch of get_window: a zeroed array filled one sample
      at a time. */
  method MakeBartlett(n: nat) returns (w: array<real>)
    requires n >= 2
    ensures w.Length == n && w[..] == BartlettWindow(n)
  {
    w := new real[n](_ => 0.0);
    var m := n - 1;
    for i := 0 to n
      invariant forall j :: 0 <= j < i ==> w[j] == BartlettAt(n, j)
    {
      if i as real <= m as real / 2.0 {
        w[i] := 2.0 * i as real / m as real;
      } else {
        w[i] := 2.0 - 2.0 * i as real / m as real;
      }
    }
  }

  lemma BartlettAtBounds(n: nat, i: nat)
    requires n >= 2 && i < n
    ensures 0.0 <= BartlettAt(n, i) <= 1.0
  {
    var m := (n - 1) as real;
    if i as real <= m / 2.0 {
      assert 2.0 * i as real <= m;
    } else {
      assert m < 2.0 * i as real <= 2.0 * m;
    }
  }

  lemma BartlettAtMirror(n: nat, i: nat)
    requires n >= 2 && i < n
    ensures BartlettAt(n, i) == BartlettAt(n, n - 1 - i)
  {
    var m := (n - 1) as real;
    var j := n - 1 - i;
    assert j as real == m - i as real;
    if i as real < m / 2.0 {
      assert j as real > m / 2.0;
      MirrorDiv(m, i as real, j as real);
    } else if i as real > m / 2.0 {
      assert j as real < m / 2.0;
      MirrorDiv(m, j as real, i as real);
    } else {
      assert i == j;
    }
  }

  /** 2 - 2j/M == 2i/M when i + j == M. */
  lemma MirrorDiv(m: real, i: real, j: real)
    requires m > 0.0 && i + j == m
    ensures 2.0 - 2.0 * j / m == 2.0 * i / m
  {
    var x, y := 2.0 * i / m, 2.0 * j / m;
    assert x * m == 2.0 * i;
    assert y * m == 2.0 * j;
    assert (x + y - 2.0) * m == x * m + y * m - 2.0 * m;
    ZeroProduct(x + y - 2.0, m);
  }

  lemma ZeroProduct(a: real, m: real)
    requires m != 0.0 && a * m == 0.0
    ensures a == 0.0
  {
  }

  /** The Bartlett window has N samples in [0, 1], starts at 0, is
      symmetric, and peaks at 1 in the middle when N is odd. */
  lemma BartlettWindowShape(n: nat)
    requires n >= 2
    ensures var w := BartlettWindow(n);
      && |w| == n
      && w[0] == 0.0
      && (forall i :: 0 <= i < n ==> 0.0 <= w[i] <= 1.0)
      && Symmetric(w)
      && (n % 2 == 1 ==> w[(n - 1) / 2] == 1.0)
  {
    var w := BartlettWindow(n);
    forall i | 0 <= i < n
      ensures 0.0 <= w[i] <= 1.0 && w[i] == w[n - 1 - i]
    {
      BartlettAtBounds(n, i);
      BartlettAtMirror(n, i);
    }
    if n % 2 == 1 {
      BartlettPeak(n);
    }
  }

  lemma BartlettPeak(n: nat)
    requires n >= 2 && n % 2 == 1
    ensures BartlettAt(n, (n - 1) / 2) == 1.0
  {
    var c := (n - 1) / 2;
    var m := (n - 1) as real;
    assert m == 2.0 * c as real;
    assert c as real <= m / 2.0;
    assert BartlettAt(n, c) == 2.0 * c as real / m;
    QuotientOfEqual(2.0 * c as real, m);
  }

  lemma QuotientOfEqual(x: real, m: real)
    requires m != 0.0 && x == m
    ensures x / m == 1.0
  {
  }

  /** The generalized cosine windows 0.54 - 0.46 cos(2 pi i / M) (Hamming),
      0.5 - 0.5 cos(2 pi i / M) (Hanning) and
      0.42 - 0.5 cos(2 pi i / M) + 0.08 cos(4 pi i / M) (Blackman). */
  function CosineWindowAt(kind: WindowKind, n: nat, i: nat, cos: real -> real): real
    requires n >= 2
    requires kind == Hamming || kind == Hanning || kind == Blackman
  {
    var m := (n - 1) as real;
    var c := cos(2.0 * Pi * i as real / m);
    match kind
    case Hamming => 0.54 - 0.46 * c
    case Hanning => 0.5 - 0.5 * c
    case Blackman => 0.42 - 0.5 * c + 0.08 * cos(4.0 * Pi * i as real / m)
  }

  function CosineWindow(kind: WindowKind, n: nat, cos: real -> real): (w: seq<real>)
    requires n >= 2
    requires kind == Hamming || kind == Hanning || kind == Blackman
    ensures |w| == n
  {
    seq(n, i requires 0 <= i < n => CosineWindowAt(kind, n, i, cos))
  }

  /** cos(2 pi (M - i) / M) == cos(2 pi i / M), and likewise for 4 pi. */
  lemma CosineMirror(cos: real -> real, n: nat, i: nat)
    requires CosineLike(cos)
    requires n >= 2 && i < n
    ensures var m := (n - 1) as real;
      && cos(2.0 * Pi * (n - 1 - i) as real / m) == cos(2.0 * Pi * i as real / m)
      && cos(4.0 * Pi * (n - 1 - i) as real / m) == cos(4.0 * Pi * i as real / m)
  {
    var m := (n - 1) as real;
    var a := 2.0 * Pi * i as real / m;
    var b := 4.0 * Pi * i as real / m;
    MirrorArgument(Pi, i as real, (n - 1 - i) as real, m);
    CosineReflect(cos, a, 2.0 * Pi * (n - 1 - i) as real / m);
    CosineReflectTwice(cos, b, 4.0 * Pi * (n - 1 - i) as real / m);
  }

  /** cos(2 pi - x) == cos(x) */
  lemma CosineReflect(cos: real -> real, x: real, y: real)
    requires CosineLike(cos)
    requires y == -x + 2.0 * Pi
    ensures cos(y) == cos(x)
  {
    assert cos(y) == cos(-x);
    assert -x + x == 0.0;
  }

  /** cos(4 pi - x) == cos(x) */
  lemma CosineReflectTwice(cos: real -> real, x: real, y: real)
    requires CosineLike(cos)
    requires y == (-x + 2.0 * Pi) + 2.0 * Pi
    ensures cos(y) == cos(x)
  {
    CosineReflect(cos, x, -x + 2.0 * Pi);
  }

  lemma MirrorArgument(p: real, i: real, j: real, m: real)
    requires m > 0.0 && i + j == m
    ensures 2.0 * p * j / m == -(2.0 * p * i / m) + 2.0 * p
    ensures 4.0 * p * j / m == (-(4.0 * p * i / m) + 2.0 * p) + 2.0 * p
  {
  }

  lemma DoubleArgument(p: real, i: real, m: real)
    requires m > 0.0
    ensures 4.0 * p * i / m == 2.0 * (2.0 * p * i / m)
  {
  }

  /** Blackman's polynomial in c = cos(2 pi i / M) after the double-angle
      identity stays in [0, 1]. */
  lemma BlackmanPolynomialBounds(c: real)
    requires -1.0 <= c <= 1.0
    ensures 0.0 <= 0.42 - 0.5 * c + 0.08 * (2.0 * c * c - 1.0) <= 1.0
  {
    assert 0.42 - 0.5 * c + 0.08 * (2.0 * c * c - 1.0) == (1.0 - c) * (0.34 - 0.16 * c);
    assert 1.0 - (0.42 - 0.5 * c + 0.08 * (2.0 * c * c - 1.0)) == (1.0 + c) * (0.66 - 0.16 * c);
    NonnegativeProduct(1.0 - c, 0.34 - 0.16 * c);
    NonnegativeProduct(1.0 + c, 0.66 - 0.16 * c);
  }

  /** One sample of a cosine window lies in [0, 1] and equals its mirror
      image. */
  lemma CosineWindowAtShape(kind: WindowKind, n: nat, i: nat, cos: real -> real)
    requires CosineLike(cos)
    requires n >= 2 && i < n
    requires kind == Hamming || kind == Hanning || kind == Blackman
    ensures 0.0 <= CosineWindowAt(kind, n, i, cos) <= 1.0
    ensures CosineWindowAt(kind, n, i, cos) == CosineWindowAt(kind, n, n - 1 - i, cos)
  {
    CosineMirror(cos, n, i);
    var m := (n - 1) as real;
    var a := 2.0 * Pi * i as real / m;
    var c := cos(a);
    assert -1.0 <= c <= 1.0;
    if kind == Blackman {
      DoubleArgument(Pi, i as real, m);
      assert cos(4.0 * Pi * i as real / m) == 2.0 * c * c - 1.0;
      BlackmanPolynomialBounds(c);
    }
  }

  /** Hanning, Hamming and Blackman windows are symmetric with every sample
      in [0, 1], for any cosine that is bounded, even, periodic and obeys
      the double-angle identity. */
  lemma CosineWindowShape(kind: WindowKind, n: nat, cos: real -> real)
    requires CosineLike(cos)
    requires n >= 2
    requires kind == Hamming || kind == Hanning || kind == Blackman
    ensures var w := CosineWindow(kind, n, cos);
      && Symmetric(w)
      && forall i :: 0 <= i < n ==> 0.0 <= w[i] <= 1.0
  {
    var w := CosineWindow(kind, n, cos);
    forall i | 0 <= i < n
      ensures 0.0 <= w[i] <= 1.0 && w[i] == w[n - 1 - i]
    {
      CosineWindowAtShape(kind, n, i, cos);
    }
  }

  /** What the symmetric Kaiser window of scipy (kaiser(M, beta) with
      sym=True) is relied on for: M samples, symmetric. kaiser(beta, M)
      stands for it. */
  ghost predicate KaiserLike(kaiser: (real, nat) -> seq<real>)
  {
    forall beta: real, m: nat :: |kaiser(beta, m)| == m && Symmetric(kaiser(beta, m))
  }

  /** scipy's get_window(("kaiser", beta), N, fftbins). With fftbins, its
      default, the window is periodic: the first N samples of the
      symmetric window of N + 1. Without, it is the symmetric window of N. */
  function LibraryKaiser(kaiser: (real, nat) -> seq<real>, beta: real, n: nat, fftbins: bool): seq<real>
  {
    if fftbins then
      var s := kaiser(beta, n + 1);
      if |s| > n then s[..n] else s
    else kaiser(beta, n)
  }

  /** The periodic window has N samples but is not symmetric: its last
      sample is the second of the symmetric window of N + 1, its first the
      first. The symmetric one is symmetric. */
  lemma LibraryKaiserShape(kaiser: (real, nat) -> seq<real>, beta: real, n: nat, fftbins: bool)
    requires KaiserLike(kaiser) && n >= 2
    ensures var w := LibraryKaiser(kaiser, beta, n, fftbins);
      && |w| == n
      && (fftbins ==> w[0] == kaiser(beta, n + 1)[0] && w[n - 1] == kaiser(beta, n + 1)[1])
      && (!fftbins ==> Symmetric(w))
  {
    var s := kaiser(beta, n + 1);
    assert |s| == n + 1 && Symmetric(s);
    assert s[n - 1] == s[n + 1 - 1 - (n - 1)];
    assert |kaiser(beta, n)| == n && Symmetric(kaiser(beta, n));
  }

  /** Every window the first application can produce, given the text of
      the beta entry (None when it does not parse as a number), an abstract
      cosine and scipy's Kaiser window, with fftbins as get_window is
      called (the application relies on its default, true). An unreadable
      beta falls back to Hamming, as the source's except branch does. */
  function Window(kind: WindowKind, n: nat, betaEntry: Option<real>,
                  cos: real -> real, kaiser: (real, nat) -> seq<real>, fftbins: bool): seq<real>
    requires n >= 2
  {
    match kind
    case Rectangular => RectangularWindow(n)
    case Bartlett => BartlettWindow(n)
    case Hamming => CosineWindow(Hamming, n, cos)
    case Hanning => CosineWindow(Hanning, n, cos)
    case Blackman => CosineWindow(Blackman, n, cos)
    case Kaiser =>
      match betaEntry
      case Some(beta) => LibraryKaiser(kaiser, beta, n, fftbins)
      case None => CosineWindow(Hamming, n, cos)
  }

  /** get_window: the Bartlett samples come from the filling loop. */
  method GetWindow(kind: WindowKind, n: nat, betaEntry: Option<real>,
                   cos: real -> real, kaiser: (real, nat) -> seq<real>, fftbins: bool)
    returns (w: seq<real>)
    requires n >= 2
    ensures w == Window(kind, n, betaEntry, cos, kaiser, fftbins)
  {
    match kind {
      case Bartlett =>
        var a := MakeBartlett(n);
        w := a[..];
      case Rectangular =>
        w := RectangularWindow(n);
      case Hamming =>
        w := CosineWindow(Hamming, n, cos);
      case Hanning =>
        w := CosineWindow(Hanning, n, cos);
      case Blackman =>
        w := CosineWindow(Blackman, n, cos);
      case Kaiser =>
        if betaEntry.Some? {
          w := LibraryKaiser(kaiser, betaEntry.value, n, fftbins);
        } else {
          w := CosineWindow(Hamming, n, cos);
        }
    }
  }

  /** Every window has N samples, and every window but the periodic Kaiser
      window is symmetric; the ones computed here lie in [0, 1]. */
  lemma WindowShape(kind: WindowKind, n: nat, betaEntry: Option<real>,
                    cos: real -> real, kaiser: (real, nat) -> seq<real>, fftbins: bool)
    requires CosineLike(cos) && KaiserLike(kaiser)
    requires n >= 2
    ensures var w := Window(kind, n, betaEntry, cos, kaiser, fftbins);
      && |w| == n
      && (kind != Kaiser || betaEntry.None? || !fftbins ==> Symmetric(w))
      && (kind != Kaiser || betaEntry.None? ==> forall i :: 0 <= i < n ==> 0.0 <= w[i] <= 1.0)
  {
    match kind
    case Rectangular =>
    case Bartlett => BartlettWindowShape(n);
    case Hamming => CosineWindowShape(Hamming, n, cos);
    case Hanning => CosineWindowShape(Hanning, n, cos);
    case Blackman => CosineWindowShape(Blackman, n, cos);
    case Kaiser =>
      if betaEntry.Some? {
        LibraryKaiserShape(kaiser, betaEntry.value, n, fftbins);
      } else {
        CosineWindowShape(Hamming, n, cos);
      }
  }
}
