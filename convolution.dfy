/**
 * Reference definitions for discrete convolution over real-valued sample
 * sequences: the linear (FIR) convolution a filter is meant to compute, and
 * the length-N circular convolution that the frequency-domain step of
 * overlap-save actually computes (by the cyclic convolution theorem,
 * IFFT(FFT(w) * FFT(hp)) is the circular convolution of w and hp).
 */
module Convolution {

  /** `n` silent samples. */
  function Zeros(n: nat): (z: seq<real>)
    ensures |z| == n
    ensures forall i :: 0 <= i < n ==> z[i] == 0.0
  {
    if n == 0 then [] else Zeros(n - 1) + [0.0]
  }

  /** Sample `j` of `x`, reading `x` as silent outside its index range. */
  function At(x: seq<real>, j: int): real
  {
    if 0 <= j < |x| then x[j] else 0.0
  }

  /** Reading the zero-prefixed signal is reading the signal M-1 samples earlier. */
  lemma ZeroPrefixAt(x: seq<real>, m: nat, p: int)
    requires 1 <= m
    ensures At(Zeros(m - 1) + x, p) == At(x, p - (m - 1))
  {
    if 0 <= p < m - 1 {
      assert (Zeros(m - 1) + x)[p] == Zeros(m - 1)[p];
    } else if m - 1 <= p < m - 1 + |x| {
      assert (Zeros(m - 1) + x)[p] == x[p - (m - 1)];
    }
  }

  /** The partial FIR sum  h[0]*x[n] + h[1]*x[n-1] + ... + h[K-1]*x[n-K+1]. */
  function ConvSum(x: seq<real>, h: seq<real>, n: int, K: nat): real
    requires K <= |h|
  {
    if K == 0 then 0.0 else ConvSum(x, h, n, K - 1) + h[K - 1] * At(x, n - (K - 1))
  }

  /**
   * Linear convolution of `x` with `h`, truncated to the length of `x`:
   * y[n] = sum over k < |h| of h[k] * x[n - k], with x silent before index 0.
   */
  function LinearConvolution(x: seq<real>, h: seq<real>): seq<real>
  {
    seq(|x|, n requires 0 <= n < |x| => ConvSum(x, h, n, |h|))
  }

  /** The partial circular sum  hp[0]*w[t mod N] + ... + hp[K-1]*w[(t-K+1) mod N]. */
  function CircSum(w: seq<real>, hp: seq<real>, t: int, K: nat): real
    requires 0 < |w|
    requires K <= |hp|
  {
    if K == 0 then 0.0 else CircSum(w, hp, t, K - 1) + hp[K - 1] * w[(t - (K - 1)) % |w|]
  }

  /** Length-N circular convolution of the window `w` with the (padded) filter `hp`. */
  function CircularConvolution(w: seq<real>, hp: seq<real>): (y: seq<real>)
    requires 0 < |w| == |hp|
    ensures |y| == |w|
  {
    seq(|w|, t requires 0 <= t < |w| => CircSum(w, hp, t, |hp|))
  }

  /** `h` followed by zeros up to length `n` (numpy's fft(h, n=N) pads this way). */
  function PadTo(h: seq<real>, n: nat): (hp: seq<real>)
    requires |h| <= n
    ensures |hp| == n
    ensures hp[..|h|] == h
    ensures forall k :: |h| <= k < n ==> hp[k] == 0.0
  {
    h + Zeros(n - |h|)
  }

  /**
   * Locality of the FIR sum: it reads only the K samples ending at `n`, so two
   * signals that agree there (up to a shift `d`) give the same sum.
   */
  lemma {:induction false} ConvSumShift(a: seq<real>, b: seq<real>, h: seq<real>, n: int, d: int, K: nat)
    requires K <= |h|
    requires forall j :: n - K < j <= n ==> At(a, j) == At(b, j + d)
    ensures ConvSum(a, h, n, K) == ConvSum(b, h, n + d, K)
  {
    if K > 0 {
      ConvSumShift(a, b, h, n, d, K - 1);
      assert At(a, n - (K - 1)) == At(b, n - (K - 1) + d);
    }
  }

  /** Filter taps that are zero contribute nothing to the circular sum. */
  lemma {:induction false} CircSumZeroTaps(w: seq<real>, hp: seq<real>, t: int, M: nat, K: nat)
    requires 0 < |w|
    requires M <= K <= |hp|
    requires forall k :: M <= k < |hp| ==> hp[k] == 0.0
    ensures CircSum(w, hp, t, K) == CircSum(w, hp, t, M)
  {
    if K > M {
      CircSumZeroTaps(w, hp, t, M, K - 1);
    }
  }

  lemma SmallMod(a: int, b: int)
    requires 0 <= a < b
    ensures a % b == a
  {
  }

  /** Before it wraps around, the circular sum is the linear FIR sum over the window. */
  lemma {:induction false} CircSumIsConvSum(w: seq<real>, h: seq<real>, hp: seq<real>, t: int, K: nat)
    requires 0 < |w|
    requires K <= |h| <= |hp|
    requires hp[..|h|] == h
    requires K <= t + 1 && t < |w|
    ensures CircSum(w, hp, t, K) == ConvSum(w, h, t, K)
  {
    if K > 0 {
      CircSumIsConvSum(w, h, hp, t, K - 1);
      assert hp[K - 1] == hp[..|h|][K - 1] == h[K - 1];
      SmallMod(t - (K - 1), |w|);
    }
  }

  /**
   * The overlap-save argument in the time domain: for an M-tap filter padded
   * to the window length N, every output of the circular convolution at
   * position t >= M-1 equals the linear FIR output over the window; only the
   * first M-1 outputs are wrapped.
   */
  lemma CircularMatchesLinearPastWrap(w: seq<real>, h: seq<real>, t: nat)
    requires 1 <= |h| <= |w|
    requires |h| - 1 <= t < |w|
    ensures CircularConvolution(w, PadTo(h, |w|))[t] == ConvSum(w, h, t, |h|)
  {
    var hp := PadTo(h, |w|);
    CircSumZeroTaps(w, hp, t, |h|, |hp|);
    CircSumIsConvSum(w, h, hp, t, |h|);
  }

  /** With the unit impulse [1, 0, ..., 0] the FIR sum at `n` is the sample at `n`. */
  lemma {:induction false} ImpulseConvSum(x: seq<real>, h: seq<real>, n: int, K: nat)
    requires 1 <= K <= |h|
    requires h[0] == 1.0
    requires forall k :: 1 <= k < |h| ==> h[k] == 0.0
    ensures ConvSum(x, h, n, K) == At(x, n)
  {
    if K > 1 {
      ImpulseConvSum(x, h, n, K - 1);
    }
  }

  /** Convolving with the unit impulse leaves the signal unchanged. */
  lemma ImpulseIsIdentity(x: seq<real>, h: seq<real>)
    requires 1 <= |h|
    requires h[0] == 1.0
    requires forall k :: 1 <= k < |h| ==> h[k] == 0.0
    ensures LinearConvolution(x, h) == x
  {
    forall n | 0 <= n < |x|
      ensures LinearConvolution(x, h)[n] == x[n]
    {
      ImpulseConvSum(x, h, n, |h|);
    }
  }
}
