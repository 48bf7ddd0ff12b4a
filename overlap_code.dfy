/**
 * The overlap-save block convolution of OverlapCode.py.
 *
 * With an M-tap filter h and a transform size N >= M, each block of N input
 * samples (the M-1 samples that precede it plus L = N - M + 1 new ones) is
 * circularly convolved with h padded to N; the first M-1 outputs of the block
 * are wrapped around and dropped, the remaining L are kept.  The frequency
 * domain product FFT(block) * FFT(h, N) followed by the inverse FFT is
 * modelled by the time-domain circular convolution it equals.
 */
module OverlapCode {
  import opened Convolution

  function Min(a: int, b: int): int { if a <= b then a else b }

  /**
   * Number of blocks, ceil((lenX + M - 1) / L): enough L-sample blocks to cover
   * the zero-prefixed signal, and no more.
   */
  function NumBlocks(lenX: nat, m: nat, l: nat): (b: nat)
    requires 1 <= m && 1 <= l
    ensures b * l >= lenX + m - 1
    ensures b > 0 ==> (b - 1) * l < lenX + m - 1
  {
    var total := lenX + m - 1;
    var q := (total + l - 1) / l;
    var r := (total + l - 1) % l;
    assert total + l - 1 == q * l + r && 0 <= r < l;
    assert q > 0 ==> (q - 1) * l == q * l - l;
    q
  }

  /**
   * The window handed to the transform: the slice xp[start:start+N] (clamped to
   * the signal as a slice is), zero-padded at the end to exactly N samples.
   */
  function ExtractBlock(xp: seq<real>, start: nat, n: nat): (w: seq<real>)
    ensures |w| == n
    ensures forall p :: 0 <= p < n ==> w[p] == At(xp, start + p)
  {
    var block := xp[Min(start, |xp|)..Min(start + n, |xp|)];
    if |block| < n then block + Zeros(n - |block|) else block
  }

  /** Block i starts at i*L in the zero-prefixed signal, so its samples are x read M-1 earlier. */
  lemma BlockSamples(x: seq<real>, m: nat, l: nat, n: nat, i: nat, p: nat)
    requires 1 <= m && p < n
    ensures ExtractBlock(Zeros(m - 1) + x, i * l, n)[p] == At(x, i * l + p - (m - 1))
  {
    ZeroPrefixAt(x, m, i * l + p);
  }

  /**
   * Consecutive windows overlap by exactly M-1 samples: the first M-1 samples
   * of block i+1 are the last M-1 samples of block i.
   */
  lemma ConsecutiveBlocksOverlap(xp: seq<real>, m: nat, n: nat, i: nat)
    requires 1 <= m <= n
    ensures var l := n - m + 1;
      ExtractBlock(xp, (i + 1) * l, n)[..m - 1] == ExtractBlock(xp, i * l, n)[l..]
  {
    var l := n - m + 1;
    var next, cur := ExtractBlock(xp, (i + 1) * l, n), ExtractBlock(xp, i * l, n);
    assert (i + 1) * l == i * l + l;
    forall p | 0 <= p < m - 1
      ensures next[..m - 1][p] == cur[l..][p]
    {
      assert next[p] == At(xp, i * l + l + p);
      assert cur[l + p] == At(xp, i * l + (l + p));
    }
  }

  /**
   * The central overlap-save lemma: the samples kept from block i (positions
   * M-1 .. N-1 of its circular convolution) are exactly the linear convolution
   * of x with h at positions i*L .. i*L + L - 1, x read as silent before 0.
   */
  lemma KeptSampleIsLinear(x: seq<real>, h: seq<real>, n: nat, i: nat, j: nat)
    requires 1 <= |h| <= n
    requires j < n - |h| + 1
    ensures var m, l := |h|, n - |h| + 1;
      CircularConvolution(ExtractBlock(Zeros(m - 1) + x, i * l, n), PadTo(h, n))[m - 1 + j]
        == ConvSum(x, h, i * l + j, m)
  {
    var m, l := |h|, n - |h| + 1;
    var w := ExtractBlock(Zeros(m - 1) + x, i * l, n);
    CircularMatchesLinearPastWrap(w, h, m - 1 + j);
    forall q | (m - 1 + j) - m < q <= m - 1 + j
      ensures At(w, q) == At(x, q + (i * l - (m - 1)))
    {
      BlockSamples(x, m, l, n, i, q);
    }
    ConvSumShift(w, x, h, m - 1 + j, i * l - (m - 1), m);
  }

  /** The L samples kept from block i are the linear convolution at i*L .. i*L + L - 1. */
  lemma KeptBlockIsLinear(x: seq<real>, h: seq<real>, n: nat, i: nat, start: nat, kept: seq<real>)
    requires 1 <= |h| <= n
    requires start == i * (n - |h| + 1)
    requires kept == CircularConvolution(ExtractBlock(Zeros(|h| - 1) + x, start, n), PadTo(h, n))[|h| - 1..]
    ensures |kept| == n - |h| + 1
    ensures forall j :: 0 <= j < |kept| ==> kept[j] == ConvSum(x, h, start + j, |h|)
  {
    forall j | 0 <= j < |kept|
      ensures kept[j] == ConvSum(x, h, start + j, |h|)
    {
      KeptSampleIsLinear(x, h, n, i, j);
    }
  }

  /** Appending the samples of the next block keeps every accumulated sample linear. */
  lemma AppendKept(x: seq<real>, h: seq<real>, acc: seq<real>, kept: seq<real>)
    requires forall t :: 0 <= t < |acc| ==> acc[t] == ConvSum(x, h, t, |h|)
    requires forall j :: 0 <= j < |kept| ==> kept[j] == ConvSum(x, h, |acc| + j, |h|)
    ensures forall t :: 0 <= t < |acc + kept| ==> (acc + kept)[t] == ConvSum(x, h, t, |h|)
  {
    forall t | 0 <= t < |acc + kept|
      ensures (acc + kept)[t] == ConvSum(x, h, t, |h|)
    {
      if t >= |acc| {
        assert (acc + kept)[t] == kept[t - |acc|];
      }
    }
  }

  /**
   * overlap_save(x, h, N): the for loop over the blocks of x.  Its result
   * is the linear convolution of x with h, truncated to the length of x.
   */
  method OverlapSave(x: seq<real>, h: seq<real>, n: nat) returns (y: seq<real>)
    requires 1 <= |h| <= n
    ensures |y| == |x|
    ensures y == LinearConvolution(x, h)
  {
    var m := |h|;
    var l := n - m + 1;
    var hp := PadTo(h, n);  // H = fft(h, n=N)
    var xPadded := Zeros(m - 1) + x;
    var numBlocks := NumBlocks(|x|, m, l);
    var acc: seq<real> := [];
    for i := 0 to numBlocks
      invariant |acc| == i * l
      invariant forall t :: 0 <= t < |acc| ==> acc[t] == ConvSum(x, h, t, m)
    {
      var start := i * l;
      var xBlock := ExtractBlock(xPadded, start, n);
      var yBlock := CircularConvolution(xBlock, hp);
      var kept := yBlock[m - 1..];
      KeptBlockIsLinear(x, h, n, i, start, kept);
      AppendKept(x, h, acc, kept);
      acc := acc + kept;
      assert |acc| == start + l == (i + 1) * l;
    }
    assert numBlocks * l >= |x|;
    y := acc[..|x|];
    assert forall t :: 0 <= t < |x| ==> y[t] == LinearConvolution(x, h)[t];
  }
}
