/**
 * process_chunk_with_ir of hrtfs_code_bind.py: one render block of the
 * streaming convolution.  The block's input is prefixed with the tail of
 * input samples carried over from the previous block, run through
 * overlap_save once per ear, and only the outputs that belong to the new
 * samples are returned, together with the new input tail.
 */
module ChunkProcessing {
  import opened Convolution

  /** Left- and right-ear outputs of a block, and the input tail for the next one. */
  datatype ChunkResult = ChunkResult(left: seq<real>, right: seq<real>, tail: seq<real>)

  /**
   * Python's s[-k:]: the last k samples of s, all of s when it is shorter, and
   * (because -0 is 0) all of s when k is 0.
   */
  function LastSlice(s: seq<real>, k: nat): (r: seq<real>)
    ensures k == 0 ==> r == s
    ensures 0 < k <= |s| ==> |r| == k && r == s[|s| - k..]
    ensures |s| < k ==> r == s
  {
    if k == 0 || k >= |s| then s else s[|s| - k..]
  }

  /**
   * process_chunk_with_ir(x_chunk, irL, irR, tail_in) with the module's M_ir
   * and N passed as `mIr` and `n`.  Each ear's overlap_save(x_state, ir, N) is
   * the linear convolution of x_state with ir (OverlapCode.OverlapSave proves
   * that it returns exactly that), from which the last len(x_chunk) samples are
   * kept.  The new tail is the last M_ir - 1 input samples, whatever the filters.
   */
  function ProcessChunkWithIr(xChunk: seq<real>, irL: seq<real>, irR: seq<real>,
                              tailIn: seq<real>, mIr: nat, n: nat): (r: ChunkResult)
    requires 1 <= |irL| <= n && 1 <= |irR| <= n
    ensures 0 < |xChunk| ==> |r.left| == |xChunk| && |r.right| == |xChunk|
    ensures 0 < |xChunk| ==> forall k :: 0 <= k < |xChunk| ==>
      r.left[k] == ConvSum(tailIn + xChunk, irL, |tailIn| + k, |irL|)
      && r.right[k] == ConvSum(tailIn + xChunk, irR, |tailIn| + k, |irR|)
    ensures |xChunk| == 0 ==> r.left == LinearConvolution(tailIn, irL) && r.right == LinearConvolution(tailIn, irR)
    ensures mIr <= 1 ==> r.tail == []
    ensures 1 <= mIr && |tailIn| == mIr - 1 ==> r.tail == (tailIn + xChunk)[|xChunk|..]
  {
    var xState := tailIn + xChunk;
    var yLState := LinearConvolution(xState, irL);
    var yRState := LinearConvolution(xState, irR);
    var newTail := if mIr > 1 then LastSlice(xState, mIr - 1) else [];
    assert |xChunk| == 0 ==> xState == tailIn;
    ChunkResult(LastSlice(yLState, |xChunk|), LastSlice(yRState, |xChunk|), newTail)
  }

  /**
   * The tail the renderer keeps after `history` samples of input: the last
   * M-1 of them, with silence standing in before the first sample.
   */
  function TailOf(m: nat, history: seq<real>): (t: seq<real>)
    requires 1 <= m
    ensures |t| == m - 1
    ensures m - 1 <= |history| ==> t == history[|history| - (m - 1)..]
    ensures |history| < m - 1 ==> t == Zeros(m - 1 - |history|) + history
  {
    var t := (Zeros(m - 1) + history)[|history|..];
    TailCases(m, history, t);
    t
  }

  /** The tail is the last M-1 samples of a long history; a short one is padded with leading silence. */
  lemma TailCases(m: nat, history: seq<real>, t: seq<real>)
    requires 1 <= m
    requires t == (Zeros(m - 1) + history)[|history|..]
    ensures m - 1 <= |history| ==> t == history[|history| - (m - 1)..]
    ensures |history| < m - 1 ==> t == Zeros(m - 1 - |history|) + history
  {
    var padded := Zeros(m - 1) + history;
    if m - 1 <= |history| {
      forall q | 0 <= q < m - 1
        ensures t[q] == history[|history| - (m - 1)..][q]
      {
        assert t[q] == padded[|history| + q];
      }
    } else {
      var short := Zeros(m - 1 - |history|) + history;
      forall q | 0 <= q < m - 1
        ensures t[q] == short[q]
      {
        assert t[q] == padded[|history| + q];
      }
    }
  }

  /** Before any input the tail is M-1 samples of silence (np.zeros(M_ir - 1)). */
  lemma InitialTail(m: nat)
    requires 1 <= m
    ensures TailOf(m, []) == Zeros(m - 1)
  {
    assert Zeros(m - 1 - 0) + [] == Zeros(m - 1);
  }

  /** Sample j of `TailOf(m, history) + chunk` is the sample of `history + chunk` it stands for. */
  lemma TailAt(m: nat, history: seq<real>, chunk: seq<real>, j: nat)
    requires 1 <= m
    ensures At(TailOf(m, history) + chunk, j) == At(history + chunk, j + |history| - (m - 1))
  {
    var t := TailOf(m, history);
    if 0 <= j < m - 1 {
      assert (t + chunk)[j] == t[j] == (Zeros(m - 1) + history)[|history| + j];
      ZeroPrefixAt(history, m, |history| + j);
      if 0 <= j + |history| - (m - 1) {
        assert (history + chunk)[j + |history| - (m - 1)] == history[j + |history| - (m - 1)];
      }
    } else if m - 1 <= j < m - 1 + |chunk| {
      assert (t + chunk)[j] == chunk[j - (m - 1)];
      assert (history + chunk)[j + |history| - (m - 1)] == chunk[j - (m - 1)];
    }
  }

  /** Carrying a tail forward over a chunk gives the tail of the longer history. */
  lemma TailAdvance(m: nat, history: seq<real>, chunk: seq<real>)
    requires 1 <= m
    ensures (TailOf(m, history) + chunk)[|chunk|..] == TailOf(m, history + chunk)
  {
    var lhs, rhs := (TailOf(m, history) + chunk)[|chunk|..], TailOf(m, history + chunk);
    forall q | 0 <= q < m - 1
      ensures lhs[q] == rhs[q]
    {
      TailAt(m, history, chunk, |chunk| + q);
      ZeroPrefixAt(history + chunk, m, |history + chunk| + q);
      assert rhs[q] == (Zeros(m - 1) + (history + chunk))[|history + chunk| + q];
    }
  }

  /** The linear convolution is causal: appending input does not change earlier outputs. */
  lemma Causal(a: seq<real>, b: seq<real>, h: seq<real>)
    ensures LinearConvolution(a + b, h)[..|a|] == LinearConvolution(a, h)
  {
    forall t | 0 <= t < |a|
      ensures LinearConvolution(a + b, h)[t] == LinearConvolution(a, h)[t]
    {
      forall j | t - |h| < j <= t
        ensures At(a, j) == At(a + b, j + 0)
      {
        if 0 <= j {
          assert (a + b)[j] == a[j];
        }
      }
      ConvSumShift(a, a + b, h, t, 0, |h|);
    }
  }

  /** An output of the block with the carried tail is the linear convolution of the history at that position. */
  lemma OutputAt(history: seq<real>, tail: seq<real>, chunk: seq<real>, h: seq<real>, m: nat, k: nat)
    requires 1 <= m == |h| && tail == TailOf(m, history)
    requires k < |chunk|
    ensures ConvSum(tail + chunk, h, |tail| + k, |h|) == LinearConvolution(history + chunk, h)[|history| + k]
  {
    forall j | (m - 1 + k) - m < j <= m - 1 + k
      ensures At(tail + chunk, j) == At(history + chunk, j + (|history| - (m - 1)))
    {
      TailAt(m, history, chunk, j);
    }
    ConvSumShift(tail + chunk, history + chunk, h, m - 1 + k, |history| - (m - 1), m);
  }

  /** One ear of a block with the carried tail: the outputs kept are the linear convolution of the history. */
  lemma EarStep(history: seq<real>, tail: seq<real>, chunk: seq<real>, h: seq<real>, m: nat)
    requires 1 <= m == |h| && tail == TailOf(m, history)
    requires 0 < |chunk|
    ensures LastSlice(LinearConvolution(tail + chunk, h), |chunk|) == LinearConvolution(history + chunk, h)[|history|..]
  {
    var state := LinearConvolution(tail + chunk, h);
    var y := LastSlice(state, |chunk|);
    var whole := LinearConvolution(history + chunk, h);
    assert y == state[|tail|..];
    forall k | 0 <= k < |chunk|
      ensures y[k] == whole[|history| + k]
    {
      assert y[k] == state[|tail| + k];
      OutputAt(history, tail, chunk, h, m, k);
    }
  }

  /** The left ear of a block with a tail that reflects the input history. */
  lemma LeftStep(history: seq<real>, chunk: seq<real>, irL: seq<real>, irR: seq<real>, m: nat, n: nat)
    requires 1 <= m && |irL| == m && |irR| == m && m <= n
    requires 0 < |chunk|
    ensures ProcessChunkWithIr(chunk, irL, irR, TailOf(m, history), m, n).left
      == LinearConvolution(history + chunk, irL)[|history|..]
  {
    EarStep(history, TailOf(m, history), chunk, irL, m);
  }

  /** The right ear of a block with a tail that reflects the input history. */
  lemma RightStep(history: seq<real>, chunk: seq<real>, irL: seq<real>, irR: seq<real>, m: nat, n: nat)
    requires 1 <= m && |irL| == m && |irR| == m && m <= n
    requires 0 < |chunk|
    ensures ProcessChunkWithIr(chunk, irL, irR, TailOf(m, history), m, n).right
      == LinearConvolution(history + chunk, irR)[|history|..]
  {
    EarStep(history, TailOf(m, history), chunk, irR, m);
  }

  /**
   * One block with a tail that reflects the input history: its outputs are the
   * linear convolution of the whole history at the new positions, and its new
   * tail reflects the extended history.
   */
  lemma ChunkStep(history: seq<real>, chunk: seq<real>, irL: seq<real>, irR: seq<real>, m: nat, n: nat)
    requires 1 <= m && |irL| == m && |irR| == m && m <= n
    requires 0 < |chunk|
    ensures var r := ProcessChunkWithIr(chunk, irL, irR, TailOf(m, history), m, n);
      && r.left == LinearConvolution(history + chunk, irL)[|history|..]
      && r.right == LinearConvolution(history + chunk, irR)[|history|..]
      && r.tail == TailOf(m, history + chunk)
  {
    LeftStep(history, chunk, irL, irR, m, n);
    RightStep(history, chunk, irL, irR, m, n);
    TailAdvance(m, history, chunk);
  }

  /** Concatenation of a sequence of blocks. */
  function Flatten(chunks: seq<seq<real>>): seq<real>
  {
    if |chunks| == 0 then [] else chunks[0] + Flatten(chunks[1..])
  }

  /**
   * Calling ProcessChunkWithIr block after block with one filter pair,
   * threading the returned tail into the next call: the concatenated outputs
   * per ear, and the final tail.
   */
  function Stream(chunks: seq<seq<real>>, irL: seq<real>, irR: seq<real>, mIr: nat, n: nat,
                  tail: seq<real>): ChunkResult
    requires 1 <= |irL| <= n && 1 <= |irR| <= n
  {
    if |chunks| == 0 then ChunkResult([], [], tail)
    else
      var first := ProcessChunkWithIr(chunks[0], irL, irR, tail, mIr, n);
      var rest := Stream(chunks[1..], irL, irR, mIr, n, first.tail);
      ChunkResult(first.left + rest.left, first.right + rest.right, rest.tail)
  }

  /**
   * The outputs of a stream from `history` on are those of its first block
   * followed by those of the rest, by causality.
   */
  lemma JoinOutputs(history: seq<real>, c: seq<real>, more: seq<real>, h: seq<real>)
    ensures LinearConvolution(history + c + more, h)[|history|..]
      == LinearConvolution(history + c, h)[|history|..] + LinearConvolution(history + c + more, h)[|history + c|..]
  {
    var whole := LinearConvolution(history + c + more, h);
    Causal(history + c, more, h);
    assert whole[|history|..] == whole[..|history + c|][|history|..] + whole[|history + c|..];
  }

  /**
   * Streaming continuity: whatever the block boundaries (each block non-empty),
   * threading the tail reproduces the linear convolution of the whole input
   * stream after `history`, and leaves the tail of the whole stream.
   */
  lemma {:induction false} StreamingContinuity(chunks: seq<seq<real>>, irL: seq<real>, irR: seq<real>,
                                               m: nat, n: nat, history: seq<real>)
    requires 1 <= m && |irL| == m && |irR| == m && m <= n
    requires forall i :: 0 <= i < |chunks| ==> 0 < |chunks[i]|
    ensures var r := Stream(chunks, irL, irR, m, n, TailOf(m, history));
      var whole := history + Flatten(chunks);
      && r.left == LinearConvolution(whole, irL)[|history|..]
      && r.right == LinearConvolution(whole, irR)[|history|..]
      && r.tail == TailOf(m, whole)
    decreases |chunks|
  {
    if |chunks| == 0 {
      assert history + Flatten(chunks) == history;
    } else {
      var c, rest := chunks[0], chunks[1..];
      var first := ProcessChunkWithIr(c, irL, irR, TailOf(m, history), m, n);
      ChunkStep(history, c, irL, irR, m, n);
      var later := Stream(rest, irL, irR, m, n, first.tail);
      assert Stream(chunks, irL, irR, m, n, TailOf(m, history))
        == ChunkResult(first.left + later.left, first.right + later.right, later.tail);
      StreamingContinuity(rest, irL, irR, m, n, history + c);
      assert Flatten(chunks) == c + Flatten(rest);
      StreamJoin(history, c, Flatten(rest), irL, irR, m, first, later);
    }
  }

  /** The inductive step of streaming continuity: the first block's outputs followed by the rest's. */
  lemma StreamJoin(history: seq<real>, c: seq<real>, more: seq<real>, irL: seq<real>, irR: seq<real>, m: nat,
                   first: ChunkResult, later: ChunkResult)
    requires 1 <= m
    requires first.left == LinearConvolution(history + c, irL)[|history|..]
    requires first.right == LinearConvolution(history + c, irR)[|history|..]
    requires later.left == LinearConvolution((history + c) + more, irL)[|history + c|..]
    requires later.right == LinearConvolution((history + c) + more, irR)[|history + c|..]
    requires later.tail == TailOf(m, (history + c) + more)
    ensures first.left + later.left == LinearConvolution(history + (c + more), irL)[|history|..]
    ensures first.right + later.right == LinearConvolution(history + (c + more), irR)[|history|..]
    ensures later.tail == TailOf(m, history + (c + more))
  {
    assert history + (c + more) == (history + c) + more;
    JoinOutputs(history, c, more, irL);
    JoinOutputs(history, c, more, irR);
  }

  /** From silence (the initial all-zero tail), streaming equals one-shot linear convolution. */
  lemma StreamFromSilence(chunks: seq<seq<real>>, irL: seq<real>, irR: seq<real>, m: nat, n: nat)
    requires 1 <= m && |irL| == m && |irR| == m && m <= n
    requires forall i :: 0 <= i < |chunks| ==> 0 < |chunks[i]|
    ensures var r := Stream(chunks, irL, irR, m, n, Zeros(m - 1));
      && r.left == LinearConvolution(Flatten(chunks), irL)
      && r.right == LinearConvolution(Flatten(chunks), irR)
  {
    InitialTail(m);
    StreamingContinuity(chunks, irL, irR, m, n, []);
    assert [] + Flatten(chunks) == Flatten(chunks);
  }

  /** With unit-impulse filters, streaming from silence gives back the input stream on both ears. */
  lemma ImpulseStreamIsIdentity(chunks: seq<seq<real>>, imp: seq<real>, m: nat, n: nat)
    requires 1 <= m && |imp| == m && m <= n
    requires imp[0] == 1.0 && forall k :: 1 <= k < m ==> imp[k] == 0.0
    requires forall i :: 0 <= i < |chunks| ==> 0 < |chunks[i]|
    ensures var r := Stream(chunks, imp, imp, m, n, Zeros(m - 1));
      r.left == Flatten(chunks) && r.right == Flatten(chunks)
  {
    StreamFromSilence(chunks, imp, imp, m, n);
    ImpulseIsIdentity(Flatten(chunks), imp);
  }
}
