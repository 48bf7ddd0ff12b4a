/**
 * The real-time render session of hrtfs_code_bind.py: block sizing, the
 * crossfade between the previous and the current filter pair, the audio
 * callback that renders one block per call, and the key handler that steers
 * the desired direction.  The module's globals become the fields of one
 * `Session` object; each region hrtfs_code_bind.py runs under its lock is one method.
 */
module HrtfsCodeBind {
  import opened Convolution
  import opened Lookup
  import opened ChunkProcessing

  datatype Option<T> = None | Some(value: T)

  /** Degrees per arrow-key press (STEP_DEG). */
  const STEP_DEG: real := 10.0
  /** Blocks a filter change is crossfaded over (N_FADE_BLOCKS). */
  const N_FADE_BLOCKS: int := 20
  /** The configured transform size before it is checked against the IR length (N). */
  const N_CONFIGURED: int := 4096
  /** The direction requested at start-up. */
  const INITIAL_AZ: real := 45.0
  const INITIAL_EL: real := 45.0

  function Max(a: real, b: real): real { if b > a then b else a }
  function Min(a: real, b: real): real { if b < a then b else a }

  /** clamp(v, lo, hi) = max(lo, min(hi, v)). */
  function Clamp(v: real, lo: real, hi: real): (r: real)
    ensures lo <= r
    ensures lo <= hi ==> r <= hi
    ensures lo <= v <= hi ==> r == v
    ensures v < lo ==> r == lo
    ensures lo <= hi < v ==> r == hi
  {
    Max(lo, Min(hi, v))
  }

  /** 2^k, the value of 1 << k: a power of two. */
  function Pow2(k: nat): (p: nat)
    ensures 1 <= p && IsPowerOfTwo(p)
  {
    if k == 0 then 1
    else
      var half := Pow2(k - 1);
      assert (2 * half) / 2 == half;
      2 * half
  }

  function Abs(v: int): nat { if v < 0 then -v else v }

  /**
   * int.bit_length() of a non-negative integer (that of |v| for a negative v):
   * the number b of its binary digits, so 2^(b-1) <= v < 2^b for a positive v.
   */
  function BitLength(v: nat): (b: nat)
    ensures v == 0 <==> b == 0
    ensures 0 < v ==> Pow2(b - 1) <= v < Pow2(b)
  {
    if v == 0 then 0
    else
      var h := v / 2;
      var bh := BitLength(h);
      if h == 0 then 1
      else
        HalfBounds(v, h, Pow2(bh - 1), Pow2(bh));
        bh + 1
  }

  predicate IsPowerOfTwo(n: int)
    decreases if n < 0 then 0 else n
  {
    n == 1 || (2 <= n && n % 2 == 0 && IsPowerOfTwo(n / 2))
  }

  lemma HalfBounds(v: int, h: int, lo: int, hi: int)
    requires h == v / 2 && lo <= h < hi
    ensures 2 * lo <= v < 2 * hi
  {
  }

  lemma DoubleBound(v: nat, b: nat)
    requires 1 <= b && Pow2(b - 1) <= v < Pow2(b)
    ensures v + 1 <= Pow2(b) < 2 * (v + 1)
  {
    assert Pow2(b) == 2 * Pow2(b - 1);
  }

  /** 1 << v.bit_length() is the smallest power of two above v. */
  lemma SmallestPowerOfTwo(v: nat)
    ensures IsPowerOfTwo(Pow2(BitLength(v)))
    ensures v + 1 <= Pow2(BitLength(v)) < 2 * (v + 1)
  {
    if v > 0 {
      DoubleBound(v, BitLength(v));
    }
  }

  /**
   * The block sizing at start-up: a configured N smaller than the IR length
   * M_ir becomes 1 << (M_ir - 1).bit_length(), the smallest power of two that
   * is at least M_ir; otherwise N is kept.  Either way L = N - M_ir + 1 >= 1.
   */
  function ChooseBlockSize(configured: int, mIr: nat): (n: int)
    ensures mIr <= configured ==> n == configured
    ensures 1 <= mIr && configured < mIr ==> IsPowerOfTwo(n) && mIr <= n < 2 * mIr
    ensures mIr <= n && 1 <= n - mIr + 1
  {
    if configured < mIr then
      var v := Abs(mIr - 1);
      SmallestPowerOfTwo(v);
      Pow2(BitLength(v))
    else
      configured
  }

  /** max(1, int(N_FADE_BLOCKS)): the number of blocks a fade lasts. */
  function FadeLength(nFade: int): (f: int)
    ensures 1 <= f
    ensures 1 <= nFade ==> f == nFade
    ensures nFade < 1 ==> f == 1
  {
    if nFade < 1 then 1 else nFade
  }

  /** The weight of the current filter while `left` fade blocks remain: 1 - left / max(1, N_FADE_BLOCKS). */
  function Alpha(left: int, nFade: int): (a: real)
    ensures left == FadeLength(nFade) ==> a == 0.0
    ensures left == 0 ==> a == 1.0
    ensures 0 <= left <= FadeLength(nFade) ==> 0.0 <= a <= 1.0
  {
    var f := FadeLength(nFade) as real;
    DivSelf(f);
    DivWithin(left as real, f);
    1.0 - (left as real) / f
  }

  /** (1 - alpha) * prev + alpha * cur, sample by sample. */
  function Crossfade(prev: seq<real>, cur: seq<real>, alpha: real): (y: seq<real>)
    requires |prev| == |cur|
    ensures |y| == |cur|
    ensures alpha == 0.0 ==> y == prev
    ensures alpha == 1.0 ==> y == cur
  {
    var y := seq(|cur|, k requires 0 <= k < |cur| => (1.0 - alpha) * prev[k] + alpha * cur[k]);
    BlendEnds(prev, cur, alpha, y);
    y
  }

  /** A blend with weight 0 is the previous signal; with weight 1 the current one. */
  lemma BlendEnds(prev: seq<real>, cur: seq<real>, alpha: real, y: seq<real>)
    requires |prev| == |cur| == |y|
    requires forall k :: 0 <= k < |y| ==> y[k] == (1.0 - alpha) * prev[k] + alpha * cur[k]
    ensures alpha == 0.0 ==> y == prev
    ensures alpha == 1.0 ==> y == cur
  {
    if alpha == 0.0 {
      forall k | 0 <= k < |y|
        ensures y[k] == prev[k]
      {
        assert y[k] == 1.0 * prev[k] + 0.0 * cur[k];
      }
    }
    if alpha == 1.0 {
      forall k | 0 <= k < |y|
        ensures y[k] == cur[k]
      {
        assert y[k] == 0.0 * prev[k] + 1.0 * cur[k];
      }
    }
  }

  /**
   * The fade schedule: on the k-th block after a change (k = 0, 1, ...), with
   * FadeLength - k blocks left, the current filter weighs k / FadeLength, which
   * starts at 0 and stays below 1.
   */
  lemma AlphaSchedule(nFade: int, k: nat)
    requires k < FadeLength(nFade)
    ensures Alpha(FadeLength(nFade) - k, nFade) == (k as real) / (FadeLength(nFade) as real)
    ensures 0.0 <= Alpha(FadeLength(nFade) - k, nFade) < 1.0
  {
    var f := FadeLength(nFade) as real;
    DivSplit(f, k as real, f);
    DivSelf(f);
    DivBelowOne(k as real, f);
  }

  lemma DivSplit(a: real, b: real, f: real)
    requires f > 0.0
    ensures (a - b) / f == a / f - b / f
  {
  }

  lemma DivSelf(f: real)
    requires f > 0.0
    ensures f / f == 1.0
  {
  }

  lemma DivWithin(k: real, f: real)
    requires f > 0.0
    ensures 0.0 <= k <= f ==> 0.0 <= k / f <= 1.0
  {
  }

  lemma DivBelowOne(k: real, f: real)
    requires 0.0 <= k < f
    ensures 0.0 <= k / f < 1.0
  {
  }

  /** Each block of a fade raises alpha by exactly 1 / FadeLength. */
  lemma AlphaStep(nFade: int, left: int)
    ensures Alpha(left - 1, nFade) == Alpha(left, nFade) + 1.0 / (FadeLength(nFade) as real)
  {
    var f := FadeLength(nFade) as real;
    DivSplit(left as real, 1.0, f);
  }

  /** The first block of a fade sounds exactly like the previous filter. */
  lemma FirstFadeBlockIsPrevious(prev: seq<real>, cur: seq<real>, nFade: int)
    requires |prev| == |cur|
    ensures Crossfade(prev, cur, Alpha(FadeLength(nFade), nFade)) == prev
  {
  }

  /** The first `count` samples of the source, read as silent past its end. */
  function SourceUpTo(audio: seq<real>, count: nat): (s: seq<real>)
    ensures |s| == count
    ensures count <= |audio| ==> s == audio[..count]
  {
    SourceWindow(audio, 0, count)
  }

  /**
   * The `count` samples of the source from `from` on, read as silent past its
   * end: a plain slice when they all exist, the remaining samples zero-padded
   * when the source ends inside the window, silence when `from` is past the end.
   */
  function SourceWindow(audio: seq<real>, from: nat, count: nat): (w: seq<real>)
    ensures |w| == count
    ensures from + count <= |audio| ==> w == audio[from..from + count]
    ensures |audio| <= from ==> w == Zeros(count)
  {
    var w := seq(count, k requires 0 <= k < count => At(audio, from + k));
    WindowCases(audio, from, count, w);
    w
  }

  /** A window that lies inside the source is a slice of it; one past its end is silence. */
  lemma WindowCases(audio: seq<real>, from: nat, count: nat, w: seq<real>)
    requires |w| == count
    requires forall k :: 0 <= k < count ==> w[k] == At(audio, from + k)
    ensures from + count <= |audio| ==> w == audio[from..from + count]
    ensures |audio| <= from ==> w == Zeros(count)
  {
    if from + count <= |audio| {
      forall k | 0 <= k < count
        ensures w[k] == audio[from..from + count][k]
      {
      }
    }
  }

  /** Consuming a window extends the consumed source by that window. */
  lemma SourceExtends(audio: seq<real>, from: nat, count: nat)
    ensures SourceUpTo(audio, from) + SourceWindow(audio, from, count) == SourceUpTo(audio, from + count)
  {
    var lhs, rhs := SourceUpTo(audio, from) + SourceWindow(audio, from, count), SourceUpTo(audio, from + count);
    forall i | 0 <= i < from + count
      ensures lhs[i] == rhs[i]
    {
      if i >= from {
        assert lhs[i] == SourceWindow(audio, from, count)[i - from];
      }
    }
  }

  /**
   * What a filter h contributes to the block starting at `from`: the linear
   * convolution of the whole source stream with h, at positions from .. from+count-1.
   */
  function RenderedBlock(audio: seq<real>, h: seq<real>, from: nat, count: nat): (y: seq<real>)
    ensures |y| == count
  {
    LinearConvolution(SourceUpTo(audio, from + count), h)[from..]
  }

  /**
   * One callback block cut from the source at `from`, processed with the tail
   * of the source before it: each ear's output is the filter's contribution
   * to that block of the whole stream, and the tail moves past the block.
   */
  lemma SourceBlock(audio: seq<real>, from: nat, l: nat, chunk: seq<real>, tail: seq<real>,
                    irL: seq<real>, irR: seq<real>, m: nat, n: nat)
    requires 1 <= m && |irL| == m && |irR| == m && m <= n && 1 <= l
    requires chunk == SourceWindow(audio, from, l) && tail == TailOf(m, SourceUpTo(audio, from))
    ensures var r := ProcessChunkWithIr(chunk, irL, irR, tail, m, n);
      && r.left == RenderedBlock(audio, irL, from, l)
      && r.right == RenderedBlock(audio, irR, from, l)
      && r.tail == TailOf(m, SourceUpTo(audio, from + l))
  {
    SourceExtends(audio, from, l);
    ChunkStep(SourceUpTo(audio, from), chunk, irL, irR, m, n);
  }

  /** A single-tap filter [g] only scales the source. */
  lemma SingleTapBlock(audio: seq<real>, g: real, from: nat, l: nat, i: nat)
    requires i < l
    ensures RenderedBlock(audio, [g], from, l)[i] == g * At(audio, from + i)
  {
    var src := SourceUpTo(audio, from + l);
    assert RenderedBlock(audio, [g], from, l)[i] == ConvSum(src, [g], from + i, 1);
    assert ConvSum(src, [g], from + i, 1) == 0.0 + [g][0] * At(src, from + i - 0);
    assert At(src, from + i) == At(audio, from + i);
  }

  /**
   * Two single-tap filters with gains 1 and 0.5 crossfaded over four blocks:
   * block k of the fade is (1 - k/4) * x + (k/4) * 0.5 * x for the source x.
   */
  lemma GainCrossfadeScenario(audio: seq<real>, from: nat, l: nat, k: nat)
    requires k < 4
    ensures Crossfade(RenderedBlock(audio, [1.0], from, l), RenderedBlock(audio, [0.5], from, l), Alpha(4 - k, 4))
      == seq(l, i requires 0 <= i < l =>
               (1.0 - (k as real) / 4.0) * At(audio, from + i) + ((k as real) / 4.0) * (0.5 * At(audio, from + i)))
  {
    AlphaSchedule(4, k);
    var alpha := Alpha(4 - k, 4);
    assert alpha == (k as real) / 4.0;
    var whole, half := RenderedBlock(audio, [1.0], from, l), RenderedBlock(audio, [0.5], from, l);
    var y := Crossfade(whole, half, alpha);
    var expected := seq(l, i requires 0 <= i < l =>
      (1.0 - (k as real) / 4.0) * At(audio, from + i) + ((k as real) / 4.0) * (0.5 * At(audio, from + i)));
    forall i | 0 <= i < l
      ensures y[i] == expected[i]
    {
      SingleTapBlock(audio, 1.0, from, l, i);
      SingleTapBlock(audio, 0.5, from, l, i);
      assert y[i] == (1.0 - alpha) * whole[i] + alpha * half[i];
    }
    assert y == expected;
  }

  /** A key event as the listener reports it. */
  datatype Key = RightArrow | LeftArrow | UpArrow | DownArrow | Char(c: char) | OtherKey

  /**
   * The render session: the shared direction state written by the key handler
   * (desiredAz, desiredEl, pendingFilterUpdate, stopFlag) and the render state
   * owned by the audio callback.
   */
  class Session {
    const db: Database
    const audio: seq<real>   // audio_mono
    const stepDeg: real      // STEP_DEG
    const nFade: int         // N_FADE_BLOCKS
    const mIr: nat           // M_ir
    const n: int             // N after sizing
    const l: int             // L = N - M_ir + 1

    var desiredAz: real
    var desiredEl: real
    var pendingFilterUpdate: bool
    var stopFlag: bool
    var tailInput: seq<real>
    var fadeBlocksLeft: int
    var hrtfPrev: Option<IrPair>
    var hrtfCur: IrPair
    var curIdx: nat
    var curPos: Position
    var playCursor: nat

    /** The current pair is a stored entry, with its index and position. */
    ghost predicate CurrentValid()
      reads this`curIdx, this`hrtfCur, this`curPos
    {
      && db.Valid() && mIr == db.nir && mIr <= n && l == n - mIr + 1
      && curIdx < |db.irAll| && hrtfCur == db.irAll[curIdx] && curPos == db.sourcePos[curIdx]
    }

    /** A previous pair of the IR length is held exactly while a fade runs. */
    ghost predicate FadeValid()
      reads this`hrtfPrev, this`fadeBlocksLeft
    {
      && (hrtfPrev.Some? ==> |hrtfPrev.value.left| == mIr && |hrtfPrev.value.right| == mIr)
      && 0 <= fadeBlocksLeft <= FadeLength(nFade)
      && (0 < fadeBlocksLeft <==> hrtfPrev.Some?)
    }

    /**
     * The session invariant: the filter state is sound, the elevation is in
     * range, and the input tail is the last M_ir - 1 samples the callback has
     * consumed from the source.
     */
    ghost predicate Valid()
      reads this
    {
      && CurrentValid() && FadeValid()
      && -90.0 <= desiredEl <= 90.0
      && tailInput == TailOf(mIr, SourceUpTo(audio, playCursor))
    }

    /**
     * Start-up: size N against the IR length, request the initial direction,
     * load its filters, and start with a silent tail and no fade.
     */
    constructor (db: Database, audio: seq<real>, nConfigured: int, nFade: int, stepDeg: real)
      requires db.Valid()
      ensures Valid()
      ensures this.db == db && this.audio == audio && this.nFade == nFade && this.stepDeg == stepDeg
      ensures mIr == db.nir && n == ChooseBlockSize(nConfigured, db.nir) && l == n - mIr + 1
      ensures desiredAz == INITIAL_AZ && desiredEl == INITIAL_EL && pendingFilterUpdate && !stopFlag
      ensures tailInput == Zeros(mIr - 1) && fadeBlocksLeft == 0 && hrtfPrev == None && playCursor == 0
      ensures curIdx == GetIndexNearest(db.sourcePos, INITIAL_AZ, INITIAL_EL) && hrtfCur == db.irAll[curIdx]
    {
      this.db := db;
      this.audio := audio;
      this.stepDeg := stepDeg;
      this.nFade := nFade;
      mIr := db.nir;
      n := ChooseBlockSize(nConfigured, db.nir);
      l := ChooseBlockSize(nConfigured, db.nir) - db.nir + 1;
      desiredAz := INITIAL_AZ;
      desiredEl := INITIAL_EL;
      pendingFilterUpdate := true;
      stopFlag := false;
      tailInput := Zeros(db.nir - 1);
      fadeBlocksLeft := 0;
      hrtfPrev := None;
      var loaded := LoadHrtfFor(db, INITIAL_AZ, INITIAL_EL);
      hrtfCur := loaded.pair;
      curIdx := loaded.idx;
      curPos := loaded.usedPos;
      playCursor := 0;
      new;
      assert SourceUpTo(audio, 0) == [];
      InitialTail(mIr);
    }

    /**
     * The locked block at the start of the callback: a pending direction
     * request moves the current pair to `previous`, loads the pair nearest to
     * the desired direction, restarts the fade and clears the request.
     */
    method ApplyPendingUpdate()
      requires Valid()
      modifies this`hrtfPrev, this`hrtfCur, this`curIdx, this`curPos, this`fadeBlocksLeft, this`pendingFilterUpdate
      ensures Valid()
      ensures !pendingFilterUpdate
      ensures old(pendingFilterUpdate) ==>
        && hrtfPrev == Some(old(hrtfCur))
        && curIdx == GetIndexNearest(db.sourcePos, desiredAz, desiredEl)
        && hrtfCur == db.irAll[curIdx] && curPos == db.sourcePos[curIdx]
        && fadeBlocksLeft == FadeLength(nFade)
      ensures !old(pendingFilterUpdate) ==>
        && hrtfPrev == old(hrtfPrev) && hrtfCur == old(hrtfCur) && curIdx == old(curIdx)
        && curPos == old(curPos) && fadeBlocksLeft == old(fadeBlocksLeft)
    {
      if pendingFilterUpdate {
        var loaded := LoadHrtfFor(db, desiredAz, desiredEl);
        hrtfPrev := Some(hrtfCur);
        hrtfCur := loaded.pair;
        curIdx, curPos := loaded.idx, loaded.usedPos;
        fadeBlocksLeft := FadeLength(nFade);
        pendingFilterUpdate := false;
      }
    }

    /**
     * audio_callback(outdata, frames, ...): renders one stereo block.  A block
     * size other than L yields silence and changes nothing.  Otherwise a pending
     * request is applied, the next L source samples (silence past the end) are
     * convolved with the current pair and, during a fade, also with the previous
     * pair from the same tail and blended; the cursor advances by L.  Each ear's
     * output is the linear convolution of the whole source stream with the
     * filter(s) in effect, at the block's positions.
     */
    method AudioCallback(frames: nat) returns (outL: seq<real>, outR: seq<real>)
      requires Valid()
      modifies this`playCursor, this`tailInput, this`fadeBlocksLeft, this`hrtfPrev, this`hrtfCur
      modifies this`curIdx, this`curPos, this`pendingFilterUpdate, this`stopFlag
      ensures Valid()
      ensures frames != l ==> outL == Zeros(frames) && outR == Zeros(frames) && unchanged(this)
      ensures frames == l ==> playCursor == old(playCursor) + l && !pendingFilterUpdate
      ensures frames == l ==> (stopFlag <==> old(stopFlag) || |audio| <= old(playCursor))
      ensures frames == l && old(pendingFilterUpdate) ==>
        curIdx == GetIndexNearest(db.sourcePos, desiredAz, desiredEl)
      ensures frames == l && !old(pendingFilterUpdate) ==> curIdx == old(curIdx)
      ensures frames == l ==>
        var fade := if old(pendingFilterUpdate) then FadeLength(nFade) else old(fadeBlocksLeft);
        var prev := if old(pendingFilterUpdate) then Some(old(hrtfCur)) else old(hrtfPrev);
        var from := old(playCursor);
        && (fade == 0 ==>
              && fadeBlocksLeft == 0 && hrtfPrev == None
              && outL == RenderedBlock(audio, hrtfCur.left, from, l)
              && outR == RenderedBlock(audio, hrtfCur.right, from, l))
        && (0 < fade ==>
              && prev.Some?
              && fadeBlocksLeft == fade - 1
              && hrtfPrev == (if fade == 1 then None else prev)
              && outL == Crossfade(RenderedBlock(audio, prev.value.left, from, l),
                                   RenderedBlock(audio, hrtfCur.left, from, l), Alpha(fade, nFade))
              && outR == Crossfade(RenderedBlock(audio, prev.value.right, from, l),
                                   RenderedBlock(audio, hrtfCur.right, from, l), Alpha(fade, nFade)))
    {
      if frames != l {
        outL, outR := Zeros(frames), Zeros(frames);
        return;
      }
      outL, outR := RenderNextBlock();
    }

    /**
     * The callback for a block of the expected size L: a pending request is
     * applied, the next L source samples are cut and rendered, and the cursor
     * advances by L.
     */
    method RenderNextBlock() returns (outL: seq<real>, outR: seq<real>)
      requires Valid()
      modifies this`playCursor, this`tailInput, this`fadeBlocksLeft, this`hrtfPrev, this`hrtfCur
      modifies this`curIdx, this`curPos, this`pendingFilterUpdate, this`stopFlag
      ensures Valid()
      ensures playCursor == old(playCursor) + l && !pendingFilterUpdate
      ensures stopFlag <==> old(stopFlag) || |audio| <= old(playCursor)
      ensures old(pendingFilterUpdate) ==> curIdx == GetIndexNearest(db.sourcePos, desiredAz, desiredEl)
      ensures !old(pendingFilterUpdate) ==> curIdx == old(curIdx)
      ensures
        var fade := if old(pendingFilterUpdate) then FadeLength(nFade) else old(fadeBlocksLeft);
        var prev := if old(pendingFilterUpdate) then Some(old(hrtfCur)) else old(hrtfPrev);
        var from := old(playCursor);
        && (fade == 0 ==>
              && fadeBlocksLeft == 0 && hrtfPrev == None
              && outL == RenderedBlock(audio, hrtfCur.left, from, l)
              && outR == RenderedBlock(audio, hrtfCur.right, from, l))
        && (0 < fade ==>
              && prev.Some?
              && fadeBlocksLeft == fade - 1
              && hrtfPrev == (if fade == 1 then None else prev)
              && outL == Crossfade(RenderedBlock(audio, prev.value.left, from, l),
                                   RenderedBlock(audio, hrtfCur.left, from, l), Alpha(fade, nFade))
              && outR == Crossfade(RenderedBlock(audio, prev.value.right, from, l),
                                   RenderedBlock(audio, hrtfCur.right, from, l), Alpha(fade, nFade)))
    {
      ApplyPendingUpdate();
      ghost var fade, prev := fadeBlocksLeft, hrtfPrev;
      assert fade == if old(pendingFilterUpdate) then FadeLength(nFade) else old(fadeBlocksLeft);
      assert prev == if old(pendingFilterUpdate) then Some(old(hrtfCur)) else old(hrtfPrev);
      var from := playCursor;
      var chunk := NextChunk();
      playCursor := playCursor + l;
      outL, outR := RenderChunk(chunk, from);
    }

    /**
     * The chunk cut at the play cursor: the next L source samples, zero-padded
     * when the source ends inside them; with the cursor at or past the end the
     * chunk is silence and the stop flag is raised.
     */
    method NextChunk() returns (chunk: seq<real>)
      requires 1 <= l
      modifies this`stopFlag
      ensures chunk == SourceWindow(audio, playCursor, l)
      ensures stopFlag <==> old(stopFlag) || |audio| <= playCursor
    {
      if playCursor + l > |audio| {
        var rem := |audio| - playCursor;
        if rem > 0 {
          chunk := audio[playCursor..] + Zeros(l - rem);
        } else {
          chunk := Zeros(l);
          stopFlag := true;
        }
      } else {
        chunk := audio[playCursor..playCursor + l];
      }
      assert forall k :: 0 <= k < l ==> chunk[k] == At(audio, playCursor + k);
    }

    /**
     * The rendering part of the callback, for the chunk of L source samples at
     * `from`: the current pair always filters it; during a fade the previous
     * pair is blended in (FadeBlock).  The tail then moves past the chunk.
     */
    method RenderChunk(chunk: seq<real>, ghost from: nat) returns (outL: seq<real>, outR: seq<real>)
      requires CurrentValid() && FadeValid() && chunk == SourceWindow(audio, from, l)
      requires tailInput == TailOf(mIr, SourceUpTo(audio, from))
      modifies this`tailInput, this`fadeBlocksLeft, this`hrtfPrev
      ensures FadeValid() && tailInput == TailOf(mIr, SourceUpTo(audio, from + l))
      ensures old(fadeBlocksLeft) == 0 ==>
        && fadeBlocksLeft == 0 && hrtfPrev == None
        && outL == RenderedBlock(audio, hrtfCur.left, from, l)
        && outR == RenderedBlock(audio, hrtfCur.right, from, l)
      ensures 0 < old(fadeBlocksLeft) ==>
        && old(hrtfPrev).Some?
        && fadeBlocksLeft == old(fadeBlocksLeft) - 1
        && hrtfPrev == (if old(fadeBlocksLeft) == 1 then None else old(hrtfPrev))
        && outL == Crossfade(RenderedBlock(audio, old(hrtfPrev).value.left, from, l),
                             RenderedBlock(audio, hrtfCur.left, from, l), Alpha(old(fadeBlocksLeft), nFade))
        && outR == Crossfade(RenderedBlock(audio, old(hrtfPrev).value.right, from, l),
                             RenderedBlock(audio, hrtfCur.right, from, l), Alpha(old(fadeBlocksLeft), nFade))
    {
      var cur := ProcessChunkWithIr(chunk, hrtfCur.left, hrtfCur.right, tailInput, mIr, n);
      SourceBlock(audio, from, l, chunk, tailInput, hrtfCur.left, hrtfCur.right, mIr, n);
      if fadeBlocksLeft > 0 && hrtfPrev.Some? {
        outL, outR := FadeBlock(chunk, from, cur.left, cur.right);
      } else {
        outL, outR := cur.left, cur.right;
      }
      tailInput := cur.tail;
    }

    /**
     * The fade branch of the callback: the chunk is filtered with the previous
     * pair from the same tail, each ear is blended as (1 - alpha) * previous +
     * alpha * current, and the fade counts down, dropping the previous pair
     * when it reaches zero.
     */
    method FadeBlock(chunk: seq<real>, ghost from: nat, curL: seq<real>, curR: seq<real>)
      returns (outL: seq<real>, outR: seq<real>)
      requires CurrentValid() && FadeValid() && 0 < fadeBlocksLeft
      requires chunk == SourceWindow(audio, from, l) && tailInput == TailOf(mIr, SourceUpTo(audio, from))
      requires |curL| == l && |curR| == l
      modifies this`fadeBlocksLeft, this`hrtfPrev
      ensures FadeValid()
      ensures old(hrtfPrev).Some?
      ensures fadeBlocksLeft == old(fadeBlocksLeft) - 1
      ensures hrtfPrev == (if old(fadeBlocksLeft) == 1 then None else old(hrtfPrev))
      ensures outL == Crossfade(RenderedBlock(audio, old(hrtfPrev).value.left, from, l), curL, Alpha(old(fadeBlocksLeft), nFade))
      ensures outR == Crossfade(RenderedBlock(audio, old(hrtfPrev).value.right, from, l), curR, Alpha(old(fadeBlocksLeft), nFade))
    {
      var prevPair := hrtfPrev.value;
      var prev := ProcessChunkWithIr(chunk, prevPair.left, prevPair.right, tailInput, mIr, n);
      SourceBlock(audio, from, l, chunk, tailInput, prevPair.left, prevPair.right, mIr, n);
      var alpha := Alpha(fadeBlocksLeft, nFade);
      outL := Crossfade(prev.left, curL, alpha);
      outR := Crossfade(prev.right, curR, alpha);
      fadeBlocksLeft := fadeBlocksLeft - 1;
      if fadeBlocksLeft == 0 {
        hrtfPrev := None;
      }
    }

    /**
     * on_press(key): the arrows move the desired direction by one step (azimuth
     * unclamped, elevation clamped to [-90, 90]), 'r'/'R' resets it to (0, 0),
     * and each of these raises the pending flag; 'q'/'Q' only sets the stop
     * flag and ends the listener.  Any other key changes nothing.
     */
    method OnPress(key: Key) returns (stopListener: bool)
      requires Valid()
      modifies this`desiredAz, this`desiredEl, this`pendingFilterUpdate, this`stopFlag
      ensures Valid()
      ensures stopListener <==> key == Char('q') || key == Char('Q')
      ensures key == RightArrow ==>
        desiredAz == old(desiredAz) + stepDeg && desiredEl == old(desiredEl)
        && pendingFilterUpdate && stopFlag == old(stopFlag)
      ensures key == LeftArrow ==>
        desiredAz == old(desiredAz) - stepDeg && desiredEl == old(desiredEl)
        && pendingFilterUpdate && stopFlag == old(stopFlag)
      ensures key == UpArrow ==>
        desiredAz == old(desiredAz) && desiredEl == Clamp(old(desiredEl) + stepDeg, -90.0, 90.0)
        && pendingFilterUpdate && stopFlag == old(stopFlag)
      ensures key == DownArrow ==>
        desiredAz == old(desiredAz) && desiredEl == Clamp(old(desiredEl) - stepDeg, -90.0, 90.0)
        && pendingFilterUpdate && stopFlag == old(stopFlag)
      ensures key == Char('r') || key == Char('R') ==>
        desiredAz == 0.0 && desiredEl == 0.0 && pendingFilterUpdate && stopFlag == old(stopFlag)
      ensures key == Char('q') || key == Char('Q') ==>
        desiredAz == old(desiredAz) && desiredEl == old(desiredEl)
        && pendingFilterUpdate == old(pendingFilterUpdate) && stopFlag
      ensures !(key.RightArrow? || key.LeftArrow? || key.UpArrow? || key.DownArrow? || key.Char?) ==>
        unchanged(this)
      ensures key.Char? && key.c !in {'r', 'R', 'q', 'Q'} ==> unchanged(this)
    {
      stopListener := false;
      match key {
        case RightArrow =>
          desiredAz := desiredAz + stepDeg;
          pendingFilterUpdate := true;
        case LeftArrow =>
          desiredAz := desiredAz - stepDeg;
          pendingFilterUpdate := true;
        case UpArrow =>
          desiredEl := Clamp(desiredEl + stepDeg, -90.0, 90.0);
          pendingFilterUpdate := true;
        case DownArrow =>
          desiredEl := Clamp(desiredEl - stepDeg, -90.0, 90.0);
          pendingFilterUpdate := true;
        case Char(c) =>
          if c == 'r' || c == 'R' {
            desiredAz, desiredEl := 0.0, 0.0;
            pendingFilterUpdate := true;
          } else if c == 'q' || c == 'Q' {
            stopFlag := true;
            stopListener := true;
          }
        case OtherKey =>
      }
    }
  }

  /**
   * Start-up with the configuration of hrtfs_code_bind.py: 10 degrees per key
   * press, fades over 20 blocks, and N = 4096 kept whenever the IR fits in it.
   * The last block of a fade then weighs the current filter at 0.95.
   */
  method StartConfigured(db: Database, audio: seq<real>) returns (s: Session)
    requires db.Valid()
    ensures fresh(s) && s.Valid()
    ensures s.db == db && s.audio == audio && s.stepDeg == STEP_DEG && s.nFade == N_FADE_BLOCKS
    ensures s.n == ChooseBlockSize(N_CONFIGURED, db.nir)
    ensures db.nir <= 4096 ==> s.n == 4096 && s.l == 4097 - db.nir
    ensures FadeLength(s.nFade) == 20 && Alpha(1, s.nFade) == 0.95
  {
    s := new Session(db, audio, N_CONFIGURED, N_FADE_BLOCKS, STEP_DEG);
  }
}
