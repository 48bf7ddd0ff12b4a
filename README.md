# Streaming HRIR renderer — verified model

This project models the core of a real-time binaural renderer. A mono source is played through a
pair of head-related impulse responses (HRIRs): one filter per ear, taken from a database of measured
directions. The listener steers the virtual source with the arrow keys. A direction change switches to
the filter pair of the nearest stored direction, crossfading from the old pair over a fixed number of
blocks. Filtering is done block by block with overlap-save.

Modules, one per concern of the code:

- `Convolution` (convolution.dfy) holds the reference definitions. `LinearConvolution` is the FIR
  convolution a filter is meant to compute, with the input silent before index 0.
  `CircularConvolution` is the length-N circular convolution that the FFT / multiply / inverse-FFT
  step of overlap-save computes, by the cyclic convolution theorem.
- `OverlapCode` (overlap_code.dfy) models `overlap_save` of OverlapCode.py as a method with the
  code's `for` loop over blocks. It is proved to return exactly the linear convolution of `x` with
  `h`, truncated to `len(x)`.
- `Lookup` (lookup.dfy) models the filter database and the nearest-direction lookup
  (`get_index_nearest`, `get_ir_pair`, `load_hrtf_for` of hrtfs_code_bind.py).
- `ChunkProcessing` (chunk_processing.dfy) models `process_chunk_with_ir`: one block with the carried
  input tail. It proves streaming continuity: threading the tail through successive blocks reproduces
  the linear convolution of the whole stream, wherever the block boundaries fall.
- `HrtfsCodeBind` (hrtfs_code_bind.dfy) models the rest of hrtfs_code_bind.py:
  - `clamp`;
  - the start-up sizing of N and L;
  - the crossfade weight;
  - the session state as class `Session`. The module globals of hrtfs_code_bind.py are its fields. Its methods
    are the initial set-up, the locked update at the start of `audio_callback`, the callback itself
    (`AudioCallback`, which checks the block size, with the work split into `RenderNextBlock`,
    `NextChunk`, `RenderChunk` and `FadeBlock` along the code's branches) and `on_press`.

The main results:

- `OverlapCode.OverlapSave` returns `LinearConvolution(x, h)`.
- `ChunkProcessing.StreamingContinuity` and `StreamFromSilence`: block-wise processing with the
  carried tail equals one-shot linear convolution.
- `HrtfsCodeBind.Session.AudioCallback` states each output block exactly. Each ear gets the linear
  convolution of the whole source stream with the filter in effect, at the block's positions. During
  a fade it gets the blend `(1 - alpha) * previous + alpha * current` of two such convolutions.
- The invariant `Session.Valid` is preserved. It includes that the input tail is always the last
  `M_ir - 1` consumed source samples.

Behaviour of the code that the model keeps and a reader might not expect:

- `alpha = 1 - fade_blocks_left / max(1, N_FADE_BLOCKS)` is exactly 0 on the first block of a fade,
  so that block equals the previous filter's output (`FirstFadeBlockIsPrevious`). On the last fade
  block alpha is `1 - 1/max(1, N_FADE_BLOCKS)`, so it never reaches 1 during the fade. The current filter
  alone is heard from the block after that.
- A fade lasts `max(1, N_FADE_BLOCKS)` blocks: a configured count of 0 or less still gives one
  fade block.
- Output does not fall silent as soon as the source ends. Blocks past the end convolve silence with
  the carried tail, so the filters' ring-out of the last `M_ir - 1` samples is still heard.
- The stop flag is raised only by a callback whose cursor is already at or past the end of the
  source. The block that holds the last samples does not raise it.
- `yL_state[-len(x_chunk):]` with an empty chunk returns the whole array, because `-0` is `0`.
  `ChunkProcessing.LastSlice` keeps this. The callback never passes an empty chunk, since `L >= 1`.

## Model

| member | source | states |
|---|---|---|
| Convolution.CircularConvolution | OverlapCode.py:68-74 | the stand-in for `ifft(fft(x_block) * H).real`: the length-N circular convolution, output t being `sum_k hp[k] * w[(t - k) mod N]`, with N outputs; `CircularMatchesLinearPastWrap` states what its outputs past the wrap are |
| Convolution.PadTo | OverlapCode.py:48 | the filter zero-padded to N keeps `h` as its prefix and is zero after it, as `fft(h, n=N)` pads |
| Convolution.CircularMatchesLinearPastWrap | OverlapCode.py:68-77 | for an M-tap filter padded to the window length, every circular-convolution output at position `t >= M-1` equals the linear FIR sum over the window; only the first M-1 outputs wrap |
| Convolution.ImpulseIsIdentity | OverlapCode.py:48-80 | convolving with the unit impulse `[1, 0, ..., 0]` returns the input unchanged, so with `OverlapSave` the output equals the input |
| OverlapCode.NumBlocks | OverlapCode.py:53 | `num_blocks * L >= len(x) + M - 1`: the blocks cover the zero-prefixed signal, and one block fewer would not |
| OverlapCode.ExtractBlock | OverlapCode.py:59-65 | every window handed to the transform has exactly N samples; sample p is `x_padded[start + p]`, or 0 past the end (the zero-padded last block) |
| OverlapCode.BlockSamples | OverlapCode.py:51-61 | block i starts at `i*L` in the zero-prefixed signal, so its sample p is `x[i*L + p - (M-1)]`, silent before index 0 |
| OverlapCode.ConsecutiveBlocksOverlap | OverlapCode.py:59-61 | the first M-1 samples of block i+1 are the last M-1 samples of block i |
| OverlapCode.KeptSampleIsLinear | OverlapCode.py:71-77 | output `M-1+j` of block i's circular convolution is the linear convolution of `x` with `h` at `i*L + j` |
| OverlapCode.KeptBlockIsLinear | OverlapCode.py:74-77 | `y_block[M-1:]` has exactly L samples, the linear convolution at `i*L .. i*L+L-1` |
| OverlapCode.OverlapSave | OverlapCode.py:28-80 | for `1 <= len(h) <= N` the result has length `len(x)` and equals the linear convolution `y[n] = sum_k h[k]*x[n-k]` with `x` silent before 0 |
| Lookup.SquaredDistance | hrtfs_code_bind.py:57 | `(az_i - az)^2 + (el_i - el)^2` is non-negative and zero exactly when the stored azimuth and elevation are the queried ones |
| Lookup.GetIndexNearest | hrtfs_code_bind.py:56-58 | `argmin` returns an index in `[0, Mpos)` whose distance is minimal over all positions, and strictly smaller than that of every earlier index (the first minimum wins) |
| Lookup.ExactMatchIsFound | hrtfs_code_bind.py:56-58 | a query equal to a stored direction returns an entry with that direction, no later than the first such entry |
| Lookup.NearestIgnoresRadius | hrtfs_code_bind.py:57 | the lookup does not depend on the radius column |
| Lookup.GetIrPair | hrtfs_code_bind.py:60-62 | both impulse responses of an entry have the database IR length |
| Lookup.LoadHrtfFor | hrtfs_code_bind.py:84-88 | returns the IR pair, index and position of one stored entry; its direction is nearest to the query and strictly nearer than every earlier entry |
| ChunkProcessing.LastSlice | hrtfs_code_bind.py:109-113 | `s[-k:]` is the last k samples, all of `s` when it is shorter, and all of `s` for `k = 0` |
| ChunkProcessing.ProcessChunkWithIr | hrtfs_code_bind.py:96-116 | per-ear outputs have `len(x_chunk)` samples; output k is the FIR sum of `tail_in ++ x_chunk` at `len(tail_in) + k`, the last `len(x_chunk)` samples of `overlap_save(x_state, ir, N)`; the new tail is the last `M_ir - 1` input samples, empty when `M_ir = 1`, whatever the filters |
| ChunkProcessing.TailOf | hrtfs_code_bind.py:72-115 | the value `tail_input` holds after a history of input: M-1 samples, the last M-1 of the history when it is that long, otherwise the history preceded by the silence of the initial `np.zeros(M_ir - 1)` |
| ChunkProcessing.InitialTail | hrtfs_code_bind.py:72 | before any input the tail is `np.zeros(M_ir - 1)` |
| ChunkProcessing.TailAdvance | hrtfs_code_bind.py:105-115 | carrying the tail over a chunk gives the tail of the extended input history |
| ChunkProcessing.Causal | OverlapCode.py:28-80 | appending input does not change earlier linear-convolution outputs |
| ChunkProcessing.ChunkStep | hrtfs_code_bind.py:105-116 | with the tail of the history so far, a block's outputs are the linear convolution of the whole history at the new positions, and the returned tail is that of the extended history |
| ChunkProcessing.StreamingContinuity | hrtfs_code_bind.py:105-116 | threading the returned tail through any sequence of non-empty blocks yields, concatenated, the linear convolution of the whole stream, and the final tail of the whole stream |
| ChunkProcessing.StreamFromSilence | hrtfs_code_bind.py:96-116 | from the initial all-zero tail, streaming equals one-shot linear convolution of the concatenated input |
| ChunkProcessing.ImpulseStreamIsIdentity | hrtfs_code_bind.py:96-116 | with unit-impulse filters on both ears, streaming from silence reproduces the input on both ears |
| HrtfsCodeBind.Clamp | hrtfs_code_bind.py:21-22 | `max(lo, min(hi, v))` lies in `[lo, hi]` when `lo <= hi`, is `v` when `v` is in range, `lo` below it and `hi` above it |
| HrtfsCodeBind.Pow2 | hrtfs_code_bind.py:51 | `1 << k` is 2^k, at least 1 and a power of two |
| HrtfsCodeBind.BitLength | hrtfs_code_bind.py:51 | `int.bit_length()` of a non-negative v: 0 exactly for 0, and for a positive v the b with `2^(b-1) <= v < 2^b` |
| HrtfsCodeBind.SmallestPowerOfTwo | hrtfs_code_bind.py:51 | `1 << v.bit_length()` is a power of two in `(v, 2(v+1))`, the smallest one above `v` |
| HrtfsCodeBind.ChooseBlockSize | hrtfs_code_bind.py:48-52 | N is kept when `N >= M_ir`; otherwise it becomes a power of two with `M_ir <= N < 2*M_ir`; either way `L = N - M_ir + 1 >= 1` |
| HrtfsCodeBind.FadeLength | hrtfs_code_bind.py:138 | `max(1, N_FADE_BLOCKS)`: `N_FADE_BLOCKS` when that is positive, and exactly 1 for a count of 0 or less |
| HrtfsCodeBind.Alpha | hrtfs_code_bind.py:162 | `1 - fade_blocks_left / max(1, N_FADE_BLOCKS)`: 0 when the counter is at its reset value, 1 when it is 0, and within [0, 1] in between |
| HrtfsCodeBind.Crossfade | hrtfs_code_bind.py:163-164 | `(1 - alpha) * prev + alpha * cur` sample by sample, as long as the block; weight 0 gives the previous output and weight 1 the current one |
| HrtfsCodeBind.AlphaSchedule | hrtfs_code_bind.py:162 | on the k-th block of a fade, alpha is `k / max(1, N_FADE_BLOCKS)`: 0 on the first block and below 1 throughout |
| HrtfsCodeBind.AlphaStep | hrtfs_code_bind.py:162-165 | each decrement of the fade counter raises alpha by exactly `1 / max(1, N_FADE_BLOCKS)` |
| HrtfsCodeBind.FirstFadeBlockIsPrevious | hrtfs_code_bind.py:162-164 | the first fade block's blend equals the previous filter's output |
| HrtfsCodeBind.SourceWindow | hrtfs_code_bind.py:143-152 | the chunk cut at a cursor: sample k is source sample `from + k`, or silence past the end; a plain slice when the window lies inside the source, all silence when the cursor is at or past the end |
| HrtfsCodeBind.SourceUpTo | hrtfs_code_bind.py:143-154 | the source consumed after `count` samples, the window from 0; the plain prefix `audio[:count]` while the source lasts |
| HrtfsCodeBind.SourceExtends | hrtfs_code_bind.py:143-154 | the chunk cut at the cursor extends the consumed source by L samples, silence past the end |
| HrtfsCodeBind.SourceBlock | hrtfs_code_bind.py:157-172 | a chunk cut from the source, processed with the tail of the source before it, yields per ear the filter's convolution with the whole stream at the block's positions, and the tail of the source after it |
| HrtfsCodeBind.SingleTapBlock | hrtfs_code_bind.py:96-116 | a one-tap filter `[g]` scales the source sample by g |
| HrtfsCodeBind.GainCrossfadeScenario | hrtfs_code_bind.py:159-164 | filters `[1]` and `[0.5]` crossfaded over 4 blocks give `(1 - k/4) * x + (k/4) * 0.5 * x` on fade block k |
| HrtfsCodeBind.Session.constructor | hrtfs_code_bind.py:48-94 | start-up state: N sized against the IR length, direction (45, 45) requested and pending, its nearest pair loaded, zero tail of `M_ir - 1` samples, no fade, cursor 0, stop flag clear; the session invariant holds |
| HrtfsCodeBind.StartConfigured | hrtfs_code_bind.py:16-18 | start-up with the program's constants `STEP_DEG = 10`, `N_FADE_BLOCKS = 20` and `N = 4096`: a valid session that keeps N = 4096 and L = 4097 - M_ir when the IR fits, whose fades last 20 blocks and whose last fade block weighs the current filter at 0.95 |
| HrtfsCodeBind.Session.ApplyPendingUpdate | hrtfs_code_bind.py:132-139 | a pending request moves the current pair to previous, loads the pair nearest to the desired direction, sets the fade counter to `max(1, N_FADE_BLOCKS)` and clears the flag; otherwise nothing changes |
| HrtfsCodeBind.Session.NextChunk | hrtfs_code_bind.py:143-152 | the chunk is the next L source samples, zero-padded past the end; the stop flag is raised exactly when the cursor is at or past the end |
| HrtfsCodeBind.Session.FadeBlock | hrtfs_code_bind.py:159-167 | the previous pair filters the chunk from the same tail; each ear is `(1-alpha)*previous + alpha*current`; the counter drops by one and the previous pair is dropped at 0 |
| HrtfsCodeBind.Session.RenderChunk | hrtfs_code_bind.py:156-172 | without a fade each ear is the current pair's convolution with the whole stream; during a fade it is the blend; the tail becomes that of the source after the chunk |
| HrtfsCodeBind.Session.RenderNextBlock | hrtfs_code_bind.py:131-172 | for a block of the expected size L: the pending update is applied, the cursor advances by L, the stop flag is set as the chunk cut demands, and each ear's block is the stream's convolution with the filter in effect, or the alpha blend during a fade; the session invariant is kept |
| HrtfsCodeBind.Session.AudioCallback | hrtfs_code_bind.py:118-176 | a block size other than L gives silence and changes nothing; otherwise the pending update is applied, the cursor advances by L, and each ear's block is exactly the stream's convolution with the filter in effect, or the alpha blend of previous and current during a fade; the session invariant is kept |
| HrtfsCodeBind.Session.OnPress | hrtfs_code_bind.py:179-207 | right/left move the azimuth by ±step unclamped; up/down move the elevation by ±step clamped to [-90, 90]; r/R reset both to 0; each of these sets the pending flag; q/Q only sets the stop flag and ends the listener; any other key changes nothing |

## Left out

- The FFT, the pointwise spectrum product and the inverse FFT with `.real` (OverlapCode.py:48, 68-74) are modelled by the exact circular convolution they compute. Samples are exact reals: float32 casts and floating-point rounding are not modelled.
- `int(np.ceil((len(x) + M - 1) / L))` is modelled as an exact integer ceiling. Float rounding of that division for huge lengths is not modelled.
- ChunkProcessing.ProcessChunkWithIr: a function cannot call a method, so it uses `LinearConvolution` for each `overlap_save` call. `OverlapCode.OverlapSave` is proved to return exactly that value.
- Reading the SOFA file, checking for two ears (`Rears != 2`), the sampling-rate lookup and `librosa.load` (hrtfs_code_bind.py:24-44) are load-time I/O. The database and the source are parameters of `Session`. `Lookup.Database.Valid` states what rendering relies on: one entry or more, one pair per position, and a common IR length of at least 1.
- Printing (including the callback's `status` report), the `sd.OutputStream` driver loop and `sd.sleep` polling are I/O outside the core.
- The stereo interleaving into `outdata` with `np.stack` (hrtfs_code_bind.py:175-176) is not modelled. The callback returns the left and right blocks as two sequences.
- The `threading.Lock` and the `pynput` listener thread are not modelled. Each locked region and each key press is one atomic method on the shared `Session` object, so interleavings within a region are out of scope.
- The `try/except Exception: pass` around `on_press` is not modelled, because nothing in the modelled key handling raises. A key without a character (`hasattr(key, 'char')` false, or a `None` char) is `OtherKey`.
- HRTFS_Code.py is not part of this model. It is a one-shot file I/O and playback script whose only logic is another nearest-direction search.
- The commented-out recording and plotting code of OverlapCode.py is not part of this model.
