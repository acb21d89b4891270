/**
 * The sliding-window arithmetic of `CenteredScrollingPlayer.update_plot`
 * (wavefile.py), as functions on values. `Update` is the whole effect of one
 * call of `update_plot` on the plot state; the class in module Player is
 * proved against it.
 */
module Viewport {
  import opened Wrappers
  import opened Geometry

  /** `window_sec`: the visible window is ten seconds wide. */
  const WindowSec: real := 10.0

  /** `half_window`. */
  const HalfWindow: real := WindowSec / 2.0

  /** The vertical margin added above the local peak. */
  const Margin: real := 0.1

  /** A decoded audio buffer: mono samples and their rate in samples per second. */
  datatype Audio = Audio(samples: seq<real>, sr: real)

  /** Every buffer that reaches the plot has a positive sample rate. */
  predicate AudioValid(audio: Option<Audio>)
  {
    audio.Some? ==> audio.value.sr > 0.0
  }

  /** The line's data: `t` runs from `t0` to `t1` over the samples `ys`. */
  datatype Trace = Trace(t0: real, t1: real, ys: seq<real>)

  /** What `update_plot` redraws: the line, the axis limits, the playhead, the background rectangle and the slider. */
  datatype Plot = Plot(
    line: Trace,
    xlim: Interval,
    ylim: Interval,
    playhead: real,
    background: Option<Extent>,
    slider: int)

  /** Python's `int(x)` on a float: truncation toward zero. */
  function Trunc(x: real): (n: int)
    ensures x >= 0.0 ==> n >= 0 && n as real <= x < n as real + 1.0
    ensures x < 0.0 ==> n <= 0 && n as real - 1.0 < x <= n as real
  {
    if x >= 0.0 then x.Floor else -((-x).Floor)
  }

  /** `pos_ms / 1000.0`. */
  function Seconds(posMs: int): real
  {
    posMs as real / 1000.0
  }

  /** The window an update draws, in seconds and in sample indices. */
  datatype Window = Window(current: real, startSec: real, endSec: real, startIdx: int, endIdx: int)

  /**
   * The window for a playback position: it starts at 0 until the position
   * passes half the window, and is centred on the position after that.
   */
  function WindowAt(posMs: int, sr: real, n: nat): (w: Window)
    requires sr > 0.0
    ensures w.current == Seconds(posMs)
    ensures w.startSec >= 0.0
    ensures w.startSec == 0.0 <==> posMs <= 5000
    ensures posMs >= 5000 ==> w.startSec + HalfWindow == w.current
    ensures w.endSec - w.startSec == WindowSec
    ensures 0 <= w.startIdx && 0 <= w.endIdx <= n
    ensures w.startIdx as real <= w.startSec * sr < w.startIdx as real + 1.0
    ensures w.endIdx == n || w.endIdx as real <= w.endSec * sr < w.endIdx as real + 1.0
    ensures w.endIdx == n ==> n as real <= w.endSec * sr
  {
    var current := Seconds(posMs);
    var startSec := Max(0.0, current - HalfWindow);
    var endSec := startSec + WindowSec;
    var startIdx := IntMax(0, Trunc(startSec * sr));
    var endIdx := IntMin(n, Trunc(endSec * sr));
    Window(current, startSec, endSec, startIdx, endIdx)
  }

  /** Python's `s[a:b]` for non-negative bounds: both bounds clamp to the buffer. */
  function Slice<T>(s: seq<T>, a: nat, b: nat): (r: seq<T>)
    ensures |r| == IntMax(0, IntMin(b, |s|) - IntMin(a, |s|))
    ensures forall k :: 0 <= k < |r| ==> r[k] == s[a + k]
  {
    var lo := IntMin(a, |s|);
    var hi := IntMin(b, |s|);
    if lo < hi then s[lo..hi] else []
  }

  /** `self.samples[start_idx:end_idx]`. */
  function Visible(samples: seq<real>, w: Window): (v: seq<real>)
    requires 0 <= w.startIdx && 0 <= w.endIdx <= |samples|
    ensures |v| == IntMax(0, w.endIdx - w.startIdx)
    ensures |v| > 0 ==> w.startIdx + |v| <= |samples|
    ensures forall k :: 0 <= k < |v| ==> v[k] == samples[w.startIdx + k]
  {
    Slice(samples, w.startIdx, w.endIdx)
  }

  /** The time in seconds of the sample at index `i`. */
  function SampleTime(i: int, sr: real): real
    requires sr > 0.0
  {
    i as real / sr
  }

  /**
   * The line `update_plot` draws for a window: `visible` against times from
   * `start_idx / sr` to `(start_idx + len(visible)) / sr`. When at least one
   * sample is visible, that is `samples[start_idx:end_idx]` ending at `end_idx / sr`.
   */
  function DrawnLine(samples: seq<real>, sr: real, w: Window): (t: Trace)
    requires sr > 0.0 && 0 <= w.startIdx && 0 <= w.endIdx <= |samples|
    ensures |t.ys| == IntMax(0, w.endIdx - w.startIdx)
    ensures w.startIdx < w.endIdx ==> t.ys == samples[w.startIdx..w.endIdx]
    ensures t.t0 == SampleTime(w.startIdx, sr)
    ensures t.t1 == SampleTime(w.startIdx + |t.ys|, sr)
  {
    var visible := Visible(samples, w);
    Trace(SampleTime(w.startIdx, sr), SampleTime(w.startIdx + |visible|, sr), visible)
  }

  /** `np.max(np.abs(s))`, scanning from the left. */
  function MaxAbs(s: seq<real>): (m: real)
    requires |s| > 0
    ensures m >= 0.0
  {
    if |s| == 1 then Abs(s[0]) else Max(MaxAbs(s[..|s| - 1]), Abs(s[|s| - 1]))
  }

  /** `MaxAbs` is the largest magnitude in the slice, and some sample attains it. */
  lemma {:induction false} MaxAbsIsPeak(s: seq<real>)
    requires |s| > 0
    ensures MaxAbs(s) >= 0.0
    ensures forall k :: 0 <= k < |s| ==> Abs(s[k]) <= MaxAbs(s)
    ensures exists k :: 0 <= k < |s| && Abs(s[k]) == MaxAbs(s)
  {
    if |s| > 1 {
      var init := s[..|s| - 1];
      MaxAbsIsPeak(init);
      assert forall k :: 0 <= k < |init| ==> init[k] == s[k];
      var j :| 0 <= j < |init| && Abs(init[j]) == MaxAbs(init);
      if MaxAbs(init) >= Abs(s[|s| - 1]) {
        assert Abs(s[j]) == MaxAbs(s);
      } else {
        assert Abs(s[|s| - 1]) == MaxAbs(s);
      }
    } else {
      assert Abs(s[0]) == MaxAbs(s);
    }
  }

  /** `amp * (1 + margin)`: the y-limit a margin beyond the amplitude `amp`. */
  function Padded(amp: real): real
  {
    amp * (1.0 + Margin)
  }

  /** The y-limits after an update: `±peak·(1 + margin)`, or the previous ones for a silent slice. */
  function ScaledYLimits(peak: real, previous: Interval): Interval
  {
    if peak > 0.0 then Interval(-Padded(peak), Padded(peak)) else previous
  }

  /**
   * One call of `update_plot(pos_ms)`. Nothing changes without audio or when
   * fewer than two samples are visible; otherwise the line, the x-limits, the
   * playhead and the slider follow the position, the background (if an image
   * is set) is refitted to the NEW x-limits and the PREVIOUS y-limits, and the
   * y-limits are then rescaled to the visible peak.
   */
  function Update(audio: Option<Audio>, image: Option<ImageSize>, p: Plot, posMs: int): (q: Plot)
    requires AudioValid(audio)
    // either the update draws, and the slider then holds the position, or nothing changes
    ensures q == p || q.slider == posMs
    ensures q != p ==> |q.line.ys| >= 2
  {
    if audio.None? then p
    else
      var sr := audio.value.sr;
      var w := WindowAt(posMs, sr, |audio.value.samples|);
      var visible := Visible(audio.value.samples, w);
      if |visible| < 2 then p
      else Redrawn(p, image, audio.value.samples, sr, w, posMs)
  }

  /**
   * The plot once `update_plot` gets past its early returns: the line, the
   * x-limits and the playhead for the window, the background refitted to the
   * new x-limits and the previous y-limits, the y-limits rescaled to the
   * visible peak, and the slider at the position.
   */
  function Redrawn(p: Plot, image: Option<ImageSize>, samples: seq<real>, sr: real, w: Window, posMs: int): (q: Plot)
    requires sr > 0.0 && 0 <= w.startIdx && 0 <= w.endIdx <= |samples|
    requires |Visible(samples, w)| > 0
    ensures q.line.ys == Visible(samples, w)
    ensures q.playhead == w.current && q.slider == posMs
    // the y-limits are either kept or made symmetric about zero
    ensures q.ylim == p.ylim || q.ylim.lo == -q.ylim.hi
    // without an image the background is left alone
    ensures image.None? ==> q.background == p.background
  {
    var xlim := Interval(w.startSec, w.endSec);
    var background := if image.Some? then FitExtent(xlim, p.ylim, image.value) else p.background;
    Plot(
      DrawnLine(samples, sr, w),
      xlim,
      ScaledYLimits(MaxAbs(Visible(samples, w)), p.ylim),
      w.current,
      background,
      posMs)
  }

  /** The plot invariant: a ten-second window at or after 0, symmetric positive y-limits, and a background rectangle exactly when an image is set. */
  predicate PlotValid(p: Plot, image: Option<ImageSize>)
  {
    && p.xlim.lo >= 0.0
    && p.xlim.Span() == WindowSec
    && p.ylim.lo == -p.ylim.hi
    && p.ylim.hi > 0.0
    && (p.background.Some? <==> image.Some?)
  }

  /** Whether `update_plot(pos_ms)` gets past its two early returns. */
  predicate Draws(audio: Option<Audio>, posMs: int)
    requires AudioValid(audio)
  {
    && audio.Some?
    && |Visible(audio.value.samples, WindowAt(posMs, audio.value.sr, |audio.value.samples|))| >= 2
  }

  /** With no audio, or fewer than two visible samples, the plot is left exactly as it was. */
  lemma UpdateWithoutDrawingIsNoOp(audio: Option<Audio>, image: Option<ImageSize>, p: Plot, posMs: int)
    requires AudioValid(audio) && !Draws(audio, posMs)
    ensures Update(audio, image, p, posMs) == p
  {
  }

  /**
   * Once the window starts at or after the end of the buffer nothing is
   * visible, so an update past the end of the audio changes nothing.
   */
  lemma UpdatePastEndIsNoOp(audio: Option<Audio>, image: Option<ImageSize>, p: Plot, posMs: int)
    requires AudioValid(audio) && audio.Some?
    requires Seconds(posMs) - HalfWindow >= |audio.value.samples| as real / audio.value.sr
    ensures !Draws(audio, posMs)
    ensures Update(audio, image, p, posMs) == p
  {
    var n, sr := |audio.value.samples|, audio.value.sr;
    var w := WindowAt(posMs, sr, n);
    IndexReachesEnd(w.startSec, sr, n);
    assert |Visible(audio.value.samples, w)| == 0;
    UpdateWithoutDrawingIsNoOp(audio, image, p, posMs);
  }

  /** A time at or after `n / sr` seconds maps to a sample index at or after `n`. */
  lemma IndexReachesEnd(sec: real, sr: real, n: nat)
    requires sr > 0.0 && sec >= n as real / sr
    ensures Trunc(sec * sr) >= n
  {
  }

  /**
   * After a drawing update the x-limits are the ten-second window starting at
   * `max(0, pos - 5 s)`, the playhead is at the position and the slider holds
   * `pos_ms`; for a non-negative position the playhead is in view, and from
   * 5 s on it is exactly in the middle.
   */
  lemma UpdateFollowsPosition(audio: Option<Audio>, image: Option<ImageSize>, p: Plot, posMs: int)
    requires AudioValid(audio) && Draws(audio, posMs)
    ensures var q := Update(audio, image, p, posMs);
            && q.xlim.lo == Max(0.0, Seconds(posMs) - HalfWindow)
            && q.xlim.hi - q.xlim.lo == WindowSec
            && q.playhead == Seconds(posMs)
            && q.slider == posMs
            && (posMs >= 0 ==> q.xlim.lo <= q.playhead <= q.xlim.hi)
            && (posMs >= 5000 ==> q.playhead - q.xlim.lo == q.xlim.hi - q.playhead)
  {
  }

  /**
   * After a drawing update the line shows the visible samples: the
   * `end_idx - start_idx` consecutive samples of the buffer from the
   * window's first index (at least two of them), timed from
   * `start_idx / sr` to `(start_idx + len) / sr`, which is `end_idx / sr`.
   */
  lemma UpdateDrawsVisibleSlice(audio: Option<Audio>, image: Option<ImageSize>, p: Plot, posMs: int)
    requires AudioValid(audio) && Draws(audio, posMs)
    ensures var q := Update(audio, image, p, posMs);
            var sr := audio.value.sr;
            var w := WindowAt(posMs, sr, |audio.value.samples|);
            && 2 <= |q.line.ys|
            && |q.line.ys| == w.endIdx - w.startIdx
            && 0 <= w.startIdx && w.endIdx <= |audio.value.samples|
            && q.line.ys == audio.value.samples[w.startIdx..w.endIdx]
            && q.line.t0 == SampleTime(w.startIdx, sr)
            && q.line.t1 == SampleTime(w.endIdx, sr)
  {
    var samples, sr := audio.value.samples, audio.value.sr;
    var w := WindowAt(posMs, sr, |samples|);
    assert Update(audio, image, p, posMs).line == DrawnLine(samples, sr, w);
    DrawnLineIsSlice(samples, sr, w);
  }

  /** With at least two samples visible, the drawn line is the slice between the window's indices. */
  lemma DrawnLineIsSlice(samples: seq<real>, sr: real, w: Window)
    requires sr > 0.0 && 0 <= w.startIdx && 0 <= w.endIdx <= |samples|
    requires |Visible(samples, w)| >= 2
    ensures var t := DrawnLine(samples, sr, w);
            && 2 <= |t.ys| == w.endIdx - w.startIdx
            && t.ys == samples[w.startIdx..w.endIdx]
            && t.t0 == SampleTime(w.startIdx, sr)
            && t.t1 == SampleTime(w.endIdx, sr)
  {
  }

  /** The line and y-limits a drawing update sets: the visible slice and the limits scaled to its peak. */
  lemma UpdateYLimits(audio: Option<Audio>, image: Option<ImageSize>, p: Plot, posMs: int)
    requires AudioValid(audio) && Draws(audio, posMs)
    ensures var v := Visible(audio.value.samples, WindowAt(posMs, audio.value.sr, |audio.value.samples|));
            var q := Update(audio, image, p, posMs);
            q.line.ys == v && q.ylim == ScaledYLimits(MaxAbs(v), p.ylim)
  {
  }

  /**
   * For a slice with a non-zero sample the scaled limits are `±1.1 · MaxAbs`,
   * strictly contain every sample and sit at 1.1 times a largest magnitude.
   */
  lemma PeakScaledLimits(ys: seq<real>, previous: Interval)
    requires exists k :: 0 <= k < |ys| && ys[k] != 0.0
    ensures var lim := ScaledYLimits(MaxAbs(ys), previous);
            && lim == Interval(-Padded(MaxAbs(ys)), Padded(MaxAbs(ys)))
            && (forall k :: 0 <= k < |ys| ==> lim.lo < ys[k] < lim.hi)
            && (exists k :: && 0 <= k < |ys|
                            && (forall j :: 0 <= j < |ys| ==> Abs(ys[j]) <= Abs(ys[k]))
                            && Padded(Abs(ys[k])) == lim.hi)
  {
    MaxAbsIsPeak(ys);
    var peak := MaxAbs(ys);
    var k :| 0 <= k < |ys| && ys[k] != 0.0;
    assert Abs(ys[k]) > 0.0;
    var lim := ScaledYLimits(peak, previous);
    assert lim == Interval(-Padded(peak), Padded(peak));
    forall j | 0 <= j < |ys|
      ensures lim.lo < ys[j] < lim.hi
    {
      assert Abs(ys[j]) <= peak < Padded(peak);
    }
    var m :| 0 <= m < |ys| && Abs(ys[m]) == peak;
    assert forall j :: 0 <= j < |ys| ==> Abs(ys[j]) <= Abs(ys[m]);
  }

  /**
   * After a drawing update, if some visible sample is non-zero the y-limits
   * are `±1.1 · MaxAbs(visible)`: symmetric, strictly containing every
   * visible sample, and at 1.1 times the largest magnitude, which some
   * visible sample attains.
   */
  lemma UpdateScalesToPeak(audio: Option<Audio>, image: Option<ImageSize>, p: Plot, posMs: int)
    requires AudioValid(audio) && Draws(audio, posMs)
    requires var ys := Update(audio, image, p, posMs).line.ys;
             exists k :: 0 <= k < |ys| && ys[k] != 0.0
    ensures var q := Update(audio, image, p, posMs);
            var ys := q.line.ys;
            && q.ylim == Interval(-Padded(MaxAbs(ys)), Padded(MaxAbs(ys)))
            && (forall k :: 0 <= k < |ys| ==> q.ylim.lo < ys[k] < q.ylim.hi)
            && (exists k :: && 0 <= k < |ys|
                            && (forall j :: 0 <= j < |ys| ==> Abs(ys[j]) <= Abs(ys[k]))
                            && Padded(Abs(ys[k])) == q.ylim.hi)
  {
    var ys := Visible(audio.value.samples, WindowAt(posMs, audio.value.sr, |audio.value.samples|));
    UpdateYLimits(audio, image, p, posMs);
    PeakScaledLimits(ys, p.ylim);
  }

  /** After a drawing update whose visible samples are all zero, the y-limits keep their previous values. */
  lemma UpdateKeepsYLimitsWhenSilent(audio: Option<Audio>, image: Option<ImageSize>, p: Plot, posMs: int)
    requires AudioValid(audio) && Draws(audio, posMs)
    requires var ys := Update(audio, image, p, posMs).line.ys;
             forall k :: 0 <= k < |ys| ==> ys[k] == 0.0
    ensures Update(audio, image, p, posMs).ylim == p.ylim
  {
    var ys := Visible(audio.value.samples, WindowAt(posMs, audio.value.sr, |audio.value.samples|));
    UpdateYLimits(audio, image, p, posMs);
    MaxAbsIsPeak(ys);
    var m :| 0 <= m < |ys| && Abs(ys[m]) == MaxAbs(ys);
    assert MaxAbs(ys) == 0.0;
  }

  /** `update_plot` keeps the plot invariant. */
  lemma UpdatePreservesValid(audio: Option<Audio>, image: Option<ImageSize>, p: Plot, posMs: int)
    requires AudioValid(audio) && PlotValid(p, image)
    ensures PlotValid(Update(audio, image, p, posMs), image)
  {
  }

  /**
   * The background is fitted before the y-limits are rescaled: after a
   * drawing update with an image, its rectangle lies inside the new x-limits
   * and the PREVIOUS y-limits, centred in both.
   */
  lemma UpdateFitsBackgroundToPreviousYLimits(audio: Option<Audio>, image: Option<ImageSize>, p: Plot, posMs: int)
    requires AudioValid(audio) && PlotValid(p, image) && Draws(audio, posMs) && image.Some?
    ensures var q := Update(audio, image, p, posMs);
            && q.background.Some?
            && q.xlim.lo <= q.background.value.x.lo <= q.background.value.x.hi <= q.xlim.hi
            && p.ylim.lo <= q.background.value.y.lo <= q.background.value.y.hi <= p.ylim.hi
            && q.background.value.x.lo - q.xlim.lo == q.xlim.hi - q.background.value.x.hi
            && q.background.value.y.lo - p.ylim.lo == p.ylim.hi - q.background.value.y.hi
  {
    var q := Update(audio, image, p, posMs);
    FitInsideAxes(q.xlim, p.ylim, image.value);
  }

  /**
   * Repeating an update at the same position changes nothing but the
   * background rectangle (which catches up with the y-limits of the first
   * update), and a third repetition changes nothing at all.
   */
  lemma UpdateSettles(audio: Option<Audio>, image: Option<ImageSize>, p: Plot, posMs: int)
    requires AudioValid(audio)
    ensures var q1 := Update(audio, image, p, posMs);
            var q2 := Update(audio, image, q1, posMs);
            && q2 == q1.(background := q2.background)
            && Update(audio, image, q2, posMs) == q2
  {
  }

  /** A buffer of 480 000 samples at 48 kHz, at 2 s: the window is [0, 10) s and covers the whole buffer. */
  lemma WindowAtTwoSeconds()
    ensures WindowAt(2000, 48000.0, 480000) == Window(2.0, 0.0, 10.0, 0, 480000)
  {
  }

  /** The same buffer at 8 s: the window is [3, 13) s and its end index is clamped to the buffer. */
  lemma WindowAtEightSeconds()
    ensures WindowAt(8000, 48000.0, 480000) == Window(8.0, 3.0, 13.0, 144000, 480000)
  {
  }
}
