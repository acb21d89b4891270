/**
 * The state of `CenteredScrollingPlayer` (wavefile.py) that the plot
 * depends on, as a class whose methods update it in place: the loaded audio,
 * the background image, the matplotlib artists (line, axis limits,
 * playhead, background extent), the slider value and the theme colours.
 */
module Player {
  import opened Wrappers
  import opened Geometry
  import opened Viewport
  import opened Theme

  /** `process_audio`: the first decoder's result, else the fallback's, else nothing. */
  function ProcessAudio(primary: Option<Audio>, fallback: Option<Audio>): (r: Option<Audio>)
    ensures r.None? <==> primary.None? && fallback.None?
    ensures primary.Some? ==> r == primary
    ensures r == primary || r == fallback
  {
    if primary.Some? then primary else fallback
  }

  /** The plot as the constructor leaves it: no data, x from 0 to `window_sec`, y from -1.1 to 1.1. */
  function InitialPlot(): (p: Plot)
    ensures PlotValid(p, None)
  {
    Plot(Trace(0.0, 0.0, []), Interval(0.0, WindowSec), Interval(-1.1, 1.1), 0.0, None, 0)
  }

  /** The waveform's initial colour, `'cyan'`. */
  const Cyan: Rgb := Rgb(0.0, 1.0, 1.0)

  class CenteredScrollingPlayer {
    var audio: Option<Audio>          // `samples` and `sr`
    var image: Option<ImageSize>      // size of `bg_pil`
    var line: Trace                   // data of the waveform line
    var xlim: Interval
    var ylim: Interval
    var playhead: real                // x position of the playhead line
    var background: Option<Extent>    // extent of `bg_image`
    var sliderValue: int
    var faceColor: Rgb                // axes face colour
    var figureColor: Rgb              // figure face colour
    var textColor: TextColor          // tick and label colour
    var lineColor: Rgb                // waveform colour

    /** The part of the state that `update_plot` redraws. */
    function View(): Plot
      reads this
    {
      Plot(line, xlim, ylim, playhead, background, sliderValue)
    }

    ghost predicate Valid()
      reads this
    {
      AudioValid(audio) && PlotValid(View(), image)
    }

    /** The plot and data set-up of `__init__`, then `update_plot(0)` when audio is given. */
    constructor (audio: Option<Audio>)
      requires AudioValid(audio)
      ensures Valid()
      ensures this.audio == audio && image.None?
      ensures View() == if audio.Some? then Update(audio, None, InitialPlot(), 0) else InitialPlot()
      ensures faceColor == Black && figureColor == White && textColor == WhiteText && lineColor == Cyan
    {
      this.audio := audio;
      image := None;
      line := Trace(0.0, 0.0, []);
      xlim := Interval(0.0, WindowSec);
      ylim := Interval(-1.1, 1.1);
      playhead := 0.0;
      background := None;
      sliderValue := 0;
      faceColor := Black;
      figureColor := White;
      textColor := WhiteText;
      lineColor := Cyan;
      new;
      if audio.Some? {
        UpdatePlot(0);
      }
    }

    /** `np.max(np.abs(visible))`. */
    static method Peak(s: seq<real>) returns (peak: real)
      requires |s| > 0
      ensures peak == MaxAbs(s)
    {
      peak := Abs(s[0]);
      var i := 1;
      while i < |s|
        invariant 1 <= i <= |s|
        invariant peak == MaxAbs(s[..i])
      {
        assert s[..i + 1][..i] == s[..i];
        peak := Max(peak, Abs(s[i]));
        i := i + 1;
      }
      assert s[..|s|] == s;
    }

    /** `_place_background`: refit the background to the current limits, if an image is set. */
    method PlaceBackground()
      modifies this`background
      ensures image.Some? ==> background == FitExtent(xlim, ylim, image.value)
      ensures image.None? ==> background == old(background)
      ensures old(Valid()) ==> Valid()
    {
      if image.None? {
        return;
      }
      ghost var wasValid := Valid();
      background := None;
      background := FitExtent(xlim, ylim, image.value);
      if wasValid {
        FitInsideAxes(xlim, ylim, image.value);
      }
    }

    /** `update_plot(pos_ms)`. */
    method UpdatePlot(posMs: int)
      requires Valid()
      modifies this`line, this`xlim, this`ylim, this`playhead, this`background, this`sliderValue
      ensures Valid()
      ensures View() == Update(audio, image, old(View()), posMs)
    {
      ghost var before := View();
      UpdatePreservesValid(audio, image, before, posMs);
      if audio.None? {
        UpdateWithoutDrawingIsNoOp(audio, image, before, posMs);
        return;
      }
      var samples, sr := audio.value.samples, audio.value.sr;
      var w := WindowAt(posMs, sr, |samples|);
      var visible := Visible(samples, w);
      if |visible| < 2 {
        UpdateWithoutDrawingIsNoOp(audio, image, before, posMs);
        return;
      }
      Redraw(posMs, samples, sr, w, visible);
    }

    /**
     * The drawing part of `update_plot`, once at least two samples are
     * visible: set the line, the x-limits and the playhead, refit the
     * background, rescale the y-limits to the visible peak and move the slider.
     */
    method Redraw(posMs: int, samples: seq<real>, sr: real, w: Window, visible: seq<real>)
      requires audio == Some(Audio(samples, sr)) && sr > 0.0
      requires 0 <= w.startIdx && 0 <= w.endIdx <= |samples|
      requires visible == Visible(samples, w) && |visible| >= 2
      modifies this`line, this`xlim, this`ylim, this`playhead, this`background, this`sliderValue
      ensures View() == Redrawn(old(View()), image, samples, sr, w, posMs)
    {
      line := Trace(SampleTime(w.startIdx, sr), SampleTime(w.startIdx + |visible|, sr), visible);
      xlim := Interval(w.startSec, w.endSec);
      playhead := w.current;
      if image.Some? {
        PlaceBackground();
      }
      var peak := Peak(visible);
      if peak > 0.0 {
        ylim := Interval(-Padded(peak), Padded(peak));
      }
      sliderValue := posMs;
    }

    /** `make_frame(t)`: redraw at `int(t * 1000)` ms (the rasterised canvas is not modelled). */
    method MakeFrame(t: real)
      requires Valid()
      modifies this`line, this`xlim, this`ylim, this`playhead, this`background, this`sliderValue
      ensures Valid()
      ensures View() == Update(audio, image, old(View()), Trunc(t * 1000.0))
    {
      UpdatePlot(Trunc(t * 1000.0));
    }

    /**
     * The state changes of `load_file` once a file has been chosen, given
     * what the two decoders of `process_audio` produced: when both fail
     * nothing changes; otherwise the audio is replaced, the slider reset to 0
     * and the plot redrawn at position 0.
     */
    method LoadAudio(primary: Option<Audio>, fallback: Option<Audio>) returns (loaded: bool)
      requires Valid() && AudioValid(primary) && AudioValid(fallback)
      modifies this`audio, this`line, this`xlim, this`ylim, this`playhead, this`background, this`sliderValue
      ensures Valid()
      ensures loaded <==> primary.Some? || fallback.Some?
      ensures !loaded ==> audio == old(audio) && View() == old(View())
      ensures loaded ==> && audio == ProcessAudio(primary, fallback)
                         && View() == Update(audio, image, old(View()).(slider := 0), 0)
    {
      var decoded := ProcessAudio(primary, fallback);
      if decoded.None? {
        return false;
      }
      audio := decoded;
      sliderValue := 0;
      UpdatePlot(0);
      return true;
    }

    /** `apply_background_image`: keep the image's size and place it into the current limits. */
    method ApplyBackgroundImage(size: ImageSize)
      requires Valid()
      modifies this`image, this`background
      ensures Valid()
      ensures image == Some(size)
      ensures background == FitExtent(xlim, ylim, size) && background.Some?
    {
      image := Some(size);
      background := None;
      PlaceBackground();
      FitInsideAxes(xlim, ylim, size);
    }

    /**
     * `apply_theme_from_image` given the image's colour list, the RMS of the
     * loaded samples and the image size: nothing happens for an empty colour
     * list; otherwise the theme derived from the dominant colour is applied
     * and the image becomes the background.
     */
    method ApplyThemeFromImage(colors: Option<seq<ColorCount>>, samplesRms: real, size: ImageSize)
      requires Valid() && samplesRms >= 0.0
      modifies this`faceColor, this`figureColor, this`textColor, this`lineColor, this`image, this`background
      ensures Valid()
      ensures var theme := ThemeFor(colors, if audio.Some? then samplesRms else 0.0);
              && (theme.None? ==>
                    && faceColor == old(faceColor) && figureColor == old(figureColor)
                    && textColor == old(textColor) && lineColor == old(lineColor)
                    && image == old(image) && background == old(background))
              && (theme.Some? ==>
                    && faceColor == theme.value.face && figureColor == theme.value.face
                    && textColor == theme.value.text && lineColor == theme.value.wave
                    && image == Some(size) && background == FitExtent(xlim, ylim, size))
    {
      var rms := if audio.Some? then samplesRms else 0.0;
      var theme := ThemeFor(colors, rms);
      if theme.None? {
        return;
      }
      faceColor := theme.value.face;
      figureColor := theme.value.face;
      textColor := theme.value.text;
      lineColor := theme.value.wave;
      ApplyBackgroundImage(size);
    }
  }
}
