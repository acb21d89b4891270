/**
 * The colour arithmetic of `CenteredScrollingPlayer.apply_theme_from_image`
 * (wavefile.py): the dominant colour of the image, a brightness factor from
 * the audio's RMS, the waveform colour and a contrasting background.
 */
module Theme {
  import opened Wrappers

  /** One 8-bit colour channel. */
  type Channel = x: int | 0 <= x <= 255

  /** A colour as PIL's `getcolors` reports it. */
  datatype Rgb8 = Rgb8(r: Channel, g: Channel, b: Channel)

  /** One `(count, colour)` pair of `getcolors`. */
  datatype ColorCount = ColorCount(count: nat, color: Rgb8)

  /** A matplotlib colour with components in [0, 1]. */
  datatype Rgb = Rgb(r: real, g: real, b: real)

  predicate InUnitCube(c: Rgb)
  {
    0.0 <= c.r <= 1.0 && 0.0 <= c.g <= 1.0 && 0.0 <= c.b <= 1.0
  }

  const White: Rgb := Rgb(1.0, 1.0, 1.0)
  const Black: Rgb := Rgb(0.0, 0.0, 0.0)

  /** The named tick and label colours `'black'` and `'white'`. */
  datatype TextColor = BlackText | WhiteText

  /** What a theme sets: face colour of axes and figure, text colour, waveform colour. */
  datatype Theme = Theme(face: Rgb, text: TextColor, wave: Rgb)

  /**
   * The entry `result[0]` after `result.sort(key=count, reverse=True)`:
   * Python's sort is stable, also in reverse, so this is the FIRST entry
   * whose count is maximal.
   */
  function DominantIndex(entries: seq<ColorCount>): (k: nat)
    requires |entries| > 0
    ensures k < |entries|
    ensures forall j :: 0 <= j < |entries| ==> entries[j].count <= entries[k].count
    ensures forall j :: 0 <= j < k ==> entries[j].count < entries[k].count
  {
    if |entries| == 1 then 0
    else
      var k := DominantIndex(entries[..|entries| - 1]);
      if entries[|entries| - 1].count > entries[k].count then |entries| - 1 else k
  }

  /** `tuple(c / 255.0 for c in dominant)`. */
  function Normalise(c: Rgb8): (r: Rgb)
    ensures InUnitCube(r)
    ensures r.r * 255.0 == c.r as real && r.g * 255.0 == c.g as real && r.b * 255.0 == c.b as real
  {
    Rgb(c.r as real / 255.0, c.g as real / 255.0, c.b as real / 255.0)
  }

  /** `0.6 + min(1.0, rms * 5.0)`: grows with the RMS and saturates at 1.6 from an RMS of 0.2. */
  function Brightness(rms: real): (b: real)
    requires rms >= 0.0
    ensures 0.6 <= b <= 1.6
    ensures rms <= 0.2 ==> b == 0.6 + 5.0 * rms
    ensures rms >= 0.2 ==> b == 1.6
  {
    0.6 + Min(1.0, rms * 5.0)
  }

  /** `min(1.0, c * bright)`: the scaled component, saturating at 1.0. */
  function Scaled(c: real, bright: real): (r: real)
    requires 0.0 <= c && 0.0 <= bright
    ensures 0.0 <= r <= 1.0
    ensures r <= c * bright
    ensures c * bright <= 1.0 ==> r == c * bright
    ensures c * bright >= 1.0 ==> r == 1.0
  {
    var x := c * bright;
    assert 0.0 <= x;
    Min(1.0, x)
  }

  /** The waveform colour: every component scaled by the brightness and capped at 1.0. */
  function WaveColor(dom: Rgb, bright: real): (w: Rgb)
    requires InUnitCube(dom) && bright >= 0.0
    ensures InUnitCube(w)
    ensures w.r <= dom.r * bright && w.g <= dom.g * bright && w.b <= dom.b * bright
    ensures dom.r * bright <= 1.0 ==> w.r == dom.r * bright
    ensures dom.g * bright <= 1.0 ==> w.g == dom.g * bright
    ensures dom.b * bright <= 1.0 ==> w.b == dom.b * bright
    ensures dom.r * bright >= 1.0 ==> w.r == 1.0
    ensures dom.g * bright >= 1.0 ==> w.g == 1.0
    ensures dom.b * bright >= 1.0 ==> w.b == 1.0
  {
    Rgb(Scaled(dom.r, bright), Scaled(dom.g, bright), Scaled(dom.b, bright))
  }

  /** Relative luminance with the Rec. 709 weights, which sum to 1. */
  function Luminance(c: Rgb): (l: real)
    requires InUnitCube(c)
    ensures 0.0 <= l <= 1.0
    ensures c == Black ==> l == 0.0
    ensures c == White ==> l == 1.0
  {
    0.2126 * c.r + 0.7152 * c.g + 0.0722 * c.b
  }

  /**
   * The contrasting theme for a dominant colour: a dark colour (luminance
   * below 0.5) gets a white face with black text, a light one a black face
   * with white text.
   */
  function Contrast(dom: Rgb, bright: real): (t: Theme)
    requires InUnitCube(dom) && bright >= 0.0
    ensures (t.face == White) <==> Luminance(dom) < 0.5
    ensures (t.face == Black) <==> Luminance(dom) >= 0.5
    ensures (t.text == BlackText) <==> (t.face == White)
    ensures t.wave == WaveColor(dom, bright)
  {
    if Luminance(dom) < 0.5 then Theme(White, BlackText, WaveColor(dom, bright))
    else Theme(Black, WhiteText, WaveColor(dom, bright))
  }

  /**
   * The theme for the colour list of an image and the RMS of the audio.
   * `None` when `getcolors` gave nothing (`None` or an empty list): then
   * nothing is applied.
   */
  function ThemeFor(colors: Option<seq<ColorCount>>, rms: real): (t: Option<Theme>)
    requires rms >= 0.0
    ensures t.None? <==> colors.None? || |colors.value| == 0
    ensures t.Some? ==>
              && InUnitCube(t.value.wave)
              && (t.value.text == BlackText <==> t.value.face == White)
              && (t.value.face == White || t.value.face == Black)
    ensures t.Some? ==>
              var dom := Normalise(colors.value[DominantIndex(colors.value)].color);
              && t.value.wave == WaveColor(dom, Brightness(rms))
              && (t.value.face == White <==> Luminance(dom) < 0.5)
  {
    if colors.None? || |colors.value| == 0 then None
    else
      var dominant := colors.value[DominantIndex(colors.value)].color;
      Some(Contrast(Normalise(dominant), Brightness(rms)))
  }
}
