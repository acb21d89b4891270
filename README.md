# Scrolling waveform viewport — a Dafny model

This project models the viewport arithmetic of `CenteredScrollingPlayer` in
`wavefile.py`, a PyQt player that draws a scrolling waveform in sync with
audio playback, optionally over a background image. Three pieces of the
program's own logic are modelled:

- **The sliding window (`update_plot`).** A playback position in
  milliseconds becomes a ten-second window `[max(0, pos − 5 s), +10 s)`. The
  window is turned into sample indices clamped to the buffer. The update is
  skipped when fewer than two samples are visible. Otherwise the line data,
  the x-limits, the playhead and the slider follow the position, and the
  y-limits are rescaled to ±1.1 × the visible peak unless that peak is zero.
- **The background fit (`_place_background`).** This computes the rectangle
  that keeps the image's aspect ratio. It fills one dimension of the axes and
  is centred in the other. Zero image height or zero y-span fall back to 1.0.
- **The theme colours (`apply_theme_from_image`).** This picks the most
  frequent colour and a brightness factor from the audio's RMS. The waveform
  colour is capped at 1.0, and the face and text colours contrast by
  luminance.

Layout:

- `wrappers.dfy` (module `Wrappers`): `Option` and small min/max helpers.
- `geometry.dfy` (module `Geometry`): axis intervals, image sizes, `FitExtent` and its lemmas.
- `viewport.dfy` (module `Viewport`): the window, the indices, the visible slice, the peak, and `Update`. `Update` is the whole effect of one `update_plot` call, as a function on values. `Redrawn` is its part after the early returns. The module also holds the lemmas about `Update`.
- `theme.dfy` (module `Theme`): the dominant colour, the brightness, the waveform colour and the contrast.
- `player.dfy` (module `Player`): class `CenteredScrollingPlayer`. `UpdatePlot` makes the two early returns and leaves the drawing steps to `Redraw`. Its fields are the state that the Python object and its matplotlib artists update in place. Its methods are proved against `Update`, `FitExtent` and `ThemeFor`. Its invariant `Valid()` is kept throughout.

To verify the model, give all five files to Dafny together, with default settings or with a resource limit:

    dafny verify wrappers.dfy geometry.dfy viewport.dfy theme.dfy player.dfy
    dafny verify --resource-limit 2000000 wrappers.dfy geometry.dfy viewport.dfy theme.dfy player.dfy

Modelling choices:

- Seconds, limits and colours are `real` and milliseconds, indices and buffer lengths are `int`. Python's `int(x)` truncates toward zero, and the model writes that out as `Trunc`.
- The peak `np.max(np.abs(visible))` is a loop (`Peak`) proved equal to the recursive `MaxAbs`.
- `_place_background` divides by the image ratio. Python raises `ZeroDivisionError` when that ratio is 0 and the axes' ratio is not positive. `FitExtent` returns `None` in exactly that case. The class invariant keeps a 10-second x-span and a positive y-span, so in the class the placement never fails.
- The order inside `update_plot` is kept. The background is re-placed (wavefile.py:302) before the y-limits are rescaled (wavefile.py:308). So the rectangle is fitted to the new x-limits and the previous y-limits. `UpdateFitsBackgroundToPreviousYLimits` and `UpdateSettles` state the consequence: a second update at the same position changes only the background, and a third changes nothing.

## Model

| member | source | states |
|---|---|---|
| `Viewport.Trunc` | wavefile.py:281-282 | `int(x)` truncates toward zero: for `x ≥ 0` the result is the floor, for `x < 0` the ceiling |
| `Viewport.WindowAt` | wavefile.py:275-282 | the window start is never negative; it is 0 exactly when the position is at most 5000 ms and centred on the position from 5000 ms on; the width is always `window_sec`; `0 ≤ start_idx`, `0 ≤ end_idx ≤ len(samples)`; both indices are the floors of time × rate, except that the end index is clamped to `len(samples)`, which happens only when the window end reaches the end of the buffer |
| `Viewport.Slice` | wavefile.py:284 | Python slicing with non-negative bounds: the length is `max(0, min(b, n) − min(a, n))` and element `k` is `s[a + k]` |
| `Viewport.Visible` | wavefile.py:284 | the visible slice has length `max(0, end_idx − start_idx)`, is consecutive buffer samples from `start_idx`, and lies inside the buffer |
| `Viewport.MaxAbs` | wavefile.py:306 | `np.max(np.abs(s))` as a left-to-right scan; the result is never negative (its meaning is proved in `MaxAbsIsPeak`) |
| `Viewport.MaxAbsIsPeak` | wavefile.py:306 | the peak is non-negative, bounds every sample's magnitude, and is attained by some sample |
| `Viewport.Update` | wavefile.py:273-314 | one call of `update_plot` on the plot state; either it draws, and the slider then holds the position and the line at least two samples, or nothing changes (the lemmas below state the rest) |
| `Viewport.UpdateWithoutDrawingIsNoOp` | wavefile.py:273-285 | with no samples loaded, or fewer than two visible samples, nothing in the plot changes |
| `Viewport.UpdatePastEndIsNoOp` | wavefile.py:278-285 | a position whose window starts at or after the end of the buffer shows no samples and changes nothing |
| `Viewport.IndexReachesEnd` | wavefile.py:281 | a time at or after `n / sr` seconds maps to a start index at or after `n` |
| `Viewport.UpdateFollowsPosition` | wavefile.py:275-312 | after a drawing update the x-limits are `(max(0, pos − 5), +10)`, the playhead is at `pos/1000`, the slider holds `pos_ms`; for a non-negative position the playhead is in view, and from 5 s on it is in the middle |
| `Viewport.DrawnLine` | wavefile.py:288-289 | the line's data has length `max(0, end_idx − start_idx)` and is `samples[start_idx:end_idx]` when that is non-empty; its times run from `start_idx/sr` to `(start_idx + len(visible))/sr`, the `linspace` endpoints |
| `Viewport.DrawnLineIsSlice` | wavefile.py:284-289 | with at least two samples visible the line is `samples[start_idx:end_idx]`, `end_idx − start_idx` samples long, ending at `end_idx/sr` |
| `Viewport.Redrawn` | wavefile.py:287-311 | the plot once `update_plot` passes its early returns: the line holds the visible samples, the playhead and slider are at the position, the y-limits are kept or made symmetric about zero, and without an image the background is left alone; the rest of what it promises is proved about `Update` by the lemmas below |
| `Viewport.UpdateDrawsVisibleSlice` | wavefile.py:281-289 | after a drawing update the line is exactly `samples[start_idx:end_idx]`: `end_idx − start_idx ≥ 2` consecutive buffer samples, inside the buffer, timed from `start_idx/sr` to `end_idx/sr` (the program's `(start_idx + len)/sr`) |
| `Viewport.PeakScaledLimits` | wavefile.py:305-308 | for a slice with a non-zero sample the limits are `±1.1 · MaxAbs`, strictly contain every sample, and equal 1.1 × a magnitude that no sample exceeds |
| `Viewport.UpdateScalesToPeak` | wavefile.py:305-308 | if some visible sample is non-zero the y-limits are exactly `±1.1 · MaxAbs(visible)`: symmetric, strictly containing every visible sample, and 1.1 × the largest magnitude |
| `Viewport.UpdateKeepsYLimitsWhenSilent` | wavefile.py:305-308 | if every visible sample is zero the y-limits keep their previous values |
| `Viewport.UpdatePreservesValid` | wavefile.py:273-308 | an update keeps a 10-second window at or after 0, symmetric positive y-limits, and a background rectangle exactly when an image is set |
| `Viewport.UpdateFitsBackgroundToPreviousYLimits` | wavefile.py:300-308 | the background is fitted inside and centred in the new x-limits and the previous y-limits |
| `Viewport.UpdateSettles` | wavefile.py:300-308 | repeating an update at the same position changes only the background rectangle, and a third repetition changes nothing |
| `Viewport.WindowAtTwoSeconds` | wavefile.py:275-282 | 480 000 samples at 48 kHz, position 2000 ms: window [0, 10) s, indices [0, 480 000) |
| `Viewport.WindowAtEightSeconds` | wavefile.py:275-282 | the same buffer at 8000 ms: window [3, 13) s, indices [144 000, 480 000) with the end clamped |
| `Geometry.FitExtent` | wavefile.py:236-259 | placement fails exactly on a division by a zero image ratio; the rectangle keeps the image's width/height ratio (square for a zero-height image), fills one dimension exactly, and is centred in x and in y (in `[y0, y0 + 1]` when the y-limits coincide) |
| `Geometry.Centred` | wavefile.py:256-259 | a side of the rectangle has the target length, leaves equal space on both sides, and lies inside the axes when the target fits |
| `Geometry.TargetSize` | wavefile.py:247-254 | the target size has the image's ratio and matches the axes' width or height |
| `Geometry.FitInsideAxes` | wavefile.py:239-259 | for axes of positive width and height the placement succeeds and the rectangle lies inside the axes |
| `Theme.DominantIndex` | wavefile.py:151-152 | the dominant entry has a maximal count, and every earlier entry has a strictly smaller one (the stable descending sort picks the first maximum) |
| `Theme.Normalise` | wavefile.py:153 | each 8-bit channel divided by 255 lies in [0, 1] |
| `Theme.Brightness` | wavefile.py:158 | the factor lies in [0.6, 1.6], grows as `0.6 + 5·rms` up to an RMS of 0.2 and is 1.6 from there |
| `Theme.Scaled` | wavefile.py:161 | `min(1.0, c·bright)` lies in [0, 1]; it is `c·bright` up to 1 and exactly 1.0 from there |
| `Theme.WaveColor` | wavefile.py:161 | every waveform component lies in [0, 1] and is at most the scaled dominant component; it equals that component when it is at most 1, and is exactly 1.0 from there |
| `Theme.Luminance` | wavefile.py:162 | the luminance of a colour in the unit cube lies in [0, 1], 0 for black and 1 for white |
| `Theme.Contrast` | wavefile.py:162-168 | luminance below 0.5 gives a white face with black text, otherwise a black face with white text |
| `Theme.ThemeFor` | wavefile.py:148-168 | no theme exactly when the colour list is missing or empty; otherwise the waveform colour is in the unit cube, the face is white or black with the opposite text colour, and both derive from the dominant entry and the brightness |
| `Player.ProcessAudio` | wavefile.py:199-221 | the result is the first decoder's when it succeeds, else the fallback's, and is nothing only when both fail |
| `Player.InitialPlot` | wavefile.py:62-69 | the initial plot (x 0..10, y −1.1..1.1) satisfies the plot invariant |
| `Player.CenteredScrollingPlayer.constructor` | wavefile.py:62-104 | the initial limits and colours, then the plot after `update_plot(0)` when audio is given |
| `Player.CenteredScrollingPlayer.Peak` | wavefile.py:306 | the loop's result is `MaxAbs` of the slice |
| `Player.CenteredScrollingPlayer.PlaceBackground` | wavefile.py:223-265 | with an image set, the background becomes `FitExtent` of the current limits; without one nothing changes; the class invariant is kept, so a `resize_event` refit can be followed by `update_plot` |
| `Player.CenteredScrollingPlayer.UpdatePlot` | wavefile.py:273-314 | the new plot state is `Update` of the old one, and the invariant is kept |
| `Player.CenteredScrollingPlayer.Redraw` | wavefile.py:287-311 | for the player's own buffer and a window inside it, the drawing steps of `update_plot`, in the program's order, leave the plot `Redrawn` from the old one: the line, x-limits and playhead for the window, the background refitted to the new x-limits and the previous y-limits, the y-limits rescaled to the visible peak, and the slider at the position |
| `Player.CenteredScrollingPlayer.MakeFrame` | wavefile.py:316-318 | the plot is redrawn at `int(t · 1000)` ms |
| `Player.CenteredScrollingPlayer.LoadAudio` | wavefile.py:112-128 | when both decoders fail nothing changes; otherwise the audio becomes `ProcessAudio`'s result, the slider is reset to 0 and the plot redrawn at 0 |
| `Player.CenteredScrollingPlayer.ApplyBackgroundImage` | wavefile.py:183-197 | the image becomes the background, placed by `FitExtent` in the current limits, and the placement succeeds |
| `Player.CenteredScrollingPlayer.ApplyThemeFromImage` | wavefile.py:144-181 | with no colours nothing changes; otherwise face, figure, text and line colours come from `ThemeFor` (RMS 0 without audio) and the image becomes the background |

## Left out

- Qt widgets and wiring: the window layout, buttons, menu, shortcuts, `toggle_play`, slider and player connections, `load_image`, `prompt_load` and the status label texts. Their behaviour lives in Qt.
- The canvas `resize_event` handler. It only calls `_place_background`, which is modelled as `PlaceBackground`, and the wiring itself is Qt's.
- QSlider's own behaviour: `setMaximum` from the duration, and `setValue` clamping to the slider's range. `sliderValue` is the value the program writes.
- The file dialog in `load_file` and the decoding itself. Decoding is librosa with a moviepy fallback (foreign libraries). `LoadAudio` takes both decoders' results as inputs and chooses between them with `ProcessAudio`. The decoded sample rate is assumed positive.
- Image decoding, `resize` and `getcolors` (PIL). The image size and the colour list are inputs.
- ApplyThemeFromImage: the RMS of the samples is a non-negative input. Floating-point numerics (`np.sqrt`, `np.mean`) are not modelled, nor the NaN that numpy gives for an empty buffer.
- The interior spacing of `np.linspace`. Only the endpoints of the line's time axis are modelled.
- Floating point in general. The model computes with exact reals, so equalities such as the exact 1.1 margin or the exact aspect ratio hold in the model and only approximately in the program.
- Matplotlib artist details: `imshow`'s pixel data, alpha and z-order, `draw_idle`, `remove`, and re-setting the playhead colour to red. The model also takes for granted that `imshow` leaves the axis limits alone, which holds because the limits are set explicitly and autoscaling is therefore off.
- Viewport.Update: when `FitExtent` fails (a zero image ratio with axes whose ratio is not positive), the program raises `ZeroDivisionError` at wavefile.py:250. By then the line, x-limits and playhead are already set, and the y-limits and slider are never reached. `Update` instead stores no background and carries on. No reachable state gets there: `PlotValid` keeps both spans positive, and `FitInsideAxes` shows that the placement then succeeds. But `UpdateSettles` and `UpdateWithoutDrawingIsNoOp` are stated for every plot, including plots outside that invariant.
- The fallback at wavefile.py:297-298 that re-creates the playhead. It puts the playhead at the same position, so the model does not distinguish it.
- Video export (`export_video`, moviepy/ffmpeg) and the frame rasterisation in `make_frame`.
- The `__main__` start-up script (dialogs and process exit), and `wavefile_enhanced.py`, a single pretrained-model load with no logic of its own.
