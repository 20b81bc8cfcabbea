# Print-safety preview, modelled in Dafny

This project models the core of the preview panel of a QR-code generator
(`app/components/PreviewPanel.tsx`). The panel simulates how much a printed
code degrades under three distortion values: blur in pixels, contrast in
percent and noise in percent. From these values it derives:

- a scan-confidence score in [0, 100]: 100, minus 18 per pixel of blur, minus
  1.2 per percent of noise, minus 0.6 per point that contrast lies away from
  100, then clamped;
- a label: High above 75, Medium above 50, otherwise Low;
- the CSS filter on the code. This is `none` in the "before" view, otherwise
  blur and contrast.
- a noise overlay. Its image is a black gradient at alpha noise/100, present
  only when noise is positive and the "after" view is shown. Its opacity is
  noise/100 in both views.
- how far each range slider's track is filled.

Four preset buttons overwrite the three values with fixed triples. One
button switches between the "before" and "after" views.

Files and modules:

- `confidence.dfy` (`Confidence`): the score, the clamp and the label, with
  monotonicity and symmetry lemmas.
- `distortion.dfy` (`Distortion`): the filter, the noise overlay and the
  slider fill percentage.
- `simulation.dfy` (`Simulation`): the three values, the sliders' `min` and
  `max` attributes, and the preset table with its scores.
- `panel.dfy` (`Panel`): the panel's state and the user actions that change
  it (`Step`, and `Run` over a sequence of actions), what one render
  computes (`Render`), and the class `PreviewPanel`. That class has the four
  fields the handlers write. Each of its methods is specified against
  `Step`.

Arithmetic uses exact `real`s. On these points the component behaves in ways
a reader might not expect, and the model does what the code does:

- The component passes every number to the parent's setters unchanged. It
  never clamps a value, and the model assumes the parent stores each value
  as given (see "Left out"). The `min`/`max` values are only HTML input attributes, so a
  typed-in value outside the range (even a negative blur) reaches the score
  formula. The `Math.min(100, …)` clamp then matters.
- There is no unknown-preset error. The presets are four fixed buttons
  (`Preset` has four constructors).
- The "before" filter is the CSS keyword `none` (`Filter.NoFilter`). It is
  not a numeric identity descriptor. The overlay's opacity stays noise/100 in
  the "before" view; only its image is suppressed.
- The three values belong to the panel's parent and are written through
  its callbacks. The panel holds only `showBefore`. The class puts all four
  fields on one object.

## Model

| member | source | states |
|---|---|---|
| Confidence.Clamp | app/components/PreviewPanel.tsx:44-47 | `Math.max(0, Math.min(100, x))` is the point of [0,100] nearest to x: x itself inside the interval, 0 below it, 100 above it |
| Confidence.RawScore | app/components/PreviewPanel.tsx:46 | the unclamped formula; its meaning is stated by `Score`'s contract, the antitone and symmetry lemmas and `RawScoreAboveHundred` |
| Confidence.Score | app/components/PreviewPanel.tsx:44-47 | the score always lies in [0,100], for any real inputs; it is 0 exactly when the raw formula is ≤ 0, 100 exactly when it is ≥ 100, and equals the raw formula strictly between |
| Confidence.LabelOf | app/components/PreviewPanel.tsx:49-54 | exactly one label: High iff score > 75, Medium iff 50 < score ≤ 75, Low iff score ≤ 50 |
| Confidence.LabelMonotone | app/components/PreviewPanel.tsx:49-54 | a higher score never gets a worse label |
| Confidence.NeutralScore | app/components/PreviewPanel.tsx:44-54 | blur 0, contrast 100, noise 0 scores 100 and is labelled High |
| Confidence.ScoreAntitoneInBlur | app/components/PreviewPanel.tsx:46 | raising blur never raises the score |
| Confidence.ScoreAntitoneInNoise | app/components/PreviewPanel.tsx:46 | raising noise never raises the score |
| Confidence.ScoreContrastSymmetric | app/components/PreviewPanel.tsx:46 | contrast 100+d and 100−d score the same |
| Confidence.ScoreAntitoneInContrastDeviation | app/components/PreviewPanel.tsx:46 | moving contrast further from 100 never raises the score |
| Confidence.RawScoreAboveHundred | app/components/PreviewPanel.tsx:44-47 | the upper clamp only applies when blur or noise is negative, which only unchecked typed input can produce |
| Distortion.FilterFor | app/components/PreviewPanel.tsx:89 | the filter is `none` iff the "before" view is shown; otherwise it carries the blur and contrast unchanged |
| Distortion.NoiseStyle | app/components/PreviewPanel.tsx:26-31 | the noise gradient is absent iff noise ≤ 0; otherwise its alpha is noise/100, which is positive |
| Distortion.OverlayFor | app/components/PreviewPanel.tsx:95-102 | overlay opacity is noise/100 in both views; the overlay image is empty iff the "before" view is shown or noise ≤ 0; a present image has alpha equal to the opacity |
| Distortion.FillPercent | app/components/PreviewPanel.tsx:40 | the `percent` expression of `rangeBackground`; `FillPercentMeaning` and `FillMonotone` state what it means |
| Distortion.FillPercentMeaning | app/components/PreviewPanel.tsx:40 | the fill percent is 0 exactly at min and 100 exactly at max; for min < max it lies in [0,100] exactly when min ≤ value ≤ max |
| Distortion.FillMonotone | app/components/PreviewPanel.tsx:40 | for min < max, a larger value never gives a smaller fill |
| Simulation.Set | app/components/PreviewPanel.tsx:181-189 | an input's write stores the given value, unclamped, in its field and leaves the other two fields alone (the panel's `Step` also keeps `showBefore`) |
| Simulation.SliderMin | app/components/PreviewPanel.tsx:167 | the sliders' `min` attributes (0, 70 at 204, 0 at 245); `SliderMax` and `SliderFillMeaning` state what they mean |
| Simulation.SliderMax | app/components/PreviewPanel.tsx:166-168 | each slider's max exceeds its min (blur 0–4, contrast 70–140 at 204-205, noise 0–30 at 245-246), so the fill division is defined |
| Simulation.SliderFill | app/components/PreviewPanel.tsx:172-179 | each slider's fill, computed from its own min and max (contrast at 209-216, noise at 250-257); `SliderFillMeaning` states what it means |
| Simulation.SliderFillMeaning | app/components/PreviewPanel.tsx:172-179 | for each of the three sliders (contrast at 209-216, noise at 250-257), the fill is empty at the slider's min, full at its max, and in [0,100] exactly when the value lies on the slider |
| Simulation.ScoreAtSliderMaxima | app/components/PreviewPanel.tsx:44-54 | blur 4 and noise 30 (the slider maxima) with contrast 100 score 0 and are labelled Low |
| Simulation.PresetSettings | app/components/PreviewPanel.tsx:115-155 | the four literal triples; `PresetScores`, `PresetsWithinSliders`, `Panel.PresetIdempotent` and `Panel.PreviewPanel.ApplyPreset` state what they mean |
| Simulation.PresetScores | app/components/PreviewPanel.tsx:115-155 | the presets score 82.6, 82, 55.6 and 30.4, labelled High, High, Medium and Low |
| Simulation.PresetsWithinSliders | app/components/PreviewPanel.tsx:115-155 | every preset value lies within its slider's min and max |
| Panel.Initial | app/components/PreviewPanel.tsx:24 | a mounted panel holds the parent's values and starts in the "after" view (`showBefore` false) |
| Panel.Step | app/components/PreviewPanel.tsx:79-267 | one user action: an input write, a preset's three writes or the view toggle; `Set`, `ToggleTwice`, `PresetIdempotent`, the class methods' contracts and the `Run*` lemmas state what it means |
| Panel.Run | app/components/PreviewPanel.tsx:79-267 | a sequence of actions in order; `RunShowBefore`, `RunLastWriteWins` and `RunSettingsIgnoreView` state what it means |
| Panel.PresetIdempotent | app/components/PreviewPanel.tsx:115-155 | applying the same preset twice equals applying it once |
| Panel.ToggleTwice | app/components/PreviewPanel.tsx:79 | the before/after button flips the view; pressing it twice restores the state |
| Panel.RunShowBefore | app/components/PreviewPanel.tsx:79 | after any sequence of actions, the view has flipped exactly when the before/after button was pressed an odd number of times |
| Panel.RunLastWriteWins | app/components/PreviewPanel.tsx:115-189 | after any sequence of actions, each value is the last one written into it by an input or preset (unclamped), or its initial value if nothing wrote it |
| Panel.RunSettingsIgnoreView | app/components/PreviewPanel.tsx:79-81 | the values evolve the same way whichever view is shown |
| Panel.Render | app/components/PreviewPanel.tsx:44-102 | a render's score is the score of the current blur, contrast and noise, in [0,100], and its label matches it; each slider's fill is that slider's `SliderFill` of the current value; in the "before" view the filter is `none` and the overlay image is empty; in the "after" view the filter carries blur and contrast and the overlay image is empty iff noise ≤ 0 and otherwise is the gradient at alpha noise/100; the opacity is noise/100 either way |
| Panel.BeforeViewIgnoresSettings | app/components/PreviewPanel.tsx:89-98 | in the "before" view the filter and overlay image do not depend on blur, contrast or noise |
| Panel.ToggleKeepsConfidence | app/components/PreviewPanel.tsx:44-79 | switching views changes neither the score nor the label |
| Panel.PreviewPanel.constructor | app/components/PreviewPanel.tsx:24 | a mounted panel holds the parent's values and starts with `showBefore` false |
| Panel.PreviewPanel.OnBlurChange | app/components/PreviewPanel.tsx:181-189 | the blur inputs' handler stores the value as given; nothing else changes |
| Panel.PreviewPanel.OnContrastChange | app/components/PreviewPanel.tsx:218-230 | the contrast inputs' handler stores the value as given; nothing else changes |
| Panel.PreviewPanel.OnNoiseChange | app/components/PreviewPanel.tsx:259-267 | the noise inputs' handler stores the value as given; nothing else changes |
| Panel.PreviewPanel.ApplyPreset | app/components/PreviewPanel.tsx:115-155 | three successive writes through the handlers (blur, contrast, noise) leave exactly the preset's triple and the view switch unchanged |
| Panel.PreviewPanel.Toggle | app/components/PreviewPanel.tsx:79 | the before/after button negates `showBefore` and changes nothing else |

## Left out

- Markup, class names, colours and the text of the CSS strings: the gradient strings, `blur(…px) contrast(…%)`, and the track gradient in `rangeBackground`. Only the numbers and choices that feed them are modelled. The button caption "Show after"/"Show before" and the `toFixed(1)` display are left out too.
- The code markup passed through `dangerouslySetInnerHTML`. It is an opaque string that the component never inspects.
- React machinery: `useState`, the `useMemo` cache of the noise style, and re-rendering. `Render` recomputes everything from the state, which gives the same values. The parent may batch a preset's three callback writes; the model applies them in order, with the same final state.
- `Number(event.target.value)` parsing: the handlers take an already-parsed real. A cleared number input gives `Number("") = 0`, which the model writes as the value 0.
- The parent component that owns blur, contrast and noise: its `onBlurChange`, `onContrastChange` and `onNoiseChange` callbacks are not part of this model. The model assumes that each one stores its argument as given in its own field and changes nothing else. `Simulation.Set`, `Panel.Step`, `Panel.RunLastWriteWins` ("unclamped") and the class's handler and preset methods rest on that assumption. The component itself only passes the number through unclamped.
- The sliders' `step` attributes (0.5, 5, 5): the browser uses them for snapping, and the component's arithmetic does not read them.
- IEEE-754 doubles: the model uses exact reals. The preset scores are exact values; the component's doubles can differ from them in the last bits.
- The browser's own clamping of an `opacity` outside [0, 1]: the model gives the opacity value the component writes.
