/** The three distortion values, the sliders that edit them and the fixed
    table of presets that overwrite them. */
module Simulation {
  import opened Confidence
  import opened Distortion

  /** Blur in pixels, contrast in percent, noise in percent. Any real is
      accepted: nothing range-checks what a setter stores. */
  datatype Settings = Settings(blur: real, contrast: real, noise: real)

  /** Names one of the three values, and the slider that edits it. */
  datatype Field = BlurField | ContrastField | NoiseField

  function Get(s: Settings, f: Field): real
  {
    match f
    case BlurField => s.blur
    case ContrastField => s.contrast
    case NoiseField => s.noise
  }

  /** Stores v in field f as given, leaving the other two fields alone. */
  function Set(s: Settings, f: Field, v: real): (r: Settings)
    ensures Get(r, f) == v
    ensures forall g: Field :: g != f ==> Get(r, g) == Get(s, g)
  {
    match f
    case BlurField => s.(blur := v)
    case ContrastField => s.(contrast := v)
    case NoiseField => s.(noise := v)
  }

  /** The `min` attribute of a field's range and number inputs. */
  function SliderMin(f: Field): real
  {
    match f
    case BlurField => 0.0
    case ContrastField => 70.0
    case NoiseField => 0.0
  }

  /** The `max` attribute of a field's range and number inputs. */
  function SliderMax(f: Field): (m: real)
    ensures SliderMin(f) < m
  {
    match f
    case BlurField => 4.0
    case ContrastField => 140.0
    case NoiseField => 30.0
  }

  /** How far the fill of field f's range slider extends, in percent. */
  function SliderFill(s: Settings, f: Field): real
  {
    FillPercent(Get(s, f), SliderMin(f), SliderMax(f))
  }

  /** A slider's fill is empty at its minimum, full at its maximum, and
      within [0, 100] exactly when the value lies between the two. */
  lemma SliderFillMeaning(s: Settings, f: Field)
    ensures SliderFill(s, f) == 0.0 <==> Get(s, f) == SliderMin(f)
    ensures SliderFill(s, f) == 100.0 <==> Get(s, f) == SliderMax(f)
    ensures 0.0 <= SliderFill(s, f) <= 100.0 <==> SliderMin(f) <= Get(s, f) <= SliderMax(f)
  {
    FillPercentMeaning(Get(s, f), SliderMin(f), SliderMax(f));
  }

  /** The confidence score of a setting. */
  function ScoreOf(s: Settings): real
  {
    Score(s.blur, s.contrast, s.noise)
  }

  /** Blur and noise at their slider maxima with neutral contrast score
      nothing. */
  lemma ScoreAtSliderMaxima()
    ensures ScoreOf(Settings(SliderMax(BlurField), 100.0, SliderMax(NoiseField))) == 0.0
    ensures LabelOf(ScoreOf(Settings(SliderMax(BlurField), 100.0, SliderMax(NoiseField)))) == Low
  {
  }

  /** The four preset buttons. */
  datatype Preset = PrintSafe | HighContrast | Noisy | Blurred

  /** The literal (blur, contrast, noise) triple each preset button writes. */
  function PresetSettings(p: Preset): Settings
  {
    match p
    case PrintSafe => Settings(0.5, 110.0, 2.0)
    case HighContrast => Settings(0.0, 130.0, 0.0)
    case Noisy => Settings(1.5, 95.0, 12.0)
    case Blurred => Settings(3.0, 90.0, 8.0)
  }

  /** The preset scores, and the labels they earn. */
  lemma PresetScores()
    ensures ScoreOf(PresetSettings(PrintSafe)) == 82.6
    ensures ScoreOf(PresetSettings(HighContrast)) == 82.0
    ensures ScoreOf(PresetSettings(Noisy)) == 55.6
    ensures ScoreOf(PresetSettings(Blurred)) == 30.4
    ensures LabelOf(ScoreOf(PresetSettings(PrintSafe))) == High
    ensures LabelOf(ScoreOf(PresetSettings(HighContrast))) == High
    ensures LabelOf(ScoreOf(PresetSettings(Noisy))) == Medium
    ensures LabelOf(ScoreOf(PresetSettings(Blurred))) == Low
  {
  }

  /** Every preset value lies on its slider's track. */
  lemma PresetsWithinSliders(p: Preset, f: Field)
    ensures SliderMin(f) <= Get(PresetSettings(p), f) <= SliderMax(f)
  {
  }
}
