/** The preview panel: the distortion values it edits, its before/after
    view switch, the events that change them, and what it renders. */
module Panel {
  import opened Confidence
  import opened Distortion
  import opened Simulation

  /** The distortion values (owned by the panel's parent and written through
      its callbacks) and the panel's own `showBefore` switch. */
  datatype PanelState = PanelState(settings: Settings, showBefore: bool)

  /** A freshly mounted panel shows the distorted ("after") view. */
  function Initial(s: Settings): (st: PanelState)
    ensures st.settings == s && !st.showBefore
  {
    PanelState(s, false)
  }

  /** The user actions the panel handles: a slider or number input writing
      a value into a field, a preset button, and the before/after button. */
  datatype Event = Change(field: Field, value: real) | PresetClick(preset: Preset) | ToggleClick

  /** The effect of one action. A preset button makes three writes in turn:
      blur, then contrast, then noise. */
  function Step(st: PanelState, e: Event): PanelState
  {
    match e
    case Change(f, v) => st.(settings := Set(st.settings, f, v))
    case PresetClick(p) =>
      var t := PresetSettings(p);
      st.(settings := Set(Set(Set(st.settings, BlurField, t.blur), ContrastField, t.contrast), NoiseField, t.noise))
    case ToggleClick => st.(showBefore := !st.showBefore)
  }

  /** The state after a sequence of actions, taken in order. */
  function Run(st: PanelState, es: seq<Event>): PanelState
    decreases |es|
  {
    if es == [] then st else Step(Run(st, es[..|es| - 1]), es[|es| - 1])
  }

  /** Applying a preset a second time changes nothing more. */
  lemma PresetIdempotent(st: PanelState, p: Preset)
    ensures Step(Step(st, PresetClick(p)), PresetClick(p)) == Step(st, PresetClick(p))
  {
  }

  /** Two presses of the before/after button restore the state. */
  lemma ToggleTwice(st: PanelState)
    ensures Step(Step(st, ToggleClick), ToggleClick) == st
    ensures Step(st, ToggleClick).showBefore != st.showBefore
  {
  }

  /** The number of before/after presses in a sequence of actions. */
  function Toggles(es: seq<Event>): nat
    decreases |es|
  {
    if es == [] then 0
    else Toggles(es[..|es| - 1]) + (if es[|es| - 1] == ToggleClick then 1 else 0)
  }

  /** After any sequence of actions the view is flipped exactly when the
      button was pressed an odd number of times. */
  lemma {:induction false} RunShowBefore(st: PanelState, es: seq<Event>)
    ensures Run(st, es).showBefore == (st.showBefore != (Toggles(es) % 2 == 1))
    decreases |es|
  {
    if es != [] {
      RunShowBefore(st, es[..|es| - 1]);
    }
  }

  datatype Option = None | Some(value: real)

  /** The value an action writes into field f, if it writes one. */
  function Written(e: Event, f: Field): Option
  {
    match e
    case Change(g, v) => if g == f then Some(v) else None
    case PresetClick(p) => Some(Get(PresetSettings(p), f))
    case ToggleClick => None
  }

  /** The value of the last write into field f in a sequence of actions,
      or init when there is none. */
  function LastWritten(init: real, es: seq<Event>, f: Field): real
    decreases |es|
  {
    if es == [] then init
    else match Written(es[|es| - 1], f)
      case Some(v) => v
      case None => LastWritten(init, es[..|es| - 1], f)
  }

  /** After any sequence of actions each field holds exactly the value last
      written into it, unclamped, or its initial value if none was. */
  lemma {:induction false} RunLastWriteWins(st: PanelState, es: seq<Event>, f: Field)
    ensures Get(Run(st, es).settings, f) == LastWritten(Get(st.settings, f), es, f)
    decreases |es|
  {
    if es != [] {
      RunLastWriteWins(st, es[..|es| - 1], f);
    }
  }

  /** The settings evolve the same way whichever view is shown. */
  lemma {:induction false} RunSettingsIgnoreView(s: Settings, b1: bool, b2: bool, es: seq<Event>)
    ensures Run(PanelState(s, b1), es).settings == Run(PanelState(s, b2), es).settings
    decreases |es|
  {
    if es != [] {
      RunSettingsIgnoreView(s, b1, b2, es[..|es| - 1]);
    }
  }

  /** What one render of the panel computes. */
  datatype View = View(
    score: real,
    badge: Label,
    filter: Filter,
    overlay: Overlay,
    blurFill: real,
    contrastFill: real,
    noiseFill: real)

  function Render(st: PanelState): (v: View)
    ensures v.score == Score(st.settings.blur, st.settings.contrast, st.settings.noise)
    ensures 0.0 <= v.score <= 100.0
    ensures v.badge == LabelOf(v.score)
    ensures st.showBefore ==> v.filter == NoFilter && v.overlay.image == NoImage
    ensures !st.showBefore ==> v.filter == BlurContrast(st.settings.blur, st.settings.contrast)
    ensures !st.showBefore ==> (v.overlay.image == NoImage <==> st.settings.noise <= 0.0)
    ensures !st.showBefore && st.settings.noise > 0.0 ==> v.overlay.image == NoiseGradient(st.settings.noise / 100.0)
    ensures v.overlay.opacity == st.settings.noise / 100.0
    ensures v.blurFill == SliderFill(st.settings, BlurField)
    ensures v.contrastFill == SliderFill(st.settings, ContrastField)
    ensures v.noiseFill == SliderFill(st.settings, NoiseField)
  {
    var s := st.settings;
    var score := ScoreOf(s);
    View(score, LabelOf(score),
         FilterFor(st.showBefore, s.blur, s.contrast),
         OverlayFor(st.showBefore, s.noise),
         SliderFill(s, BlurField), SliderFill(s, ContrastField), SliderFill(s, NoiseField))
  }

  /** In the "before" view the filter and the overlay image are the same
      whatever the distortion values are. */
  lemma BeforeViewIgnoresSettings(s1: Settings, s2: Settings)
    ensures Render(PanelState(s1, true)).filter == Render(PanelState(s2, true)).filter
    ensures Render(PanelState(s1, true)).overlay.image == Render(PanelState(s2, true)).overlay.image
  {
  }

  /** Switching views changes neither the score nor the label. */
  lemma ToggleKeepsConfidence(st: PanelState)
    ensures Render(Step(st, ToggleClick)).score == Render(st).score
    ensures Render(Step(st, ToggleClick)).badge == Render(st).badge
  {
  }

  /** The panel as an object: the three values its callbacks write and the
      before/after switch it flips. */
  class PreviewPanel {
    var blur: real
    var contrast: real
    var noise: real
    var showBefore: bool

    function State(): PanelState
      reads this
    {
      PanelState(Settings(blur, contrast, noise), showBefore)
    }

    /** Mounting with the parent's current values; `showBefore` starts false. */
    constructor (blur0: real, contrast0: real, noise0: real)
      ensures State() == Initial(Settings(blur0, contrast0, noise0))
    {
      blur, contrast, noise := blur0, contrast0, noise0;
      showBefore := false;
    }

    /** The blur slider's and number input's change handler. */
    method OnBlurChange(v: real)
      modifies this
      ensures State() == Step(old(State()), Change(BlurField, v))
      ensures blur == v
    {
      blur := v;
    }

    /** The contrast slider's and number input's change handler. */
    method OnContrastChange(v: real)
      modifies this
      ensures State() == Step(old(State()), Change(ContrastField, v))
      ensures contrast == v
    {
      contrast := v;
    }

    /** The noise slider's and number input's change handler. */
    method OnNoiseChange(v: real)
      modifies this
      ensures State() == Step(old(State()), Change(NoiseField, v))
      ensures noise == v
    {
      noise := v;
    }

    /** A preset button: three writes through the change handlers. */
    method ApplyPreset(p: Preset)
      modifies this
      ensures State() == Step(old(State()), PresetClick(p))
      ensures State() == PanelState(PresetSettings(p), old(showBefore))
    {
      var t := PresetSettings(p);
      OnBlurChange(t.blur);
      OnContrastChange(t.contrast);
      OnNoiseChange(t.noise);
    }

    /** The before/after button. */
    method Toggle()
      modifies this
      ensures State() == Step(old(State()), ToggleClick)
      ensures showBefore == !old(showBefore)
    {
      showBefore := !showBefore;
    }
  }
}
