/**
 * The settings sheet (`components/settings-panel.tsx`): five editor settings,
 * each control replacing one field of the record and reporting the new record.
 */
module SettingsPanel {

  datatype EditorTheme = VsDark | VsLight

  datatype UserSettings = UserSettings(fontSize: int, autoComplete: bool, livePreview: bool, editorTheme: EditorTheme, indentSize: int)

  /** A `(key, value)` pair given to `updateSetting`, typed by key. */
  datatype Update =
    | FontSize(size: int)
    | AutoComplete(on: bool)
    | LivePreview(live: bool)
    | Theme(theme: EditorTheme)
    | IndentSize(indent: int)

  /** `{ ...localSettings, [key]: value }` */
  function Apply(s: UserSettings, u: Update): (r: UserSettings)
    ensures r.fontSize == (if u.FontSize? then u.size else s.fontSize)
    ensures r.autoComplete == (if u.AutoComplete? then u.on else s.autoComplete)
    ensures r.livePreview == (if u.LivePreview? then u.live else s.livePreview)
    ensures r.editorTheme == (if u.Theme? then u.theme else s.editorTheme)
    ensures r.indentSize == (if u.IndentSize? then u.indent else s.indentSize)
  {
    match u
    case FontSize(v) => s.(fontSize := v)
    case AutoComplete(v) => s.(autoComplete := v)
    case LivePreview(v) => s.(livePreview := v)
    case Theme(v) => s.(editorTheme := v)
    case IndentSize(v) => s.(indentSize := v)
  }

  /** The value an update carries equals the field it targets. */
  predicate Holds(s: UserSettings, u: Update) {
    match u
    case FontSize(v) => s.fontSize == v
    case AutoComplete(v) => s.autoComplete == v
    case LivePreview(v) => s.livePreview == v
    case Theme(v) => s.editorTheme == v
    case IndentSize(v) => s.indentSize == v
  }

  /** Do two updates address the same field? */
  predicate SameKey(u: Update, v: Update) {
    (u.FontSize? && v.FontSize?) || (u.AutoComplete? && v.AutoComplete?) || (u.LivePreview? && v.LivePreview?)
    || (u.Theme? && v.Theme?) || (u.IndentSize? && v.IndentSize?)
  }

  /**
   * After an update its value holds; an update is a no-op exactly when its
   * value already holds; a later update of the same field overrides it, and
   * updates of different fields commute.
   */
  lemma ApplyLaws(s: UserSettings, u: Update, v: Update)
    ensures Holds(Apply(s, u), u)
    ensures Apply(s, u) == s <==> Holds(s, u)
    ensures SameKey(u, v) ==> Apply(Apply(s, u), v) == Apply(s, v)
    ensures !SameKey(u, v) ==> Apply(Apply(s, u), v) == Apply(Apply(s, v), u)
  {
  }

  /** A value a slider with these bounds and step can produce. */
  predicate SliderValue(min: int, max: int, step: nat, x: int) {
    min <= x <= max && (step == 0 || (x - min) % step == 0)
  }

  /** The font size slider: 12 to 24 in steps of 1; the indent slider: 2 to 8 in steps of 2. */
  predicate FontSizeValue(x: int) {
    SliderValue(12, 24, 1, x)
  }

  predicate IndentValue(x: int) {
    SliderValue(2, 8, 2, x)
  }

  /** The indent slider offers exactly 2, 4, 6 and 8 spaces. */
  lemma IndentValues(x: int)
    ensures IndentValue(x) <==> x in {2, 4, 6, 8}
  {
  }

  /** The update a control sends: the sliders only produce their own values. */
  predicate FromControl(u: Update) {
    match u
    case FontSize(v) => FontSizeValue(v)
    case IndentSize(v) => IndentValue(v)
    case _ => true
  }

  /** Both sizes within their sliders' ranges. */
  predicate InRange(s: UserSettings) {
    FontSizeValue(s.fontSize) && IndentValue(s.indentSize)
  }

  /** Updates from the controls keep the sizes within the sliders' ranges. */
  lemma ControlsKeepRange(s: UserSettings, u: Update)
    requires InRange(s) && FromControl(u)
    ensures InRange(Apply(s, u))
  {
  }

  /** The sheet's local copy of the settings. */
  class Panel {
    var localSettings: UserSettings

    constructor (settings: UserSettings)
      ensures localSettings == settings
    {
      localSettings := settings;
    }

    /** `updateSetting`: the local copy and `onSettingsChange` receive the same new record. */
    method UpdateSetting(u: Update) returns (reported: UserSettings)
      modifies this`localSettings
      ensures localSettings == Apply(old(localSettings), u)
      ensures reported == localSettings
    {
      var newSettings := Apply(localSettings, u);
      localSettings := newSettings;
      reported := newSettings;
    }
  }
}
