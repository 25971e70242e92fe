/**
 * The settings screen of `src/components/Settings.js`: a record of named
 * settings edited field by field, saved to and removed from an abstract
 * key/value storage, and summarised as three score bands. Nothing else in
 * the application reads these values.
 */
module Settings {
  import opened Wrappers
  import Js

  /** What a setting can hold: `handleChange` stores a number, the raw text, or a checkbox state. */
  datatype Setting = Number(n: real) | Text(s: string) | Flag(b: bool)

  type Config = map<string, Setting>

  /** The settings the component starts with. */
  const Initial: Config := map[
    "safeThreshold" := Number(50.0),
    "mediumThreshold" := Number(70.0),
    "anomalyThreshold" := Number(2.5),
    "riskScaleMultiplier" := Number(25.0),
    "enableNotifications" := Flag(true),
    "emailAlerts" := Flag(true),
    "highRiskOnly" := Flag(false),
    "currency" := Text("INR")]

  /** The settings `handleReset` restores; written out separately in the component. */
  const ResetDefaults: Config := map[
    "safeThreshold" := Number(50.0),
    "mediumThreshold" := Number(70.0),
    "anomalyThreshold" := Number(2.5),
    "riskScaleMultiplier" := Number(25.0),
    "enableNotifications" := Flag(true),
    "emailAlerts" := Flag(true),
    "highRiskOnly" := Flag(false),
    "currency" := Text("INR")]

  const StorageKey := "finomaly_settings"

  /** Local storage holds saved settings records under string keys. */
  type Storage = map<string, Config>

  datatype State = State(settings: Config, saved: bool, storage: Storage)

  function Start(storage: Storage): State {
    State(Initial, false, storage)
  }

  lemma InitialIsResetDefaults()
    ensures Initial == ResetDefaults
  {
  }

  /** The form control that fired the change event. */
  datatype Input = Checkbox(checked: bool) | Field(value: string)

  /** `type === 'checkbox' ? checked : parseFloat(value) || value`. */
  function NewValue(input: Input, parseFloat: Js.StrToNum): (v: Setting)
    ensures input.Checkbox? ==> v == Flag(input.checked)
    ensures input.Field? ==> (v.Number? <==> parseFloat(input.value).Some? && parseFloat(input.value).value != 0.0)
    ensures input.Field? && v.Number? ==> Some(v.n) == parseFloat(input.value)
    ensures input.Field? && !v.Number? ==> v == Text(input.value)
  {
    match input
    case Checkbox(c) => Flag(c)
    case Field(raw) =>
      match parseFloat(raw)
      case Some(x) => if x != 0.0 then Number(x) else Text(raw)
      case None => Text(raw)
  }

  /** `handleChange`: only the named field changes, and the saved notice goes away. */
  function HandleChange(st: State, name: string, input: Input, parseFloat: Js.StrToNum): (st': State)
    ensures st'.settings.Keys == st.settings.Keys + {name}
    ensures st'.settings[name] == NewValue(input, parseFloat)
    ensures forall k :: k in st.settings && k != name ==> st'.settings[k] == st.settings[k]
    ensures !st'.saved && st'.storage == st.storage
  {
    st.(settings := st.settings[name := NewValue(input, parseFloat)], saved := false)
  }

  /** A field whose number is 0 keeps its text: "0" is stored as a string. */
  lemma ZeroStaysText(st: State, name: string, parseFloat: Js.StrToNum)
    requires parseFloat("0") == Some(0.0)
    ensures HandleChange(st, name, Field("0"), parseFloat).settings[name] == Text("0")
  {
  }

  /** `handleSave`: store the current settings under the storage key and show the saved notice. */
  function HandleSave(st: State): (st': State)
    ensures st'.saved && st'.settings == st.settings
    ensures StorageKey in st'.storage && st'.storage[StorageKey] == st.settings
    ensures st'.storage.Keys == st.storage.Keys + {StorageKey}
    ensures forall k :: k in st.storage && k != StorageKey ==> st'.storage[k] == st.storage[k]
  {
    st.(storage := st.storage[StorageKey := st.settings], saved := true)
  }

  lemma SaveIdempotent(st: State)
    ensures HandleSave(HandleSave(st)) == HandleSave(st)
  {
  }

  /** `handleReset`: restore the defaults and drop the stored entry; the saved notice is left as it was. */
  function HandleReset(st: State): (st': State)
    ensures st'.settings == Initial
    ensures StorageKey !in st'.storage
    ensures st'.storage.Keys == st.storage.Keys - {StorageKey}
    ensures forall k :: k in st'.storage ==> st'.storage[k] == st.storage[k]
    ensures st'.saved == st.saved
  {
    st.(settings := ResetDefaults, storage := st.storage - {StorageKey})
  }

  /** Saving right after a reset stores the defaults. */
  lemma ResetThenSaveStoresDefaults(st: State)
    ensures HandleSave(HandleReset(st)).storage[StorageKey] == Initial
  {
  }

  /** All default settings are present: what the summary needs to read its thresholds. */
  predicate Complete(st: State) {
    Initial.Keys <= st.settings.Keys
  }

  /** One user action on the form. */
  datatype UserAction = Change(name: string, input: Input) | Save | Reset

  function Apply(st: State, a: UserAction, parseFloat: Js.StrToNum): State {
    match a
    case Change(name, input) => HandleChange(st, name, input, parseFloat)
    case Save => HandleSave(st)
    case Reset => HandleReset(st)
  }

  /** The state after a session of actions, in order. */
  function Run(st: State, actions: seq<UserAction>, parseFloat: Js.StrToNum): State
    decreases |actions|
  {
    if |actions| == 0 then st else Run(Apply(st, actions[0], parseFloat), actions[1..], parseFloat)
  }

  /**
   * No session loses a setting: from the mounted screen, whatever the user
   * changes, saves or resets, the summary can still read both thresholds.
   */
  lemma {:induction false} SessionKeepsComplete(st: State, actions: seq<UserAction>, parseFloat: Js.StrToNum)
    requires Complete(st)
    ensures Complete(Run(st, actions, parseFloat))
    decreases |actions|
  {
    if |actions| > 0 {
      var next := Apply(st, actions[0], parseFloat);
      assert Complete(next);
      SessionKeepsComplete(next, actions[1..], parseFloat);
    }
  }

  /** A session whose last action is a reset ends with the defaults, whatever came before. */
  lemma {:induction false} SessionEndingInReset(st: State, actions: seq<UserAction>, parseFloat: Js.StrToNum)
    ensures Run(st, actions + [Reset], parseFloat).settings == ResetDefaults
    decreases |actions|
  {
    if |actions| > 0 {
      assert (actions + [Reset])[1..] == actions[1..] + [Reset];
      SessionEndingInReset(Apply(st, actions[0], parseFloat), actions[1..], parseFloat);
    } else {
      assert Run(HandleReset(st), [], parseFloat) == HandleReset(st);
    }
  }

  // ---------------------------------------------------------------------------
  // The configuration summary

  /** What a `{...}` placeholder shows: a number or text. */
  datatype Shown = ShowNum(n: real) | ShowText(s: string)

  /** `{v}`: React prints numbers and strings and nothing for a boolean. */
  function Show(v: Setting): Shown {
    match v
    case Number(n) => ShowNum(n)
    case Text(s) => ShowText(s)
    case Flag(_) => ShowText("")
  }

  /** `{v + 1}`: a number is incremented, a string gets "1" appended, a boolean counts as 0 or 1. */
  function PlusOne(v: Setting): (r: Shown)
    ensures v.Number? ==> r == ShowNum(v.n + 1.0)
    ensures v.Text? ==> r == ShowText(v.s + "1")
  {
    match v
    case Number(n) => ShowNum(n + 1.0)
    case Text(s) => ShowText(s + "1")
    case Flag(b) => ShowNum(if b then 2.0 else 1.0)
  }

  datatype Band = Band(low: Shown, high: Shown)

  datatype Summary = Summary(safe: Band, medium: Band, high: Band)

  /** The Safe, Medium and High lines of the configuration summary. */
  function Bands(st: State): Summary
    requires Complete(st)
  {
    var safe := st.settings["safeThreshold"];
    var medium := st.settings["mediumThreshold"];
    Summary(
      Band(ShowNum(0.0), Show(safe)),
      Band(PlusOne(safe), Show(medium)),
      Band(PlusOne(medium), ShowNum(100.0)))
  }

  predicate InBand(x: int, b: Band) {
    b.low.ShowNum? && b.high.ShowNum? && b.low.n <= x as real <= b.high.n
  }

  /**
   * With whole-number thresholds in order, every score from 0 to 100 lies
   * in exactly one of the three displayed bands.
   */
  lemma BandsPartitionScores(st: State, a: int, b: int, x: int)
    requires Complete(st)
    requires st.settings["safeThreshold"] == Number(a as real)
    requires st.settings["mediumThreshold"] == Number(b as real)
    requires a <= b && 0 <= x <= 100
    ensures var s := Bands(st);
      && (InBand(x, s.safe) <==> x <= a)
      && (InBand(x, s.medium) <==> a < x <= b)
      && (InBand(x, s.high) <==> b < x)
      && (InBand(x, s.safe) || InBand(x, s.medium) || InBand(x, s.high))
      && !(InBand(x, s.safe) && InBand(x, s.medium))
      && !(InBand(x, s.medium) && InBand(x, s.high))
      && !(InBand(x, s.safe) && InBand(x, s.high))
  {
  }

  /** The starting summary shows 0-50, 51-70 and 71-100. */
  lemma InitialBands()
    ensures Bands(Start(map[])) == Summary(
      Band(ShowNum(0.0), ShowNum(50.0)), Band(ShowNum(51.0), ShowNum(70.0)), Band(ShowNum(71.0), ShowNum(100.0)))
  {
  }

  /** Nothing keeps the thresholds ordered: one edit can put Safe above Medium, and the bands then overlap. */
  lemma ThresholdsCanCross(parseFloat: Js.StrToNum)
    requires parseFloat("80") == Some(80.0)
    ensures var st := HandleChange(Start(map[]), "safeThreshold", Field("80"), parseFloat);
      && st.settings["safeThreshold"] == Number(80.0)
      && st.settings["mediumThreshold"] == Number(70.0)
      && InBand(75, Bands(st).safe) && InBand(75, Bands(st).high)
  {
  }

  /** A threshold kept as text is shown with "1" appended: "0" gives a Medium band starting at "01". */
  lemma TextThresholdConcatenates(parseFloat: Js.StrToNum)
    requires parseFloat("0") == Some(0.0)
    ensures var st := HandleChange(Start(map[]), "safeThreshold", Field("0"), parseFloat);
      Bands(st).medium.low == ShowText("01")
  {
  }
}
