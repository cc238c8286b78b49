/**
 * The manual input form. Every control reports one edited field; the form
 * answers with a copy of the configuration in which only that field differs.
 */
module InputPanel {
  import opened Types

  /** The names of the configuration's fields (`keyof QRConfig`). */
  datatype Key = ValueKey | SizeKey | FgColorKey | BgColorKey | LevelKey | IncludeMarginKey

  /** A field name together with a value of that field's type. */
  datatype Field =
    | Value(text: string)
    | Size(pixels: int)
    | FgColor(fg: string)
    | BgColor(bg: string)
    | ErrorLevel(level: Level)
    | IncludeMargin(on: bool)

  function KeyOf(field: Field): Key {
    match field
    case Value(_) => ValueKey
    case Size(_) => SizeKey
    case FgColor(_) => FgColorKey
    case BgColor(_) => BgColorKey
    case ErrorLevel(_) => LevelKey
    case IncludeMargin(_) => IncludeMarginKey
  }

  /** The current value of field `key` of `cfg`. */
  function Get(cfg: QRConfig, key: Key): (field: Field)
    ensures KeyOf(field) == key
  {
    match key
    case ValueKey => Value(cfg.value)
    case SizeKey => Size(cfg.size)
    case FgColorKey => FgColor(cfg.fgColor)
    case BgColorKey => BgColor(cfg.bgColor)
    case LevelKey => ErrorLevel(cfg.level)
    case IncludeMarginKey => IncludeMargin(cfg.includeMargin)
  }

  /** Two configurations are equal exactly when they agree on every field. */
  lemma Extensionality(a: QRConfig, b: QRConfig)
    ensures a == b <==> forall key :: Get(a, key) == Get(b, key)
  {
    if forall key :: Get(a, key) == Get(b, key) {
      assert Get(a, ValueKey) == Get(b, ValueKey);
      assert Get(a, SizeKey) == Get(b, SizeKey);
      assert Get(a, FgColorKey) == Get(b, FgColorKey);
      assert Get(a, BgColorKey) == Get(b, BgColorKey);
      assert Get(a, LevelKey) == Get(b, LevelKey);
      assert Get(a, IncludeMarginKey) == Get(b, IncludeMarginKey);
    }
  }

  /** The spread copy `{ ...config, [key]: value }` handed to the change callback. */
  function HandleChange(cfg: QRConfig, field: Field): (r: QRConfig)
    ensures Get(r, KeyOf(field)) == field
    ensures forall key :: key != KeyOf(field) ==> Get(r, key) == Get(cfg, key)
  {
    match field
    case Value(text) => cfg.(value := text)
    case Size(pixels) => cfg.(size := pixels)
    case FgColor(fg) => cfg.(fgColor := fg)
    case BgColor(bg) => cfg.(bgColor := bg)
    case ErrorLevel(level) => cfg.(level := level)
    case IncludeMargin(on) => cfg.(includeMargin := on)
  }

  /** Writing a field's current value back gives an equal configuration. */
  lemma HandleChangeSameValue(cfg: QRConfig, key: Key)
    ensures HandleChange(cfg, Get(cfg, key)) == cfg
  {
  }

  /** A second edit of the same field overwrites the first. */
  lemma HandleChangeOverwrites(cfg: QRConfig, first: Field, second: Field)
    requires KeyOf(first) == KeyOf(second)
    ensures HandleChange(HandleChange(cfg, first), second) == HandleChange(cfg, second)
  {
  }

  /** Edits of different fields commute. */
  lemma HandleChangeCommutes(cfg: QRConfig, f: Field, g: Field)
    requires KeyOf(f) != KeyOf(g)
    ensures HandleChange(HandleChange(cfg, f), g) == HandleChange(HandleChange(cfg, g), f)
  {
  }

  /** The content textarea: the text is stored as typed, with no trimming. */
  function EditContent(cfg: QRConfig, text: string): (r: QRConfig)
    ensures r.value == text
    ensures forall key :: key != ValueKey ==> Get(r, key) == Get(cfg, key)
  {
    HandleChange(cfg, Value(text))
  }

  /** The margin switch: stores the negation of the current flag. */
  function ToggleMargin(cfg: QRConfig): (r: QRConfig)
    ensures r.includeMargin != cfg.includeMargin
    ensures forall key :: key != IncludeMarginKey ==> Get(r, key) == Get(cfg, key)
  {
    HandleChange(cfg, IncludeMargin(!cfg.includeMargin))
  }

  /** Pressing the margin switch twice restores the configuration. */
  lemma ToggleMarginTwice(cfg: QRConfig)
    ensures ToggleMargin(ToggleMargin(cfg)) == cfg
  {
  }

  /** One `<option>` of the error-correction selector: its `value` attribute and its caption. */
  datatype LevelOption = LevelOption(code: string, caption: string)

  const LevelOptions: seq<LevelOption> := [
    LevelOption("L", "Low (7%)"),
    LevelOption("M", "Medium (15%)"),
    LevelOption("Q", "Quartile (25%)"),
    LevelOption("H", "High (30%)")
  ]

  /** Each option's value is the run-time string of one tier, and each tier has one option. */
  lemma LevelOptionsAreTheTiers(level: Level)
    ensures forall i :: 0 <= i < |LevelOptions| ==> ParseLevel(LevelOptions[i].code).Some?
    ensures exists i :: 0 <= i < |LevelOptions| && LevelOptions[i].code == LevelCode(level)
    ensures forall i, j :: 0 <= i < j < |LevelOptions| ==> LevelOptions[i].code != LevelOptions[j].code
  {
    var i := match level case L => 0 case M => 1 case Q => 2 case H => 3;
    assert LevelOptions[i].code == LevelCode(level);
  }

  /**
   * Choosing the option at position `choice`: the selector hands its option's
   * value to the change callback as the new tier.
   */
  function SelectLevel(cfg: QRConfig, choice: nat): (r: QRConfig)
    requires choice < |LevelOptions|
    ensures LevelCode(r.level) == LevelOptions[choice].code
    ensures forall key :: key != LevelKey ==> Get(r, key) == Get(cfg, key)
  {
    LevelOptionsAreTheTiers(L);
    HandleChange(cfg, ErrorLevel(ParseLevel(LevelOptions[choice].code).value))
  }
}
