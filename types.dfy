/**
 * The data types of the generator: the error-correction tier, the QR
 * configuration, a history entry (a configuration plus bookkeeping fields)
 * and the answer of the natural-language formatting service.
 */
module Types {
  import opened Wrappers

  /** Error-correction tier of a QR symbol, from least to most redundant. */
  datatype Level = L | M | Q | H

  /** The string each tier stands for at run time (the enum is string-valued). */
  function LevelCode(level: Level): (code: string)
    ensures |code| == 1
  {
    match level
    case L => "L"
    case M => "M"
    case Q => "Q"
    case H => "H"
  }

  /** The tier whose run-time string is `code`, if there is one. */
  function ParseLevel(code: string): (r: Option<Level>)
    ensures r.Some? ==> LevelCode(r.value) == code
    ensures r.None? ==> forall level :: LevelCode(level) != code
  {
    if code == "L" then Some(L)
    else if code == "M" then Some(M)
    else if code == "Q" then Some(Q)
    else if code == "H" then Some(H)
    else None
  }

  /** Every tier's string reads back as that tier: the four strings are distinct. */
  lemma LevelCodeRoundTrip(level: Level)
    ensures ParseLevel(LevelCode(level)) == Some(level)
  {
  }

  /** The rendering configuration of one QR code. */
  datatype QRConfig = QRConfig(
    value: string,
    size: int,
    fgColor: string,
    bgColor: string,
    level: Level,
    includeMargin: bool)

  /** A history entry: every configuration field, plus an id, a creation time and an optional
      display label (`caption`; `label` is a Dafny keyword). */
  datatype HistoryItem = HistoryItem(
    value: string,
    size: int,
    fgColor: string,
    bgColor: string,
    level: Level,
    includeMargin: bool,
    id: string,
    timestamp: int,
    caption: Option<string>)

  /** `item` carries the six fields of `cfg` unchanged. */
  predicate Extends(item: HistoryItem, cfg: QRConfig) {
    && item.value == cfg.value
    && item.size == cfg.size
    && item.fgColor == cfg.fgColor
    && item.bgColor == cfg.bgColor
    && item.level == cfg.level
    && item.includeMargin == cfg.includeMargin
  }

  /** The nine categories the formatting service classifies a request into. */
  datatype AIType = Text | Url | Wifi | Email | Phone | Sms | Vcard | Geo | Event

  /** The service's answer; `kind` is the response's `type` member. */
  datatype AIResponse = AIResponse(formattedString: string, explanation: string, kind: AIType)

  /** The lower-case name each category has on the wire. */
  function TypeName(kind: AIType): (name: string)
    ensures 3 <= |name| <= 5
    ensures forall i :: 0 <= i < |name| ==> 'a' <= name[i] <= 'z'
  {
    match kind
    case Text => "text"
    case Url => "url"
    case Wifi => "wifi"
    case Email => "email"
    case Phone => "phone"
    case Sms => "sms"
    case Vcard => "vcard"
    case Geo => "geo"
    case Event => "event"
  }

  /** All categories, in the order the response schema lists them. */
  const AllTypes: seq<AIType> := [Text, Url, Wifi, Email, Phone, Sms, Vcard, Geo, Event]

  /** There are exactly nine categories, each listed once, with pairwise distinct names. */
  lemma NineTypes(kind: AIType, other: AIType)
    ensures |AllTypes| == 9 && kind in AllTypes
    ensures forall i, j :: 0 <= i < j < |AllTypes| ==> AllTypes[i] != AllTypes[j]
    ensures TypeName(kind) == TypeName(other) <==> kind == other
  {
  }
}
