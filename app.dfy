/**
 * The application controller: the current configuration, the history of
 * generated codes (most recent first, at most fifty, deduplicated against the
 * newest entry) and the storage slot that mirrors the history.
 */
module App {
  import opened Wrappers
  import opened Types
  import InputPanel

  /** The most entries the history keeps. */
  const HistoryLimit: nat := 50

  /** Length beyond which a derived label is cut. */
  const LabelLimit: nat := 30

  const Ellipsis: string := "..."

  /** The configuration shown when the application starts. */
  const InitialConfig: QRConfig := QRConfig("https://gemini.google.com", 1024, "#000000", "#ffffff", M, true)

  /**
   * The first settled save on an empty history adds the initial configuration,
   * labelled by its own content, which is short enough to be kept whole.
   */
  lemma InitialConfigFirstEntry(id: string, timestamp: int)
    ensures Appended([], InitialConfig, id, timestamp, None) ==
      [HistoryItem("https://gemini.google.com", 1024, "#000000", "#ffffff", M, true,
                   id, timestamp, Some("https://gemini.google.com"))]
  {
  }

  function Min(a: int, b: int): int { if a <= b then a else b }

  // ---------------------------------------------------------------------------
  // Labels

  /**
   * The label derived from a content: the content itself when it is at most
   * thirty characters long, otherwise its first thirty characters and "...".
   */
  function DefaultLabel(value: string): (caption: string)
    ensures |caption| == if |value| <= LabelLimit then |value| else LabelLimit + |Ellipsis|
    ensures caption[..Min(|value|, LabelLimit)] == value[..Min(|value|, LabelLimit)]
    ensures |value| <= LabelLimit ==> caption == value
    ensures |value| > LabelLimit ==> caption[LabelLimit..] == Ellipsis
    ensures caption == "" <==> value == ""
  {
    if |value| > LabelLimit then value[..LabelLimit] + Ellipsis else value
  }

  /** `label || <derived label>`: a missing or empty label falls back to the derived one. */
  function ResolveLabel(caption: Option<string>, value: string): (r: string)
    ensures caption.Some? && caption.value != "" ==> r == caption.value
    ensures caption.None? || caption.value == "" ==> r == DefaultLabel(value)
  {
    if caption.Some? && caption.value != "" then caption.value else DefaultLabel(value)
  }

  /** ASCII upper-casing of one character. */
  function UpperChar(ch: char): char {
    if 'a' <= ch <= 'z' then (ch as int - 32) as char else ch
  }

  /** `toUpperCase`, character by character. */
  function ToUpper(s: string): (r: string)
    ensures |r| == |s|
    ensures forall i :: 0 <= i < |s| ==> r[i] == UpperChar(s[i])
  {
    if s == [] then [] else [UpperChar(s[0])] + ToUpper(s[1..])
  }

  /** The category names as the label shows them. */
  function UpperTypeName(kind: AIType): string {
    match kind
    case Text => "TEXT"
    case Url => "URL"
    case Wifi => "WIFI"
    case Email => "EMAIL"
    case Phone => "PHONE"
    case Sms => "SMS"
    case Vcard => "VCARD"
    case Geo => "GEO"
    case Event => "EVENT"
  }

  /** Upper-casing a category's wire name gives the name in the table above. */
  lemma ToUpperTypeName(kind: AIType)
    ensures ToUpper(TypeName(kind)) == UpperTypeName(kind)
  {
  }

  /** The history label of a formatting-service answer: `<TYPE>: <explanation>`. */
  function AILabel(result: AIResponse): (caption: string)
    ensures caption == UpperTypeName(result.kind) + ": " + result.explanation
    ensures caption != ""
  {
    ToUpperTypeName(result.kind);
    ToUpper(TypeName(result.kind)) + ": " + result.explanation
  }

  /** A service answer's label is always used verbatim, never replaced by the derived one. */
  lemma AILabelUsedVerbatim(result: AIResponse, value: string)
    ensures ResolveLabel(Some(AILabel(result)), value) == AILabel(result)
  {
  }

  /** No two categories' label names share their first two letters. */
  lemma UpperTypeNamesDiffer(a: AIType, b: AIType)
    requires a != b
    ensures UpperTypeName(a)[..2] != UpperTypeName(b)[..2]
  {
    var x, y := UpperTypeName(a), UpperTypeName(b);
    assert x[0] != y[0] || x[1] != y[1];
    assert x[..2][0] == x[0] && x[..2][1] == x[1];
    assert y[..2][0] == y[0] && y[..2][1] == y[1];
  }

  /** The label determines the category and the explanation it was built from. */
  lemma AILabelInjective(a: AIResponse, b: AIResponse)
    ensures AILabel(a) == AILabel(b) <==> a.kind == b.kind && a.explanation == b.explanation
  {
    if AILabel(a) == AILabel(b) {
      var na, nb := UpperTypeName(a.kind), UpperTypeName(b.kind);
      assert AILabel(a)[..2] == na[..2];
      assert AILabel(b)[..2] == nb[..2];
      if a.kind != b.kind {
        UpperTypeNamesDiffer(a.kind, b.kind);
      }
      assert AILabel(a)[|na| + 2..] == a.explanation;
      assert AILabel(b)[|nb| + 2..] == b.explanation;
    }
  }

  // ---------------------------------------------------------------------------
  // History entries

  /** The new entry: the configuration spread out, plus id, timestamp and label. */
  function NewItem(cfg: QRConfig, id: string, timestamp: int, caption: Option<string>): (item: HistoryItem)
    ensures Extends(item, cfg)
    ensures item.id == id && item.timestamp == timestamp
    ensures item.caption == Some(ResolveLabel(caption, cfg.value))
  {
    HistoryItem(cfg.value, cfg.size, cfg.fgColor, cfg.bgColor, cfg.level, cfg.includeMargin,
                id, timestamp, Some(ResolveLabel(caption, cfg.value)))
  }

  /** Loading an entry: drop `id`, `timestamp` and `label`, keep the rest. */
  function LoadedConfig(item: HistoryItem): (cfg: QRConfig)
    ensures Extends(item, cfg)
  {
    QRConfig(item.value, item.size, item.fgColor, item.bgColor, item.level, item.includeMargin)
  }

  /** Loading an entry built from a configuration gives that configuration back. */
  lemma LoadNewItemRoundTrip(cfg: QRConfig, id: string, timestamp: int, caption: Option<string>)
    ensures LoadedConfig(NewItem(cfg, id, timestamp, caption)) == cfg
  {
  }

  /** An entry is its loaded configuration plus its own bookkeeping fields. */
  lemma ItemIsConfigPlusFields(item: HistoryItem)
    ensures item == HistoryItem(LoadedConfig(item).value, LoadedConfig(item).size,
                                LoadedConfig(item).fgColor, LoadedConfig(item).bgColor,
                                LoadedConfig(item).level, LoadedConfig(item).includeMargin,
                                item.id, item.timestamp, item.caption)
  {
  }

  // ---------------------------------------------------------------------------
  // The history list

  /** The append is skipped when the newest entry already holds this content. */
  predicate IsDuplicate(history: seq<HistoryItem>, cfg: QRConfig) {
    |history| > 0 && history[0].value == cfg.value
  }

  /** `slice(0, n)`: the first `n` elements, or all of them when there are fewer. */
  function Take<T>(s: seq<T>, n: nat): (r: seq<T>)
    ensures |r| == Min(|s|, n)
    ensures r == s[..|r|]
  {
    if |s| <= n then s else s[..n]
  }

  /** The history after asking to add `cfg`. */
  function Appended(history: seq<HistoryItem>, cfg: QRConfig, id: string, timestamp: int,
                    caption: Option<string>): (r: seq<HistoryItem>)
    ensures IsDuplicate(history, cfg) ==> r == history
    ensures !IsDuplicate(history, cfg) ==>
      && |r| == Min(|history| + 1, HistoryLimit)
      && r[0] == NewItem(cfg, id, timestamp, caption)
      && forall i :: 0 < i < |r| ==> r[i] == history[i - 1]
    ensures |r| > 0 && r[0].value == cfg.value
  {
    if IsDuplicate(history, cfg) then history
    else Take([NewItem(cfg, id, timestamp, caption)] + history, HistoryLimit)
  }

  /** No two neighbouring entries hold the same content. */
  predicate NoAdjacentDuplicates(history: seq<HistoryItem>) {
    forall i :: 0 < i < |history| ==> history[i - 1].value != history[i].value
  }

  /** What every history built by this controller satisfies. */
  predicate HistoryInvariant(history: seq<HistoryItem>) {
    |history| <= HistoryLimit && NoAdjacentDuplicates(history)
  }

  /** An append keeps the history within fifty entries and free of adjacent duplicates. */
  lemma AppendKeepsInvariant(history: seq<HistoryItem>, cfg: QRConfig, id: string, timestamp: int,
                             caption: Option<string>)
    requires HistoryInvariant(history)
    ensures HistoryInvariant(Appended(history, cfg, id, timestamp, caption))
  {
  }

  /** Adding a content the newest entry already holds, whatever its other fields, is a no-op. */
  lemma ReappendIsNoOp(history: seq<HistoryItem>, cfg: QRConfig, id: string, timestamp: int,
                       caption: Option<string>, again: QRConfig, id': string, timestamp': int,
                       caption': Option<string>)
    requires again.value == cfg.value
    ensures var once := Appended(history, cfg, id, timestamp, caption);
      Appended(once, again, id', timestamp', caption') == once
  {
  }

  /**
   * Deduplication looks at the newest entry only: a content held by the
   * second entry is added again, so it then occurs twice.
   */
  lemma DeduplicationIsHeadOnly(history: seq<HistoryItem>, cfg: QRConfig, id: string, timestamp: int,
                                caption: Option<string>)
    requires 2 <= |history|
    requires history[0].value != cfg.value && history[1].value == cfg.value
    ensures var r := Appended(history, cfg, id, timestamp, caption);
      r[0].value == cfg.value && r[2].value == cfg.value
  {
  }

  /** The newest entry of a fresh append loads back as the appended configuration. */
  lemma LoadNewestRoundTrip(history: seq<HistoryItem>, cfg: QRConfig, id: string, timestamp: int,
                            caption: Option<string>)
    requires !IsDuplicate(history, cfg)
    ensures LoadedConfig(Appended(history, cfg, id, timestamp, caption)[0]) == cfg
  {
  }

  /** One call of `addToHistory`, with the id and time it would draw. */
  datatype AddRequest = AddRequest(cfg: QRConfig, id: string, timestamp: int, caption: Option<string>)

  /** The history after a series of additions, oldest request first. */
  function Replay(history: seq<HistoryItem>, requests: seq<AddRequest>): (r: seq<HistoryItem>)
    ensures requests == [] ==> r == history
    ensures |r| <= if |history| <= HistoryLimit then HistoryLimit else |history|
    decreases |requests|
  {
    if requests == [] then history
    else
      var q := requests[0];
      Replay(Appended(history, q.cfg, q.id, q.timestamp, q.caption), requests[1..])
  }

  /**
   * Any series of additions keeps the history within fifty entries and free of
   * adjacent duplicates, and the newest entry holds the last content added.
   */
  lemma {:induction false} ReplayKeepsInvariant(history: seq<HistoryItem>, requests: seq<AddRequest>)
    requires HistoryInvariant(history)
    ensures HistoryInvariant(Replay(history, requests))
    ensures requests != [] ==>
      (|Replay(history, requests)| > 0 &&
       Replay(history, requests)[0].value == requests[|requests| - 1].cfg.value)
    decreases |requests|
  {
    if requests != [] {
      var q := requests[0];
      var next := Appended(history, q.cfg, q.id, q.timestamp, q.caption);
      AppendKeepsInvariant(history, q.cfg, q.id, q.timestamp, q.caption);
      ReplayKeepsInvariant(next, requests[1..]);
      if requests[1..] != [] {
        assert requests[1..][|requests[1..]| - 1] == requests[|requests| - 1];
      }
    }
  }

  /** The history read back from the storage slot on start-up; an absent record gives none. */
  function Restored(stored: Option<seq<HistoryItem>>): (history: seq<HistoryItem>)
    ensures stored.None? ==> history == []
    ensures stored.Some? ==> history == stored.value
  {
    match stored
    case None => []
    case Some(items) => items
  }

  // ---------------------------------------------------------------------------
  // The controller state

  class AppState {
    /** The configuration being edited and previewed. */
    var config: QRConfig
    /** The history, newest first. */
    var history: seq<HistoryItem>
    /** The `qr_history` storage slot; `None` when no record is stored. */
    var stored: Option<seq<HistoryItem>>
    /** Whether the history panel is open. */
    var showHistory: bool

    /** The storage slot always holds exactly the in-memory history. */
    ghost predicate Valid()
      reads this
    {
      history == Restored(stored)
    }

    /** Start-up: the initial configuration, and the history read from the slot. */
    constructor (saved: Option<seq<HistoryItem>>)
      ensures Valid()
      ensures config == InitialConfig && stored == saved && !showHistory
      ensures history == Restored(saved)
    {
      config := InitialConfig;
      history := Restored(saved);
      stored := saved;
      showHistory := false;
    }

    /** `addToHistory`: skip a duplicate; otherwise prepend, cut to fifty and persist. */
    method AddToHistory(cfg: QRConfig, caption: Option<string>, id: string, timestamp: int)
      requires Valid()
      modifies this`history, this`stored
      ensures Valid()
      ensures history == Appended(old(history), cfg, id, timestamp, caption)
      ensures IsDuplicate(old(history), cfg) ==> stored == old(stored)
      ensures !IsDuplicate(old(history), cfg) ==> stored == Some(history)
      ensures HistoryInvariant(old(history)) ==> HistoryInvariant(history)
    {
      if IsDuplicate(history, cfg) {
        return;
      }
      var newHistory := Take([NewItem(cfg, id, timestamp, caption)] + history, HistoryLimit);
      history := newHistory;
      stored := Some(newHistory);
      if HistoryInvariant(old(history)) {
        AppendKeepsInvariant(old(history), cfg, id, timestamp, caption);
      }
    }

    /** The settled debounced save: adds the current configuration when its content is non-empty. */
    method SaveSettled(id: string, timestamp: int)
      requires Valid()
      modifies this`history, this`stored
      ensures Valid()
      ensures config.value == "" ==> history == old(history) && stored == old(stored)
      ensures config.value != "" ==> history == Appended(old(history), config, id, timestamp, None)
      ensures HistoryInvariant(old(history)) ==> HistoryInvariant(history)
    {
      if config.value != "" {
        AddToHistory(config, None, id, timestamp);
      }
    }

    /** A form edit: the form's single-field copy replaces the configuration. */
    method Edit(field: InputPanel.Field)
      requires Valid()
      modifies this`config
      ensures Valid()
      ensures config == InputPanel.HandleChange(old(config), field)
    {
      config := InputPanel.HandleChange(config, field);
    }

    /**
     * `handleAIResult`: the answer's text replaces the content, and the result
     * is added to the history under the label `<TYPE>: <explanation>`.
     */
    method HandleAIResult(result: AIResponse, id: string, timestamp: int)
      requires Valid()
      modifies this`config, this`history, this`stored
      ensures Valid()
      ensures config == InputPanel.HandleChange(old(config), InputPanel.Value(result.formattedString))
      ensures history == Appended(old(history), config, id, timestamp, Some(AILabel(result)))
      ensures history[0].value == result.formattedString
      ensures !IsDuplicate(old(history), config) ==> history[0].caption == Some(AILabel(result))
      ensures HistoryInvariant(old(history)) ==> HistoryInvariant(history)
    {
      config := config.(value := result.formattedString);
      AddToHistory(config, Some(AILabel(result)), id, timestamp);
    }

    /** `loadFromHistory`: the entry without its bookkeeping fields becomes the configuration. */
    method LoadFromHistory(item: HistoryItem)
      requires Valid()
      modifies this`config, this`showHistory
      ensures Valid()
      ensures config == LoadedConfig(item) && Extends(item, config)
      ensures !showHistory
    {
      config := LoadedConfig(item);
      showHistory := false;
    }

    /** `clearHistory`: empty the list and remove the stored record. */
    method ClearHistory()
      modifies this`history, this`stored
      ensures Valid()
      ensures history == [] && stored == None
    {
      history := [];
      stored := None;
    }
  }

  /**
   * After a service answer, the debounced save that the content change
   * schedules adds nothing, and a restart after a clear starts empty.
   */
  method AnswerThenSettle(app: AppState, result: AIResponse, id: string, timestamp: int,
                          id': string, timestamp': int)
    returns (answered: seq<HistoryItem>, settled: seq<HistoryItem>, restarted: seq<HistoryItem>)
    requires app.Valid()
    modifies app
    ensures settled == answered && |answered| > 0 && answered[0].value == result.formattedString
    ensures restarted == []
  {
    app.HandleAIResult(result, id, timestamp);
    answered := app.history;
    app.SaveSettled(id', timestamp');
    settled := app.history;
    app.ClearHistory();
    var next := new AppState(app.stored);
    restarted := next.history;
  }
}
