# QR code generator: configuration, preview options and history

This project models the state logic of a browser QR code generator (GenQR) in Dafny.
The user edits a QR configuration: content, pixel size, foreground and background colours,
error-correction tier and a margin switch. A preview hands that configuration to an external
QR encoder. Each settled content, and each answer of a natural-language formatting service,
is added to a history. The history is newest first, holds at most fifty entries, skips an
entry whose content equals the newest one, and is mirrored in a browser storage slot.

Modules, one per source file:

- `Types` (`types.dfy`, from `types.ts`): the error-correction tier, `QRConfig`, `HistoryItem`
  and `AIResponse` as datatypes. The `label` member of a history entry is the field `caption`,
  and the `type` member of a service answer is the field `kind`, because both words are
  reserved in Dafny.
- `InputPanel` (`input_panel.dfy`, from `components/InputPanel.tsx`): the single-field update
  that every control performs, the content box, the margin switch and the tier selector.
- `QRPreview` (`qr_preview.dfy`, from `components/QRPreview.tsx`): the text and the options
  objects handed to the encoder on the raster path and on the SVG path.
- `App` (`app.dfy`, from `App.tsx`): the label rules and the history list as functions. The
  class `AppState` holds the fields `config`, `history`, `stored` (the `qr_history` slot) and
  `showHistory`. Its methods mirror `addToHistory`, the debounced save, `handleAIResult`,
  `loadFromHistory` and `clearHistory`. Its invariant `Valid()` says that the slot always
  holds exactly the in-memory history.
- `Wrappers` (`wrappers.dfy`): an `Option` type for optional values.

Ids (`crypto.randomUUID`) and timestamps (`Date.now`) are parameters supplied by the caller.
The storage slot is a field: `None` stands for no record.

Three facts about the code that the model keeps:

- The service answer is not validated locally: `services/geminiService.ts:62` is a cast
  (`JSON.parse(text) as AIResponse`), so nothing here claims any validation of answers.
- A history entry carries all six configuration fields.
- `size` is never checked to be positive, so the model does not require it.

## Model

| member | source | states |
|---|---|---|
| Types.LevelCode | types.ts:1-6 | each tier stands for a one-character string at run time |
| Types.ParseLevel | types.ts:1-6 | a string is read as a tier exactly when it is that tier's run-time string; otherwise no tier has it |
| Types.LevelCodeRoundTrip | types.ts:1-6 | reading back a tier's string gives that tier, so the four strings are distinct |
| Types.TypeName | types.ts:26 | each category's wire name is 3 to 5 lower-case ASCII letters |
| Types.NineTypes | types.ts:23-27 | there are exactly nine categories, each listed once; two categories have the same name only if they are the same category |
| InputPanel.Get | types.ts:8-15 | reading field `key` gives a value tagged with that key |
| InputPanel.Extensionality | types.ts:8-15 | two configurations are equal exactly when every field agrees |
| InputPanel.HandleChange | components/InputPanel.tsx:11-13 | the edited field takes the new value and every other field keeps its value |
| InputPanel.HandleChangeSameValue | components/InputPanel.tsx:11-13 | writing a field's current value returns an equal configuration |
| InputPanel.HandleChangeOverwrites | components/InputPanel.tsx:11-13 | a second edit of the same field overwrites the first |
| InputPanel.HandleChangeCommutes | components/InputPanel.tsx:11-13 | edits of different fields commute |
| InputPanel.EditContent | components/InputPanel.tsx:23-25 | the content becomes the typed text verbatim and nothing else changes |
| InputPanel.ToggleMargin | components/InputPanel.tsx:86-87 | the margin switch negates `includeMargin` and changes nothing else |
| InputPanel.ToggleMarginTwice | components/InputPanel.tsx:87 | pressing the margin switch twice restores the configuration |
| InputPanel.LevelOptionsAreTheTiers | components/InputPanel.tsx:72-81 | every option value is the string of a tier, the values are distinct and every tier has an option |
| InputPanel.LevelOptions | components/InputPanel.tsx:77-80 | the four options of the tier selector: values L, M, Q, H with their captions |
| InputPanel.SelectLevel | components/InputPanel.tsx:72-81 | choosing an option stores the tier whose string is that option's value and changes nothing else |
| QRPreview.MarginOf | components/QRPreview.tsx:24 | the margin is 4 exactly when the switch is on and 0 exactly when it is off |
| QRPreview.EncodedText | components/QRPreview.tsx:33-37 | the encoder text is never empty: it is the content when that is non-empty, else one space |
| QRPreview.RasterOptionsOf | components/QRPreview.tsx:22-30 | the options object of the canvas and PNG path |
| QRPreview.SvgOptionsOf | components/QRPreview.tsx:57-65 | the options object of the SVG path, with `type: 'svg'` |
| QRPreview.RasterRequest | components/QRPreview.tsx:33-37 | the canvas call and the PNG data-URL call: the substituted text with the raster options |
| QRPreview.SvgRequest | components/QRPreview.tsx:57-65 | the SVG call: the substituted text with the SVG options |
| QRPreview.RasterOptionsExact | components/QRPreview.tsx:22-30 | width is the size, colours and tier pass through, margin is 4 or 0; two configurations get equal options exactly when all fields except the content agree |
| QRPreview.SvgMatchesRaster | components/QRPreview.tsx:57-65 | the SVG path uses the same text, width, margin, colours and tier as the raster path |
| QRPreview.EncodedTextCollisions | components/QRPreview.tsx:33-37 | two contents give the same encoder text exactly when they are equal or are the empty string and a single space |
| QRPreview.EmptyRendersAsSpace | components/QRPreview.tsx:33-65 | an empty content and a single space produce identical encoder calls on both paths |
| App.InitialConfig | App.tsx:8-15 | the start-up configuration: `https://gemini.google.com`, 1024 pixels, black on white, tier M, margin on |
| App.InitialConfigFirstEntry | App.tsx:8-15 | on an empty history the first settled save adds the initial configuration, labelled by its whole content |
| App.DefaultLabel | App.tsx:43 | the derived label keeps the first min(n, 30) characters of the content; it is the content when n <= 30, else 33 long and ending in "..."; it is empty only for an empty content |
| App.ResolveLabel | App.tsx:43 | a non-empty supplied label is used verbatim; a missing or empty one is replaced by the derived label |
| App.ToUpper | App.tsx:64 | upper-casing keeps the length and maps each character separately |
| App.ToUpperTypeName | App.tsx:64 | upper-casing a category's wire name gives TEXT, URL, WIFI, EMAIL, PHONE, SMS, VCARD, GEO or EVENT |
| App.AILabel | App.tsx:64 | the service label is the upper-case category, then ": ", then the explanation; it is never empty |
| App.AILabelUsedVerbatim | App.tsx:43-64 | the service label is always kept as supplied, never replaced by the derived label |
| App.AILabelInjective | App.tsx:64 | two service labels are equal exactly when category and explanation are equal |
| App.NewItem | App.tsx:39-44 | the new entry carries the six configuration fields unchanged, the given id and time, and the resolved label |
| App.LoadedConfig | App.tsx:71-72 | loading an entry keeps its six configuration fields |
| App.LoadNewItemRoundTrip | App.tsx:39-72 | loading an entry built from a configuration gives that configuration back |
| App.ItemIsConfigPlusFields | types.ts:17-21 | an entry is exactly its loaded configuration plus its id, timestamp and label |
| App.Take | App.tsx:46 | `slice(0, n)` gives the first min(length, n) elements |
| App.IsDuplicate | App.tsx:37 | an addition is skipped when the history is non-empty and its newest entry holds the same content |
| App.Appended | App.tsx:35-49 | a duplicate of the newest content leaves the history unchanged; otherwise the new entry comes first, followed by the old entries in order, with min(n + 1, 50) entries; the newest entry always holds the added content |
| App.AppendKeepsInvariant | App.tsx:37-46 | an append keeps the history within 50 entries with no two neighbouring entries holding the same content |
| App.ReappendIsNoOp | App.tsx:37 | adding the same content again right after an append changes nothing, whatever its other fields |
| App.DeduplicationIsHeadOnly | App.tsx:37 | deduplication looks at the newest entry only: content held by the second entry is added again and then occurs twice |
| App.LoadNewestRoundTrip | App.tsx:39-72 | after a non-duplicate append, loading the newest entry gives the appended configuration |
| App.Replay | App.tsx:35-49 | a series of additions applied oldest first; it never grows a history beyond 50 entries, nor one already longer |
| App.ReplayKeepsInvariant | App.tsx:35-49 | any series of appends keeps the history within 50 entries with no adjacent duplicates, and its newest entry holds the last content added |
| App.Restored | App.tsx:24-33 | start-up reads the stored history, or none when no record is stored |
| App.AppState.constructor | App.tsx:8-33 | start-up sets the initial configuration, takes the history from the slot and keeps the slot in sync |
| App.AppState.AddToHistory | App.tsx:35-49 | the history becomes the append result; a duplicate leaves the slot alone, otherwise the slot holds the new history; the invariant is kept |
| App.AppState.SaveSettled | App.tsx:53-57 | the settled save adds the configuration only when its content is non-empty |
| App.AppState.Edit | App.tsx:132 | a form edit replaces the configuration by the form's single-field copy |
| App.AppState.HandleAIResult | App.tsx:62-67 | the content, and only the content, becomes the answer's text; the history gets that configuration under the label `<TYPE>: <explanation>` |
| App.AppState.LoadFromHistory | App.tsx:69-74 | the configuration becomes the entry without id, timestamp and label, and the history panel closes |
| App.AppState.ClearHistory | App.tsx:76-79 | the history becomes empty and the stored record is removed |
| App.AnswerThenSettle | App.tsx:52-79 | a scenario: after a service answer the settled save adds nothing, and a restart after a clear starts with an empty history |

## Left out

- The formatting-service client (`services/geminiService.ts`) and its panel
  (`components/AIPanel.tsx`) are a network call with loading and error state. The model takes
  the service's answer as an input to `HandleAIResult`.
- QR symbol encoding itself is done by an external library. Only the text and options handed
  to it are modelled. Not modelled: the canvas and data-URL state, and encoder failures. The
  preview path catches and logs those failures; the SVG download ignores them silently
  (`components/QRPreview.tsx:66-67`), so no file is produced.
- The model holds browser storage as the field `stored`. Not modelled: JSON serialisation,
  `JSON.parse` of the saved record, and its failure path, which logs and keeps an empty
  history. The constructor takes the already-read record, and an unreadable record counts as
  no record.
- The two-second `setTimeout` debounce and its cancellation are timing. `SaveSettled` models
  only the body that runs once the timer fires.
- Stale React closures are not modelled. The `App.AppState.SaveSettled` and
  `App.AppState.ClearHistory` lines below give the consequences of the debounced save's stale
  `history` and `config`. Two
  `addToHistory` calls in one render would both see the old `history`. `handleAIResult` also
  reads `config` from its closure while updating through `prev`. The model is sequential, so
  both read the same configuration.
- Clipboard copy, file downloads, object URLs and links (`components/QRPreview.tsx:48-56`
  and `66-94`) are browser side effects. The SVG options built between them are modelled.
- JSX markup, styling, the standard/AI tab switch and opening or closing the history panel
  by its buttons are view wiring.
- App.ToUpper: upper-cases ASCII letters only, while `toUpperCase` covers all of Unicode. The
  service's response schema restricts `type` to the nine lower-case ASCII category names, where
  the two agree; this is not checked locally.
- App.AppState.HandleAIResult: assumes the answer conforms to the service's schema (a
  `formattedString`, an `explanation` and one of the nine `type` values). In the source, a
  `type` outside the nine just gives a different label prefix. A missing `type` throws at
  `App.tsx:64` after the content update of `App.tsx:63` is queued, so the content changes but
  no history entry is added. The model cannot express that partial update.
- App.AppState.SaveSettled: the save effect depends only on `config.value` (`App.tsx:60`), so
  the timer runs the `addToHistory` of the render in which the content last changed, with that
  render's `history`. About two seconds after start-up, unless the content is edited first,
  that `history` is the empty list of `App.tsx:20`. The initial configuration then passes the
  duplicate check, and the restored history and the stored record are both replaced by a
  single entry. The model's `SaveSettled` instead appends to the restored history. The same
  closure also holds a stale `config`: a size, colour, tier or margin edit made within two
  seconds of a content edit does not reach the saved entry, whereas the model's `Edit`
  followed by `SaveSettled` records it.
- App.AppState.ClearHistory: for the same reason, a clear made within two seconds of a content
  edit is undone when the pending timer fires. It is not undone when the edited content is
  empty, or when it equals the newest entry's content at that edit. Otherwise the timer
  prepends the edited configuration to the history as it stood at the edit, and rewrites the
  slot. The model's `ClearHistory` followed by `SaveSettled` appends to the empty list instead.
- App.DefaultLabel: counts characters, while JavaScript's `length` and `substring` count
  UTF-16 code units. A cut inside a surrogate pair is therefore not modelled.
- InputPanel.HandleChange: takes a field name paired with a value of that field's type.
  The source accepts `any` value for any key.
