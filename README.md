# whatsweb-evolve-connect: session and settings logic in Dafny

A model of the two pieces of state logic in the web client for the Evolution API messaging
gateway, with the browser replaced by explicit inputs:

- **The conversation view** (`src/components/WhatsAppWeb.tsx`). It holds a fixed roster of
  five contacts, the selected contact and its message log, the draft, the search term, the
  gateway settings with the `isConnected` flag, and the settings dialog's open flag. Its
  transitions are: startup from the stored settings, selecting a contact (which installs a
  fixed four-message log), sending a local-echo message, the Enter key, and accepting saved
  settings. It has two pure helpers: the case-insensitive contact filter and the avatar
  initials.
- **The settings dialog** (`src/components/EvolutionApiConfig.tsx`). It holds a form record
  and a busy flag. Its save runs in this order: check that all three fields are non-empty,
  write the record to `localStorage` under `evolutionApiConfig`, probe
  `baseUrl + "/instance/fetchInstances"`, and then act on one of three outcomes. The callback
  fires only when the response is `ok`. The written record is never rolled back, and the busy
  flag is always cleared at the end.

Modules, leaves first:

| module | file | what it holds |
|---|---|---|
| `Wrappers` | wrappers.dfy | `Option`, standing in for `T \| null` |
| `ApiConfigs` | api_config.dfy | the settings record, its fields, the per-field update, the completeness guard |
| `JsonConfig` | json_config.dfy | `JSON.stringify` of the record and the matching part of `JSON.parse`, with the round-trip proof |
| `Storage` | storage.dfy | `localStorage` as a class over `map<string, string>`, and the load step both components share |
| `EvolutionApiConfig` | evolution_api_config.dfy | the dialog: the `ConfigForm` class, the probe request, and the ordered trace of what a save does |
| `Text` | text.dfy | JavaScript `trim`, `includes`, `split(' ')`, per-character case mapping |
| `WhatsAppWeb` | whatsapp_web.dfy | the view: `Contact`, `Message`, the seeds, the filter, the initials, the `Session` class, and the dialog's callback wiring |

How the outside world is modelled:

- **`localStorage`** is a `LocalStorage` object with an `entries` map. A write can be refused
  (the browser throws on a full quota), and whether it is refused is a parameter.
- **`fetch`** is a `ProbeOutcome` parameter: `ResponseOk`, `ResponseNotOk` or `Threw`.
- **Notifications, the probe and the `onConfigSaved` call** are `Event`s, appended in order
  to the form's `events`. Notifications are recorded by kind only.
- **The `await`** splits the save into `BeginSave` (everything before the `await`) and
  `FinishSave` (everything after). `HandleSave` runs the two back to back. `FinishSave`
  reports on the record the handler closed over, so an edit made while the probe is pending
  does not change what `onConfigSaved` receives.
- **`Date.now()` and `toLocaleTimeString`** become the `id` and `timeLabel` parameters.
- **`toLowerCase` and `toUpperCase`** become a per-character function passed in by the caller.

Behaviour of the code that is easy to miss, which the model keeps as written:

- The base URL is used as typed. A trailing slash gives `//instance/fetchInstances`
  (`TrailingSlashIsKept`).
- The probe has no timeout.
- The probe has three outcomes: an `ok` response, any other response, or an exception.
- No status records a failure: a failed probe leaves `isConnected` as it was, and nothing ever
  sets it back to false.
- Stale results are not sequenced.
- Message ids are not guaranteed unique.
- A stored text that `JSON.parse` rejects is not treated as "absent". The exception escapes
  the load effect, and the model reports it as `ParseThrew` with no state changed.
- A stored empty string is falsy, so it counts as nothing stored.
- Selecting the contact that is already selected does not reseed the log. React skips the
  update for an identical value, so the effect keyed on the selection does not run again.

## Model

| member | source | states |
|---|---|---|
| `ApiConfigs.ApiConfig.With` | src/components/EvolutionApiConfig.tsx:71-73 | the updated record has `v` in field `f` and every other field unchanged |
| `ApiConfigs.IsComplete` | src/components/EvolutionApiConfig.tsx:39 | the save guard holds exactly when every field is non-empty (emptiness is the only test) |
| `ApiConfigs.BlankFieldsAreComplete` | src/components/EvolutionApiConfig.tsx:39 | every record whose fields are non-empty and hold only whitespace passes the guard: nothing trims them |
| `JsonConfig.ParseBodyEscape` | src/components/EvolutionApiConfig.tsx:47 | the body of a JSON string literal as `JSON.stringify` writes it reads back as the original string, whatever characters it holds |
| `JsonConfig.ParseStringify` | src/components/EvolutionApiConfig.tsx:47 | the stored JSON text of any record parses back to that same record |
| `Storage.LocalStorage.SetItem` | src/components/EvolutionApiConfig.tsx:47 | `setItem` either stores the value under the key, changing nothing else, or throws and changes nothing |
| `Storage.LoadConfig` | src/components/EvolutionApiConfig.tsx:32-35 | a load finds nothing exactly when the key is missing or holds the empty string; otherwise the text is parsed |
| `Storage.LoadAfterSave` | src/components/EvolutionApiConfig.tsx:30-47 | after the save's write, a load restores exactly the saved record, whatever else the store holds |
| `EvolutionApiConfig.ProbeFor` | src/components/EvolutionApiConfig.tsx:50-56 | the probe is a GET to `baseUrl` followed by `/instance/fetchInstances`, with the `apikey` header equal to the record's API key and a JSON content type (`HeaderValue` gives the first header of a name) |
| `EvolutionApiConfig.TrailingSlashIsKept` | src/components/EvolutionApiConfig.tsx:50 | the base URL is not normalised: `http://h/` probes `http://h//instance/fetchInstances` |
| `EvolutionApiConfig.SaveTrace` | src/components/EvolutionApiConfig.tsx:38-69 | an incomplete record gives one notification and no write, probe or callback; the callback fires iff the probe answers `ok` and carries the record; the only write stores that record under the settings key, and it happens exactly when the probe is issued; the probe is issued only after the write; every path notifies exactly once |
| `EvolutionApiConfig.ConfigForm.constructor` | src/components/EvolutionApiConfig.tsx:23-28 | the form starts with three empty fields, not busy |
| `EvolutionApiConfig.ConfigForm.LoadFromStore` | src/components/EvolutionApiConfig.tsx:30-36 | a stored record replaces the form's record; otherwise nothing changes |
| `EvolutionApiConfig.ConfigForm.HandleInputChange` | src/components/EvolutionApiConfig.tsx:71-73 | one field takes the typed value; the other two fields, the busy flag and the events are unchanged |
| `EvolutionApiConfig.ConfigForm.BeginSave` | src/components/EvolutionApiConfig.tsx:38-56 | an incomplete record changes nothing but a notification and leaves the busy flag alone; a complete one writes its JSON under `evolutionApiConfig` and then issues the probe, busy while the probe is pending; a refused write is reported and clears the flag |
| `EvolutionApiConfig.ConfigForm.FinishSave` | src/components/EvolutionApiConfig.tsx:58-68 | `onConfigSaved` receives the captured record only on `ok`; each outcome has its own notification; the busy flag ends false; neither the store nor the record is touched |
| `EvolutionApiConfig.ConfigForm.HandleSave` | src/components/EvolutionApiConfig.tsx:38-69 | the whole save in order: its events are `SaveTrace`; the store holds the record after any complete save whose write succeeded, whatever the probe says (no rollback); the callback value is the record iff the probe answers `ok` |
| `Text.TrimStart` | src/components/WhatsAppWeb.tsx:153 | the result is a suffix of the input; everything cut off is whitespace; the result does not start with whitespace |
| `Text.TrimEnd` | src/components/WhatsAppWeb.tsx:153 | the result is a prefix of the input; everything cut off is whitespace; the result does not end with whitespace |
| `Text.TrimIsMiddle` | src/components/WhatsAppWeb.tsx:153 | `trim` keeps the middle slice between a blank prefix and a blank suffix, and the slice has no whitespace at either end |
| `Text.TrimEmptyIffBlank` | src/components/WhatsAppWeb.tsx:153 | the trimmed draft is empty exactly when the draft is all whitespace (or empty) |
| `Text.IncludesEmpty` | src/components/WhatsAppWeb.tsx:174 | every string includes the empty string |
| `Text.SplitOnSpaces` | src/components/WhatsAppWeb.tsx:259 | `split(' ')` gives at least one piece, no piece contains a space, and joining the pieces with spaces gives back the name |
| `Text.FirstCharsOfSplit` | src/components/WhatsAppWeb.tsx:259 | the first characters of the pieces are exactly the characters that start a word (empty pieces give nothing) |
| `WhatsAppWeb.SeedContacts` | src/components/WhatsAppWeb.tsx:57-103 | the roster has five contacts with pairwise different ids |
| `WhatsAppWeb.SeedMessages` | src/components/WhatsAppWeb.tsx:114-143 | the installed log has four messages with different ids, none in the `sent` state |
| `WhatsAppWeb.FilterContacts` | src/components/WhatsAppWeb.tsx:173-175 | the list shown is an order-preserving subsequence of the roster and holds exactly the contacts whose lower-cased name includes the lower-cased term, each as often as the roster does |
| `WhatsAppWeb.FilterKeepsAllMatching` | src/components/WhatsAppWeb.tsx:173-175 | when every contact matches, the filter returns the roster unchanged |
| `WhatsAppWeb.EmptySearchShowsAll` | src/components/WhatsAppWeb.tsx:173-175 | an empty search term shows every contact, in order |
| `WhatsAppWeb.InitialsAreWordStarts` | src/components/WhatsAppWeb.tsx:259 | the avatar initials (also used at line 297) are the upper-cased characters that start a word of the name, and there are no more of them than the name has characters |
| `WhatsAppWeb.ComposeMessage` | src/components/WhatsAppWeb.tsx:152-161 | a message is created iff a contact is selected and the draft is not blank; when created, it is from me, in the `sent` state, with the untrimmed draft as content |
| `WhatsAppWeb.Session.constructor` | src/components/WhatsAppWeb.tsx:38-44 | the view starts with no selection, an empty log, draft and search, the dialog closed, no settings, not connected |
| `WhatsAppWeb.Session.Startup` | src/components/WhatsAppWeb.tsx:48-54 | stored settings become the view's settings and make it connected, with no probe; nothing stored (or a parse exception) changes nothing |
| `WhatsAppWeb.Session.SelectContact` | src/components/WhatsAppWeb.tsx:112-146 | selecting a contact other than the current one installs the fixed seed log whatever the contact; reselecting the current one keeps the log; nothing else changes |
| `WhatsAppWeb.ReselectScenario` | src/components/WhatsAppWeb.tsx:112-146 | selecting A, then B, then A gives A the seed log again |
| `WhatsAppWeb.Session.SetNewMessage` | src/components/WhatsAppWeb.tsx:372 | typing replaces the draft and nothing else |
| `WhatsAppWeb.Session.SetSearchTerm` | src/components/WhatsAppWeb.tsx:224 | typing replaces the search term and nothing else |
| `WhatsAppWeb.Session.SetConfigOpen` | src/components/WhatsAppWeb.tsx:198 | opening or closing the dialog sets its flag and nothing else |
| `WhatsAppWeb.Session.HandleSendMessage` | src/components/WhatsAppWeb.tsx:152-164 | a blank draft or no selection changes nothing; otherwise exactly one message (from me, `sent`, the untrimmed draft) is appended after the old log and the draft becomes empty |
| `WhatsAppWeb.Session.HandleKeyPress` | src/components/WhatsAppWeb.tsx:166-171 | Enter without Shift prevents the default and sends as `HandleSendMessage` does; any other key, or Shift+Enter, changes nothing |
| `WhatsAppWeb.Session.HandleConfigSaved` | src/components/WhatsAppWeb.tsx:105-109 | the settings become the given record, the view is connected, the dialog closes, and nothing else changes |
| `WhatsAppWeb.SaveFromDialog` | src/components/WhatsAppWeb.tsx:205-208 | a dialog save reaches the view only on an `ok` probe, which connects it with the saved record and closes the dialog; otherwise the view's settings, connection and dialog flag stay as they were, even though the store may hold the new record; the view's selection, log, draft and search term and the form's record are kept, and the form ends not busy after any complete record |

Across the `Session` methods, no transition sets `isConnected` to false. `Valid()` (connected
exactly when settings are held) holds initially and is kept by `Startup`,
`HandleConfigSaved` and `SaveFromDialog`. The other methods do not touch either field.

## Left out

- Rendering, styling, icons, badges, the online dot and the scroll-to-bottom effect
  (src/components/WhatsAppWeb.tsx:148-150): these are presentation only.
- The text of the notifications: only their kind is recorded.
- The network, HTTP and the scheduler. The probe's result is a parameter. No concurrent saves
  are modelled. The button is disabled while busy (src/components/EvolutionApiConfig.tsx:133),
  but that only holds within one mount of the form. The dialog component is not part of this
  model. If it unmounts its content on close, closing and reopening it while a probe is
  pending gives a fresh form that is not busy and can start a second save. Each reopening
  also re-runs the load effect, which discards unsaved edits. The model does not encode
  either case.
- The clock and the locale: message ids and time labels are parameters. Nothing claims the
  ids are unique, since the code does not ensure it.
- Parsing of stored text: `JsonConfig.ParseConfig` accepts only the compact layout that `JSON.stringify` writes for
  the record, with every JSON string escape except `\u` surrogate pairs. Texts that only an
  outside writer could store are reported as `ParseThrew`, even where `JSON.parse` would
  accept them. Examples are JSON with spaces, another key order, extra keys, non-string
  values, or `null`.
- Case mapping is a per-character function supplied by the caller. Unicode mappings that
  change a string's length are not modelled.
- `Initials` takes the whole first character of a word. JavaScript's `n[0]` takes the first
  UTF-16 code unit, which for a character outside the Basic Multilingual Plane is half of a
  surrogate pair.
- What React does after an exception escapes the mount effect.
- The render between a new selection and the effect that reseeds the log, in which the new
  contact is shown with the old log.
- The `isConnected` prop of the dialog: it only picks a badge.
- Selection identity: the component compares the selection by object identity; the
  model compares by value. These agree because the roster's entries are pairwise different
  (`SeedContacts`).
