# BetterRTX Installer v3 — client state, modelled in Dafny

This project models the state logic of the BetterRTX Installer v3 front end and proves properties of it. The front end is a React and zustand application that installs BetterRTX presets into Minecraft installations. The model covers these parts:

- **The application store** (`AppStore`). It holds:
  - the installations and presets;
  - the selected installations and the selected preset;
  - the status line, with its loading and error flags;
  - the timestamped console transcript;
  - the active tab and the toolbar flag.

  Each single-field setter is a method on the `Store` class, and so are the three backend-wrapping actions. Each action is proved against a pure function of the state it started from: `AfterRefreshInstallations`, `AfterRefreshPresets` and `AfterClearCache`.
- **The App component's handlers** (`App`, `Selection`):
  - toggling an installation in the selection;
  - choosing a preset;
  - installing a preset to every selected installation, one after another.

  The install loop follows the order in which the selection's Set iterates. That order is a duplicate-free sequence listing the set (`IterationOrder`), and the loop stops at the first failing `install_preset`.
- **The installations tab** (`InstallationsTab`): the same selection handler, and a refresh when an installation is added.
- **The installed-presets list** (`InstallationNav`):
  - installations that carry a preset are extracted;
  - the entries are deduplicated through a JavaScript `Map` keyed by preset uuid. The Map is modelled as a sequence of keys in insertion order plus a map from key to value;
  - an entry replaces the stored one only when it is strictly later, so a tie keeps the first entry met;
  - the output lists uuids in the order they first appeared.
- **An installation's card** (`InstallationCard`):
  - the checkbox id, which is `install-` followed by the path with every character outside `[a-zA-Z0-9]` deleted;
  - the forwarding of checkbox changes;
  - the card's conditional parts.
- **The creator tab with name prompts** (`Creator`):
  - a settings-hash install that goes through an installation picker and then a name prompt;
  - an uploaded-material list with its own picker and name prompt;
  - the pending-data/modal handshake, and the processing flag cleared in `finally`.
- **The single-form creator tab** (`SimpleCreator`) and **the add-installation form** (`InstallationsPanel`).

Conventions used throughout:

- Backend commands are opaque. Each appears as an outcome parameter (`Result<…>`), and handlers return the sequence of `Call`s they make.
- Status notices go to a `StatusMessages` list.
- Translated texts are rendered by `Notices.T(key, arg)`, which keeps the key and its argument apart.

Behaviour modelled as the code has it:

- A failed `handlePresetInstall` leaves `isLoading` set. The `catch` block never clears it (`v3/src/components/App.tsx:79-85`), unlike `refreshInstallations` and `refreshPresets`, which clear it in `finally` (`v3/src/store/appStore.ts:107`, `v3/src/store/appStore.ts:130`).
- Both creator tabs check only that the trimmed hash is non-blank. Their submit buttons additionally ask for at least 8 characters (`SimpleCreator.ShortHashPassesHandler`).
- The add-installation form tests the trimmed path but sends the path untrimmed to `validate_minecraft_path`.
- Two install paths that differ only in characters outside `[a-zA-Z0-9]` get the same checkbox id (`InstallationCard.CheckboxIdCollides`). Their labels then point at the same id.
- The installed-presets list reads an `is_creator` property that the declared `Installation` interface lacks. The model carries it as an optional field.
- The store's tab type lists three tabs, but the header sets a fourth, `creator`. The model's `Tab` has all four.

## Model

| member | source | states |
|---|---|---|
| AppStore.Stamp | v3/src/store/appStore.ts:79-84 | a console entry is `[` time `] ` message, with the time and the message recoverable at fixed positions |
| AppStore.AfterRefreshInstallations | v3/src/store/appStore.ts:89-110 | loading ends false; exactly two lines are appended, the scan line first; success stores the result, clears the error and reports the count; failure keeps the installations, sets the error and logs the error status; presets, selections, tab and toolbar are untouched |
| AppStore.AfterRefreshPresets | v3/src/store/appStore.ts:112-133 | the same as for installations, on presets: loading ends false, two lines are appended, success stores the presets, clears the error and reports the count, failure keeps them and reports the error; installations, selections, tab and toolbar are untouched |
| AppStore.AfterClearCache | v3/src/store/appStore.ts:135-148 | only the status and the console change; two lines are appended; success says "Cache cleared", failure puts the error in the status and the last line |
| AppStore.FoundStatusDeterminesCount | v3/src/store/appStore.ts:100 | two different installation counts never produce the same status text |
| AppStore.Store.constructor | v3/src/store/appStore.ts:56-66 | the initial state: empty lists, empty selection, no preset, "Ready", both flags false, empty console, installations tab, toolbar closed |
| AppStore.Store.SetInstallations | v3/src/store/appStore.ts:69 | replaces the installations and nothing else |
| AppStore.Store.SetPresets | v3/src/store/appStore.ts:70 | replaces the presets and nothing else |
| AppStore.Store.SetSelectedInstallations | v3/src/store/appStore.ts:71 | replaces the selection and nothing else |
| AppStore.Store.SetSelectedPreset | v3/src/store/appStore.ts:72 | replaces the selected preset and nothing else |
| AppStore.Store.SetStatus | v3/src/store/appStore.ts:73 | replaces the status and nothing else |
| AppStore.Store.SetIsLoading | v3/src/store/appStore.ts:74 | replaces the loading flag and nothing else |
| AppStore.Store.SetIsError | v3/src/store/appStore.ts:75 | replaces the error flag and nothing else |
| AppStore.Store.SetActiveTab | v3/src/store/appStore.ts:76 | replaces the tab and nothing else |
| AppStore.Store.SetToolbarOpen | v3/src/store/appStore.ts:77 | replaces the toolbar flag and nothing else |
| AppStore.Store.AddConsoleOutput | v3/src/store/appStore.ts:79-84 | appends exactly one stamped entry at the end; earlier entries and every other field are unchanged |
| AppStore.Store.ClearConsole | v3/src/store/appStore.ts:86 | empties the console and changes nothing else |
| AppStore.Store.RefreshInstallations | v3/src/store/appStore.ts:89-110 | makes exactly one `list_installations` call and leaves the state AfterRefreshInstallations gives |
| AppStore.Store.RefreshPresets | v3/src/store/appStore.ts:112-133 | makes exactly one `list_presets(forceRefresh)` call and leaves the state AfterRefreshPresets gives |
| AppStore.Store.ClearCache | v3/src/store/appStore.ts:135-148 | makes exactly one `clear_cache` call and leaves the state AfterClearCache gives |
| Selection.Toggled | v3/src/components/App.tsx:42-50 | the path is in the new set exactly when it was checked; every other path keeps its membership; re-asserting the current membership changes nothing |
| Selection.ApplyTogglesLastChoiceWins | v3/src/components/App.tsx:42-50 | after any series of checkbox changes a path is selected exactly when the last change naming it checked it, and an unnamed path keeps its membership |
| Selection.PresetChoice | v3/src/components/App.tsx:52-54 | a preset is chosen exactly when selected, and then it is that uuid |
| App.HandleInstallationSelection | v3/src/components/App.tsx:42-50 | the store's selection becomes Toggled of the old one; nothing else changes |
| App.HandlePresetSelection | v3/src/components/App.tsx:52-54 | the selected preset becomes PresetChoice; nothing else changes |
| App.FirstFailure | v3/src/components/App.tsx:70-73 | the index where the loop stops: every earlier outcome succeeded and the one there, if any, failed |
| App.InstalledLines | v3/src/components/App.tsx:72 | one "Installed to: path" line per path, in order |
| App.InstallCalls | v3/src/components/App.tsx:71 | one `install_preset(uuid, path)` call per path, in order |
| App.SizeOfIterationOrder | v3/src/components/App.tsx:68-70 | the loop visits as many paths as the count logged before it |
| App.PresetInstallCalls | v3/src/components/App.tsx:56-86 | no calls for an empty selection; otherwise the install calls up to and including the first failure; `list_installations` last exactly when none failed |
| App.AfterPresetInstall | v3/src/components/App.tsx:56-86 | an empty selection only sets the warning status and the error flag; a failure makes its error the status and the last log line, sets the error flag, leaves `isLoading` set and changes nothing else (lists, selection, selected preset, tab, toolbar) |
| App.PresetInstallSucceeds | v3/src/components/App.tsx:63-78 | a full success logs the start line, every path, the completion line and the scan line in that order, ends not loading, keeps the presets, selection, selected preset, tab and toolbar, and the refresh decides the installations, the error flag, the final status ("Found N…" or the load error) and the last log line |
| App.HandlePresetInstall | v3/src/components/App.tsx:56-86 | makes exactly PresetInstallCalls and leaves the store AfterPresetInstall gives |
| App.StartInstall | v3/src/components/App.tsx:65-68 | sets the installing status, loading and no error, and logs the uuid with the selection's size |
| App.InstallEach | v3/src/components/App.tsx:70-73 | reports a failure exactly when some outcome failed, and then the first failure's error; calls `install_preset` up to and including that path; logs every path before it and changes nothing else |
| App.ReportInstallError | v3/src/components/App.tsx:79-85 | the error status, the error flag and one log line; `isLoading` is left as it was |
| App.CompleteInstall | v3/src/components/App.tsx:75-78 | a success status and line, then one refresh, which is the only call |
| InstallationsTab.HandleInstallationSelection | v3/src/components/installations/InstallationsTab.tsx:13-24 | the store's selection becomes Toggled of the old one; nothing else changes |
| InstallationsTab.HandleInstallationAdded | v3/src/components/installations/InstallationsTab.tsx:26-28 | exactly one `list_installations`, leaving AfterRefreshInstallations |
| InstallationNav.PresetInstallations | v3/src/components/installations/InstallationNav.tsx:11-22 | the i-th entry is the entry of the i-th installation that has a preset: exactly one entry per such installation, in the installations' order |
| InstallationNav.DedupMeetsSpec | v3/src/components/installations/InstallationNav.tsx:24-33 | the list has one entry per uuid and the same uuids as its input; each entry comes from the input and has the latest install time for its uuid; every entry the strict `>` keeps is present; uuids keep the order of their first appearance |
| InstallationNav.PresetInstallationsMembers | v3/src/components/installations/InstallationNav.tsx:11-22 | every extracted entry is its own installation's entry and that installation has a preset; every installation with a preset has its entry extracted |
| InstallationNav.Deduplicate | v3/src/components/installations/InstallationNav.tsx:24-33 | the `forEach` over a Map, held as keys plus values, followed by `Array.from(values())`, yields the deduplicated list and meets DedupMeetsSpec's properties |
| InstallationNav.InstalledPresets | v3/src/components/installations/InstallationNav.tsx:11-33 | the extraction then the deduplication: the list meets DedupMeetsSpec's properties over the extracted entries, is no longer than the installations, and holds only entries of installations with a preset |
| InstallationNav.MapStepNew | v3/src/components/installations/InstallationNav.tsx:27-29 | a uuid not yet held is appended as a new key holding its entry |
| InstallationNav.MapStepPresent | v3/src/components/installations/InstallationNav.tsx:27-29 | a held uuid keeps its key's place and holds the new entry only when strictly later |
| InstallationNav.LaunchUrl | v3/src/components/installations/InstallationNav.tsx:44-51 | the preview protocol exactly for a Preview installation, the release protocol otherwise |
| InstallationNav.UsesCreatorIcon | v3/src/components/installations/InstallationNav.tsx:54 | the `material-files` uuid and a preset flagged `is_creator` get the creator icon; any other entry gets the preset icon |
| InstallationCard.CheckboxId | v3/src/components/InstallationCard.tsx:30 | `install-` followed by the sanitized path |
| InstallationCard.CheckboxIdSuffix | v3/src/components/InstallationCard.tsx:30 | the suffix holds only ASCII letters and digits, is an order-preserving subsequence of the path, and keeps every letter or digit as often as it occurs |
| InstallationCard.CheckboxIdOfAlnumPath | v3/src/components/InstallationCard.tsx:30 | a path of letters and digits appears unchanged after the prefix |
| InstallationCard.SanitizeIdempotent | v3/src/components/InstallationCard.tsx:30 | sanitizing twice equals sanitizing once |
| InstallationCard.SanitizeIgnoresSeparator | v3/src/components/InstallationCard.tsx:30 | inserting a non-alphanumeric character anywhere leaves the sanitized path unchanged |
| InstallationCard.CheckboxIdCollides | v3/src/components/InstallationCard.tsx:30 | two different paths that differ by one separator get the same id |
| InstallationCard.CheckboxChange | v3/src/components/InstallationCard.tsx:25-28 | forwards exactly (install path, checked) when a callback is given, nothing otherwise |
| InstallationCard.CheckboxChangeSelects | v3/src/components/InstallationCard.tsx:25-28 | a forwarded change fed to the selection toggle selects this card's path exactly when checked and touches no other path |
| InstallationCard.Card | v3/src/components/InstallationCard.tsx:44-77 | the Preview badge exactly for Preview; the preset icon and "Current preset" line exactly when a preset is installed, "No preset installed" otherwise; checked and highlighted exactly when selected |
| Creator.DefaultSettingsName | v3/src/components/creator/CreatorTab.tsx:40 | "Settings " followed by the first eight characters of the hash, or the whole hash when shorter |
| Creator.DefaultMaterialsName | v3/src/components/creator/CreatorTab.tsx:104 | "Materials (" n " files)", where the middle parses back to the file count |
| Creator.CreatorUuid | v3/src/components/creator/CreatorTab.tsx:57 | "creator-" followed by the trimmed hash |
| Creator.IsValidHash | v3/src/components/creator/CreatorTab.tsx:214 | valid exactly when the trimmed hash has at least 8 characters; a valid hash has a non-whitespace character |
| Creator.HashIgnoresPadding | v3/src/components/creator/CreatorTab.tsx:57-64 | whitespace around the hash changes neither its validity nor the creator uuid |
| Creator.SubmitEnabled | v3/src/components/creator/CreatorTab.tsx:258 | enabled exactly when not processing and the trimmed hash has at least 8 characters, so never with a blank hash |
| Creator.Without | v3/src/components/creator/CreatorTab.tsx:207 | the filename is gone, every other entry stays, nothing is added |
| Creator.WithoutKeepsOthers | v3/src/components/creator/CreatorTab.tsx:207 | removal keeps the other entries in order and as often as they occurred |
| Creator.AfterReport | v3/src/components/creator/CreatorTab.tsx:66-80 | success logs the completion line and refreshes: three lines are added, loading ends, and the installations and status are replaced (or the load error is shown); failure adds one error line and changes nothing else; earlier lines, the presets, the selection, the selected preset, the tab and the toolbar are kept |
| Creator.ReportOutcome | v3/src/components/creator/CreatorTab.tsx:66-80 | one notice per outcome, one refresh call only on success, and the store AfterReport gives |
| Creator.CreatorTab.constructor | v3/src/components/creator/CreatorTab.tsx:15-29 | empty hash and list, nothing processing, open or pending; the tab starts settled |
| Creator.CreatorTab.HandleInstall | v3/src/components/creator/CreatorTab.tsx:31-44 | no names posts the warning and changes nothing; otherwise the pending data holds the names and the default name, the picker closes and the name prompt opens |
| Creator.CreatorTab.HandleNameConfirm | v3/src/components/creator/CreatorTab.tsx:46-85 | without pending data: a no-op; otherwise one download call with the trimmed hash, the pending names, the name and the creator uuid, then a refresh exactly on success; the hash is cleared on success and kept on failure; processing and pending always end cleared |
| Creator.CreatorTab.BeginNameConfirm | v3/src/components/creator/CreatorTab.tsx:49-64 | marks processing, closes the prompt, logs the install, and builds the download request |
| Creator.CreatorTab.FinishNameConfirm | v3/src/components/creator/CreatorTab.tsx:66-84 | reports the outcome, clears the hash only on success, and clears processing and pending |
| Creator.CreatorTab.HandleMaterialInstall | v3/src/components/creator/CreatorTab.tsx:87-108 | empty names are refused first, then an empty file list; otherwise the pending data holds the names and "Materials (n files)" |
| Creator.CreatorTab.HandleMaterialNameConfirm | v3/src/components/creator/CreatorTab.tsx:110-145 | without pending data: a no-op; otherwise one install call with the pending names and the name, then a refresh exactly on success; the files are cleared on success and kept on failure; processing and pending always end cleared |
| Creator.CreatorTab.BeginMaterialNameConfirm | v3/src/components/creator/CreatorTab.tsx:113-123 | marks processing, closes the prompt, logs the install, and builds the install request |
| Creator.CreatorTab.FinishMaterialNameConfirm | v3/src/components/creator/CreatorTab.tsx:125-144 | reports the outcome, clears the files only on success, and clears processing and pending |
| Creator.CreatorTab.HandleSubmit | v3/src/components/creator/CreatorTab.tsx:147-159 | a blank trimmed hash posts an error and changes nothing; any other hash opens the picker |
| Creator.CreatorTab.HandleHashChange | v3/src/components/creator/CreatorTab.tsx:161-163 | stores the typed value as it is |
| Creator.CreatorTab.HandleFileUpload | v3/src/components/creator/CreatorTab.tsx:165-204 | a failed dialog posts an error; a cancelled one adds nothing; a picked file makes one upload call, and success appends the returned filename at the end; processing always ends false |
| Creator.CreatorTab.HandleRemoveFile | v3/src/components/creator/CreatorTab.tsx:206-212 | the list becomes Without(list, filename) and an info notice is posted |
| Creator.CreatorTab.CloseModal | v3/src/components/creator/CreatorTab.tsx:334 | closes the picker only |
| Creator.CreatorTab.CloseNameModal | v3/src/components/creator/CreatorTab.tsx:342-345 | closes the name prompt and drops the pending install |
| Creator.CreatorTab.OpenMaterialModal | v3/src/components/creator/CreatorTab.tsx:320 | opens the material picker only |
| Creator.CreatorTab.CloseMaterialModal | v3/src/components/creator/CreatorTab.tsx:352 | closes the material picker only |
| Creator.CreatorTab.CloseMaterialNameModal | v3/src/components/creator/CreatorTab.tsx:360-363 | closes the material name prompt and drops the pending install |
| SimpleCreator.SuccessMessage | v3/src/components/CreatorTab.tsx:41 | the lead text, the first eight characters of the untrimmed hash, and "..." |
| SimpleCreator.FailureMessage | v3/src/components/CreatorTab.tsx:48 | the lead text followed by the whole error |
| SimpleCreator.AfterSubmit | v3/src/components/CreatorTab.tsx:13-53 | a blank hash is refused before the selection is checked, then an empty selection; neither makes a call; otherwise exactly one download of the trimmed hash to the selection in iteration order; success clears the hash and failure keeps it; processing ends false |
| SimpleCreator.SubmitEnabled | v3/src/components/CreatorTab.tsx:119 | enabled exactly when not processing, the trimmed hash has at least 8 characters, and the selection is non-empty |
| SimpleCreator.EnabledSubmitDownloads | v3/src/components/CreatorTab.tsx:34-38 | a submit through the enabled button always downloads once, with a trimmed hash of at least 8 characters, naming every selected installation exactly once |
| SimpleCreator.ShortHashPassesHandler | v3/src/components/CreatorTab.tsx:16 | a non-blank hash shorter than 8 trimmed characters passes the handler's check while the button is disabled |
| SimpleCreator.RetryRepeatsDownload | v3/src/components/CreatorTab.tsx:46-50 | after a failure, submitting again makes the same download |
| SimpleCreator.SuccessClearsForm | v3/src/components/CreatorTab.tsx:45 | after a success, submitting again is refused for want of a hash and makes no call |
| SimpleCreator.CreatorTab.constructor | v3/src/components/CreatorTab.tsx:10-11 | empty hash, not processing |
| SimpleCreator.CreatorTab.HandleSubmit | v3/src/components/CreatorTab.tsx:13-54 | makes the calls, posts the one notice and leaves the form that AfterSubmit gives |
| SimpleCreator.CreatorTab.HandleHashChange | v3/src/components/CreatorTab.tsx:56-58 | stores the typed value as it is |
| InstallationsPanel.AfterAdd | v3/src/components/installations/InstallationsPanel.tsx:28-55 | a blank trimmed path does nothing at all; otherwise one validation of the untrimmed path; only a valid path notifies the parent, hides the form and clears both fields; an invalid path or an error leaves the fields and shows an alert; adding ends false |
| InstallationsPanel.Cancelled | v3/src/components/installations/InstallationsPanel.tsx:147-151 | hides the form and clears both fields |
| InstallationsPanel.AddDisabled | v3/src/components/installations/InstallationsPanel.tsx:158 | disabled exactly when adding or when the path is all whitespace |
| InstallationsPanel.EnabledAddValidates | v3/src/components/installations/InstallationsPanel.tsx:33-35 | an enabled add button always validates the path as typed |
| InstallationsPanel.AddIgnoresName | v3/src/components/installations/InstallationsPanel.tsx:33-35 | the name field never reaches the backend and never changes the outcome |
| InstallationsPanel.SuccessResetsLikeCancel | v3/src/components/installations/InstallationsPanel.tsx:45-48 | a successful add leaves the form that cancel leaves, not adding, with the add button disabled |
| InstallationsPanel.BlankIgnoresPadding | v3/src/components/installations/InstallationsPanel.tsx:29 | whitespace around a path does not change whether it is refused as blank |
| InstallationsPanel.Panel.constructor | v3/src/components/installations/InstallationsPanel.tsx:23-26 | form hidden, both fields empty, not adding |
| InstallationsPanel.Panel.HandleAddInstallation | v3/src/components/installations/InstallationsPanel.tsx:28-55 | makes the calls, the notification and the alert, and leaves the form that AfterAdd gives |
| InstallationsPanel.Panel.HandleBrowseFolder | v3/src/components/installations/InstallationsPanel.tsx:57-70 | a picked non-empty folder becomes the path; a cancelled or failed dialog changes nothing |
| InstallationsPanel.Panel.ToggleAddForm | v3/src/components/installations/InstallationsPanel.tsx:107 | flips the form's visibility and keeps the fields |
| InstallationsPanel.Panel.SetInstallPath | v3/src/components/installations/InstallationsPanel.tsx:136 | stores the typed path only |
| InstallationsPanel.Panel.SetInstallName | v3/src/components/installations/InstallationsPanel.tsx:124 | stores the typed name only |
| InstallationsPanel.Panel.Cancel | v3/src/components/installations/InstallationsPanel.tsx:147-151 | leaves the form Cancelled gives |
| Text.Trim | v3/src/components/CreatorTab.tsx:60 | `String.prototype.trim`: the result is a slice of the input with only whitespace cut from each end, starts and ends with non-whitespace, and is empty exactly when the input is all whitespace |
| Text.TrimPadded | v3/src/components/creator/CreatorTab.tsx:214 | whitespace added around a string does not change its trimmed form |
| Text.Prefix | v3/src/components/creator/CreatorTab.tsx:40 | `slice(0, n)`: the first n characters, or the whole string when shorter |
| Text.ParseNatToString | v3/src/store/appStore.ts:100 | a count rendered in decimal parses back to itself |
| Text.NatToStringInjective | v3/src/store/appStore.ts:100 | different counts render differently |

## Left out

- The backend commands are not modelled. Each one appears as the outcome its caller receives: `list_installations`, `list_presets`, `clear_cache`, `install_preset`, `download_creator_settings`, `install_uploaded_materials`, `upload_material_file` and `validate_minecraft_path`.
- The clock is a parameter. `new Date().toLocaleTimeString()` becomes one `time` string per handler, and every line that handler logs carries it.
- Install times are integers. `installed_at` is a date string compared through `new Date(…)`; the model uses the integer instant it denotes, so unparsable dates (NaN) are not modelled.
- The translation lookup `t(key, args)` is an external library. `Notices.T` stands in for it; a key used without arguments stands for its own text.
- `statusStore` is not modelled; its `addMessage` is modelled as an append-only list of notices.
- Asynchrony is not modelled: interleaved handlers, stale React closures, re-rendering and zustand subscriptions are left out. Each handler is one sequential step that sees the state as it was when it started.
- Browser and native I/O are not modelled: the Tauri file and folder dialogs, `alert`, `window.open` and `console.error`. Only the branch taken is kept, which is the picked path, the alert text or the opened URL.
- Strings are sequences of `char`. JavaScript strings are UTF-16, so a surrogate pair counts as two characters in `slice(0, 8)`; this is not modelled. Whitespace for `trim` is the ECMAScript WhiteSpace and LineTerminator set.
- Rendering-only components are not modelled: AppHeader, StatusBar, PresetCard, ToolbarSection, and the markup and styling of the modelled components.
- InstallationNav.UsesCreatorIcon: the source tests whether the undeclared `is_creator` property is truthy. The model carries it as an optional boolean and recognises only `true`; other truthy values (a non-empty string, a non-zero number, an object) are not modelled.
- Selection.ApplyToggles and Selection.LastChoice: these exist only to state ApplyTogglesLastChoiceWins. No source line corresponds to them.
- `IoBitPanel` is rendered by the installations tab but is not part of this model.
