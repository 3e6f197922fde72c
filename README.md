# Theme-preference synchroniser

This project models the client script `public/theme-util.js` of a personal blog. The script keeps a
light/dark display theme consistent across the page. The preference lives in the browser's local storage
under the key `"theme-preference"`. The script resolves it, with the platform's "prefers dark colour scheme"
flag as the fallback. It writes the result to the `data-theme` attribute of the document root and to every
theme checkbox on the page. It also persists a new choice when a toggle is clicked.

The model is one module, `ThemeUtil` in `theme_util.dfy`:

- `ColorPreference` is `getColorPreference` as a function of the storage map and the system flag. The
  script treats an absent key and an empty string alike as "no preference", because its test is JavaScript
  falsiness. Any other stored string is returned verbatim, even one that is neither `"light"` nor `"dark"`.
- `Page` is a value snapshot of the environment: the whole storage map, the system flag, the root attribute
  (`""` when the root has none; the initial markup is not part of this model, so the class constructor
  takes the initial attribute as a parameter) and the `checked` flags of the checkboxes in document order.
  `AfterSync`, `AfterSetPreference`, `AfterToggle` and `AfterSystemChange` specify each operation on it.
- The class `ThemeEnv` holds the same state as mutable fields. The checkboxes are an `array<bool>` that
  `SyncThemeAndToggles` overwrites in a loop. Each method is proved to leave `State()` equal to the
  specification function applied to the old state, so every lemma about the functions also holds for
  the class.
- `Event`, `Step` and `Run` describe, as a trace of events, the two listeners the script installs and the
  click handler the page templates attach: a client-side navigation (after-swap), a click on a toggle,
  and a change of the system colour scheme. `RunKeepsSynced` proves by induction that the page stays
  synced through any such trace. Writes to the storage from another tab are not among these events
  (see "Left out"); `ForeignWriteKeepsSyncedIff` and `ForeignWriteExample` show what they do.

Toggling twice restores the resolved preference only when it is `"light"` or `"dark"`. A stored `"blue"`
becomes `"dark"` and then `"light"` (`ToggleTwice`, `ToggleTwiceFromOtherValue`). `setPreference` stores
whatever string it is given, so `AfterSetPreference` takes any string, and `EmptyPreferenceFollowsSystem`
shows that storing `""` is the same as storing nothing.

## Model

| member | source | states |
|---|---|---|
| `ThemeUtil.GetItem` | public/theme-util.js:9 | the read yields a value exactly when the key is present, and that value is the stored string |
| `ThemeUtil.SystemTheme` | public/theme-util.js:13-15 | the fallback is always a theme, and it is `"dark"` exactly when the system prefers dark |
| `ThemeUtil.ColorPreference` | public/theme-util.js:7-20 | the resolved preference is never empty; it is the stored string verbatim when a non-empty one is stored, and otherwise the system's theme |
| `ThemeUtil.ColorPreferenceIsTheme` | public/theme-util.js:9-19 | the resolved preference is `"light"` or `"dark"` if and only if nothing is stored or the stored string is one of those two |
| `ThemeUtil.StoredPreferenceIgnoresSystem` | public/theme-util.js:9-16 | the system flag has no influence on the resolved preference exactly when a preference is stored |
| `ThemeUtil.Opposite` | public/theme-util.js:57 | the toggled theme is always `"light"` or `"dark"` and always differs from the current one; it is `"light"` exactly when the current one is `"dark"` |
| `ThemeUtil.OppositeInvolutive` | public/theme-util.js:57 | inverting twice gives back the original value if and only if it was `"light"` or `"dark"` |
| `ThemeUtil.AfterSync` | public/theme-util.js:23-45 | after sync the root attribute is the resolved preference and every checkbox is checked iff it is `"dark"`; storage, the system flag, the number of checkboxes and the resolved preference are unchanged |
| `ThemeUtil.AfterSetPreference` | public/theme-util.js:48-52 | storage holds the given name under the key and every other entry is kept; for a non-empty name the root attribute is that name and every checkbox is checked iff it is `"dark"`; for `""` the page falls back to the system theme |
| `ThemeUtil.AfterToggle` | public/theme-util.js:55-59 | afterwards a theme is stored, and it is `"light"` exactly when the resolved preference was `"dark"`; every other storage entry is kept; the new resolved preference differs from the old one and the page is synced |
| `ThemeUtil.AfterSystemChange` | public/theme-util.js:74-78 | with a preference stored the page is left exactly as it was; with none stored the page is synced to the system theme; storage is never written |
| `ThemeUtil.SyncIdempotent` | public/theme-util.js:23-45 | syncing twice gives the same page as syncing once |
| `ThemeUtil.SyncedIsFixedPoint` | public/theme-util.js:23-45 | sync leaves a page unchanged if and only if the page is already synced |
| `ThemeUtil.SyncWithoutToggles` | public/theme-util.js:32-42 | with no checkboxes on the page, sync changes only the root attribute |
| `ThemeUtil.ToggleTwice` | public/theme-util.js:55-59 | from a `"light"` or `"dark"` resolution, two toggles equal storing that resolution explicitly, restore the resolved preference, and equal a plain sync when it was already stored |
| `ThemeUtil.ToggleTwiceFromOtherValue` | public/theme-util.js:55-59 | a stored non-theme string becomes `"dark"` after one toggle and `"light"` after two, so it is not restored |
| `ThemeUtil.SystemChangeKeepsSynced` | public/theme-util.js:72-78 | a system flag change followed by the change handler keeps a synced page synced, with or without a stored preference |
| `ThemeUtil.ForeignWriteKeepsSyncedIff` | public/theme-util.js:23-45 | a write to the preference from outside the page, with no sync after it, keeps a synced page synced if and only if it leaves the resolved preference unchanged |
| `ThemeUtil.ForeignWriteExample` | public/theme-util.js:55-59 | on a page synced on `"dark"`, a foreign write of `"light"` desyncs it; a click then stores `"dark"` and changes nothing visible; a navigation re-syncs it |
| `ThemeUtil.LoadThenToggle` | public/theme-util.js:55-65 | loading with nothing stored on a dark system and then clicking once persists `"light"`, sets the root attribute to `"light"` and unchecks every checkbox |
| `ThemeUtil.EmptyPreferenceFollowsSystem` | public/theme-util.js:9-16 | storing the empty string leaves no preference, so the page resolves to the system theme |
| `ThemeUtil.Step` | public/theme-util.js:63-78 | a navigation keeps storage, the system flag and the resolved theme, and leaves a synced page with the new checkboxes all set from it; a click is a toggle; a system change never writes storage, records the new flag, leaves the page otherwise untouched when a preference is stored, and otherwise syncs it to the new system theme |
| `ThemeUtil.StepKeepsSynced` | public/theme-util.js:63-78 | every single event keeps a synced page synced |
| `ThemeUtil.RunKeepsSynced` | public/theme-util.js:63-78 | any sequence of events keeps a synced page synced |
| `ThemeUtil.SyncedAfterAnyEvents` | public/theme-util.js:63-78 | after the initial sync on load, the root attribute and every checkbox agree with the resolved preference after any sequence of events |
| `ThemeUtil.UnsetPreferenceTracksSystem` | public/theme-util.js:71-78 | while nothing is clicked, storage is never written and no preference appears, and after any event the root attribute follows the current system theme |
| `ThemeUtil.ThemeEnv.SyncThemeAndToggles` | public/theme-util.js:23-45 | the loop over the checkbox array leaves the state equal to `AfterSync` of the old state, so the page is synced |
| `ThemeUtil.ThemeEnv.SetPreference` | public/theme-util.js:48-52 | writing storage and then syncing leaves the state equal to `AfterSetPreference` of the old state |
| `ThemeUtil.ThemeEnv.TogglePreference` | public/theme-util.js:55-59 | the state afterwards is `AfterToggle` of the old state |
| `ThemeUtil.ThemeEnv.OnSystemSchemeChange` | public/theme-util.js:74-78 | the state afterwards is `AfterSystemChange` of the old state: untouched when a preference is stored, otherwise synced |

## Left out

- Writes to the storage slot from another tab of the same origin are not modelled as events. The script registers no `storage` listener, so such a write leaves the page out of sync until the next navigation or click; `Event` has no such event, and `RunKeepsSynced` holds only for traces without them.
- The registration of the listeners (public/theme-util.js:69, 72-74) is browser and framework plumbing. The handlers are methods the caller invokes, and `Event`/`Run` describe their effect on a trace. The initial call at public/theme-util.js:65 is modelled by `SyncedAfterAnyEvents`, which starts from `AfterSync` of the initial page.
- The media query is not modelled. The system preference is the boolean field `systemDark`, which the platform changes before the change handler runs.
- The `if (toggle)` guard (public/theme-util.js:38) is not modelled, because the elements returned by `querySelectorAll` are never null. Every checkbox is a present boolean.
- The selector query for the checkboxes (public/theme-util.js:32-34) is not modelled. The checkboxes are the given array, in document order.
- Storage failures are not modelled. If local storage is unavailable, `getItem` and `setItem` throw, and the script does not catch the error.
- The attributes and `checked` flags are plain fields. Styling driven by them, and the click-handler wiring of the checkboxes in the page templates, are not part of this model.
- src/components/ModeToggle.tsx, src/components/LanguageSelector.tsx, src/i18n/ui.ts, src/content.config.ts and astro.config.mjs are not part of this model. They are UI components, string tables and build or schema configuration.
