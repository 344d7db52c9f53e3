# phx-multi-select client hooks, modelled in Dafny

This project models the browser-side hooks of the `phx-multi-select` Phoenix
LiveView component and proves what they promise.

- **The multi-select hook** (`assets/multi-select-hook.js`):
  - It derives the hook id from the root element's id.
  - It watches the row of selected-option "tag" chips and tells the server when the row starts or stops wrapping onto a second line.
  - It filters the option list on the client, by a case-insensitive regular expression typed in the filter box or by the "checked only" toggle.
  - It keeps the toggle's icon (value, title, colour classes) in step.
- **The lean hook** (`assets/js/hooks/multi-select-hook.js`):
  - It has the same wrap detector.
  - It adds two window-level listeners, `js:set_input_value` and `js:ignore_empty_input`.
- **The theme changer** of the example application (`example/assets/js/hooks/theme-changer-hook.js`):
  - It switches the document between a dark and a light scheme.
  - It shows the matching icons and remembers the scheme in browser storage.

Files and modules:

| file | module | what |
|---|---|---|
| `wrappers.dfy` | `Wrappers` | `Option`, for JavaScript's `undefined` |
| `js_strings.dfy` | `JsStrings` | `trim`, `split` on one character, `join`, class-name tokens, the `-tags` suffix test |
| `events.dfy` | `Events` | events pushed to the server, kept in a log; the root element's `data-*` attributes |
| `wrap_detect.dfy` | `WrapDetect` | the chip scan (a method with a loop), the reporting rule as a pure step, the edge-triggering invariant |
| `option_filter.dfy` | `OptionFilter` | the show/hide rule and the filter pass over the options |
| `check_icon.dfy` | `CheckIcon` | the icon title and the colour-class update |
| `multi_select.dfy` | `MultiSelect` | `HookId`; class `MultiSelectHook` with the handlers of the full hook |
| `js_hooks.dfy` | `JsHooks` | class `WrapHook` (the lean hook) and class `InputElement` (the two listeners) |
| `theme.dfy` | `Theme` | pure `Toggle` over a page snapshot; class `ThemeChanger` working on arrays in place |

Modelling choices:

- **Regular expressions.** The regex library is a parameter with two total functions: `parses(p)` and `test(p, text)`. The fallback `new RegExp()` is the constructor `MatchAll`, which matches every string.
- **Server pushes.** Each `pushEventTo` call appends an `Event` to the hook's `events` log.
- **Coordinates.** Chip coordinates are `real`s. They are only compared.
- **`undefined` values.**
  - An absent `data-*` attribute or storage key is `None`.
  - A missing title entry becomes the text "undefined", which is what assigning `undefined` to `innerHTML` writes.
  - A missing colour group makes `colors[k].split` throw a `TypeError`. This is the `threw` flag of `Recolor`. It skips the `filter` push, and in `mounted` it also prevents the resize observer from being installed.

Two behaviours of the code worth stating plainly:

- A filter text that is not a valid regular expression leaves `rex` as `new RegExp()`, which matches every label, so when the check filter is off all options are shown (`assets/multi-select-hook.js:104-105`).
- A chip starts a new row when its `top` is larger than its predecessor's (`prevItem.top < currItem.top`), that is, when its top edge is lower on the screen (`assets/multi-select-hook.js:45`).

## Model

| member | source | states |
|---|---|---|
| `MultiSelect.HookId` | assets/multi-select-hook.js:14 | the id is the element id with one trailing `-tags` removed, or the element id itself when it has no such suffix |
| `MultiSelect.HookIdOfTags` | assets/multi-select-hook.js:14 | the id of element `base-tags` is `base`, so exactly one suffix is removed |
| `WrapDetect.FirstRise` | assets/multi-select-hook.js:38-50 | the scan's count is the index of the first chip whose top is below its predecessor's, or the number of chips when there is none; it is below the length exactly when the chips wrap; chip 0 never counts |
| `WrapDetect.FirstRiseFrom` | assets/multi-select-hook.js:43-50 | from index `i` on, the result is the first rise at or after `i`, or the length |
| `WrapDetect.Scan` | assets/js/hooks/multi-select-hook.js:7-19 | the loop with `break` returns `wrapped` true exactly when some chip `i >= 1` has `tops[i-1] < tops[i]`, and `eleCount` equal to `FirstRise` |
| `WrapDetect.Observe` | assets/multi-select-hook.js:52-55 | with more than one chip, a changed wrap state and `data-wrap` not "true", exactly one `wrapped {count, value}` event is logged and the state becomes the new value; otherwise nothing changes |
| `WrapDetect.ChangesOnlyWithEvent` | assets/js/hooks/multi-select-hook.js:21-24 | `wasWrapped` changes exactly when an event is logged, and then equals the logged value; the logged count is below the chip count exactly when the value is true |
| `WrapDetect.ObserveTwice` | assets/js/hooks/multi-select-hook.js:21-23 | observing the same layout twice logs no second event |
| `WrapDetect.SuppressedChangeReportedLater` | assets/js/hooks/multi-select-hook.js:21-22 | while `data-wrap="true"`, a change leaves the state unchanged; the first observation after suppression is lifted reports it |
| `WrapDetect.InitialAlternating` | assets/multi-select-hook.js:6 | the initial state (`wasWrapped: false`, empty log) satisfies the alternation invariant |
| `WrapDetect.ObserveAlternating` | assets/multi-select-hook.js:52-55 | each observation keeps the logged `wrapped` values alternating `true, false, ...` with `wasWrapped` equal to the last one |
| `WrapDetect.PushOtherAlternating` | assets/multi-select-hook.js:117-118 | pushing a `search` or `filter` event does not disturb the alternation |
| `WrapDetect.Run` | assets/js/hooks/multi-select-hook.js:4-25 | a run of observations only appends to the log, at most one event per observation |
| `WrapDetect.RunAlternating` | assets/js/hooks/multi-select-hook.js:21-24 | over any sequence of layouts and suppression settings, the reported wrap values alternate, starting with `true` |
| `OptionFilter.Compile` | assets/multi-select-hook.js:104-105 | the filter falls back to the match-everything `new RegExp()` exactly when the text does not parse; otherwise it is the text itself, compiled case-insensitively |
| `OptionFilter.Test` | assets/multi-select-hook.js:109 | the fallback matches every label; a compiled pattern answers as the engine does |
| `OptionFilter.Shown` | assets/multi-select-hook.js:104-110 | with the check filter on, an option is shown iff it is checked; with it off, iff the filter text is empty, does not parse, or matches the label |
| `OptionFilter.Refilter` | assets/multi-select-hook.js:107-115 | every option's `hidden` flag becomes the negation of `Shown`; label and checked state are kept |
| `OptionFilter.RefilterKeepsChecks` | assets/multi-select-hook.js:97-102 | whether some option is checked does not depend on the filter pass, its text or visibility |
| `OptionFilter.RefilterTwice` | assets/multi-select-hook.js:60-62 | a second filter pass with the same inputs changes nothing, so `updated` ends as after one pass |
| `OptionFilter.ClearedShowsAll` | assets/multi-select-hook.js:23-25 | with the check filter off, an empty filter shows every option |
| `OptionFilter.UnparsableShowsAll` | assets/multi-select-hook.js:104-105 | with the check filter off, an unparsable pattern shows every option, as `new RegExp()` matches everything |
| `OptionFilter.CheckFilterShowsChecked` | assets/multi-select-hook.js:109-110 | with the check filter on, the hidden options are exactly the unchecked ones, whatever the text |
| `JsStrings.SkipSpaces` | assets/multi-select-hook.js:67 | the scan stops at the first character from `i` on that is not white space, or at the end, having passed only white space |
| `JsStrings.BackSpaces` | assets/multi-select-hook.js:67 | the backward scan stops just past the last character before `j` (and not before `lo`) that is not white space, having passed only white space |
| `JsStrings.Trim` | assets/multi-select-hook.js:67 | the result is a slice of the input preceded and followed only by white space, and itself neither starts nor ends with white space |
| `JsStrings.TrimEmpty` | assets/multi-select-hook.js:75 | `trim` gives the empty string exactly when the input is all white space |
| `JsStrings.TrimUnchanged` | assets/multi-select-hook.js:75 | a string that starts and ends with non-space characters is its own trim |
| `JsStrings.Split` | assets/multi-select-hook.js:75 | `split` returns at least one piece, and no piece holds the separator |
| `JsStrings.JoinSplit` | assets/multi-select-hook.js:75 | joining the pieces of a split with the separator gives back the string |
| `JsStrings.SplitPair` | assets/multi-select-hook.js:67 | `"a|b".split("\|")` is `[a, b]` when neither half holds the separator |
| `JsStrings.Tokens` | assets/multi-select-hook.js:77 | the class names taken from a group are non-empty and hold no space |
| `CheckIcon.Titles` | assets/multi-select-hook.js:67 | the title list always has an entry for the off state |
| `CheckIcon.TitlesRejoin` | assets/multi-select-hook.js:67 | a non-empty `data-titles` is cut at each `\|` and nowhere else: the entries hold no `\|` and, joined with `\|`, give back the trimmed attribute |
| `CheckIcon.TitleFor` | assets/multi-select-hook.js:67-70 | without a `data-titles` attribute, or with an empty one, the title is empty |
| `CheckIcon.PairGroups` | assets/multi-select-hook.js:75 | a `"a\|b"` attribute with no surrounding white space splits into its two groups |
| `CheckIcon.TitleOfPair` | assets/multi-select-hook.js:67-70 | with `data-titles="a\|b"`, the title is `a` when the filter is off and `b` when it is on |
| `CheckIcon.ColorGroups` | assets/multi-select-hook.js:75 | the colour groups always include group 0 |
| `CheckIcon.ColorGroupsRejoin` | assets/multi-select-hook.js:75 | the colour groups hold no `\|` and, joined with `\|`, give back the trimmed attribute |
| `CheckIcon.Recolor` | assets/multi-select-hook.js:74-83 | no `data-colors` means no change; the update throws iff there are fewer than two groups, after removing what the source removes before the throw; with two or more groups and some option checked, the icon carries every class of its state's group and none of the other group's that its own group lacks; with none checked, no class of groups 0 and 1; every other class is kept |
| `CheckIcon.RecolorPair` | assets/multi-select-hook.js:74-83 | for an `"off\|on"` attribute, groups sharing classes included: nothing throws; with some option checked, the icon carries its state's classes and none of the other group's that its own lacks; with none checked, none of either; other classes are kept |
| `MultiSelect.SearchPush` | assets/multi-select-hook.js:117-118 | a `search` event is pushed iff `data-filterside` is "server" |
| `MultiSelect.MultiSelectHook.constructor` | assets/multi-select-hook.js:5-11 | the hook starts unwrapped with nothing pushed, no id and no observer |
| `MultiSelect.MultiSelectHook.AnyChecked` | assets/multi-select-hook.js:97-102 | the loop with `break` returns true iff some option is checked |
| `MultiSelect.MultiSelectHook.ApplyFilter` | assets/multi-select-hook.js:93-121 | returns whether some option is checked; the options become `Refilter` of the old ones under the current text and check-filter state; a `search` event carrying the text is logged iff filtering is server-side |
| `MultiSelect.MultiSelectHook.UpdateCheckIconState` | assets/multi-select-hook.js:65-88 | the icon value is on/off and the hidden input "true"/"false"; the title is `TitleFor`; the options are refiltered with the new state; the classes follow `Recolor`; the events are the `search` push, then `filter {icon: 'check', checked}` unless recolouring threw |
| `MultiSelect.MultiSelectHook.ShowCheckState` | assets/multi-select-hook.js:68-70 | the icon value is on/off, the hidden input "true"/"false" and the title `TitleFor` of the new state; the icon's classes are kept |
| `MultiSelect.MultiSelectHook.RecolorAndNotify` | assets/multi-select-hook.js:74-87 | the icon classes follow `Recolor` and the `filter` check event is pushed for server-side filtering unless that threw |
| `MultiSelect.MultiSelectHook.Mounted` | assets/multi-select-hook.js:13-57 | the id is `HookId` of the element id; the check filter is switched off (input "false", icon "off", its title, refiltered options, recoloured icon); `search` is pushed for server-side filtering, then `filter {icon: 'check', checked: false}` unless recolouring threw; the resize observer is installed only if it did not throw |
| `MultiSelect.MultiSelectHook.OnFilterKeyUp` | assets/multi-select-hook.js:21 | a key-up refilters with the current text |
| `MultiSelect.MultiSelectHook.OnClearClick` | assets/multi-select-hook.js:23-28 | the filter text is emptied and the options refiltered, so with the check filter off all are shown; `search` and `filter {icon: 'clear'}` are pushed for server-side filtering |
| `MultiSelect.MultiSelectHook.OnCheckClick` | assets/multi-select-hook.js:30-31 | the new check-filter state is the negation of `inputS1.value === 'true'`: input, icon value, title, options and classes follow it, and `search` then `filter {icon: 'check'}` with the new state are pushed as in `updateCheckIconState` |
| `MultiSelect.MultiSelectHook.Updated` | assets/multi-select-hook.js:60-63 | the stored check state is normalised to "true"/"false" and the icon value to on/off; the title and classes follow it; the options end as after one filter pass with it; `search` is pushed twice and then the check event |
| `MultiSelect.MultiSelectHook.OnResize` | assets/multi-select-hook.js:35-56 | the wrap state and event log change exactly as `Observe` says, and stay alternating |
| `JsHooks.WrapHook.constructor` | assets/js/hooks/multi-select-hook.js:1-2 | the lean hook starts unwrapped with nothing pushed |
| `JsHooks.WrapHook.OnResize` | assets/js/hooks/multi-select-hook.js:4-25 | the wrap state and log change as `Observe` says; the state changes exactly when an event is logged |
| `JsHooks.InputElement.OnSetInputValue` | assets/js/hooks/multi-select-hook.js:33 | the value becomes the event detail and nothing else changes |
| `JsHooks.InputElement.OnIgnoreEmptyInput` | assets/js/hooks/multi-select-hook.js:34-37 | an input with an empty value gets its id as its name; any other input loses its name |
| `Theme.Resolve` | example/assets/js/hooks/theme-changer-hook.js:24-25 | an absent or empty scheme resolves to "light" iff the document is dark, else "dark"; a non-empty scheme is kept |
| `Theme.WithHidden` | example/assets/js/hooks/theme-changer-hook.js:32-37 | every icon gets or loses `hidden`, keeping its other classes |
| `Theme.Toggle` | example/assets/js/hooks/theme-changer-hook.js:23-40 | the resolved scheme is stored; afterwards the document is dark iff the stored scheme is not "light", and exactly the other scheme's icons are hidden; other document classes and every icon's classes other than `hidden` are kept |
| `Theme.WithHiddenTwice` | example/assets/js/hooks/theme-changer-hook.js:32-37 | setting `hidden` twice keeps only the second setting |
| `Theme.WithHiddenAlready` | example/assets/js/hooks/theme-changer-hook.js:32-37 | setting `hidden` as the icons already have it changes nothing |
| `Theme.ClickFlips` | example/assets/js/hooks/theme-changer-hook.js:16-25 | the argument-less click handler flips the document between dark and light |
| `Theme.ReapplyStored` | example/assets/js/hooks/theme-changer-hook.js:17-21 | `init(localStorage.scheme)` on a synced page with a non-empty stored scheme changes nothing |
| `Theme.SetTwice` | example/assets/js/hooks/theme-changer-hook.js:30-39 | applying a fixed non-empty scheme twice is the same as applying it once |
| `Theme.ClickTwice` | example/assets/js/hooks/theme-changer-hook.js:24-39 | two clicks restore the classes, icons and stored scheme of a synced page whose stored scheme is "light" or "dark" |
| `Theme.StartupScheme` | example/assets/js/hooks/theme-changer-hook.js:46-49 | the start-up scheme is "dark" iff "dark" is stored, or nothing is stored and the system prefers dark; otherwise "light" |
| `Theme.StartupStable` | example/assets/js/hooks/theme-changer-hook.js:45-51 | after start-up the stored scheme is "dark" or "light", the document's darkness matches it, and the next start-up picks the same scheme whatever the system preference |
| `Theme.ThemeChanger.constructor` | example/assets/js/hooks/theme-changer-hook.js:12-13 | the page state is taken as given |
| `Theme.ThemeChanger.SetHidden` | example/assets/js/hooks/theme-changer-hook.js:32-37 | the `forEach` loop leaves the icon array equal to `WithHidden` of its old contents |
| `Theme.ThemeChanger.ToggleTheme` | example/assets/js/hooks/theme-changer-hook.js:23-40 | the page afterwards is `Toggle` of the page before |
| `Theme.ThemeChanger.OnClick` | example/assets/js/hooks/theme-changer-hook.js:16 | a click toggles without a scheme and flips the `dark` class |
| `Theme.ThemeChanger.Init` | example/assets/js/hooks/theme-changer-hook.js:15-21 | `mounted`/`updated` apply the stored scheme, which changes nothing on a synced page |
| `Theme.ThemeChanger.Startup` | example/assets/js/hooks/theme-changer-hook.js:45-52 | start-up applies `StartupScheme` of the stored scheme and preference, and leaves "dark" or "light" stored |

## Left out

- ResizeObserver set-up, `getElementById`, `getElementsByName`, `querySelectorAll` and `getBoundingClientRect` are document plumbing. The chip tops are passed to `OnResize` as a sequence. The option rows and icons are arrays and fields the hooks own.
- Elements that the look-ups do not find (a `null` filter box, input or icon) would throw `TypeError`s. These are not modelled: the hook is assumed to find its elements.
- The `observed == []` guard is not modelled. It compares an array by reference, so it never holds.
- The regular-expression engine is a foreign library. It is a parameter; its matching is not modelled.
- The `pushEventTo` transport and the LiveView lifecycle are not modelled. Pushes are appends to the `events` log; lifecycle callbacks are methods.
- The `js:exec` and `js:set` listeners are not modelled. They call a method or set a property chosen by name on an arbitrary target.
- `window.matchMedia` is the `prefersDark` parameter of `Startup`. `localStorage.scheme` is the `stored` field.
- The combo-box hook, the in-place-edit hook, the hook registry and the Tailwind configuration of the example application are not part of this model. They are browser selection APIs, event forwarding to the server, an export list and build settings.
- `oldFilterVal`, `iconS2` and the `mounted` argument of `applyFilter` are never read. `deadViewCompatible` is a flag without behaviour. None of them is modelled.
- Floating-point coordinates are `real`s, since the scan only compares them.
- `CheckIcon.Recolor`: class names are tokens split on the space character only. `classList.add`/`remove` would throw on a token holding a tab or a line break; the model treats such a token as a plain class name.
- `CheckIcon.TitleFor`: the title is stored as text. The `innerHTML` assignment would also parse any markup in it.
- The `class` attribute is a set of names, so its order is not modelled.
- `Theme.ThemeChanger.ToggleTheme`: the two icon lists are distinct arrays. An element carrying both icon classes would appear in both lists; that aliasing is not modelled.
- OnSetInputValue: the event detail is a string and becomes the value as given. The DOM would convert a non-string detail to a string and sanitize the value on assignment (a text input strips line breaks); neither is modelled.
- Typing in the filter box, ticking a checkbox and server re-renders of the `data-*` attributes change the DOM outside the hooks. They are direct writes to the public fields of the classes (`filterText`, `checkInput`, `data`, `iconData`, the option rows' `checked`).
- The number of option rows of a multi-select hook and of theme icons is fixed for the life of the object: `querySelectorAll` re-runs on every filter pass and every toggle, so a server-side search or a re-render that adds or removes rows between calls is not modelled.
