# Simple Bookmarks Menu — a Dafny model

Simple Bookmarks Menu is a browser add-on. It hides chosen items of the
bookmarks menu and the bookmarks panel. To do so it generates a CSS user
stylesheet from eight preferences and registers that stylesheet, as a
percent-encoded `data:` URI, with the browser's style-sheet service. The whole
add-on is `extension/bootstrap.js`. This project models it in Dafny and proves
properties of the model.

The model has five modules, one file each:

- `wrappers.dfy` — `Option`. `None` stands for a JavaScript exception.
- `uri_encoding.dfy` — `encodeURIComponent` from ECMA-262 5.1, section
  15.1.3.4. It works on Unicode scalar values and emits full UTF-8 escapes.
  Its inverse, `decodeURIComponent` (section 15.1.3.2), is also modelled, so
  that the encoder can be proved lossless.
- `style_sheet.dfy` — `genStyleSheet`, as pure functions over the seven
  preference values it reads. Each CSS line is a constructor of `Rule`.
  - The generator is a table of guarded appends (`Generator`), run in order
    by `Emit`.
  - A second, independent description lists every rule in source order
    (`RuleTable`) with its own guard (`GuardOf`). The proofs relate the two.
- `preferences.dfy` — the defaults table and the two layers of a preference
  branch: the defaults the add-on seeds and the values the user sets. It also
  models the typed reads `getBoolPref` and `getIntPref`; these fail (`None`)
  on a missing or mistyped value.
- `bootstrap.dfy` — the stateful part, as classes:
  - `StyleSheetService`, a set of registered sheet URIs;
  - `PrefService`, the two layers;
  - `SimpleBookmarksMenu`, the add-on object. Its fields are `prefs`,
    `stylesheet` and the flag `observing`, which stands for the observer
    registration. Its methods are `setDefaultPrefs`, `loadStyle`,
    `unloadStyle`, `genStyleSheet`, `init`, `observe` and `uninit`.
  - The bootstrap hooks `startup` and `shutdown`.

Behaviour of the code worth noting:

- Every emitted rule is its own CSS line. Hide selectors are not merged into
  one selector list.
- `setDefaultPrefs` rewrites every default on each run. What it never touches
  is the user's values.
- `init` starts observing before it generates the sheet.
- `shutdown` on `APP_SHUTDOWN` returns at once. It does not unsubscribe the
  observer either.
- `show-all-bookmarks` may hold any integer. Only 1 and 2 add rules.
- A read of a missing or mistyped preference throws. `init` and `observe`
  then stop part-way. The model returns `ok == false` and keeps the state that
  the code leaves behind.
- `keyboard-shortcuts` is seeded but never read. This is proved.

## Model

| member | source | states |
|---|---|---|
| UriEncoding.Utf8 | extension/bootstrap.js:127 | a character becomes 1 to 4 octets; one octet, equal to the code point, exactly for ASCII; continuation octets lie in 0x80..0xBF |
| UriEncoding.EscapeAll | extension/bootstrap.js:127 | each octet becomes its own `%XY` escape (`%` and two upper-case hex digits), in order, three characters per octet |
| UriEncoding.EncodeUriComponent | extension/bootstrap.js:127 | no contract of its own: `encodeURIComponent`, character by character; its properties are `DecodeEncode`, `EncodeInjective`, `EncodeIsUriSafe` and `EncodeUnreserved` |
| UriEncoding.DecodeEncodeChar | extension/bootstrap.js:127 | decoding the encoding of one character, followed by any text, gives back that character and consumes exactly its encoding |
| UriEncoding.DecodeEncode | extension/bootstrap.js:127 | `decodeURIComponent(encodeURIComponent(s)) == s` for every string |
| UriEncoding.EncodeInjective | extension/bootstrap.js:127 | distinct texts get distinct encodings |
| UriEncoding.EncodeIsUriSafe | extension/bootstrap.js:127 | the encoding uses only unreserved characters, `%` and upper-case hex digits |
| UriEncoding.EncodeUnreserved | extension/bootstrap.js:127 | a text of unreserved characters is its own encoding |
| StyleSheet.Text | extension/bootstrap.js:76-123 | no contract of its own: the 17 CSS literals the generator appends, one per rule; its properties are `TextIsOneLine` and `TextInjective` |
| StyleSheet.Emit | extension/bootstrap.js:75-124 | no contract of its own: runs the guarded appends in order; its properties are `EmitMember` (a rule comes out exactly when listed and its guard holds) and `EmitOrdered` (order is kept), lifted to the generator by `Rules`, `EmittedIff` and `EmittedInOrder` |
| StyleSheet.GenStyleSheet | extension/bootstrap.js:72-128 | the URI starts with `data:text/css;charset=utf-8,` |
| StyleSheet.StyleSheetFrame | extension/bootstrap.js:73-127 | the URI is the prefix plus an encoding that decodes to the CSS text; the text starts with the namespace line and the document header, each followed by a newline, and ends with the closing brace |
| StyleSheet.GenStyleSheetFaithful | extension/bootstrap.js:127 | two preference sets give the same URI only if they give the same CSS text |
| StyleSheet.Rules | extension/bootstrap.js:75-124 | every emitted rule is one whose guard holds for the preferences read |
| StyleSheet.Lines | extension/bootstrap.js:75-126 | no rules give no text; otherwise the text ends with a line break |
| StyleSheet.Source | extension/bootstrap.js:73-126 | the CSS text opens with the namespace line and the document header and closes with the brace |
| StyleSheet.Position | extension/bootstrap.js:75-124 | every rule has a place in the source-order table |
| StyleSheet.GeneratorCoversTable | extension/bootstrap.js:75-124 | the guarded appends, read in order, list every rule of the table exactly once, in table order |
| StyleSheet.GeneratorConsistent | extension/bootstrap.js:75-124 | each append is guarded by the condition the table gives for each of its rules |
| StyleSheet.TableInOrder | extension/bootstrap.js:75-124 | table positions strictly increase along the table |
| StyleSheet.EmitMember | extension/bootstrap.js:75-124 | running consistent guarded appends emits a rule exactly when it is listed and its own guard holds |
| StyleSheet.EmitOrdered | extension/bootstrap.js:75-124 | guarded appends over an ordered listing emit an ordered subsequence |
| StyleSheet.EmittedIff | extension/bootstrap.js:75-124 | a rule is emitted if and only if its guard holds |
| StyleSheet.EmittedInOrder | extension/bootstrap.js:75-126 | emitted rules keep the source order, and none appears twice |
| StyleSheet.SameGuardTogether | extension/bootstrap.js:75-124 | rules of one block are emitted together or not at all |
| StyleSheet.UpperBlocks | extension/bootstrap.js:75-85 | each of the five bookmark-this-page and sidebar rules is emitted if and only if its preference is false |
| StyleSheet.LowerBlocks | extension/bootstrap.js:87-109 | the toolbar, subscribe (both rules), bookmarks-toolbar and unsorted-bookmarks items are each emitted if and only if their preference is false |
| StyleSheet.CompoundSeparators | extension/bootstrap.js:92-114 | the toolbar-panel separator is emitted if and only if sidebar and toolbar are both false; the two unsorted separators if and only if bookmarks-toolbar and unsorted-bookmarks are both false |
| StyleSheet.ShowAllBranches | extension/bootstrap.js:116-124 | 2 gives the hide and padding rules and never the accelerator or centering rules; 1 gives the reverse; any other value gives none of the four |
| StyleSheet.RuleSeparates | extension/bootstrap.js:75-127 | preference sets that disagree on a rule's guard emit different rule lists and get different URIs |
| StyleSheet.ToggleMatters | extension/bootstrap.js:75-109 | flipping any one of the six boolean preferences, all else equal, changes the stylesheet URI |
| StyleSheet.ShowAllMatters | extension/bootstrap.js:116-124 | show-all-bookmarks at 1, or at 2, gives a URI different from any other value |
| StyleSheet.ShowAllOtherValuesAlike | extension/bootstrap.js:116-124 | all values of show-all-bookmarks other than 1 and 2 give the same URI |
| StyleSheet.SameSheetIff | extension/bootstrap.js:75-127 | two preference sets give the same URI if and only if they enable the same rules |
| StyleSheet.SameEnabledSameRules | extension/bootstrap.js:75-124 | preference sets that enable the same rules emit the same rule list |
| StyleSheet.OrderedSameMembers | extension/bootstrap.js:75-124 | two rule lists in source order with the same members are equal |
| StyleSheet.TextIsOneLine | extension/bootstrap.js:75-124 | no rule's CSS text contains a line break |
| StyleSheet.TextInjective | extension/bootstrap.js:75-124 | distinct rules have distinct CSS texts |
| StyleSheet.LinesInjective | extension/bootstrap.js:75-126 | the newline-terminated lines determine the rule list they were written from |
| StyleSheet.SourceDeterminesRules | extension/bootstrap.js:73-126 | the CSS text determines the emitted rules |
| StyleSheet.RulesDetermineSheet | extension/bootstrap.js:73-127 | two preference sets give the same URI if and only if they emit the same rule list |
| Preferences.Seed | extension/bootstrap.js:32-47 | writing entries into a layer adds exactly their keys and leaves every other key's value alone |
| Preferences.Effective | extension/bootstrap.js:75-116 | a read sees the user's value when one is set, otherwise the default; nothing exactly when neither layer holds the preference |
| Preferences.UserValueHidesDefault | extension/bootstrap.js:32-47 | rewriting the default layer never changes what a read of a preference the user set sees |
| Preferences.NameInjective | extension/bootstrap.js:15-24 | distinct keys have distinct preference names |
| Preferences.GetBoolPref | extension/bootstrap.js:75-106 | a boolean read succeeds exactly when the visible value is a boolean, and returns it |
| Preferences.GetIntPref | extension/bootstrap.js:116 | an integer read succeeds exactly when the visible value is an integer, and returns it |
| Preferences.DefaultPrefsUnique | extension/bootstrap.js:15-24 | the defaults table names each key once, and each default has the type it is read with |
| Preferences.DefaultPrefsComplete | extension/bootstrap.js:15-24 | the defaults table has an entry for every key |
| Preferences.SeedLookup | extension/bootstrap.js:32-47 | after seeding, a key listed once holds the value listed for it |
| Preferences.SeededDefaults | extension/bootstrap.js:15-47 | after seeding, every key is present with its declared default, whatever the layer held before |
| Preferences.SeededDefaultTyped | extension/bootstrap.js:15-47 | after seeding, every key holds a value of the type it is read with |
| Preferences.ReadSucceedsIff | extension/bootstrap.js:72-116 | the seven reads all succeed if and only if each read preference has a visible value of the type it is read with |
| Preferences.ReadOptions | extension/bootstrap.js:75-116 | a successful read gives, for each of the seven options, the value the branch shows for its preference, with the type it is read with |
| Preferences.SeededReadSucceedsIff | extension/bootstrap.js:130-140 | with defaults seeded, the reads fail only because of a mistyped user value |
| Preferences.SeededReadValues | extension/bootstrap.js:15-24 | with defaults seeded, each option is the user's value when one is set and the declared default otherwise |
| Preferences.PristineOptions | extension/bootstrap.js:15-24 | with defaults seeded and no user values, the options are true, false, false, false, false, false, 1 |
| Preferences.ReadDependsOnlyOnReadKeys | extension/bootstrap.js:72-128 | branches that agree on the seven read preferences yield the same options |
| Preferences.KeyboardShortcutsNeverRead | extension/bootstrap.js:23 | setting or removing keyboard-shortcuts, in either layer, never changes what is read |
| Preferences.ExampleScenario | extension/bootstrap.js:75-124 | with bookmark-this-page false and show-all-bookmarks 2: both bookmark-this-page rules, the show-all hide rule and the padding rule are emitted; the centering and accelerator rules are not |
| Preferences.ExampleRules | extension/bootstrap.js:75-124 | any options with bookmark-this-page false and show-all-bookmarks 2 emit the two bookmark-this-page rules, the show-all hide rule and the padding rule, and neither the centering nor the accelerator rule |
| Bootstrap.Loaded | extension/bootstrap.js:49-54 | after loadStyle the URI is registered and no other URI changed |
| Bootstrap.Unloaded | extension/bootstrap.js:56-61 | after unloadStyle the URI is not registered and no other URI changed |
| Bootstrap.LoadUnloadIdempotent | extension/bootstrap.js:49-61 | loading twice equals loading once; unloading twice equals unloading once |
| Bootstrap.LoadUnloadInverse | extension/bootstrap.js:49-61 | unloading undoes a load that added the URI; loading undoes an unload that removed it |
| Bootstrap.SheetFor | extension/bootstrap.js:72-128 | generation succeeds exactly when the reads do |
| Bootstrap.SheetIgnoresKeyboardShortcuts | extension/bootstrap.js:23 | the sheet does not depend on keyboard-shortcuts |
| Bootstrap.SeededSheet | extension/bootstrap.js:130-140 | once defaults are seeded, generation fails only on a mistyped user value, and otherwise yields the URI of the options read |
| Bootstrap.StyleSheetService.LoadAndRegisterSheet | extension/bootstrap.js:53 | the URI joins the registered set |
| Bootstrap.StyleSheetService.UnregisterSheet | extension/bootstrap.js:60 | the URI leaves the registered set |
| Bootstrap.PrefService.SetDefaultBoolPref | extension/bootstrap.js:36-37 | the default layer gets the boolean; the user layer is unchanged |
| Bootstrap.PrefService.SetDefaultIntPref | extension/bootstrap.js:39-40 | the default layer gets the integer; the user layer is unchanged |
| Bootstrap.PrefService.SetUserPref | extension/bootstrap.js:63-64 | the browser-side write of a user value, which sends the `nsPref:changed` notification these lines test for (the add-on itself never writes a user value): the user layer gets the value at the key; the default layer is unchanged |
| Bootstrap.SimpleBookmarksMenu.constructor | extension/bootstrap.js:26-30 | `prefs` is null, `stylesheet` is empty, nothing is observed |
| Bootstrap.SimpleBookmarksMenu.SetDefaultPrefs | extension/bootstrap.js:32-47 | the default layer becomes the old one seeded with the whole table in order; the user layer is unchanged |
| Bootstrap.SimpleBookmarksMenu.LoadStyle | extension/bootstrap.js:49-54 | the registered set becomes `Loaded(old, uri)` |
| Bootstrap.SimpleBookmarksMenu.UnloadStyle | extension/bootstrap.js:56-61 | the registered set becomes `Unloaded(old, uri)` |
| Bootstrap.SimpleBookmarksMenu.GenStyleSheet | extension/bootstrap.js:72-128 | the result is the sheet for the branch's current values, or `None` when a read throws |
| Bootstrap.SimpleBookmarksMenu.Init | extension/bootstrap.js:130-141 | defaults are seeded, `prefs` is set and observing is on; on success the new sheet is stored, registered and active; on failure the sheet field and the registered set are unchanged |
| Bootstrap.SimpleBookmarksMenu.Observe | extension/bootstrap.js:63-70 | other topics change nothing; on a preference change the registered set becomes (old set minus old sheet) plus new sheet, or only loses the old sheet when generation throws |
| Bootstrap.SimpleBookmarksMenu.Uninit | extension/bootstrap.js:143-146 | the current sheet is unregistered, nothing else is, and observing is off |
| Bootstrap.Startup | extension/bootstrap.js:149-151 | the effect of init, for every reason |
| Bootstrap.Shutdown | extension/bootstrap.js:153-158 | `APP_SHUTDOWN` changes nothing, so the sheet stays registered; any other reason unregisters the current sheet and stops observing |
| Bootstrap.EnableThenDisable | extension/bootstrap.js:130-158 | on a fresh browser, exactly the add-on's sheet is registered while it runs, and none after it is disabled |
| Bootstrap.UserChangesPref | extension/bootstrap.js:63-70 | after the user sets one preference of a running add-on, the old sheet is unregistered and the sheet for the new values, when the reads succeed, is stored and registered; a change of keyboard-shortcuts gives the same sheet as before |
| Bootstrap.StartThenQuit | extension/bootstrap.js:130-158 | started and then shut down with the browser, the add-on leaves its sheet registered |

## Left out

- XPCOM plumbing is not modelled: `Components`, the `Services` import, `getService`, and the lookups of the default branch and the user branch under the add-on's branch prefix `PREF_BRANCH`. Both services are plain objects here, and a preference is named by its key alone.
- `Services.io.newURI` is not modelled, so the exception it throws on a malformed string is not either. Two such cases follow an `init` that failed before storing a sheet. `uninit` would throw while unloading the empty string (bootstrap.js:144), so `removeObserver` (bootstrap.js:145) would never run and the observer would stay registered. `observe` would throw in `unloadStyle` (bootstrap.js:67) and never regenerate the sheet. The model's `Uninit` and `Observe` instead unregister nothing at that step; `Uninit` goes on to set `observing` to false, and `Observe` goes on to generate and register the sheet. So `EnableThenDisable`, whose `init` may fail, reports no registered sheet and no observer after `uninit`, where the browser would keep the observer.
- The `USER_SHEET` argument is not modelled; only user sheets exist here. The real service keeps a list, so it could register a sheet twice; the model's set cannot. `loadStyle` never registers a sheet twice anyway.
- Observer registration is the boolean `observing`. Delivery of notifications is not modelled: `Observe` is called directly.
- The runtime `typeof` dispatch in `setDefaultPrefs` is a `match` on a statically typed table. The table has no string defaults, so the `setCharPref` branch can never run and is not modelled.
- Preferences outside the add-on's eight keys are not modelled; the add-on never reads them.
- The browser's refusal to store a user value whose type differs from the default is not modelled. Such a value reaches the read, which throws (`None`).
- Integer preferences are 32-bit in the browser but unbounded here. The code only compares `show-all-bookmarks` with 1 and 2.
- `genStyleSheet` interleaves its reads with the appends; the model reads all seven values first. The string is local and the reads have no side effects, so the result, or the exception, is the same.
- Lone surrogate code units, on which `encodeURIComponent` throws `URIError`, are not modelled. A Dafny `char` is a Unicode scalar value, so such strings do not exist here; the add-on's own text is ASCII.
- CSS semantics are not modelled, i.e. whether the selectors really hide the menu items.
- The `data` argument of the hooks is unused by the code, and is not modelled.
- The hooks' `reason` is a number in the browser; the model has an enumeration. Only `APP_SHUTDOWN` is ever compared, so the numeric values are not modelled.
- `install` and `uninstall` are empty, and are not modelled.
- Bootstrap.SimpleBookmarksMenu.Uninit and Bootstrap.Shutdown require that `prefs` is set. `uninit` before `init` would throw on `this.prefs`, and the host always calls `startup` first.
- Determinism of `genStyleSheet` is not stated separately: the generator is a Dafny function, so it holds by construction.
