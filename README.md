# Seymour driver — a Dafny model

Seymour is a command-line adapter for Cordova projects. Its single entry
point, `run(args, env)` in `src/seymour.js`, turns `SEY_*` environment
variables into changes to the project descriptor (`config.xml`) and into a
build-options record. It then drives the Cordova toolchain through a fixed
sequence: write the descriptor, prepare, write it again, fire the
`before_build` hook, compile, fire the `after_build` hook.

This project models that function in Dafny 4.11 and proves what it promises:

- `wrappers.dfy` (module `Wrappers`): the optional-value type.
- `text.dfy` (module `Text`): ASCII `toLowerCase`, and
  JavaScript's `split` with a one-character separator. `Split` is proved
  inverse to `Join`. It yields one piece per separator plus one. Splitting
  commutes with lower-casing.
- `env_keys.dfy` (module `EnvKeys`): the environment is a map of values plus
  the `Object.keys` enumeration order. The two preference-name patterns
  `^SEY_PREFERENCE_` and `^SEY_([A-Za-z]+)_PREFERENCE_` are parsers. Each is
  proved to accept exactly the names its regular expression matches and to
  round-trip with composing a name from its parts.
- `build_options.dfy` (module `BuildOptions`): the
  `{platforms, options, verbose, silent, fetch}` record. The nested `options`
  object is a map, so "exactly one of `debug` and `release`" is a property
  to prove rather than a fact of the type.
- `descriptor.dfy` (module `Descriptor`): `ConfigParser` as a class `Config`.
  Its fields are the identity fields, root attributes, global preferences and
  per-platform preferences. `persisted` records every `write()`. Its setters
  are specified against pure `Document` functions. Setting a platform
  preference creates the platform's section if it is missing.
- `mutations.dfy` (module `Mutations`): the descriptor changes the driver
  makes. Pure specification functions are folded over the keys in order.
  Lemmas give the resulting descriptor entry by entry. The imperative
  `forEach` loops are methods proved against those functions.
- `seymour.dfy` (module `Seymour`): `Run`. It returns the outcome, the
  trace of outside calls, and the descriptor it loaded. It finds the root,
  loads the descriptor, writes, prepares, writes again, resolves the project
  root and pre-processes the options, then fires the hooks and compiles. Its
  contract gives the trace length and outcome at every exit point the model
  has (the descriptor's own failures are not among them; see "Left out"),
  and the documents the trace writes are exactly the descriptor's write
  record.

The toolchain is an input (`Toolchain`). It supplies the working directory,
what `findProjectRoot` returns, what `config.xml` holds when loaded, and
whether prepare, the step that runs `cdProjectRoot` and `preProcessOptions`,
each hook and compile resolves or rejects, with the reason. The options that
`preProcessOptions` returns are given by a function parameter of `Run`.

Notes on what the code does:

- The platform token of a platform-preference variable is the run of ASCII
  letters right after `SEY_` (`[A-Za-z]+`). A variable such as
  `SEY_IOS2_PREFERENCE_x` sets nothing.
- Platform names are not trimmed, so `"windows, ios"` gives `" ios"`.
- A project root that is the empty string is treated like a missing one,
  because the check is `!projectRoot`.
- A name such as `SEY_PREFERENCE_PREFERENCE_x` matches both patterns. It sets
  the global preference `PREFERENCE_x` and also preference `x` of platform
  `preference` (`EnvKeys.BothPatternsExample`).
- Two names that differ only in the case of the platform token set the same
  platform preference (`SEY_IOS_PREFERENCE_x`, `SEY_ios_PREFERENCE_x`). The
  key enumerated last wins (`Mutations.PlatformPreferencesResult`).

## Model

| member | source | states |
|---|---|---|
| `Text.Lower` | src/seymour.js:83 | ASCII lower-casing: the result is never an upper-case letter, a non-upper-case character is unchanged, and an upper-case letter becomes its lower-case letter |
| `Text.LowerStr` | src/seymour.js:83-86 | lower-casing a string keeps its length, leaves no upper-case letter, keeps every other character and moves each upper-case letter to its lower-case letter |
| `Text.Split` | src/seymour.js:81-82 | `split(',')` always yields at least one piece and no piece contains the separator |
| `Text.JoinSplit` | src/seymour.js:81-82 | joining the pieces with the separator gives back the original string: nothing is trimmed or dropped |
| `Text.SplitJoin` | src/seymour.js:81-82 | splitting a join of separator-free pieces gives back exactly those pieces, in order |
| `Text.SplitLength` | src/seymour.js:81-82 | the number of pieces is the number of separators plus one |
| `Text.SplitLowerStr` | src/seymour.js:81-83 | for a separator that is not a letter, lower-casing each piece equals splitting the lower-cased string |
| `EnvKeys.GlobalPreferenceName` | src/seymour.js:110-113 | a name is a global-preference variable iff it starts with `SEY_PREFERENCE_`, and then it is that prefix followed by the returned preference name |
| `EnvKeys.GlobalPreferenceNameOfKey` | src/seymour.js:113 | the variable for preference `n` yields exactly `n` |
| `EnvKeys.LetterRun` | src/seymour.js:121 | the length of the longest `[A-Za-z]*` prefix: all of it letters, and the next character (if any) is not a letter |
| `EnvKeys.PlatformPreference` | src/seymour.js:117-123 | no result without the `SEY_` prefix; a result's platform is a non-empty word of lower-case letters, and the name is the tail of the variable that remains after `SEY_`, the platform token and `_PREFERENCE_` |
| `EnvKeys.PlatformPatternUnique` | src/seymour.js:118-121 | wherever `^SEY_([A-Za-z]+)_PREFERENCE_` matches, the letter group ends where the maximal letter run after `SEY_` ends, so the name has one decomposition |
| `EnvKeys.PlatformPreferenceIsPattern` | src/seymour.js:117-123 | the parser succeeds iff the regular expression matches, and for every match it returns the lower-cased letters as platform and the text after `_PREFERENCE_` as name |
| `EnvKeys.PlatformPreferenceOfKey` | src/seymour.js:120-123 | composing `SEY_` + letters + `_PREFERENCE_` + name and parsing it gives (lower-cased letters, name) |
| `EnvKeys.IosPreferenceExample` | src/seymour.js:117-124 | `SEY_IOS_PREFERENCE_sas_api_key` sets preference `sas_api_key` of platform `ios` |
| `EnvKeys.BothPatternsExample` | src/seymour.js:110-125 | `SEY_PREFERENCE_PREFERENCE_x` matches both the global and the platform pattern |
| `BuildOptions.PlatformList` | src/seymour.js:80-84 | one entry per comma-separated segment, in order, untrimmed and not de-duplicated; entry i is segment i lower-cased; joining the list gives the lower-cased value |
| `BuildOptions.IsRelease` | src/seymour.js:86 | release needs `SEY_BUILD_MODE` set to a seven-character value, and the value `release` always selects it |
| `BuildOptions.OptionsFor` | src/seymour.js:49-94 | `device` is always true; `release` is present iff `SEY_BUILD_MODE` lower-cases to `release` and `debug` is present otherwise, so exactly one of them; a truthy `SEY_VERBOSE` sets both `verbose` flags, otherwise `verbose` is false and `options.verbose` absent; `buildConfig` is present iff `SEY_BUILD_CONFIG` is truthy and then carries it; no other option key; `silent` false and `fetch` true; platforms as in PlatformList, else empty |
| `BuildOptions.DeriveOptions` | src/seymour.js:49-94 | the record built by assigning fields step by step equals OptionsFor |
| `BuildOptions.PlatformListExample` | src/seymour.js:80-84 | `Windows,iOS` gives `["windows", "ios"]` |
| `BuildOptions.BuildModeExamples` | src/seymour.js:86-90 | `release`, `Release` and `RELEASE` select release; `debug`, the empty string, `releases` and an absent variable select debug |
| `Descriptor.Document.WithGlobalPreference` | src/seymour.js:114 | the named global preference takes the value; every other global preference and every other field is unchanged |
| `Descriptor.Document.WithPlatformPreference` | src/seymour.js:124 | the (platform, name) preference takes the value, replacing any earlier one; every other platform preference is unchanged; the platform's section exists afterwards; nothing else changes |
| `Descriptor.Document.WithRootAttribute` | src/seymour.js:106 | the named root attribute takes the value; no other attribute or field changes |
| `Descriptor.Config.constructor` | src/seymour.js:46-47 | the loaded descriptor holds the file's contents and nothing has been written yet |
| `Descriptor.Config.SetPackageName` | src/seymour.js:59 | only the package name changes |
| `Descriptor.Config.SetName` | src/seymour.js:63 | only the display name changes |
| `Descriptor.Config.SetShortName` | src/seymour.js:67 | only the short name changes |
| `Descriptor.Config.SetVersion` | src/seymour.js:71 | only the version changes |
| `Descriptor.Config.SetRootAttribute` | src/seymour.js:106 | the contents become WithRootAttribute of the old contents |
| `Descriptor.Config.SetGlobalPreference` | src/seymour.js:114 | the contents become WithGlobalPreference of the old contents |
| `Descriptor.Config.SetPlatformPreference` | src/seymour.js:124 | the contents become WithPlatformPreference of the old contents |
| `Descriptor.Config.Write` | src/seymour.js:127 | the current contents are appended to what has been persisted; the contents do not change |
| `Mutations.WithIdentity` | src/seymour.js:58-72 | a truthy `SEY_APP_ID`, `SEY_APP_NAME`, `SEY_APP_SHORTNAME` or `SEY_APP_VERSION` replaces its field; nothing but the four identity fields changes, and with all four falsy nothing changes |
| `Mutations.WithAttributes` | src/seymour.js:105-107 | every listed root attribute takes the value, every other root attribute keeps its value or absence, nothing else changes |
| `Mutations.WithBuildNumber` | src/seymour.js:96-108 | with a truthy `SEY_BUILD_NUMBER`, exactly `android-versionCode`, `ios-CFBundleVersion` and `osx-CFBundleVersion` take it; every other root attribute and every other part is unchanged, and no attribute disappears |
| `Mutations.WithGlobalPreferences` | src/seymour.js:110-115 | the fold over the keys changes only global preferences and removes none |
| `Mutations.WithPlatformPreferences` | src/seymour.js:117-125 | the fold over the keys changes only platform preferences and removes no platform section |
| `Mutations.Configured` | src/seymour.js:58-125 | the driver's mutations only add or replace entries: no root attribute, global preference or platform section disappears |
| `Mutations.GlobalPreferencesResult` | src/seymour.js:110-115 | for every key `SEY_PREFERENCE_<n>`, preference `<n>` takes that key's value; every other global preference is unchanged; nothing but global preferences changes |
| `Mutations.PlatformPreferencesResult` | src/seymour.js:117-125 | every (platform, name) pair a key names takes the value of the last key naming it; pairs no key names are unchanged; no platform section disappears; nothing but platform preferences changes |
| `Mutations.ConfiguredResult` | src/seymour.js:58-125 | each identity field is its variable's value when truthy and unchanged otherwise; with a truthy `SEY_BUILD_NUMBER` exactly `android-versionCode`, `ios-CFBundleVersion` and `osx-CFBundleVersion` take it and no other root attribute changes; global preferences per variable; every (platform, name) pair some key names takes the value of the last key naming it, and pairs no variable names are unchanged |
| `Mutations.ApplyIdentity` | src/seymour.js:58-72 | the descriptor becomes WithIdentity of the old one; nothing is written |
| `Mutations.ApplyBuildNumber` | src/seymour.js:96-108 | the loop over the three attributes leaves the descriptor at WithBuildNumber of the old one; nothing is written |
| `Mutations.ApplyGlobalPreferences` | src/seymour.js:110-115 | the loop over the keys in order leaves the descriptor at WithGlobalPreferences of the old one; nothing is written |
| `Mutations.ApplyPlatformPreferences` | src/seymour.js:117-125 | the loop over the keys in order leaves the descriptor at WithPlatformPreferences of the old one; nothing is written |
| `Seymour.IsVersionRequest` | src/seymour.js:28 | `-v` or `--version` anywhere among the arguments |
| `Seymour.IsConfigOnly` | src/seymour.js:129 | `--config-only` anywhere among the arguments |
| `Seymour.HasProjectRoot` | src/seymour.js:38-39 | the root is truthy: present and not the empty string |
| `Seymour.Configure` | src/seymour.js:49-125 | the descriptor becomes the mutated descriptor of its old contents (ConfiguredResult), nothing is written, and the returned options are OptionsFor the environment |
| `Seymour.Build` | src/seymour.js:131-154 | the calls made are a prefix of prepare, second write, `before_build`, compile, `after_build`; it stops right after the first step that rejects and passes that rejection on unchanged: prepare (1 call), resolving the root or pre-processing the options (2 calls), `before_build` (3) or compile (4); otherwise it makes all 5 and resolves or passes on the `after_build` rejection; the descriptor's write record grows by the current contents exactly when prepare succeeds; prepare gets the options, the hooks and compile the pre-processed copy |
| `Seymour.RunInProject` | src/seymour.js:38-154 | once a root is found: the loaded descriptor ends with the mutated contents, the documents the trace writes are exactly the descriptor's write record, and the trace is a prefix of the planned run; with `--config-only` it resolves after 3 calls, otherwise it stops after 4, 5, 6 or 7 calls with the rejection of prepare, of resolving the root or pre-processing the options, of `before_build` or of compile, or makes all 8 and resolves or passes on the `after_build` rejection |
| `Seymour.Run` | src/seymour.js:27-155 | `-v`/`--version` anywhere: resolves with no call and loads no descriptor; no (or empty) root: rejects with the not-a-project error after root discovery only; otherwise the trace is the planned sequence cut at the first stop: after the first write with `--config-only` (resolves), after prepare, the second write, `before_build`, compile or `after_build` if that step rejects (each rejection passed on unchanged), or complete (resolves); the documents in the trace's writes are exactly what the descriptor persisted, and that is the mutated descriptor; prepare gets the derived options, hooks and compile the pre-processed copy |
| `Seymour.PlannedStops` | src/seymour.js:127-153 | at each stop a run can reach, the writes are the mutated contents once before prepare and a second time only after prepare succeeds; prepare is called at most once; compile is called once, and only after `before_build` succeeds |

## Left out

- Printing the two version lines and reading `package.json`: the model keeps
  only the short-circuit. A version request resolves with no call.
- The logger: `CordovaLogger.get`, `subscribe` and `setLevel('verbose')`. It
  is a process-wide side channel with no effect on the outcome.
- `ConfigParser` internals: XML parsing, serialising, and what `write()` puts
  on disk. The descriptor is abstract fields plus a record of writes. In the
  real parser the package name and version are root attributes too; the
  model keeps them as separate fields.
- The toolchain's own behaviour: `findProjectRoot`, `prepare`, `compile`,
  `HooksRunner.fire`, `cdProjectRoot` and `preProcessOptions`. Their answers
  are inputs: `cdProjectRoot` and `preProcessOptions` together are one
  success-or-failure input (`buildSetup`), and the options
  `preProcessOptions` returns are a function parameter. Neither is an event
  of the trace. The directory `cdProjectRoot` changes to, and the hook
  runner's binding to that re-resolved project root, are not modelled.
- `Seymour.Run`: loading `config.xml`, the descriptor's setters and its two
  writes are assumed never to fail. In the source, a missing or malformed
  `config.xml` (the `ConfigParser` constructor) or a failing first `write()`
  throws out of `run` before any promise exists. A failing second `write()`
  rejects the run. The model has no exit for any of these.
- `Descriptor.Config.SetPlatformPreference`: the platform's section is
  created when it is missing. That is an assumption about `ConfigParser`,
  whose code is not part of this model; a parser that refuses a platform
  without a `<platform>` element would throw there instead.
- Changes that prepare makes to `config.xml` on disk are not modelled. The
  model shows only that the second write persists the same contents as the
  first.
- `Seymour.Run`: the hooks and compile receive the same `build_opts` object.
  A change one of them makes to it would be seen by the next. The model
  passes the same value to all three and does not capture that aliasing.
- The `JSON.stringify`/`JSON.parse` copies: Dafny values are already
  independent copies.
- Promises and asynchrony: the sequence is strictly linear and is modelled as
  a sequential method.
- `process.cwd()` and `path.join(projectRoot, 'config.xml')` are plumbing.
  The working directory is an input, and the load event records the project
  root rather than a normalised path.
- `Text.Lower`: lower-casing covers ASCII only. JavaScript's `toLowerCase`
  also folds non-ASCII letters, which the model leaves unchanged.
- Environment values that are not strings: the process environment only
  holds strings, so truthiness is "present and non-empty".
