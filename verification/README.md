# themester.zsh — decision logic in Dafny

themester picks a random theme for a shell session. A theme pairs a terminal colour scheme with a Neovim colour scheme and, optionally, a Neovim plugin. The program prints `export` lines for the shell to `eval`. It can also write a Lua file the terminal emulator reloads. It caches the printed text so later shells can replay it, and an optional interval forces a fresh pick once enough hours have passed.

This project models all of `src/main.rs` except its I/O. Each input the program reads from the outside is passed in explicitly:

- The environment variable holding the active terminal theme is an `Option<string>`.
- The operating system's random generator is a sequence of catalog positions. Each `choose` consumes one position.
- The clock is an integer number of seconds since the epoch, within chrono's date-time range.
- The configuration is a plain `Config` record.
- The files are an abstract store: a map from configured path to content, the last randomization instant, and the text on standard output.

Modules:

- `Wrappers` (`wrappers.dfy`): `Option`.
- `Themes` (`themes.dfy`): `Theme`, `Config`, the defaults, and the first-match lookup by terminal name.
- `Exports` (`exports.dfy`): renders the export block and the Lua reload file. Each renderer has a plain-text decoder, and round-trip lemmas link the two.
- `Selector` (`selector.dfy`): the random pick with its retry budget of 10.
- `Randomizer` (`randomizer.dfy`): `randomize`, both as a function and as the loop the source writes.
- `RerollGate` (`reroll_gate.dfy`): the scheduled-reroll condition of `load_cache`.
- `Themester` (`themester.dfy`): `randomize_theme`, `load_cache` and `main` as transitions of the store.

Two behaviours of the code differ from what a reader might expect, and the model keeps them:

- The reroll gate is strict, `last + hours < now`. At exactly the cutoff a load replays the cache and does not reroll (`RerollGate.CutoffIsExclusive`).
- An empty catalog, or an exhausted retry budget, does not stop `randomize_theme`. It still overwrites the cache with the empty text, stamps the instant and prints an empty line. An empty catalog also prints the `echo "Error: no themes!"` line first (`Themester.EmptyCatalogStillStamps`).

## Model

| member | source | states |
|---|---|---|
| `Themes.FirstWithTerm` | src/main.rs:161 | The index returned names the term, no earlier entry does, and `None` exactly when no entry has that name. |
| `Themes.Lookup` | src/main.rs:175 | `find` by terminal name yields an entry with that name, preceded by no entry with the same name; it is absent exactly when no entry has the name. |
| `Themes.LookupDrawn` | src/main.rs:157-161 | A drawn name always finds an entry; when names are unique it finds the drawn entry itself. |
| `Exports.ParseAssignmentRoundTrip` | src/main.rs:159-166 | An `export NAME=VALUE` line reads back as its name and value, quoted or bare, provided the name has no `=` and a bare value does not already look quoted. |
| `Exports.ExportBlockRoundTrip` | src/main.rs:173-181 | Provided no variable name contains `=` or a newline, no value contains a newline, and a bare terminal value is not already wrapped in quotes (`BlockWellFormed`), the export block is exactly three lines, in order: terminal variable ← term, editor-theme variable ← theme name, plugin variable ← plugin or empty string. |
| `Exports.TermLuaRoundTrip` | src/main.rs:188-193 | The reload file `return "<term>"` gives back exactly the term it was written for. |
| `Selector.FirstDiffering` | src/main.rs:155-171 | The retry scan returns the first draw within the budget whose name differs from the active one, having seen only repeats before it; `None` means all draws up to the budget repeat the active name. |
| `Selector.Select` | src/main.rs:147-172 | Empty catalog: no pick and no draws. No active theme: exactly one draw, taken as is. Active theme: 1 to 10 draws, all but the last repeating the active name, the last differing. It gives up exactly when all 10 repeat. A picked name is always in the catalog. |
| `Selector.LaterDrawsIgnored` | src/main.rs:155-170 | Two draw streams that agree on the draws the selection used give the same selection: no later draw is consulted. |
| `Selector.SingletonActiveGivesUp` | src/main.rs:155-171 | With a one-theme catalog whose theme is active, the selection always gives up after all 10 draws. |
| `Randomizer.Randomize` | src/main.rs:147-186 | The export text is empty exactly when nothing is picked. The reload file is written exactly when a theme is picked and writing is on, with `return "<term>"`. The diagnostic appears exactly for an empty catalog. The editor lines come from the first entry with the picked name, and quoting follows the presence of an active theme. |
| `Randomizer.RandomizeLoop` | src/main.rs:147-186 | The source's loop with early return computes exactly the functional `Randomize`. |
| `Randomizer.RetryLoop` | src/main.rs:155-171 | The `for` loop over 10 retries yields the functional result: the first differing draw, or empty text after all 10. |
| `Randomizer.RenderLines` | src/main.rs:159-181 | Building the text line by line, in both the quoted and the bare branch, yields the rendering of the name with the fields of its first catalog entry. Without an entry, the quoted branch keeps the terminal line and the bare branch gives empty text. |
| `Randomizer.RandomizeExportReadsBack` | src/main.rs:159-167 | When a theme is picked, and the names and values meet the same conditions (`BlockWellFormed`: no `=` or newline in a variable name, no newline in a value, no bare terminal value already wrapped in quotes), the export text reads back as the three assignments. The terminal variable holds the picked name. The editor theme and plugin come from the first entry with that name, with an absent plugin exported as empty. |
| `Randomizer.ExhaustionIffAllDrawsActive` | src/main.rs:155-185 | With an active theme, the export text is empty iff all 10 draws name it. Then nothing goes to the reload file and all 10 draws are spent. |
| `Randomizer.SingletonActiveAlwaysEmpty` | src/main.rs:155-185 | A one-theme catalog whose theme is active always yields empty text, writes nothing and spends 10 draws. |
| `Randomizer.DefaultConfigStuckOnceActive` | src/main.rs:26-60 | Under the default configuration, once its single placeholder theme is active, randomizing always yields empty text. |
| `Randomizer.EditorFieldsFromFirstMatch` | src/main.rs:175-181 | When two entries share a name and the second is drawn, the editor fields come from the first. |
| `Randomizer.NoActiveScenario` | src/main.rs:172-183 | Without an active theme, one draw yields the block with a bare terminal value, the reload content, and a draw count of one. |
| `Randomizer.ActiveRepeatedScenario` | src/main.rs:155-171 | With the active theme drawn 10 times, the result is empty, nothing is written, and 10 draws are spent, although another theme exists. |
| `RerollGate.DateRangeFromCalendar` | src/main.rs:109 | The date-time bounds the cutoff must stay within are the first second of 1 January of year -262143 and the last second of 31 December of year 262142, counted in seconds from the epoch by the proleptic Gregorian calendar. |
| `RerollGate.ShouldReroll` | src/main.rs:107-110 | The gate never opens when the hours are zero or negative. |
| `RerollGate.ShouldRerollIff` | src/main.rs:107-110 | The gate opens iff hours > 0 and `last + hours*3600 < now`. An overflowing cutoff keeps it shut, which is consistent because no representable `now` lies beyond the range. |
| `RerollGate.CutoffIsExclusive` | src/main.rs:110 | At exactly the cutoff the gate is shut; one second later it is open. |
| `RerollGate.OverflowNeverRerolls` | src/main.rs:108-109 | A cutoff past the date-time range keeps the gate shut for every `now`. |
| `RerollGate.GateMonotoneInNow` | src/main.rs:107-110 | Once open, the gate stays open for any later `now`. |
| `Themester.RandomizeTheme` | src/main.rs:122-145 | The cache always holds the export text, even when it is empty, and the instant is set to now. Standard output gains the diagnostic line, if any, then the export text and a newline. The reload file holds its content when written and kept apart from the cache. No other file changes. |
| `Themester.LoadCache` | src/main.rs:103-120 | An open gate performs exactly `RandomizeTheme`. Otherwise the cached text is printed verbatim and the files and instant are unchanged. A missing cache panics. |
| `Themester.Dispatch` | src/main.rs:77-89 | Fewer than two arguments is the missing-argument panic; any first argument other than `-r`, `-l`, `-v` shows help. |
| `Themester.DispatchFlagRoundTrip` | src/main.rs:83-89 | Each operation's flag selects that operation, whatever follows it. |
| `Themester.Execute` | src/main.rs:77-101 | `-r` performs exactly `RandomizeTheme`, and `-l` exactly `LoadCache`, so it panics when that load does. Help and version print their line and change nothing else. Fewer than two arguments panics. |
| `Themester.ExecuteFlagRuns` | src/main.rs:82-86 | Invoking the program with `-r` randomizes and with `-l` loads, whatever arguments follow the flag. |
| `Themester.ReplayAfterRandomize` | src/main.rs:115-144 | A load that does not reroll after a randomization prints exactly the export text that randomization printed, and changes nothing else. |
| `Themester.NoRerollAtSameInstant` | src/main.rs:107-142 | A load at the same instant as the last randomization never rerolls. |
| `Themester.LoadRerollsWhenStale` | src/main.rs:107-113 | A load after the interval has elapsed rerolls: the cache is overwritten with fresh export text and the instant is stamped. |
| `Themester.LoadDisabledOnlyReplays` | src/main.rs:107-119 | With the interval switched off, a load prints the cache verbatim, or panics without one, however old the last randomization is. |
| `Themester.EmptyCatalogStillStamps` | src/main.rs:127-153 | An empty catalog prints the diagnostic, writes empty text to the cache, stamps the instant and prints an empty line. |

## Left out

- File I/O. Reads and writes of the cache, reload file, configuration and local-data files are updates of the abstract store. Their failures, the panics they raise, and the logged error kind when pre-creating the cache are not modelled: every write is taken to succeed.
- Tilde expansion of paths (an external library). Paths are the configured strings, so two spellings of one file count as two files.
- The local-data file. The source keeps the last-randomization instant in a file at the fixed path `~/.config/themester/.localdata`, written after the cache. The model keeps that instant in a field of its own, apart from `files`. So a configured cache or reload path that names the local-data file is not modelled: there the source would overwrite the export text with the serialised record, and a later load would print that record.
- Loading the configuration and local data, and preserving unknown fields. Both are done by external libraries. `Config` is an input record, and a missing local-data record reads as the epoch.
- The wall clock. Instants are whole seconds: sub-second precision is dropped in the `cutoff < now` comparison. On the reroll path the source reads the clock twice, once for the gate and once for the stamp. The model uses one instant for both.
- The random generator's uniformity. Draws are given as catalog positions, and nothing probabilistic is claimed. The stream must hold at least 10 positions for a non-empty catalog. This stands for the generator's infinite stream and is not a requirement the program places on its callers.
- Reading the environment and comparing `OsString` with `String`: the active term is a plain string.
- `std::process::exit` after help and version. Those operations finish with their line printed, and the crate version is a parameter.
- `RerollGate.ShouldReroll`: requires (`GateDefined`) that the `i32` product `hours * 3600` fit, that is, hours at most 596523. Above that, the source panics in a debug build. In a release build the product wraps: 596524 hours gives a delta of -2147480896 seconds, and every load then rerolls. Neither outcome is modelled.
- `Themester.LoadCache`: carries the same `GateDefined` requirement, for the same reason.
- `Themester.Execute`: carries the same `GateDefined` requirement when the argument is `-l`, for the same reason.
- Shell and Lua reading of the output: the decoders in `Exports` only split lines, split at the first `=` and strip outer quotes. They do not model shell word splitting, `$` and backtick expansion, backslash escapes or Lua string escapes. The program escapes none of these characters when it writes a value. So the round-trip lemmas describe the text as written; they do not describe what `eval` or Lua make of a value containing blanks, `"`, `\`, `$` or backticks. A newline in a theme field is not escaped either: it splits the block into more than three lines, and the round trips exclude it.
- The cache-read panic message: the source's `expect` appends the I/O error after the message. The model keeps only the fixed message.
