# Kitty theme changer: a Dafny model of the theme-link state machine

The kitty theme changer is a command-line tool. It switches the kitty
terminal between a light and a dark colour theme by rewriting symbolic links:

- `theme.conf` is the active link, the one kitty loads;
- `light-theme.conf` and `dark-theme.conf` are the default links.

`toggle` points the active link at one default link or the other.
`set_dark` and `set_light` point a default link at `<theme_dir>/<name>.conf`.
`test` and `live` send a theme to running kitty windows, and `list` and `show` only report.

This project models two versions of the tool:

- the packaged module `src/kittytheme/kittytheme.py`, which is the installed
  `kitty-theme` entry point (`setup.py:240`);
- the older single-file script `kittytheme.py`.

The filesystem is a map from path to entry, where an entry is either `File`
or `Link(target)`. It is kept in the `links` field of a `Host.Machine` object.
`unlink` and `symlink_to` are methods that update this field. `resolve`
follows links stored under the whole path, not links in its directory
components. Like pathlib, it keeps the set of links already followed
and reports a loop when it meets one again. A path with no entry resolves to
itself. Each action is a method on the machine. It is proved against a pure
function that says what the action does (`Toggled`, `DarkSet`, `Run`, ...),
and lemmas then prove the properties of those functions.

Files:

- `host.dfy` (module `Host`): paths, entries, resolution (`Follow`,
  `Target`, `Resolved`, `Present`), pathlib's `stem`, the resolution lemmas
  and the `Machine` class.
- `catalog.dfy` (module `Catalog`): the `*conf` glob of the theme directory
  and the lower-cased-stem ordering of `list_themes`.
- `kittytheme.dfy` (module `KittyTheme`): the packaged version's checks,
  actions and `main`.
- `kittytheme_properties.dfy` (module `KittyThemeProperties`): what the
  packaged actions guarantee.
- `root_script.dfy`, `root_script_properties.dfy` (modules `RootScript`,
  `RootScriptProperties`): the older script, where it differs from the
  packaged version, and its findings.

The model follows the code as written; in particular:

- Theme names are matched exactly, so they are case-sensitive.
- Missing links are not created automatically, and no theme is chosen at random.
- One run performs exactly one action (`dest='action'`). There are no
  combined action flags and no mutual-exclusion rule.

## Model

| member | source | states |
|---|---|---|
| Host.LastDot | src/kittytheme/kittytheme.py:169 | The index returned holds the last '.' of the name, or is -1 when there is none. `stem` is built on this. |
| Host.StemOfConf | kittytheme.py:158 | The stem of `<n>.conf` is `n` for every non-empty `n`, and is `.conf` for the empty name. |
| Host.FollowEndsOffLinks | src/kittytheme/kittytheme.py:201 | A resolved path is never itself a link. |
| Host.Detour | src/kittytheme/kittytheme.py:204-205 | Rewriting an entry that a chain of links never visits does not change where the chain leads. |
| Host.Captured | src/kittytheme/kittytheme.py:204-205 | When a chain reaches the rewritten link `x`, following it from `x` again is a symlink loop. |
| Host.Redirect | src/kittytheme/kittytheme.py:204-205 | After `x` is pointed at `y`, `x` leads where `y` led, or loops exactly when `y`'s chain passed through `x`. |
| Host.SeenShrink | src/kittytheme/kittytheme.py:201 | A chain that resolves with more links counted as seen resolves to the same path with fewer. |
| Host.PassThrough | src/kittytheme/kittytheme.py:206 | A chain that passes through `x` meets `x` again later, with the same result. |
| Host.ReachesThrough | src/kittytheme/kittytheme.py:206 | A path whose chain passes through `x` resolves to the same path as `x`. |
| Host.Machine.Unlink | src/kittytheme/kittytheme.py:204 | Removes exactly the given entry. A missing entry is a FileNotFound error and changes nothing. |
| Host.Machine.SymlinkTo | src/kittytheme/kittytheme.py:205 | Adds exactly one link entry. A taken path is a FileExists error and changes nothing. |
| Host.Machine.Relink | src/kittytheme/kittytheme.py:204-205 | Unlink followed by `symlink_to` rewrites one entry to `Link(target)`. A missing entry changes nothing. |
| Host.Machine.Resolve | src/kittytheme/kittytheme.py:201 | The resolving loop computes `Resolved`: the first non-link on the chain, or a loop error. The result is never a link. |
| Host.Machine.Exists | src/kittytheme/kittytheme.py:180 | True exactly when the path leads to an existing regular file. Dangling links and loops give false. |
| Host.Machine.Call | src/kittytheme/kittytheme.py:195 | The command is appended to the machine's command log. |
| Catalog.Lower | src/kittytheme/kittytheme.py:162 | Same length as the input. Each ASCII capital becomes lower case and every other character stays as it is. |
| Catalog.StrLeTotal | src/kittytheme/kittytheme.py:161-162 | Any two strings are comparable in Python's string order. |
| Catalog.StrLeTransitive | src/kittytheme/kittytheme.py:161-162 | Python's string order is transitive. |
| Catalog.Insert | src/kittytheme/kittytheme.py:161-162 | Inserting into a key-sorted list keeps it key-sorted and adds exactly that one element. |
| Catalog.SortByKey | src/kittytheme/kittytheme.py:161-162 | The result is a permutation of the input and is sorted by lower-cased stem. |
| Catalog.Glob | src/kittytheme/kittytheme.py:161 | Each entry of the theme directory whose name ends in "conf" appears exactly once. |
| KittyTheme.CheckThemeProvided | src/kittytheme/kittytheme.py:123-130 | Fails exactly when the action is `test`, `set_dark` or `set_light` and the theme is empty. It is then a usage error naming the action. Every other action passes whatever the theme. |
| KittyTheme.FirstFailureFromSpec | src/kittytheme/kittytheme.py:145-154 | Scanning from position i finds nothing exactly when every remaining attribute is valid. Otherwise it names the first invalid one. |
| KittyTheme.FirstFailure | src/kittytheme/kittytheme.py:133-154 | There is no failure exactly when all six attributes exist with their types (five `Path`, `socket` a `str`). Otherwise the failure names the first failing attribute in list order. |
| KittyTheme.CheckConfig | src/kittytheme/kittytheme.py:145-154 | The checking loop stops at the same attribute that `FirstFailure` names. |
| KittyTheme.ThemeLookupSpec | src/kittytheme/kittytheme.py:173-184 | The lookup succeeds exactly when `theme_dir/<name>.conf` exists, and otherwise gives ThemeNotFound. For a non-empty name, the stem of that file is the name again. Names are taken as single path components. |
| KittyTheme.ThemeFileCaseSensitive | src/kittytheme/kittytheme.py:178 | Different names, including names that differ only in case, give different files, each name taken as a single path component. |
| KittyTheme.GetThemeFile | src/kittytheme/kittytheme.py:173-184 | The method returns what `ThemeLookup` specifies. |
| KittyTheme.ListThemes | src/kittytheme/kittytheme.py:157-163 | Every `*conf` entry of `theme_dir` appears exactly once. The stems are in ascending order of their lower-cased form. |
| KittyTheme.ShowConfig | src/kittytheme/kittytheme.py:166-170 | Returns the stem of the file the active link resolves to, or a loop error. |
| KittyTheme.ToggleThemes | src/kittytheme/kittytheme.py:198-215 | The new link table, or the error, is the one given by `Toggled`. A failure changes nothing. |
| KittyTheme.SetDarkTheme | src/kittytheme/kittytheme.py:218-225 | The new link table, or the error, is the one given by `DarkSet`. |
| KittyTheme.SetLightTheme | src/kittytheme/kittytheme.py:228-235 | The new link table, or the error, is the one given by `LightSet`. |
| KittyTheme.TestTheme | src/kittytheme/kittytheme.py:187-195 | Links unchanged. The single-window `set-colors` command is logged when the theme file exists. |
| KittyTheme.MakeThemeLive | src/kittytheme/kittytheme.py:238-245 | Links unchanged. The `set-colors --all <theme_link>` command is logged when the active link resolves. |
| KittyTheme.RunProgram | src/kittytheme/kittytheme.py:35-63 | The final state and the outcome are those of `Run`. |
| KittyThemeProperties.DefaultActionIsShow | src/kittytheme/kittytheme.py:56-61 | With no action selected, the run is the same as a `show` run. |
| KittyThemeProperties.ThemeCheckComesFirst | src/kittytheme/kittytheme.py:46-53 | A missing theme is refused as a usage error whatever the configuration module holds. |
| KittyThemeProperties.InvalidConfigStops | src/kittytheme/kittytheme.py:49-53 | An invalid configuration stops the run before any action and names the first failing attribute. |
| KittyThemeProperties.OneActionRuns | src/kittytheme/kittytheme.py:55-61 | Once both checks pass, the run is exactly the selected action. |
| KittyThemeProperties.RunChangesAtMostOneLink | src/kittytheme/kittytheme.py:187-245 | A successful run keeps the set of entries. It changes at most one entry, and only `toggle`, `set_dark` and `set_light` change any. |
| KittyThemeProperties.ToggleFrame | src/kittytheme/kittytheme.py:198-215 | Toggle rewrites only the active link's entry, to `Link(dark_theme_link)` or `Link(light_theme_link)`. It fails only on a loop or a missing active link. |
| KittyThemeProperties.ToggleFromLight | src/kittytheme/kittytheme.py:201-205 | When the active link leads where light does, it is pointed at the dark link and leads where dark led, or loops when dark's chain runs back through it. This covers light and dark leading to the same file. |
| KittyThemeProperties.ToggleFromDark | src/kittytheme/kittytheme.py:206-210 | When the active link leads where dark does and not where light does, it is pointed at the light link and leads where light led. |
| KittyThemeProperties.ToggleDegraded | src/kittytheme/kittytheme.py:211-215 | When the active link leads where neither default does, it is pointed at the dark link and leads where dark led. |
| KittyThemeProperties.ToggleTwiceFromLight | src/kittytheme/kittytheme.py:198-215 | Starting from light, two toggles point the active link at the light link again and lead to the same file as before. |
| KittyThemeProperties.SetDarkSpec | src/kittytheme/kittytheme.py:218-225 | Succeeds exactly when the theme file exists and the dark link exists and resolves. It then points the dark link straight at the file and changes no other entry. An unknown name gives ThemeNotFound and changes nothing. |
| KittyThemeProperties.SetLightSpec | src/kittytheme/kittytheme.py:228-235 | The same for the light link. |
| KittyThemeProperties.SetDarkThroughActiveLink | src/kittytheme/kittytheme.py:204-225 | Suppose the active link points at the dark link. Then `set_dark(n)` makes the active link lead to `theme_dir/n.conf`, while the active link's own entry does not change. |
| KittyThemeProperties.TestAndLiveKeepLinks | src/kittytheme/kittytheme.py:187-245 | `test` and `live` change no link and log exactly their one command. |
| RootScript.RootLinksDistinct | kittytheme.py:31-38 | The three links are `theme.conf`, `light-theme.conf` and `dark-theme.conf` in `conf_dir`, and they are pairwise distinct. |
| RootScript.ToggleThemes | kittytheme.py:142-159 | The link table, or the error, is the one given by `RootToggled`. In the degraded state the theme argument becomes the stem of the dark link's file. |
| RootScript.SetLightTheme | kittytheme.py:172-179 | The link table, or the error, is the one given by `RootLightSet`. |
| RootScript.TestTheme | kittytheme.py:131-139 | The outcome is the one given by `RootTested`. Nothing changes. |
| RootScript.MakeThemeLive | kittytheme.py:182-189 | The outcome is the one given by `RootMadeLive`. Nothing changes. |
| RootScript.RunProgram | kittytheme.py:41-52 | The final state and the outcome are those of `RootRun`. |
| RootScriptProperties.RootThemeCheckComesFirst | kittytheme.py:91-97 | `test`, `set_dark` and `set_light` with an empty theme are usage errors before any action. |
| RootScriptProperties.RootOneActionRuns | kittytheme.py:45-50 | Exactly the selected action runs, and `show` runs when none is selected. |
| RootScriptProperties.RootToggleAgreesOutsideDegraded | kittytheme.py:145-154 | Outside the degraded state the script toggles exactly as the packaged version does. |
| RootScriptProperties.RootToggleDegraded | kittytheme.py:155-159 | The degraded toggle is `set_dark_theme(<stem of dark's file>)`. It leaves the active entry alone, and a missing file changes nothing. |
| RootScriptProperties.RootSetDarkKeepsOthers | kittytheme.py:162-169 | The dark link points straight at the theme file, and the active and light entries are unchanged. |
| RootScriptProperties.RootSetLightWritesDark | kittytheme.py:172-179 | The dark link is rewritten and the light link is unchanged. This differs from the packaged `set_light`. |
| RootScriptProperties.RootTestAndLiveNeverRun | kittytheme.py:131-139 | `test` and `live` always fail, with a TypeError when they get that far, and no command is logged. |
| RootScriptProperties.RootDegradedToggleStaysDegraded | kittytheme.py:155-159 | After the degraded toggle the active link leads where it did and still not where dark leads. The packaged toggle would make it lead where dark leads. |

## Findings

| source | as written | input that shows it | evidently intended | confidence | as-written member | corrected member |
|---|---|---|---|---|---|---|
| kittytheme.py:172-179 | `set_light_theme` resolves the light link but unlinks and relinks `dark_theme_link` | `--setl solarized` while `light-theme.conf` points at another theme and `solarized.conf` exists | the light link points at `solarized.conf` and the dark link is unchanged | high (not executed) | RootScriptProperties.RootSetLightWritesDark | KittyThemeProperties.SetLightSpec |
| kittytheme.py:131-139 | `test_theme` and `make_theme_live` put a `Path` object in the command list, and `' '.join(cmd)` in the debug line raises TypeError before `call` | `--test solarized` with `solarized.conf` present, or `--live` | kitty's `set-colors` command runs | high (not executed) | RootScriptProperties.RootTestAndLiveNeverRun | KittyThemeProperties.TestAndLiveKeepLinks |
| kittytheme.py:155-159 | the degraded toggle prints "Setting theme to dark" and then relinks the dark link to its own file, leaving `theme.conf` as it was | `theme.conf → a.conf`, `light-theme.conf → b.conf`, `dark-theme.conf → c.conf`, then `--toggle` | `theme.conf` is pointed at the dark link | medium (not executed) | RootScriptProperties.RootDegradedToggleStaysDegraded | KittyThemeProperties.ToggleDegraded |

The packaged module is the corrected version of all three. It is the one the
installed entry point runs.

## Left out

- The kitty subprocess is not modelled. Each run of it is recorded as an argument vector in `Machine.calls`, and its effect on kitty is not modelled.
- Printing is not modelled: the `list` and `show` output, the notice of the degraded toggle, `print_config_help`, and `dprint`/`vprint` with the `DEBUG`/`VERBOSE` flags. The arguments of these messages are still evaluated, so the resolutions and the TypeError they cause are kept.
- Argument parsing is left out: `build_argument_parser`, `existing_file`, and the rest of `parse_cmd_line` apart from the theme check. The run starts from a parsed `Args` value.
- The packaged `check_theme_provided` calls `argparse.ArgumentError` with one argument. Whatever it raises, the model treats it as a usage error before any action.
- The configuration module's dynamic loading is left out. It is an attribute table (`ConfigModule`) given to `Run`.
- Exit statuses are left out. The model records only whether a run succeeded (`Done`) or failed with an error (`Failed`). It does not record the status the process exits with. In the packaged entry point that status is 1 for `sys.exit(1)` in `get_theme_file` and for an uncaught exception. The root script's `__main__` turns every `SystemExit` into status 0.
- Link targets are absolute paths. A relative target is not joined to its link's directory, and `..` components and `~` expansion are not modelled. `RootConfig` takes the home directory as a parameter.
- KittyTheme.ThemeLookupSpec: a theme name is taken as one path component: `<name>.conf` is appended to `theme_dir` as a single entry. `joinpath` would split a name on '/', drop '.' parts and let an absolute name replace `theme_dir`, so for a name such as `sub/x` the stem of the file is `x`, not the name, and the model reports ThemeNotFound where the code finds `theme_dir/sub/x.conf`.
- KittyTheme.ThemeFileCaseSensitive: for the same reason, distinct names give distinct files only among single-component names; the code maps `x` and `./x` to the same file.
- Directories are not entries, and unlinking a directory is not modelled.
- Only the last component of a path is followed. A symlinked directory on the way (`theme_dir`, `conf_dir` or a parent) is not resolved. So `exists()` through such a directory is not modelled, and neither is the equality of resolved paths reached through different directory links.
- Symlink loops raise an error, as `resolve()` does in Python 3.8 to 3.12. Later Pythons return a path instead.
- Catalog.Lower: folds only ASCII capitals, where Python's `str.lower` folds all of Unicode.
- Catalog.Glob: the glob order of the directory is unspecified, so entries with equal lower-cased stems come out in an unspecified order.
