/** The packaged theme changer (the `kitty-theme` entry point): the checks
    made before any action runs, the actions on the three theme links, and
    the dispatch of the one selected action. Each action is a method on the
    machine, proved against a function that says what the action does. */
module KittyTheme {
  import opened Host
  import Catalog

  // ---------------------------------------------------------------- actions

  /** The `action` destination of the command line; NoAction is the empty default. */
  datatype Action = NoAction | List | Show | Test | Toggle | SetDark | SetLight | Live {
    function Name(): string {
      match this
      case NoAction => ""
      case List => "list"
      case Show => "show"
      case Test => "test"
      case Toggle => "toggle"
      case SetDark => "set_dark"
      case SetLight => "set_light"
      case Live => "live"
    }
  }

  datatype Args = Args(configHelp: bool, action: Action, theme: string)

  const ActionsNeedingTheme: seq<Action> := [Test, SetDark, SetLight]

  /** The actions that take a theme name refuse an empty one; every other
      action passes whatever the theme. */
  function CheckThemeProvided(action: Action, theme: string): (r: Outcome)
    ensures r.Failed? <==> (action == Test || action == SetDark || action == SetLight) && theme == ""
    ensures r.Failed? ==> r.error == UsageError(action.Name())
  {
    if action != NoAction && action in ActionsNeedingTheme && theme == "" then
      Failed(UsageError(action.Name()))
    else
      Done
  }

  // ---------------------------------------------------------- configuration

  /** The configuration the actions read, once it has been checked. */
  datatype Config = Config(
    themeDir: Path, confDir: Path,
    themeLink: Path, lightThemeLink: Path, darkThemeLink: Path,
    socket: string)

  /** A value bound in the user's configuration module. */
  datatype Value = PathValue(path: Path) | StrValue(str: string) | OtherValue

  /** The configuration module, as its attribute table. */
  type ConfigModule = map<string, Value>

  datatype Kind = PathKind | StrKind

  const RequiredAttributes: seq<(string, Kind)> := [
    ("theme_dir", PathKind),
    ("conf_dir", PathKind),
    ("theme_link", PathKind),
    ("light_theme_link", PathKind),
    ("dark_theme_link", PathKind),
    ("socket", StrKind)
  ]

  /** `isinstance(getattr(config, name), kind)`, false when the attribute is missing. */
  predicate HasAttribute(m: ConfigModule, attr: (string, Kind)) {
    attr.0 in m &&
    match attr.1
    case PathKind => m[attr.0].PathValue?
    case StrKind => m[attr.0].StrValue?
  }

  predicate ConfigValid(m: ConfigModule) {
    forall i :: 0 <= i < |RequiredAttributes| ==> HasAttribute(m, RequiredAttributes[i])
  }

  function FirstFailureFrom(m: ConfigModule, i: nat): Option<string>
    requires i <= |RequiredAttributes|
    decreases |RequiredAttributes| - i
  {
    if i == |RequiredAttributes| then None
    else if !HasAttribute(m, RequiredAttributes[i]) then Some(RequiredAttributes[i].0)
    else FirstFailureFrom(m, i + 1)
  }

  lemma {:induction false} FirstFailureFromSpec(m: ConfigModule, i: nat)
    requires i <= |RequiredAttributes|
    ensures FirstFailureFrom(m, i).None? <==>
              forall j :: i <= j < |RequiredAttributes| ==> HasAttribute(m, RequiredAttributes[j])
    ensures FirstFailureFrom(m, i).Some? ==>
              exists k :: i <= k < |RequiredAttributes| &&
                RequiredAttributes[k].0 == FirstFailureFrom(m, i).value &&
                !HasAttribute(m, RequiredAttributes[k]) &&
                forall j :: i <= j < k ==> HasAttribute(m, RequiredAttributes[j])
    decreases |RequiredAttributes| - i
  {
    if i < |RequiredAttributes| && HasAttribute(m, RequiredAttributes[i]) {
      FirstFailureFromSpec(m, i + 1);
    }
  }

  /** The attribute `check_config` complains about: the first one of the
      required list that is missing or of the wrong type. */
  function FirstFailure(m: ConfigModule): (r: Option<string>)
    ensures r.None? <==> ConfigValid(m)
    ensures r.Some? ==>
              exists k :: 0 <= k < |RequiredAttributes| &&
                RequiredAttributes[k].0 == r.value &&
                !HasAttribute(m, RequiredAttributes[k]) &&
                forall j :: 0 <= j < k ==> HasAttribute(m, RequiredAttributes[j])
  {
    FirstFailureFromSpec(m, 0);
    FirstFailureFrom(m, 0)
  }

  /** `check_config`: checks the required attributes in list order and stops
      at the first that fails. */
  method CheckConfig(m: ConfigModule) returns (failed: Option<string>)
    ensures failed == FirstFailure(m)
  {
    var i := 0;
    while i < |RequiredAttributes|
      invariant i <= |RequiredAttributes|
      invariant FirstFailureFrom(m, i) == FirstFailureFrom(m, 0)
    {
      var (name, kind) := RequiredAttributes[i];
      var ok := name in m && match kind
        case PathKind => m[name].PathValue?
        case StrKind => m[name].StrValue?;
      if !ok {
        return Some(name);
      }
      i := i + 1;
    }
    failed := None;
  }

  /** The configuration a valid module describes. */
  function ConfigOf(m: ConfigModule): Config
    requires ConfigValid(m)
  {
    assert HasAttribute(m, RequiredAttributes[0]) && HasAttribute(m, RequiredAttributes[1]);
    assert HasAttribute(m, RequiredAttributes[2]) && HasAttribute(m, RequiredAttributes[3]);
    assert HasAttribute(m, RequiredAttributes[4]) && HasAttribute(m, RequiredAttributes[5]);
    Config(m["theme_dir"].path, m["conf_dir"].path, m["theme_link"].path,
           m["light_theme_link"].path, m["dark_theme_link"].path, m["socket"].str)
  }

  // ------------------------------------------------------------ theme files

  /** `theme_dir.joinpath('<name>.conf')`. */
  function ThemeFile(c: Config, name: string): Path {
    c.themeDir + [name + ".conf"]
  }

  /** `get_theme_file`: the theme's file when it exists; otherwise the
      program stops before touching anything. */
  function ThemeLookup(c: Config, fs: FileTable, name: string): Result<Path> {
    var file := ThemeFile(c, name);
    if Present(fs, file) then Ok(file) else Err(ThemeNotFound(name))
  }

  /** The file of a theme is found exactly when `<name>.conf` exists in the
      theme directory, and the stem of that file gives the name back. */
  lemma ThemeLookupSpec(c: Config, fs: FileTable, name: string)
    ensures ThemeLookup(c, fs, name).Ok? <==> Present(fs, ThemeFile(c, name))
    ensures ThemeLookup(c, fs, name).Err? ==> ThemeLookup(c, fs, name).error == ThemeNotFound(name)
    ensures name != "" ==> Stem(Name(ThemeFile(c, name))) == name
  {
    StemOfConf(name);
  }

  /** Names are matched exactly: two names differing in any way, case
      included, name two different files. */
  lemma ThemeFileCaseSensitive(c: Config, a: string, b: string)
    requires a != b
    ensures ThemeFile(c, a) != ThemeFile(c, b)
  {
    var d := |c.themeDir|;
    assert ThemeFile(c, a)[d] == a + ".conf" && ThemeFile(c, b)[d] == b + ".conf";
    if |a| == |b| {
      var k :| 0 <= k < |a| && a[k] != b[k];
      assert (a + ".conf")[k] != (b + ".conf")[k];
    } else {
      assert |a + ".conf"| != |b + ".conf"|;
    }
  }

  method GetThemeFile(m: Machine, c: Config, name: string) returns (r: Result<Path>)
    ensures r == ThemeLookup(c, m.links, name)
  {
    var file := ThemeFile(c, name);
    var present := m.Exists(file);
    if !present {
      return Err(ThemeNotFound(name));
    }
    r := Ok(file);
  }

  // ------------------------------------------------------- kitty commands

  /** `Path.as_posix()` of an absolute path. */
  function Posix(p: Path): string {
    if p == [] then "/" else PosixParts(p)
  }

  function PosixParts(p: Path): string {
    if p == [] then "" else "/" + p[0] + PosixParts(p[1..])
  }

  /** The command that applies a theme file to the current kitty window. */
  function TestCommand(c: Config, file: Path): Command {
    ["kitty", "@", "--to=" + c.socket, "set-colors", Posix(file)]
  }

  /** The command that applies the active theme link to every kitty window. */
  function LiveCommand(c: Config): Command {
    ["kitty", "@", "--to=" + c.socket, "set-colors", "--all", Posix(c.themeLink)]
  }

  // ------------------------------------------------- what each action does

  /** `show_config`: the stem of the file the active link leads to. */
  function Shown(c: Config, fs: FileTable): Result<string> {
    var q :- Resolved(fs, c.themeLink);
    Ok(Stem(Name(q)))
  }

  /** `toggle_themes`. */
  function Toggled(c: Config, fs: FileTable): Result<FileTable> {
    var light :- Resolved(fs, c.lightThemeLink);
    var theme :- Resolved(fs, c.themeLink);
    if light == theme then
      Relinked(fs, c.themeLink, c.darkThemeLink)
    else
      var dark :- Resolved(fs, c.darkThemeLink);
      if dark == theme then Relinked(fs, c.themeLink, c.lightThemeLink)
      else Relinked(fs, c.themeLink, c.darkThemeLink)
  }

  /** `set_dark_theme`: the dark link is resolved (for the debug message)
      before it is replaced. */
  function DarkSet(c: Config, fs: FileTable, name: string): Result<FileTable> {
    var file :- ThemeLookup(c, fs, name);
    var existing :- Resolved(fs, c.darkThemeLink);
    Relinked(fs, c.darkThemeLink, file)
  }

  /** `set_light_theme`. */
  function LightSet(c: Config, fs: FileTable, name: string): Result<FileTable> {
    var file :- ThemeLookup(c, fs, name);
    var existing :- Resolved(fs, c.lightThemeLink);
    Relinked(fs, c.lightThemeLink, file)
  }

  /** `test_theme`: runs the single-window command, changes no link. */
  function Tested(c: Config, st: State, name: string): Result<State> {
    var file :- ThemeLookup(c, st.links, name);
    Ok(st.(calls := st.calls + [TestCommand(c, file)]))
  }

  /** `make_theme_live`: resolves the active link (for the verbose message),
      then runs the all-windows command; changes no link. */
  function MadeLive(c: Config, st: State): Result<State> {
    var active :- Resolved(st.links, c.themeLink);
    Ok(st.(calls := st.calls + [LiveCommand(c)]))
  }

  function WithLinks(r: Result<FileTable>, st: State): Result<State> {
    var fs :- r;
    Ok(st.(links := fs))
  }

  /** One action; the empty action is `show`. */
  function Perform(action: Action, c: Config, theme: string, st: State): Result<State> {
    match action
    case List => Ok(st)
    case NoAction | Show => var stem :- Shown(c, st.links); Ok(st)
    case Test => Tested(c, st, theme)
    case Toggle => WithLinks(Toggled(c, st.links), st)
    case SetDark => WithLinks(DarkSet(c, st.links, theme), st)
    case SetLight => WithLinks(LightSet(c, st.links, theme), st)
    case Live => MadeLive(c, st)
  }

  /** `main`: configuration help, then the theme check, then the
      configuration check, then the one selected action. */
  function Run(args: Args, cfg: ConfigModule, st: State): Result<State> {
    if args.configHelp then Ok(st)
    else if CheckThemeProvided(args.action, args.theme).Failed? then
      Err(CheckThemeProvided(args.action, args.theme).error)
    else match FirstFailure(cfg)
      case Some(attribute) => Err(ConfigInvalid(attribute))
      case None => Perform(args.action, ConfigOf(cfg), args.theme, st)
  }

  // ----------------------------------------------------- the methods

  predicate Reflects(r: Result<FileTable>, out: Outcome, before: FileTable, after: FileTable) {
    match r
    case Ok(fs) => out == Done && after == fs
    case Err(e) => out == Failed(e) && after == before
  }

  predicate ReflectsRun(r: Result<State>, out: Outcome, before: State, after: State) {
    match r
    case Ok(st) => out == Done && after == st
    case Err(e) => out == Failed(e) && after == before
  }

  /** `list_themes`: the theme files, each once, ordered by lower-cased stem. */
  method ListThemes(m: Machine, c: Config) returns (files: seq<string>, stems: seq<string>)
    ensures multiset(files) == multiset(Catalog.ThemeEntries(m.links, c.themeDir))
    ensures |stems| == |files| && forall i :: 0 <= i < |files| ==> stems[i] == Stem(files[i])
    ensures forall i, j :: 0 <= i < j < |stems| ==> Catalog.StrLe(Catalog.Lower(stems[i]), Catalog.Lower(stems[j]))
  {
    var found := Catalog.Glob(m, c.themeDir);
    files := Catalog.SortByKey(found);
    stems := [];
    for i := 0 to |files|
      invariant |stems| == i && forall k :: 0 <= k < i ==> stems[k] == Stem(files[k])
    {
      stems := stems + [Stem(files[i])];
    }
  }

  method ShowConfig(m: Machine, c: Config) returns (r: Result<string>)
    ensures r == Shown(c, m.links)
  {
    var q := m.Resolve(c.themeLink);
    if q.Err? {
      return Err(q.error);
    }
    r := Ok(Stem(Name(q.value)));
  }

  method ToggleThemes(m: Machine, c: Config) returns (out: Outcome)
    modifies m`links
    ensures Reflects(Toggled(c, old(m.links)), out, old(m.links), m.links)
  {
    var light := m.Resolve(c.lightThemeLink);
    if light.Err? {
      return Failed(light.error);
    }
    var theme := m.Resolve(c.themeLink);
    if theme.Err? {
      return Failed(theme.error);
    }
    if light.value == theme.value {
      out := m.Relink(c.themeLink, c.darkThemeLink);
    } else {
      var dark := m.Resolve(c.darkThemeLink);
      if dark.Err? {
        return Failed(dark.error);
      }
      if dark.value == theme.value {
        out := m.Relink(c.themeLink, c.lightThemeLink);
      } else {
        out := m.Relink(c.themeLink, c.darkThemeLink);
      }
    }
  }

  method SetDarkTheme(m: Machine, c: Config, theme: string) returns (out: Outcome)
    modifies m`links
    ensures Reflects(DarkSet(c, old(m.links), theme), out, old(m.links), m.links)
  {
    var file := GetThemeFile(m, c, theme);
    if file.Err? {
      return Failed(file.error);
    }
    var existing := m.Resolve(c.darkThemeLink);
    if existing.Err? {
      return Failed(existing.error);
    }
    out := m.Relink(c.darkThemeLink, file.value);
  }

  method SetLightTheme(m: Machine, c: Config, theme: string) returns (out: Outcome)
    modifies m`links
    ensures Reflects(LightSet(c, old(m.links), theme), out, old(m.links), m.links)
  {
    var file := GetThemeFile(m, c, theme);
    if file.Err? {
      return Failed(file.error);
    }
    var existing := m.Resolve(c.lightThemeLink);
    if existing.Err? {
      return Failed(existing.error);
    }
    out := m.Relink(c.lightThemeLink, file.value);
  }

  method TestTheme(m: Machine, c: Config, theme: string) returns (out: Outcome)
    modifies m`calls
    ensures ReflectsRun(Tested(c, old(m.Snapshot()), theme), out, old(m.Snapshot()), m.Snapshot())
  {
    var file := GetThemeFile(m, c, theme);
    if file.Err? {
      return Failed(file.error);
    }
    m.Call(TestCommand(c, file.value));
    out := Done;
  }

  method MakeThemeLive(m: Machine, c: Config) returns (out: Outcome)
    modifies m`calls
    ensures ReflectsRun(MadeLive(c, old(m.Snapshot())), out, old(m.Snapshot()), m.Snapshot())
  {
    var active := m.Resolve(c.themeLink);
    if active.Err? {
      return Failed(active.error);
    }
    m.Call(LiveCommand(c));
    out := Done;
  }

  method RunProgram(m: Machine, args: Args, cfg: ConfigModule) returns (out: Outcome)
    modifies m
    ensures ReflectsRun(Run(args, cfg, old(m.Snapshot())), out, old(m.Snapshot()), m.Snapshot())
  {
    if args.configHelp {
      return Done;
    }
    var check := CheckThemeProvided(args.action, args.theme);
    if check.Failed? {
      return check;
    }
    var failed := CheckConfig(cfg);
    if failed.Some? {
      return Failed(ConfigInvalid(failed.value));
    }
    var c := ConfigOf(cfg);
    match args.action
    case List =>
      var files, stems := ListThemes(m, c);
      out := Done;
    case NoAction | Show =>
      var r := ShowConfig(m, c);
      out := if r.Ok? then Done else Failed(r.error);
    case Test =>
      out := TestTheme(m, c, args.theme);
    case Toggle =>
      out := ToggleThemes(m, c);
    case SetDark =>
      out := SetDarkTheme(m, c, args.theme);
    case SetLight =>
      out := SetLightTheme(m, c, args.theme);
    case Live =>
      out := MakeThemeLive(m, c);
  }
}
