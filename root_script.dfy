/** The older single-file script. Its configuration is a fixed set of paths
    under the user's home directory and it has no configuration module.
    `get_theme_file`, `set_dark_theme` and `show_config` are the same code
    as in the packaged version and are shared with it. It differs in four
    places: the degraded branch of `toggle_themes`, `set_light_theme`, and
    the command lines of `test_theme` and `make_theme_live`. */
module RootScript {
  import opened Host
  import opened KittyTheme

  /** The script's `Config` class for the user whose home directory is `home`. */
  function RootConfig(home: Path): Config {
    var confDir := home + [".config", "kitty"];
    Config(home + ["storage", "lib", "kitty-themes", "themes"], confDir,
           confDir + ["theme.conf"], confDir + ["light-theme.conf"], confDir + ["dark-theme.conf"],
           "unix:/tmp/kittysocket")
  }

  /** The three links are distinct entries of the configuration directory,
      so no frame property of the script needs a distinctness hypothesis. */
  lemma RootLinksDistinct(home: Path)
    ensures var c := RootConfig(home);
      c.themeLink == c.confDir + ["theme.conf"] &&
      c.lightThemeLink == c.confDir + ["light-theme.conf"] &&
      c.darkThemeLink == c.confDir + ["dark-theme.conf"] &&
      c.themeLink != c.lightThemeLink && c.themeLink != c.darkThemeLink &&
      c.lightThemeLink != c.darkThemeLink
  {
    var c := RootConfig(home);
    var n := |c.confDir|;
    assert c.themeLink[n] == "theme.conf";
    assert c.lightThemeLink[n] == "light-theme.conf";
    assert c.darkThemeLink[n] == "dark-theme.conf";
    assert "theme.conf"[0] != "light-theme.conf"[0] && "theme.conf"[0] != "dark-theme.conf"[0];
    assert "light-theme.conf"[0] != "dark-theme.conf"[0];
  }

  // ------------------------------------------------- what each action does

  /** The active link leads to neither default link: the degraded state. */
  predicate Degraded(c: Config, fs: FileTable) {
    Target(fs, c.lightThemeLink).Some? && Target(fs, c.darkThemeLink).Some? &&
    Target(fs, c.themeLink).Some? &&
    Target(fs, c.lightThemeLink) != Target(fs, c.themeLink) &&
    Target(fs, c.darkThemeLink) != Target(fs, c.themeLink)
  }

  /** `toggle_themes` as the script writes it: in the degraded state the
      theme argument becomes the stem of the dark link's file and
      `set_dark_theme` runs with it. */
  function RootToggled(c: Config, fs: FileTable): Result<FileTable> {
    var light :- Resolved(fs, c.lightThemeLink);
    var theme :- Resolved(fs, c.themeLink);
    if light == theme then
      Relinked(fs, c.themeLink, c.darkThemeLink)
    else
      var dark :- Resolved(fs, c.darkThemeLink);
      if dark == theme then Relinked(fs, c.themeLink, c.lightThemeLink)
      else DarkSet(c, fs, Stem(Name(dark)))
  }

  /** `set_light_theme` as the script writes it: it resolves the light link
      but unlinks and relinks the dark one. */
  function RootLightSet(c: Config, fs: FileTable, name: string): Result<FileTable> {
    var file :- ThemeLookup(c, fs, name);
    var existing :- Resolved(fs, c.lightThemeLink);
    Relinked(fs, c.darkThemeLink, file)
  }

  /** `test_theme` as the script writes it: the command line holds the theme
      file as a path object, and joining it into the debug message raises a
      TypeError before the command can run. */
  function RootTested(c: Config, st: State, name: string): Result<State> {
    var file :- ThemeLookup(c, st.links, name);
    Err(TypeError)
  }

  /** `make_theme_live` as the script writes it: same TypeError. */
  function RootMadeLive(c: Config, st: State): Result<State> {
    var active :- Resolved(st.links, c.themeLink);
    Err(TypeError)
  }

  function RootPerform(action: Action, c: Config, theme: string, st: State): Result<State> {
    match action
    case List => Ok(st)
    case NoAction | Show => var stem :- Shown(c, st.links); Ok(st)
    case Test => RootTested(c, st, theme)
    case Toggle => WithLinks(RootToggled(c, st.links), st)
    case SetDark => WithLinks(DarkSet(c, st.links, theme), st)
    case SetLight => WithLinks(RootLightSet(c, st.links, theme), st)
    case Live => RootMadeLive(c, st)
  }

  /** `main` with `parse_cmd_line`'s theme check. */
  function RootRun(home: Path, action: Action, theme: string, st: State): Result<State> {
    if CheckThemeProvided(action, theme).Failed? then Err(CheckThemeProvided(action, theme).error)
    else RootPerform(action, RootConfig(home), theme, st)
  }

  // --------------------------------------------------------------- methods

  method ToggleThemes(m: Machine, c: Config, theme: string) returns (out: Outcome, newTheme: string)
    modifies m`links
    ensures Reflects(RootToggled(c, old(m.links)), out, old(m.links), m.links)
    ensures newTheme == if Degraded(c, old(m.links)) then Stem(Name(Target(old(m.links), c.darkThemeLink).value)) else theme
  {
    newTheme := theme;
    var light := m.Resolve(c.lightThemeLink);
    if light.Err? {
      return Failed(light.error), newTheme;
    }
    var active := m.Resolve(c.themeLink);
    if active.Err? {
      return Failed(active.error), newTheme;
    }
    if light.value == active.value {
      out := m.Relink(c.themeLink, c.darkThemeLink);
    } else {
      var dark := m.Resolve(c.darkThemeLink);
      if dark.Err? {
        return Failed(dark.error), newTheme;
      }
      if dark.value == active.value {
        out := m.Relink(c.themeLink, c.lightThemeLink);
      } else {
        newTheme := Stem(Name(dark.value));
        out := SetDarkTheme(m, c, newTheme);
      }
    }
  }

  method SetLightTheme(m: Machine, c: Config, theme: string) returns (out: Outcome)
    modifies m`links
    ensures Reflects(RootLightSet(c, old(m.links), theme), out, old(m.links), m.links)
  {
    var file := GetThemeFile(m, c, theme);
    if file.Err? {
      return Failed(file.error);
    }
    var existing := m.Resolve(c.lightThemeLink);
    if existing.Err? {
      return Failed(existing.error);
    }
    out := m.Relink(c.darkThemeLink, file.value);
  }

  method TestTheme(m: Machine, c: Config, theme: string) returns (out: Outcome)
    ensures ReflectsRun(RootTested(c, m.Snapshot(), theme), out, m.Snapshot(), m.Snapshot())
  {
    var file := GetThemeFile(m, c, theme);
    if file.Err? {
      return Failed(file.error);
    }
    out := Failed(TypeError);
  }

  method MakeThemeLive(m: Machine, c: Config) returns (out: Outcome)
    ensures ReflectsRun(RootMadeLive(c, m.Snapshot()), out, m.Snapshot(), m.Snapshot())
  {
    var active := m.Resolve(c.themeLink);
    if active.Err? {
      return Failed(active.error);
    }
    out := Failed(TypeError);
  }

  method RunProgram(m: Machine, home: Path, action: Action, theme: string) returns (out: Outcome)
    modifies m
    ensures ReflectsRun(RootRun(home, action, theme, old(m.Snapshot())), out, old(m.Snapshot()), m.Snapshot())
  {
    var check := CheckThemeProvided(action, theme);
    if check.Failed? {
      return check;
    }
    var c := RootConfig(home);
    match action
    case List =>
      var files, stems := ListThemes(m, c);
      out := Done;
    case NoAction | Show =>
      var r := ShowConfig(m, c);
      out := if r.Ok? then Done else Failed(r.error);
    case Test =>
      out := TestTheme(m, c, theme);
    case Toggle =>
      var newTheme;
      out, newTheme := ToggleThemes(m, c, theme);
    case SetDark =>
      out := SetDarkTheme(m, c, theme);
    case SetLight =>
      out := SetLightTheme(m, c, theme);
    case Live =>
      out := MakeThemeLive(m, c);
  }
}
