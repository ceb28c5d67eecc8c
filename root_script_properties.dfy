/** What the older script does to the three links, and where it departs
    from what its own messages and the packaged version say it should do. */
module RootScriptProperties {
  import opened Host
  import opened KittyTheme
  import opened RootScript
  import KittyThemeProperties

  /** `parse_cmd_line` refuses an action that needs a theme and lacks one
      before any action runs. */
  lemma RootThemeCheckComesFirst(home: Path, action: Action, st: State)
    requires action == Test || action == SetDark || action == SetLight
    ensures RootRun(home, action, "", st) == Err(UsageError(action.Name()))
  {
  }

  /** Exactly the selected action runs, `show` when none is selected. */
  lemma RootOneActionRuns(home: Path, action: Action, theme: string, st: State)
    requires CheckThemeProvided(action, theme).Done?
    ensures RootRun(home, action, theme, st) == RootPerform(action, RootConfig(home), theme, st)
    ensures RootRun(home, NoAction, theme, st) == RootRun(home, Show, theme, st)
  {
  }

  /** Outside the degraded state the script toggles exactly as the packaged
      version does. */
  lemma RootToggleAgreesOutsideDegraded(c: Config, fs: FileTable)
    requires !Degraded(c, fs)
    ensures RootToggled(c, fs) == Toggled(c, fs)
  {
  }

  /** In the degraded state the script runs `set_dark_theme` with the stem
      of the dark link's file: the active link's entry is left as it is, and
      a missing `<stem>.conf` stops the run with nothing changed. */
  lemma RootToggleDegraded(home: Path, fs: FileTable)
    requires Degraded(RootConfig(home), fs)
    ensures var c := RootConfig(home);
      var stem := Stem(Name(Target(fs, c.darkThemeLink).value));
      RootToggled(c, fs) == DarkSet(c, fs, stem) &&
      (!Present(fs, ThemeFile(c, stem)) ==> RootToggled(c, fs) == Err(ThemeNotFound(stem))) &&
      (RootToggled(c, fs).Ok? ==>
         RootToggled(c, fs).value[c.darkThemeLink] == Link(ThemeFile(c, stem)) &&
         forall p :: p in fs && p != c.darkThemeLink ==> RootToggled(c, fs).value[p] == fs[p])
  {
    var c := RootConfig(home);
    KittyThemeProperties.SetDarkSpec(c, fs, Stem(Name(Target(fs, c.darkThemeLink).value)));
  }

  /** `set_dark_theme` moves only the dark link; since the script's three
      links are distinct, the active and light links keep their entries. */
  lemma RootSetDarkKeepsOthers(home: Path, fs: FileTable, name: string)
    requires DarkSet(RootConfig(home), fs, name).Ok?
    ensures var c := RootConfig(home); var fs' := DarkSet(c, fs, name).value;
      fs'[c.darkThemeLink] == Link(ThemeFile(c, name)) &&
      (c.themeLink in fs ==> fs'[c.themeLink] == fs[c.themeLink]) &&
      (c.lightThemeLink in fs ==> fs'[c.lightThemeLink] == fs[c.lightThemeLink])
  {
    RootLinksDistinct(home);
    KittyThemeProperties.SetDarkSpec(RootConfig(home), fs, name);
  }

  // ---------------------------------------------------------------- findings

  /** Finding: `set_light_theme` writes the dark link. After it the dark link
      points at the named file and the light link is untouched, where the
      packaged `set_light_theme` would have pointed the light link there. */
  lemma RootSetLightWritesDark(home: Path, fs: FileTable, name: string)
    requires RootLightSet(RootConfig(home), fs, name).Ok?
    ensures var c := RootConfig(home); var fs' := RootLightSet(c, fs, name).value;
      fs'[c.darkThemeLink] == Link(ThemeFile(c, name)) &&
      (c.lightThemeLink in fs ==> fs'[c.lightThemeLink] == fs[c.lightThemeLink]) &&
      (c.lightThemeLink in fs && fs[c.lightThemeLink] != Link(ThemeFile(c, name)) ==>
         LightSet(c, fs, name).Ok? &&
         LightSet(c, fs, name).value[c.lightThemeLink] == Link(ThemeFile(c, name)) &&
         fs'[c.lightThemeLink] != LightSet(c, fs, name).value[c.lightThemeLink])
  {
    RootLinksDistinct(home);
    KittyThemeProperties.SetLightSpec(RootConfig(home), fs, name);
  }

  /** Finding: `test_theme` and `make_theme_live` never run their kitty
      command; every run of them fails and leaves the command log as it was,
      where the packaged versions run the command whenever the theme file
      exists or the active link resolves. */
  lemma RootTestAndLiveNeverRun(home: Path, theme: string, st: State)
    ensures RootRun(home, Test, theme, st).Err? && RootRun(home, Live, theme, st).Err?
    ensures var c := RootConfig(home);
      (theme != "" && Present(st.links, ThemeFile(c, theme)) ==>
         RootRun(home, Test, theme, st) == Err(TypeError) &&
         Tested(c, st, theme) == Ok(State(st.links, st.calls + [TestCommand(c, ThemeFile(c, theme))]))) &&
      (Target(st.links, c.themeLink).Some? ==>
         RootRun(home, Live, theme, st) == Err(TypeError) &&
         MadeLive(c, st) == Ok(State(st.links, st.calls + [LiveCommand(c)])))
  {
  }

  /** Finding: the degraded toggle announces "Setting theme to dark" but
      leaves the active link leading where it led. When the dark link leads
      to an existing theme file, the run succeeds, the dark link keeps its
      file, and the active link still leads somewhere else, so the state is
      as degraded as before. The packaged toggle instead makes the active
      link lead to the dark link's file. */
  lemma RootDegradedToggleStaysDegraded(home: Path, fs: FileTable, x: string)
    requires Degraded(RootConfig(home), fs)
    requires var c := RootConfig(home);
      x != "" && Target(fs, c.darkThemeLink) == Some(ThemeFile(c, x)) &&
      ThemeFile(c, x) in fs && c.darkThemeLink in fs && c.themeLink in fs
    ensures var c := RootConfig(home);
      RootToggled(c, fs).Ok? &&
      var fs' := RootToggled(c, fs).value;
      fs'[c.themeLink] == fs[c.themeLink] &&
      Target(fs', c.themeLink) == Target(fs, c.themeLink) &&
      Target(fs', c.darkThemeLink) == Target(fs, c.darkThemeLink) &&
      Target(fs', c.themeLink) != Target(fs', c.darkThemeLink)
    ensures var c := RootConfig(home);
      Toggled(c, fs).Ok? && Target(Toggled(c, fs).value, c.themeLink) == Target(fs, c.darkThemeLink)
  {
    var c := RootConfig(home);
    var file := ThemeFile(c, x);
    RootLinksDistinct(home);
    ThemeLookupSpec(c, fs, x);
    assert Stem(Name(file)) == x;
    FollowEndsOffLinks(fs, c.darkThemeLink, {});
    assert |file| != |c.darkThemeLink|;
    assert Avoids(fs, file, {}, {c.darkThemeLink});
    var fs' := fs[c.darkThemeLink := Link(file)];
    assert RootToggled(c, fs) == Ok(fs');
    // the dark link now points straight at its own file
    Redirect(fs, c.darkThemeLink, file);
    // the active link's chain never passed through the dark link,
    // otherwise both would have led to the same file
    if !Avoids(fs, c.themeLink, {}, {c.darkThemeLink}) {
      ReachesThrough(fs, c.themeLink, c.darkThemeLink);
      assert false;
    }
    Detour(fs, c.themeLink, {}, {c.darkThemeLink}, c.darkThemeLink, Link(file));
    assert {} + {c.darkThemeLink} == {c.darkThemeLink};
    SeenShrink(fs', c.themeLink, {}, {c.darkThemeLink});
    KittyThemeProperties.ToggleDegraded(c, fs);
  }
}
