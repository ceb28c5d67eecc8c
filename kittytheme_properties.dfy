/** What the packaged theme changer guarantees about the three theme links:
    which link the active link points at after a toggle and where it then
    leads, what each action leaves alone, and the order of the checks in `main`. */
module KittyThemeProperties {
  import opened Host
  import opened KittyTheme

  // ----------------------------------------------------------------- main

  /** With no action selected, `main` runs `show`. */
  lemma DefaultActionIsShow(help: bool, theme: string, cfg: ConfigModule, st: State)
    ensures Run(Args(help, NoAction, theme), cfg, st) == Run(Args(help, Show, theme), cfg, st)
  {
  }

  /** The theme check comes before the configuration is looked at: an action
      that needs a theme and lacks one is refused whatever the configuration. */
  lemma ThemeCheckComesFirst(args: Args, cfg: ConfigModule, st: State)
    requires !args.configHelp && args.theme == ""
    requires args.action == Test || args.action == SetDark || args.action == SetLight
    ensures Run(args, cfg, st) == Err(UsageError(args.action.Name()))
  {
  }

  /** An invalid configuration stops the run before any action, naming the
      first required attribute that is missing or mistyped. */
  lemma InvalidConfigStops(args: Args, cfg: ConfigModule, st: State)
    requires !args.configHelp && CheckThemeProvided(args.action, args.theme).Done?
    requires !ConfigValid(cfg)
    ensures Run(args, cfg, st).Err? && Run(args, cfg, st).error.ConfigInvalid?
    ensures exists k :: 0 <= k < |RequiredAttributes| &&
              Run(args, cfg, st).error.attribute == RequiredAttributes[k].0 &&
              !HasAttribute(cfg, RequiredAttributes[k]) &&
              forall j :: 0 <= j < k ==> HasAttribute(cfg, RequiredAttributes[j])
  {
  }

  /** Once both checks pass, exactly the selected action runs. */
  lemma OneActionRuns(args: Args, cfg: ConfigModule, st: State)
    requires !args.configHelp && CheckThemeProvided(args.action, args.theme).Done?
    requires ConfigValid(cfg)
    ensures Run(args, cfg, st) == Perform(args.action, ConfigOf(cfg), args.theme, st)
  {
  }

  /** A successful run keeps the set of entries and changes at most one of
      them, and only `toggle`, `set_dark` and `set_light` change any. */
  lemma RunChangesAtMostOneLink(args: Args, cfg: ConfigModule, st: State)
    requires Run(args, cfg, st).Ok?
    ensures var st' := Run(args, cfg, st).value;
      st'.links.Keys == st.links.Keys &&
      (st'.links != st.links ==>
         ConfigValid(cfg) && !args.configHelp &&
         (args.action == Toggle || args.action == SetDark || args.action == SetLight) &&
         exists p :: p in st.links && forall q :: q in st.links && q != p ==> st'.links[q] == st.links[q])
  {
    var st' := Run(args, cfg, st).value;
    if st'.links != st.links {
      var c := ConfigOf(cfg);
      match args.action
      case Toggle =>
        ToggleFrame(c, st.links);
        assert forall q :: q in st.links && q != c.themeLink ==> st'.links[q] == st.links[q];
      case SetDark =>
        SetDarkSpec(c, st.links, args.theme);
        assert forall q :: q in st.links && q != c.darkThemeLink ==> st'.links[q] == st.links[q];
      case SetLight =>
        SetLightSpec(c, st.links, args.theme);
        assert forall q :: q in st.links && q != c.lightThemeLink ==> st'.links[q] == st.links[q];
      case _ =>
    }
  }

  // --------------------------------------------------------------- toggle

  /** Toggling rewrites only the active link's entry, to the dark or the light
      link itself, and fails only on a symlink loop or a missing active link. */
  lemma ToggleFrame(c: Config, fs: FileTable)
    ensures Toggled(c, fs).Ok? ==>
      var fs' := Toggled(c, fs).value;
      c.themeLink in fs && fs'.Keys == fs.Keys &&
      (fs'[c.themeLink] == Link(c.darkThemeLink) || fs'[c.themeLink] == Link(c.lightThemeLink)) &&
      forall p :: p in fs && p != c.themeLink ==> fs'[p] == fs[p]
    ensures Toggled(c, fs).Err? ==>
      Toggled(c, fs).error in {SymlinkLoop(c.lightThemeLink), SymlinkLoop(c.themeLink),
                               SymlinkLoop(c.darkThemeLink), FileNotFound(c.themeLink)}
  {
  }

  /** From the light theme, toggling points the active link at the dark link,
      so it leads where the dark link leads (a loop if the dark link leads
      back through the active one). This holds also when light and dark lead
      to the same file: the light test is made first. */
  lemma ToggleFromLight(c: Config, fs: FileTable)
    requires Target(fs, c.lightThemeLink).Some? && Target(fs, c.lightThemeLink) == Target(fs, c.themeLink)
    requires c.themeLink in fs
    ensures Toggled(c, fs).Ok?
    ensures var fs' := Toggled(c, fs).value;
      fs'[c.themeLink] == Link(c.darkThemeLink) &&
      (Avoids(fs, c.darkThemeLink, {}, {c.themeLink}) ==> Target(fs', c.themeLink) == Target(fs, c.darkThemeLink)) &&
      (!Avoids(fs, c.darkThemeLink, {}, {c.themeLink}) ==> Target(fs', c.themeLink) == None)
  {
    Redirect(fs, c.themeLink, c.darkThemeLink);
  }

  /** From the dark theme (and not the light one), toggling points the active
      link at the light link, so it leads where the light link leads. */
  lemma ToggleFromDark(c: Config, fs: FileTable)
    requires Target(fs, c.lightThemeLink).Some? && Target(fs, c.themeLink).Some?
    requires Target(fs, c.lightThemeLink) != Target(fs, c.themeLink)
    requires Target(fs, c.darkThemeLink) == Target(fs, c.themeLink)
    requires c.themeLink in fs
    ensures Toggled(c, fs).Ok?
    ensures var fs' := Toggled(c, fs).value;
      fs'[c.themeLink] == Link(c.lightThemeLink) && Target(fs', c.themeLink) == Target(fs, c.lightThemeLink)
  {
    // the light link's chain cannot pass through the active link, or both
    // would lead to the same file
    if !Avoids(fs, c.lightThemeLink, {}, {c.themeLink}) {
      ReachesThrough(fs, c.lightThemeLink, c.themeLink);
      assert false;
    }
    Redirect(fs, c.themeLink, c.lightThemeLink);
  }

  /** When the active link leads to neither default, toggling falls back to
      the dark link. */
  lemma ToggleDegraded(c: Config, fs: FileTable)
    requires Target(fs, c.lightThemeLink).Some? && Target(fs, c.darkThemeLink).Some?
    requires Target(fs, c.themeLink).Some?
    requires Target(fs, c.lightThemeLink) != Target(fs, c.themeLink)
    requires Target(fs, c.darkThemeLink) != Target(fs, c.themeLink)
    requires c.themeLink in fs
    ensures Toggled(c, fs).Ok?
    ensures var fs' := Toggled(c, fs).value;
      fs'[c.themeLink] == Link(c.darkThemeLink) && Target(fs', c.themeLink) == Target(fs, c.darkThemeLink)
  {
    if !Avoids(fs, c.darkThemeLink, {}, {c.themeLink}) {
      ReachesThrough(fs, c.darkThemeLink, c.themeLink);
      assert false;
    }
    Redirect(fs, c.themeLink, c.darkThemeLink);
  }

  /** Toggling twice from the light theme comes back to the light link,
      provided the light link's chain does not lead through the active one. */
  lemma ToggleTwiceFromLight(c: Config, fs: FileTable)
    requires Target(fs, c.lightThemeLink).Some? && Target(fs, c.lightThemeLink) == Target(fs, c.themeLink)
    requires Target(fs, c.darkThemeLink).Some? && Target(fs, c.lightThemeLink) != Target(fs, c.darkThemeLink)
    requires c.themeLink in fs
    requires Avoids(fs, c.lightThemeLink, {}, {c.themeLink})
    ensures Toggled(c, fs).Ok? && Toggled(c, Toggled(c, fs).value).Ok?
    ensures var fs'' := Toggled(c, Toggled(c, fs).value).value;
      fs''[c.themeLink] == Link(c.lightThemeLink) && Target(fs'', c.themeLink) == Target(fs, c.lightThemeLink)
  {
    if !Avoids(fs, c.darkThemeLink, {}, {c.themeLink}) {
      ReachesThrough(fs, c.darkThemeLink, c.themeLink);
      assert false;
    }
    ToggleFromLight(c, fs);
    var fs' := Toggled(c, fs).value;
    assert fs' == fs[c.themeLink := Link(c.darkThemeLink)];
    Detour(fs, c.lightThemeLink, {}, {c.themeLink}, c.themeLink, Link(c.darkThemeLink));
    Detour(fs, c.darkThemeLink, {}, {c.themeLink}, c.themeLink, Link(c.darkThemeLink));
    assert {} + {c.themeLink} == {c.themeLink};
    SeenShrink(fs', c.lightThemeLink, {}, {c.themeLink});
    SeenShrink(fs', c.darkThemeLink, {}, {c.themeLink});
    ToggleFromDark(c, fs');
    var fs'' := Toggled(c, fs').value;
    assert fs'' == fs[c.themeLink := Link(c.lightThemeLink)];
    Redirect(fs, c.themeLink, c.lightThemeLink);
  }

  // ------------------------------------------------------ set_dark / set_light

  /** `set_dark` succeeds exactly when the theme file exists, the dark link
      resolves and exists; it then points the dark link straight at the theme
      file and changes no other entry. A missing theme changes nothing. */
  lemma SetDarkSpec(c: Config, fs: FileTable, name: string)
    ensures DarkSet(c, fs, name).Ok? <==>
      Present(fs, ThemeFile(c, name)) && Target(fs, c.darkThemeLink).Some? && c.darkThemeLink in fs
    ensures !Present(fs, ThemeFile(c, name)) ==> DarkSet(c, fs, name) == Err(ThemeNotFound(name))
    ensures DarkSet(c, fs, name).Ok? ==>
      var fs' := DarkSet(c, fs, name).value;
      fs'.Keys == fs.Keys && fs'[c.darkThemeLink] == Link(ThemeFile(c, name)) &&
      (forall p :: p in fs && p != c.darkThemeLink ==> fs'[p] == fs[p]) &&
      (Avoids(fs, ThemeFile(c, name), {}, {c.darkThemeLink}) ==>
         Target(fs', c.darkThemeLink) == Target(fs, ThemeFile(c, name)))
  {
    Redirect(fs, c.darkThemeLink, ThemeFile(c, name));
  }

  /** `set_light` does the same to the light link. */
  lemma SetLightSpec(c: Config, fs: FileTable, name: string)
    ensures LightSet(c, fs, name).Ok? <==>
      Present(fs, ThemeFile(c, name)) && Target(fs, c.lightThemeLink).Some? && c.lightThemeLink in fs
    ensures !Present(fs, ThemeFile(c, name)) ==> LightSet(c, fs, name) == Err(ThemeNotFound(name))
    ensures LightSet(c, fs, name).Ok? ==>
      var fs' := LightSet(c, fs, name).value;
      fs'.Keys == fs.Keys && fs'[c.lightThemeLink] == Link(ThemeFile(c, name)) &&
      (forall p :: p in fs && p != c.lightThemeLink ==> fs'[p] == fs[p]) &&
      (Avoids(fs, ThemeFile(c, name), {}, {c.lightThemeLink}) ==>
         Target(fs', c.lightThemeLink) == Target(fs, ThemeFile(c, name)))
  {
    Redirect(fs, c.lightThemeLink, ThemeFile(c, name));
  }

  /** Because toggling points the active link at the dark link itself,
      `set_dark` while the dark theme is active changes the active theme too,
      without touching the active link's entry. */
  lemma SetDarkThroughActiveLink(c: Config, fs: FileTable, name: string)
    requires c.themeLink in fs && fs[c.themeLink] == Link(c.darkThemeLink)
    requires c.themeLink != c.darkThemeLink
    requires DarkSet(c, fs, name).Ok?
    requires Avoids(fs, ThemeFile(c, name), {}, {c.themeLink, c.darkThemeLink})
    ensures var fs' := DarkSet(c, fs, name).value;
      fs'[c.themeLink] == fs[c.themeLink] &&
      Target(fs', c.themeLink) == Target(fs, ThemeFile(c, name)) &&
      Target(fs', c.themeLink).value in fs
  {
    var file := ThemeFile(c, name);
    var fs' := DarkSet(c, fs, name).value;
    assert fs' == fs[c.darkThemeLink := Link(file)];
    assert Follow(fs', c.themeLink, {}) == Follow(fs', c.darkThemeLink, {} + {c.themeLink});
    assert {} + {c.themeLink} + {c.darkThemeLink} == {} + {c.themeLink, c.darkThemeLink};
    Detour(fs, file, {}, {c.themeLink, c.darkThemeLink}, c.darkThemeLink, Link(file));
  }

  // ------------------------------------------------------------ test / live

  /** `test` and `live` change no link: they only run their kitty command. */
  lemma TestAndLiveKeepLinks(c: Config, st: State, name: string)
    ensures Tested(c, st, name).Ok? <==> Present(st.links, ThemeFile(c, name))
    ensures Tested(c, st, name).Ok? ==>
      Tested(c, st, name).value == State(st.links, st.calls + [TestCommand(c, ThemeFile(c, name))])
    ensures MadeLive(c, st).Ok? <==> Target(st.links, c.themeLink).Some?
    ensures MadeLive(c, st).Ok? ==>
      MadeLive(c, st).value == State(st.links, st.calls + [LiveCommand(c)])
  {
  }
}
