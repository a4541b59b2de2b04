/**
 * The folder that the "Extract project" dialog opens in: the
 * `projects-folder` setting, falling back to the platform temporary
 * directory, with a leading `~` standing for the home directory and a
 * leading `{TMP}` for the temporary directory.
 */
module DefaultFolder {
  import opened Wrappers
  import opened JsText

  const HomeToken := "~"
  const TmpToken := "{TMP}"

  /**
   * `configured` is what `config.get('projects-folder')` returned (`None`
   * for `undefined`); `tmpdir` and `homedir` are `os.tmpdir()` and
   * `os.homedir()`.  The two prefix replacements are `String.replace` with
   * a regular expression, so `$`-patterns in `homedir` or `tmpdir` are
   * interpreted.
   */
  function Resolve(configured: Option<string>, tmpdir: string, homedir: string): string {
    var initial := if configured.Some? && configured.value != "" then configured.value else tmpdir;
    ExpandTokens(Trim(initial), tmpdir, homedir)
  }

  /** Lines 39-45, applied to the already trimmed folder. */
  function ExpandTokens(folder: string, tmpdir: string, homedir: string): string {
    if Trim(folder) == "" then tmpdir
    else if HomeToken <= folder then ReplaceFirst(folder, HomeToken, homedir)
    else if TmpToken <= folder then ReplaceFirst(folder, TmpToken, tmpdir)
    else folder
  }

  /** The setting wins over the temporary directory whenever it is a non-empty string. */
  lemma ResolveSetting(setting: string, tmpdir: string, homedir: string)
    requires setting != ""
    ensures Resolve(Some(setting), tmpdir, homedir) == ExpandTokens(Trim(setting), tmpdir, homedir)
  {
  }

  /** A folder that trims to nothing is replaced by the temporary directory. */
  lemma ExpandBlank(folder: string, tmpdir: string, homedir: string)
    requires Trim(folder) == ""
    ensures ExpandTokens(folder, tmpdir, homedir) == tmpdir
  {
  }

  lemma ExpandHome(folder: string, tmpdir: string, homedir: string)
    requires Trim(folder) != "" && HomeToken <= folder
    ensures ExpandTokens(folder, tmpdir, homedir) == Substitution(homedir, HomeToken, "", folder[1..]) + folder[1..]
  {
    ReplaceLeading(folder, HomeToken, homedir);
  }

  lemma ExpandTmp(folder: string, tmpdir: string, homedir: string)
    requires Trim(folder) != "" && TmpToken <= folder
    ensures ExpandTokens(folder, tmpdir, homedir) == Substitution(tmpdir, TmpToken, "", folder[5..]) + folder[5..]
  {
    assert folder[0] == '{';
    ReplaceLeading(folder, TmpToken, tmpdir);
  }

  lemma ExpandPlain(folder: string, tmpdir: string, homedir: string)
    requires Trim(folder) != ""
    requires !(HomeToken <= folder) && !(TmpToken <= folder)
    ensures ExpandTokens(folder, tmpdir, homedir) == folder
  {
  }

  /** A non-empty setting of only white space gives the temporary directory itself. */
  lemma BlankSettingResolvesToTmp(setting: string, tmpdir: string, homedir: string)
    requires setting != "" && AllWhiteSpace(setting)
    ensures Resolve(Some(setting), tmpdir, homedir) == tmpdir
  {
    TrimEmptyIff(setting);
    ResolveSetting(setting, tmpdir, homedir);
    assert Trim("") == "";
    ExpandBlank(Trim(setting), tmpdir, homedir);
  }

  /**
   * An unset or empty setting starts from the temporary directory: it comes
   * back trimmed, or untrimmed when it is all white space, as long as its
   * trimmed form starts with neither token.
   */
  lemma UnsetSettingResolvesToTmp(configured: Option<string>, tmpdir: string, homedir: string)
    requires configured == None || configured == Some("")
    requires !(HomeToken <= Trim(tmpdir)) && !(TmpToken <= Trim(tmpdir))
    ensures Resolve(configured, tmpdir, homedir) == if AllWhiteSpace(tmpdir) then tmpdir else Trim(tmpdir)
  {
    TrimEmptyIff(tmpdir);
    assert Resolve(configured, tmpdir, homedir) == ExpandTokens(Trim(tmpdir), tmpdir, homedir);
    if Trim(tmpdir) != "" {
      TrimAgainNonEmpty(tmpdir);
      ExpandPlain(Trim(tmpdir), tmpdir, homedir);
    } else {
      assert Trim("") == "";
      ExpandBlank(Trim(tmpdir), tmpdir, homedir);
    }
  }

  /** A trimmed setting that starts with `~` has that `~` replaced by the home directory. */
  lemma HomePrefixExpanded(setting: string, tmpdir: string, homedir: string)
    requires HomeToken <= Trim(setting)
    ensures Resolve(Some(setting), tmpdir, homedir)
      == Substitution(homedir, HomeToken, "", Trim(setting)[1..]) + Trim(setting)[1..]
    ensures '$' !in homedir ==> Resolve(Some(setting), tmpdir, homedir) == homedir + Trim(setting)[1..]
  {
    var folder := Trim(setting);
    TrimAgainNonEmpty(setting);
    ResolveSetting(setting, tmpdir, homedir);
    ExpandHome(folder, tmpdir, homedir);
    if '$' !in homedir {
      SubstitutionOfPlainText(homedir, HomeToken, "", folder[1..]);
    }
  }

  /**
   * A trimmed setting that starts with `{TMP}` (and so not with `~`, which
   * is tested first) has that `{TMP}` replaced by the temporary directory.
   */
  lemma TmpPrefixExpanded(setting: string, tmpdir: string, homedir: string)
    requires TmpToken <= Trim(setting)
    ensures Resolve(Some(setting), tmpdir, homedir)
      == Substitution(tmpdir, TmpToken, "", Trim(setting)[5..]) + Trim(setting)[5..]
    ensures '$' !in tmpdir ==> Resolve(Some(setting), tmpdir, homedir) == tmpdir + Trim(setting)[5..]
  {
    var folder := Trim(setting);
    TrimAgainNonEmpty(setting);
    ResolveSetting(setting, tmpdir, homedir);
    ExpandTmp(folder, tmpdir, homedir);
    if '$' !in tmpdir {
      SubstitutionOfPlainText(tmpdir, TmpToken, "", folder[5..]);
    }
  }

  /** Any other non-blank setting is used trimmed and otherwise as written. */
  lemma OtherSettingTrimmed(setting: string, tmpdir: string, homedir: string)
    requires !AllWhiteSpace(setting)
    requires !(HomeToken <= Trim(setting)) && !(TmpToken <= Trim(setting))
    ensures Resolve(Some(setting), tmpdir, homedir) == Trim(setting)
  {
    TrimEmptyIff(setting);
    TrimAgainNonEmpty(setting);
    ResolveSetting(setting, tmpdir, homedir);
    ExpandPlain(Trim(setting), tmpdir, homedir);
  }

  const ProjectsUnderHome := "~/projects"

  /** `~/projects` resolves to the home directory followed by `/projects`. */
  lemma HomeProjectsExample(tmpdir: string, homedir: string)
    requires '$' !in homedir
    ensures Resolve(Some(ProjectsUnderHome), tmpdir, homedir) == homedir + "/projects"
  {
    TrimOfTrimmed(ProjectsUnderHome);
    HomePrefixExpanded(ProjectsUnderHome, tmpdir, homedir);
  }

  /**
   * A home directory ending in `$&` gets the matched `~` put back in place
   * of those two characters: `replace` reads them as a pattern.
   */
  lemma DollarPatternInHome(setting: string, tmpdir: string, home: string)
    requires HomeToken <= Trim(setting) && '$' !in home
    ensures Resolve(Some(setting), tmpdir, home + "$&") == home + HomeToken + Trim(setting)[1..]
  {
    HomePrefixExpanded(setting, tmpdir, home + "$&");
    SubstitutionPlainPrefix(home, "$&", HomeToken, "", Trim(setting)[1..]);
    assert Substitution("$&", HomeToken, "", Trim(setting)[1..]) == HomeToken;
  }
}
