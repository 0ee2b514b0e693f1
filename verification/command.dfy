/**
 * The command line `runPhpStan` hands to the shell (src/phpstanRunner.ts:49-53).
 * The five settings are read from the `phpstan` configuration section; an
 * unset setting is `None`. Each is read as `config.get(key) || default`, so
 * an empty string falls back to the default as well.
 */
module Command {
  import opened Wrappers
  import opened ShellWords

  datatype Settings = Settings(
    binaryPath: Option<string>,
    config: Option<string>,
    args: Option<string>,
    errorFormat: Option<string>,
    command: Option<string>)

  /** Every setting left unset. */
  const Unset: Settings := Settings(None, None, None, None, None)

  /** `config.get(key) || default`. */
  function Setting(value: Option<string>, default: string): (r: string)
    ensures value.Some? && value.value != "" ==> r == value.value
    ensures value.None? || value.value == "" ==> r == default
  {
    if value.Some? && value.value != "" then value.value else default
  }

  function BinaryPath(settings: Settings): string { Setting(settings.binaryPath, "phpstan") }
  function ConfigPath(settings: Settings): string { Setting(settings.config, "") }
  function ExtraArgs(settings: Settings): string { Setting(settings.args, "") }
  function ErrorFormat(settings: Settings): string { Setting(settings.errorFormat, "json") }

  /** A non-empty `command` setting replaces the whole command line. */
  predicate Overridden(settings: Settings) {
    settings.command.Some? && settings.command.value != ""
  }

  /** The `--error-format=...` argument. */
  function FormatOption(settings: Settings): string {
    "--error-format=" + ErrorFormat(settings)
  }

  /** The command-line template of src/phpstanRunner.ts:53. */
  function Template(binary: string, path: string, format: string, configPart: string, extra: string): string {
    binary + " analyse " + path + " --error-format=" + format + " " + configPart + " " + extra
  }

  /** The template as six pieces joined by single spaces. */
  lemma TemplateShape(binary: string, path: string, format: string, configPart: string, extra: string)
    ensures Template(binary, path, format, configPart, extra)
         == ((((binary + " " + "analyse") + " " + path) + " " + ("--error-format=" + format)) + " " + configPart) + " " + extra
  {
    assert " analyse " == " " + "analyse" + " ";
    assert " --error-format=" == " " + "--error-format=";
  }

  /** The command line as the source assembles it: the file and configuration
      paths are pasted in unquoted. */
  function BuildCommand(settings: Settings, fileName: string): (command: string)
    ensures Overridden(settings) ==> command == settings.command.value
  {
    Setting(settings.command,
      Template(BinaryPath(settings), fileName, ErrorFormat(settings), ConfigPart(ConfigPath(settings), false), ExtraArgs(settings)))
  }

  /** The same command line with the file and configuration paths quoted, so
      that each reaches the analyser as one argument whatever it contains. */
  function QuotedCommand(settings: Settings, fileName: string): (command: string)
    ensures Overridden(settings) ==> command == settings.command.value
  {
    Setting(settings.command,
      Template(BinaryPath(settings), Quote(fileName), ErrorFormat(settings), ConfigPart(ConfigPath(settings), true), ExtraArgs(settings)))
  }

  lemma WordsAnalyse()
    ensures Words("analyse") == ["analyse"] && Settled("analyse") && Tame("analyse")
  {
    PlainWordIsOneWord("analyse");
  }

  lemma WordsConfiguration()
    ensures Words("--configuration") == ["--configuration"] && Settled("--configuration") && Tame("--configuration")
  {
    PlainWordIsOneWord("--configuration");
  }

  /** Six fragments joined by single spaces give the words of each in turn. */
  lemma JoinSix(a: string, b: string, c: string, d: string, e: string, f: string)
    requires Settled(a) && Settled(b) && Settled(c) && Settled(d) && Settled(e)
    ensures Words(((((a + " " + b) + " " + c) + " " + d) + " " + e) + " " + f)
         == Words(a) + Words(b) + Words(c) + Words(d) + Words(e) + Words(f)
    ensures Closed(((((a + " " + b) + " " + c) + " " + d) + " " + e) + " " + f) == Closed(f)
    ensures Tame(((((a + " " + b) + " " + c) + " " + d) + " " + e) + " " + f)
         == (Tame(a) && Tame(b) && Tame(c) && Tame(d) && Tame(e) && Tame(f))
  {
    SpaceJoin(a, b);
    SpaceJoin(a + " " + b, c);
    SpaceJoin((a + " " + b) + " " + c, d);
    SpaceJoin(((a + " " + b) + " " + c) + " " + d, e);
    SpaceJoin((((a + " " + b) + " " + c) + " " + d) + " " + e, f);
  }

  /** The configuration piece of the template: `--configuration` and the path,
      only when a configuration path is set. */
  function ConfigPart(configPath: string, quoted: bool): (part: string)
    ensures part == "" <==> configPath == ""
    ensures part != "" ==> "--configuration " <= part
  {
    if configPath == "" then "" else "--configuration " + (if quoted then Quote(configPath) else configPath)
  }

  /** `--configuration` followed by a value. */
  lemma FlagJoin(p: string)
    ensures Words("--configuration" + " " + p) == ["--configuration"] + Words(p)
    ensures Settled("--configuration" + " " + p) == Settled(p)
    ensures Tame("--configuration" + " " + p) == Tame(p)
  {
    WordsConfiguration();
    SpaceJoin("--configuration", p);
  }

  lemma ConfigPartWords(configPath: string, quoted: bool)
    requires quoted || Settled(configPath)
    ensures Settled(ConfigPart(configPath, quoted))
    ensures Tame(ConfigPart(configPath, quoted)) == (quoted || Tame(configPath))
    ensures Words(ConfigPart(configPath, quoted)) ==
      if configPath == "" then [] else ["--configuration"] + (if quoted then [configPath] else Words(configPath))
  {
    if configPath == "" {
      EmptyHasNoWords();
    } else if quoted {
      QuoteIsOneWord(configPath);
      QuoteIsTame(configPath);
      assert ConfigPart(configPath, quoted) == "--configuration" + " " + Quote(configPath);
      FlagJoin(Quote(configPath));
    } else {
      assert ConfigPart(configPath, quoted) == "--configuration" + " " + configPath;
      FlagJoin(configPath);
    }
  }

  /** The words of the template, piece by piece. */
  lemma TemplateWords(binary: string, path: string, format: string, configPart: string, extra: string)
    requires Settled(binary) && Settled(path) && Settled("--error-format=" + format) && Settled(configPart)
    ensures Words(Template(binary, path, format, configPart, extra))
         == Words(binary) + ["analyse"] + Words(path) + Words("--error-format=" + format)
              + Words(configPart) + Words(extra)
    ensures Closed(Template(binary, path, format, configPart, extra)) == Closed(extra)
    ensures Tame(Template(binary, path, format, configPart, extra))
         == (Tame(binary) && Tame(path) && Tame("--error-format=" + format) && Tame(configPart) && Tame(extra))
  {
    WordsAnalyse();
    TemplateShape(binary, path, format, configPart, extra);
    JoinSix(binary, "analyse", path, "--error-format=" + format, configPart, extra);
  }

  /** The settings the model interprets wherever they stand in the line. */
  predicate TameSettings(settings: Settings) {
    Tame(BinaryPath(settings)) && Tame(FormatOption(settings)) && Tame(ExtraArgs(settings))
  }

  /** The arguments of the source's command line. The file path and the
      configuration path are split wherever they contain a space. The words are
      what the shell runs when the line is tame, as it is exactly when the
      settings and both paths are, and closed, as it is exactly when the extra
      arguments are. */
  lemma BuildCommandWords(settings: Settings, fileName: string)
    requires !Overridden(settings)
    requires Settled(BinaryPath(settings)) && Settled(FormatOption(settings))
    requires Settled(fileName) && Settled(ConfigPath(settings))
    ensures Words(BuildCommand(settings, fileName)) ==
      Words(BinaryPath(settings)) + ["analyse"] + Words(fileName) + Words(FormatOption(settings))
        + (if ConfigPath(settings) != "" then ["--configuration"] + Words(ConfigPath(settings)) else [])
        + Words(ExtraArgs(settings))
    ensures Closed(BuildCommand(settings, fileName)) == Closed(ExtraArgs(settings))
    ensures Tame(BuildCommand(settings, fileName)) == (TameSettings(settings) && Tame(fileName) && Tame(ConfigPath(settings)))
  {
    var part := ConfigPart(ConfigPath(settings), false);
    ConfigPartWords(ConfigPath(settings), false);
    TemplateWords(BinaryPath(settings), fileName, ErrorFormat(settings), part, ExtraArgs(settings));
  }

  /** The arguments of the quoted command line: the file path and the
      configuration path are one argument each, exactly as given. */
  lemma QuotedCommandWords(settings: Settings, fileName: string)
    requires !Overridden(settings)
    requires Settled(BinaryPath(settings)) && Settled(FormatOption(settings))
    ensures Words(QuotedCommand(settings, fileName)) ==
      Words(BinaryPath(settings)) + ["analyse", fileName] + Words(FormatOption(settings))
        + (if ConfigPath(settings) != "" then ["--configuration", ConfigPath(settings)] else [])
        + Words(ExtraArgs(settings))
    ensures Closed(QuotedCommand(settings, fileName)) == Closed(ExtraArgs(settings))
    ensures Tame(QuotedCommand(settings, fileName)) == TameSettings(settings)
  {
    var part := ConfigPart(ConfigPath(settings), true);
    ConfigPartWords(ConfigPath(settings), true);
    QuoteIsOneWord(fileName);
    QuoteIsTame(fileName);
    TemplateWords(BinaryPath(settings), Quote(fileName), ErrorFormat(settings), part, ExtraArgs(settings));
    assert ["analyse"] + [fileName] == ["analyse", fileName];
    assert ["--configuration"] + [ConfigPath(settings)] == ["--configuration", ConfigPath(settings)];
  }

  /** With nothing configured the source runs `phpstan analyse <file>
      --error-format=json`, followed by two spaces for the empty pieces. */
  lemma UnsetCommand(fileName: string)
    ensures BuildCommand(Unset, fileName) == "phpstan analyse " + fileName + " --error-format=json  "
  {
  }

  /** With nothing configured: the settings the template sees. */
  lemma UnsetSettings()
    ensures BinaryPath(Unset) == "phpstan" && FormatOption(Unset) == "--error-format=json"
    ensures ConfigPath(Unset) == "" && ExtraArgs(Unset) == "" && !Overridden(Unset)
  {
  }

  lemma WordsJsonFormat()
    ensures Words("--error-format=json") == ["--error-format=json"] && Settled("--error-format=json") && Tame("--error-format=json")
  {
    PlainWordIsOneWord("--error-format=json");
  }

  /** Settings that add no configuration and no extra arguments, with a
      one-word binary `b` and format option `e`. */
  predicate PlainSettings(settings: Settings, b: string, e: string) {
    && !Overridden(settings)
    && BinaryPath(settings) == b && FormatOption(settings) == e
    && ConfigPath(settings) == "" && ExtraArgs(settings) == ""
    && Words(b) == [b] && Settled(b) && Tame(b) && Words(e) == [e] && Settled(e) && Tame(e)
  }

  lemma PlainBuildWords(settings: Settings, b: string, e: string, fileName: string)
    requires PlainSettings(settings, b, e) && Settled(fileName) && Tame(fileName)
    ensures Argv(BuildCommand(settings, fileName)) == Simple([b, "analyse"] + Words(fileName) + [e])
  {
    EmptyHasNoWords();
    BuildCommandWords(settings, fileName);
    assert [b] + ["analyse"] + Words(fileName) + [e] + [] + [] == [b, "analyse"] + Words(fileName) + [e];
  }

  lemma PlainQuotedWords(settings: Settings, b: string, e: string, fileName: string)
    requires PlainSettings(settings, b, e)
    ensures Argv(QuotedCommand(settings, fileName)) == Simple([b, "analyse", fileName, e])
  {
    EmptyHasNoWords();
    QuotedCommandWords(settings, fileName);
    assert [b] + ["analyse", fileName] + [e] + [] + [] == [b, "analyse", fileName, e];
  }

  lemma UnsetIsPlain()
    ensures PlainSettings(Unset, "phpstan", "--error-format=json")
  {
    UnsetSettings();
    PlainWordIsOneWord("phpstan");
    WordsJsonFormat();
  }

  /** With nothing configured, the source's command line has the words of the
      file path between `analyse` and the format option. */
  lemma UnsetBuildWords(fileName: string)
    requires Settled(fileName) && Tame(fileName)
    ensures Argv(BuildCommand(Unset, fileName)) == Simple(["phpstan", "analyse"] + Words(fileName) + ["--error-format=json"])
  {
    UnsetIsPlain();
    PlainBuildWords(Unset, "phpstan", "--error-format=json", fileName);
  }

  /** With nothing configured, the quoted command line has the file path as
      its third word. */
  lemma UnsetQuotedWords(fileName: string)
    ensures Argv(QuotedCommand(Unset, fileName)) == Simple(["phpstan", "analyse", fileName, "--error-format=json"])
  {
    UnsetIsPlain();
    PlainQuotedWords(Unset, "phpstan", "--error-format=json", fileName);
  }

  /** A path with a space, `dir + " " + base`, becomes two arguments in the
      source's command line, and one in the quoted command line. */
  lemma PathWithSpaceIsSplit(dir: string, base: string)
    requires PlainWord(dir) && PlainWord(base)
    ensures Argv(BuildCommand(Unset, dir + " " + base)) == Simple(["phpstan", "analyse", dir, base, "--error-format=json"])
    ensures Argv(QuotedCommand(Unset, dir + " " + base)) == Simple(["phpstan", "analyse", dir + " " + base, "--error-format=json"])
  {
    PlainWordIsOneWord(dir);
    PlainWordIsOneWord(base);
    SpaceJoin(dir, base);
    UnsetBuildWords(dir + " " + base);
    assert ["phpstan", "analyse"] + ([dir] + [base]) + ["--error-format=json"] == ["phpstan", "analyse", dir, base, "--error-format=json"];
    UnsetQuotedWords(dir + " " + base);
  }

  /** The path `/p/a b.php`, say. */
  lemma ExamplePathIsSplit()
    ensures Argv(BuildCommand(Unset, "/p/a b.php")) == Simple(["phpstan", "analyse", "/p/a", "b.php", "--error-format=json"])
  {
    assert PlainWord("/p/a") && PlainWord("b.php");
    PathWithSpaceIsSplit("/p/a", "b.php");
    assert "/p/a" + " " + "b.php" == "/p/a b.php";
  }

  /** A settled binary, `analyse` and a plain first part of the path. */
  lemma HeadSettled(b: string, dir: string)
    requires Settled(b) && PlainWord(dir)
    ensures Settled(b + " " + "analyse" + " " + dir)
    ensures Tame(b) ==> Tame(b + " " + "analyse" + " " + dir)
  {
    WordsAnalyse();
    PlainWordIsOneWord(dir);
    SpaceJoin(b, "analyse");
    SpaceJoin(b + " " + "analyse", dir);
  }

  /** With plain settings, a path `dir + "'" + base` leaves a quote open. */
  lemma PlainApostrophe(settings: Settings, b: string, e: string, dir: string, base: string)
    requires PlainSettings(settings, b, e) && PlainWord(dir) && PlainWord(base)
    requires forall c :: c in e ==> c != '\''
    ensures Argv(BuildCommand(settings, dir + "'" + base)) == Unterminated
  {
    var f := dir + "'" + base;
    var head, tail := b + " " + "analyse" + " " + dir, base + " " + e + " " + " ";
    assert ConfigPart(ConfigPath(settings), false) == "";
    assert BuildCommand(settings, f) == Template(b, f, ErrorFormat(settings), "", "");
    TemplateShape(b, f, ErrorFormat(settings), "", "");
    assert Template(b, f, ErrorFormat(settings), "", "") == head + "'" + tail;
    HeadSettled(b, dir);
    forall c | c in tail
      ensures c != '\''
    {
      if c in base {
        assert Plain(c);
      }
    }
    UnclosedQuote(head, tail);
  }

  lemma JsonFormatQuoteFree()
    ensures forall c :: c in "--error-format=json" ==> c != '\''
  {
  }

  /** A path with an apostrophe, `dir + "'" + base`, opens a quote the source's
      command line never closes, so the shell refuses the line; the quoted
      command line passes the path as one argument. */
  lemma ApostropheIsSyntaxError(dir: string, base: string)
    requires PlainWord(dir) && PlainWord(base)
    ensures Argv(BuildCommand(Unset, dir + "'" + base)) == Unterminated
    ensures Argv(QuotedCommand(Unset, dir + "'" + base)) == Simple(["phpstan", "analyse", dir + "'" + base, "--error-format=json"])
  {
    UnsetIsPlain();
    JsonFormatQuoteFree();
    PlainApostrophe(Unset, "phpstan", "--error-format=json", dir, base);
    UnsetQuotedWords(dir + "'" + base);
  }
}
