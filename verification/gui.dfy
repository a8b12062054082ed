/**
 * The form object: the values behind its fields, the seven editable lists
 * and the list boxes that show them, the recent-projects list and the text
 * of the command box. Each list-editing button changes a Python list and
 * its list box together; the model keeps both and proves they stay equal.
 */
module Gui {
  import opened Wrappers
  import opened Text
  import opened Sequences
  import opened Command
  import opened Recent
  import opened Imports

  // ---------------------------------------------------------------------------
  // Entries the buttons add
  // ---------------------------------------------------------------------------

  /** `f"{file_path};{dest_dir}"`, the destination defaulting to "." when none is chosen. */
  function DataEntry(filePath: string, destDir: string): (r: string)
    ensures filePath <= r && |r| > |filePath| && r[|filePath|] == ';'
  {
    filePath + ";" + (if destDir == "" then "." else destDir)
  }

  /** A data or binary entry splits back into the file and its destination. */
  lemma DataEntryFields(filePath: string, destDir: string)
    requires ';' !in filePath && ';' !in destDir
    ensures Split(DataEntry(filePath, destDir), ';') == [filePath, if destDir == "" then "." else destDir]
  {
    var parts := [filePath, if destDir == "" then "." else destDir];
    assert Join(parts, ";") == DataEntry(filePath, destDir) by {
      assert parts[1..] == [parts[1]];
    }
    SplitJoin(parts, ';');
  }

  /**
   * The optional fields of a resource after stripping: the type, then the
   * name only when there is a type, then the language only when there are
   * both.
   */
  function ResourceFields(typeText: string, nameText: string, langText: string): (r: seq<string>)
    ensures |r| <= 3
    ensures r == [Strip(typeText), Strip(nameText), Strip(langText)][..|r|]
    ensures |r| >= 1 <==> Strip(typeText) != ""
    ensures |r| >= 2 <==> Strip(typeText) != "" && Strip(nameText) != ""
    ensures |r| == 3 <==> Strip(typeText) != "" && Strip(nameText) != "" && Strip(langText) != ""
  {
    var t, n, g := Strip(typeText), Strip(nameText), Strip(langText);
    if t == "" then []
    else if n == "" then [t]
    else if g == "" then [t, n]
    else [t, n, g]
  }

  /**
   * The `--resource` value: the file, then the kept fields, separated by ','.
   * It starts with the file, and is the file alone exactly when the type is
   * blank.
   */
  function ResourceSpec(filePath: string, typeText: string, nameText: string, langText: string): (r: string)
    ensures filePath <= r
    ensures r == filePath <==> Strip(typeText) == ""
  {
    var parts := [filePath] + ResourceFields(typeText, nameText, langText);
    assert parts[0] == filePath && TotalLength(parts) >= |filePath|;
    Join(parts, ",")
  }

  /** A resource specification splits back into the file and the kept fields when none of them holds a ','. */
  lemma ResourceSpecFields(filePath: string, typeText: string, nameText: string, langText: string)
    requires ',' !in filePath
    requires ',' !in Strip(typeText) && ',' !in Strip(nameText) && ',' !in Strip(langText)
    ensures Split(ResourceSpec(filePath, typeText, nameText, langText), ',') ==
              [filePath] + ResourceFields(typeText, nameText, langText)
  {
    var parts := [filePath] + ResourceFields(typeText, nameText, langText);
    SplitJoin(parts, ',');
  }

  /** `on_ok`: the file path grown with `+=` by the nested optional fields. */
  method BuildResourceSpec(filePath: string, typeText: string, nameText: string, langText: string)
    returns (spec: string)
    ensures spec == ResourceSpec(filePath, typeText, nameText, langText)
  {
    var typeVal, nameVal, langVal := Strip(typeText), Strip(nameText), Strip(langText);
    spec := filePath;
    if typeVal != "" {
      spec := spec + "," + typeVal;
      if nameVal != "" {
        spec := spec + "," + nameVal;
        if langVal != "" {
          spec := spec + "," + langVal;
        }
      }
    }
    JoinResource(filePath, ResourceFields(typeText, nameText, langText), ",");
  }

  lemma JoinResource(filePath: string, fields: seq<string>, sep: string)
    requires |fields| <= 3
    ensures Join([filePath] + fields, sep) ==
              if |fields| == 0 then filePath
              else if |fields| == 1 then filePath + sep + fields[0]
              else if |fields| == 2 then filePath + sep + fields[0] + sep + fields[1]
              else filePath + sep + fields[0] + sep + fields[1] + sep + fields[2]
  {
    var parts := [filePath] + fields;
    if |fields| >= 2 {
      var tail := parts[1..];
      assert tail == fields;
      if |fields| == 2 {
        assert tail[1..] == [fields[1]];
        assert Join(tail, sep) == fields[0] + sep + fields[1];
        JoinAssoc(filePath, sep, fields[0], fields[1]);
      } else {
        assert tail[1..][1..] == [fields[2]];
        assert Join(tail[1..], sep) == fields[1] + sep + fields[2];
        assert Join(tail, sep) == fields[0] + sep + (fields[1] + sep + fields[2]);
        JoinAssoc(fields[0], sep, fields[1], fields[2]);
        JoinAssoc(filePath, sep, fields[0], fields[1] + sep + fields[2]);
        JoinAssoc(filePath + sep + fields[0], sep, fields[1], fields[2]);
      }
    }
  }

  lemma JoinAssoc(a: string, sep: string, b: string, c: string)
    ensures a + sep + (b + sep + c) == a + sep + b + sep + c
  {
  }

  // ---------------------------------------------------------------------------
  // Lists as a whole
  // ---------------------------------------------------------------------------

  /** The form's lists with the list behind option `o` replaced by `s`. */
  function WithList(l: Lists, o: OptionName, s: seq<string>): (r: Lists)
    requires ListOption(o)
    ensures ListField(r, o) == s
    ensures forall p :: ListOption(p) && p != o ==> ListField(r, p) == ListField(l, p)
  {
    if o.AddData? then l.(dataFiles := s)
    else if o.AddBinary? then l.(binaryFiles := s)
    else if o.HiddenImport? then l.(hiddenImports := s)
    else if o.ExcludeModule? then l.(excludeModules := s)
    else if o.AdditionalHooksDir? then l.(hooksDirs := s)
    else if o.RuntimeHook? then l.(runtimeHooks := s)
    else l.(resources := s)
  }

  /** The lists `generate_command` uses: the installed packages replace the hidden imports in safe mode. */
  function SafeModeLists(v: Vars, l: Lists, online: bool, installed: seq<string>): (r: Lists)
    ensures v.safeModule && online && installed != [] ==> r.hiddenImports == installed
    ensures !(v.safeModule && online && installed != []) ==> r == l
    ensures r.(hiddenImports := l.hiddenImports) == l
  {
    if v.safeModule && online && installed != [] then l.(hiddenImports := installed) else l
  }

  // ---------------------------------------------------------------------------
  // `generate_command`, section by section
  // ---------------------------------------------------------------------------

  /** `for x in values: command.append(f"{key}={x}")`, with `x` quoted or not. */
  method AppendEach(command: seq<string>, key: string, values: seq<string>, quoted: bool)
    returns (r: seq<string>)
    ensures r == command + Listed(key, values, quoted)
  {
    r := command;
    for i := 0 to |values|
      invariant r == command + Listed(key, values[..i], quoted)
    {
      assert values[..i + 1][..i] == values[..i];
      r := r + [Flag(key, Arg(values[i], quoted))];
    }
    assert values[..|values|] == values;
  }

  /** `if cond: command.append(token)` */
  method AppendIf(command: seq<string>, cond: bool, token: string) returns (r: seq<string>)
    ensures r == command + (if cond then [token] else [])
  {
    r := command;
    if cond {
      r := r + [token];
    }
  }

  /**
   * The program name, the build type, the console option, the name and the
   * two folders. Option names are written through `Spelling`, the table of
   * the names the source writes out.
   */
  method BasicArgs(v: Vars) returns (command: seq<string>)
    ensures command == Concat(Basic(v))
  {
    command := [Spelling(Program)];
    command := AppendIf(command, v.buildType != "", v.buildType);
    command := AppendIf(command, v.consoleOption != "", v.consoleOption);
    command := AppendIf(command, v.appName != "", Flag(Spelling(AppName), Quote(v.appName)));
    command := AppendIf(command, v.outputDir != "", Flag(Spelling(DistPath), Quote(v.outputDir)));
    command := AppendIf(command, v.workDir != "", Flag(Spelling(WorkPath), Quote(v.workDir)));
    var b := Basic(v);
    ConcatSix(b[0], b[1], b[2], b[3], b[4], b[5]);
    assert b == [b[0], b[1], b[2], b[3], b[4], b[5]];
    AppendSix([], Tokens(b[0]), Tokens(b[1]), Tokens(b[2]), Tokens(b[3]), Tokens(b[4]), Tokens(b[5]));
  }

  /** Clean, no-confirm, the log level and UPX: `--noupx` wins over a UPX folder. */
  method AppendGeneral(command: seq<string>, v: Vars) returns (r: seq<string>)
    ensures r == command + Concat(General(v))
  {
    r := AppendIf(command, v.cleanBuild, Spelling(Clean));
    r := AppendIf(r, v.noConfirm, Spelling(NoConfirm));
    r := AppendIf(r, v.logLevel != "INFO", Flag(Spelling(LogLevel), v.logLevel));
    ghost var r3 := r;
    if !v.useUpx || v.noupx {
      r := r + [Spelling(NoUpx)];
    } else if v.upxDir != "" {
      r := r + [Flag(Spelling(UpxDir), Quote(v.upxDir))];
    }
    var g := General(v);
    assert r == r3 + Tokens(g[3]) + Tokens(g[4]);
    ConcatFive(g[0], g[1], g[2], g[3], g[4]);
    assert g == [g[0], g[1], g[2], g[3], g[4]];
    AppendFive(command, Tokens(g[0]), Tokens(g[1]), Tokens(g[2]), Tokens(g[3]), Tokens(g[4]));
  }

  /** The advanced switches. */
  method AppendAdvanced(command: seq<string>, v: Vars) returns (r: seq<string>)
    ensures r == command + Concat(Advanced(v))
  {
    r := AppendIf(command, v.strip, Spelling(StripSymbols));
    r := AppendIf(r, v.ascii, Spelling(Ascii));
    r := AppendIf(r, v.uacAdmin, Spelling(UacAdmin));
    r := AppendIf(r, v.uacUiaccess, Spelling(UacUiaccess));
    r := AppendIf(r, v.winPrivateAssemblies, Spelling(WinPrivateAssemblies));
    r := AppendIf(r, v.winNoPreferRedirects, Spelling(WinNoPreferRedirects));
    var a := Advanced(v);
    ConcatSix(a[0], a[1], a[2], a[3], a[4], a[5]);
    assert a == [a[0], a[1], a[2], a[3], a[4], a[5]];
    AppendSix(command, Tokens(a[0]), Tokens(a[1]), Tokens(a[2]), Tokens(a[3]), Tokens(a[4]), Tokens(a[5]));
  }

  /** One loop per list. */
  method AppendLists(command: seq<string>, l: Lists) returns (r: seq<string>)
    ensures r == command + Concat(ListSteps(l))
  {
    r := AppendEach(command, Spelling(AddData), l.dataFiles, true);
    r := AppendEach(r, Spelling(AddBinary), l.binaryFiles, true);
    r := AppendEach(r, Spelling(HiddenImport), l.hiddenImports, false);
    r := AppendEach(r, Spelling(ExcludeModule), l.excludeModules, false);
    r := AppendEach(r, Spelling(AdditionalHooksDir), l.hooksDirs, true);
    r := AppendEach(r, Spelling(RuntimeHook), l.runtimeHooks, true);
    ListFlagsInOrder(l);
    AppendSix(command, Listed(Spelling(AddData), l.dataFiles, true), Listed(Spelling(AddBinary), l.binaryFiles, true),
              Listed(Spelling(HiddenImport), l.hiddenImports, false),
              Listed(Spelling(ExcludeModule), l.excludeModules, false),
              Listed(Spelling(AdditionalHooksDir), l.hooksDirs, true),
              Listed(Spelling(RuntimeHook), l.runtimeHooks, true));
  }

  /** The icon, version file and manifest. */
  method AppendPlatform(command: seq<string>, v: Vars) returns (r: seq<string>)
    ensures r == command + Concat(PlatformSteps(v))
  {
    r := AppendIf(command, v.iconFile != "", Flag(Spelling(Icon), Quote(v.iconFile)));
    r := AppendIf(r, v.versionFile != "", Flag(Spelling(VersionFile), Quote(v.versionFile)));
    r := AppendIf(r, v.manifestFile != "", Flag(Spelling(Manifest), Quote(v.manifestFile)));
    var p := PlatformSteps(v);
    ConcatThree(p[0], p[1], p[2]);
    assert p == [p[0], p[1], p[2]];
    AppendThree(command, Tokens(p[0]), Tokens(p[1]), Tokens(p[2]));
  }

  /** The resources, `--collect-all` for pandas and numpy, and the quoted script. */
  method AppendClosing(command: seq<string>, v: Vars, l: Lists) returns (r: seq<string>)
    ensures r == command + Concat(Closing(v, l))
  {
    r := AppendEach(command, Spelling(Resource), l.resources, true);
    ghost var r1 := r;
    r := AppendIf(r, "pandas" in l.hiddenImports, Flag(Spelling(CollectAll), "pandas"));
    r := AppendIf(r, "numpy" in l.hiddenImports, Flag(Spelling(CollectAll), "numpy"));
    CollectedFlags(l.hiddenImports);
    assert r == r1 + Listed(Spelling(CollectAll), CollectedPackages(l.hiddenImports), false);
    r := r + [Quote(v.scriptPath)];
    ClosingInOrder(v, l);
    AppendThree(command, Listed(Spelling(Resource), l.resources, true),
                Listed(Spelling(CollectAll), CollectedPackages(l.hiddenImports), false), [Quote(v.scriptPath)]);
  }

  /** The flag list of `generate_command`, built section by section. */
  method BuildCommand(v: Vars, l: Lists) returns (command: seq<string>)
    ensures command == CommandArgs(v, l)
  {
    command := BasicArgs(v);
    command := AppendGeneral(command, v);
    command := AppendAdvanced(command, v);
    command := AppendLists(command, l);
    command := AppendPlatform(command, v);
    command := AppendClosing(command, v, l);
    CommandGroups(v, l);
  }

  // ---------------------------------------------------------------------------
  // The form
  // ---------------------------------------------------------------------------

  class PyInstallerGui {
    /** The values of the form's fields, check boxes and radio buttons. */
    var vars: Vars
    /** The Python lists behind the list boxes. */
    var lists: Lists
    /** What each list box shows, one line per entry. */
    var listboxes: Lists
    var recentProjects: seq<string>
    /** The content of the command box. */
    var commandText: string

    /** Every list box shows its list. */
    ghost predicate Valid()
      reads this
    {
      listboxes == lists
    }

    /** A fresh form: default options, output to the desktop, empty lists, no recent projects. */
    constructor(desktopPath: string)
      ensures Valid()
      ensures vars == InitialVars(desktopPath) && lists == NoLists
      ensures recentProjects == [] && commandText == ""
    {
      vars := InitialVars(desktopPath);
      lists := NoLists;
      listboxes := NoLists;
      recentProjects := [];
      commandText := "";
    }

    /** Appends `entry` to the list behind `o` and to its list box. */
    method AppendEntry(o: OptionName, entry: string)
      requires Valid() && ListOption(o)
      modifies this
      ensures Valid()
      ensures lists == WithList(old(lists), o, ListField(old(lists), o) + [entry])
      ensures vars == old(vars) && recentProjects == old(recentProjects) && commandText == old(commandText)
    {
      lists := WithList(lists, o, ListField(lists, o) + [entry]);
      listboxes := lists;
    }

    /**
     * The remove buttons: nothing without a selection, otherwise the first
     * selected line is deleted from the list box and popped from the list.
     */
    method RemoveSelected(o: OptionName, selection: seq<nat>)
      requires Valid() && ListOption(o)
      requires selection != [] ==> selection[0] < |ListField(lists, o)|
      modifies this
      ensures Valid()
      ensures selection == [] ==> lists == old(lists)
      ensures selection != [] ==> lists == WithList(old(lists), o, RemoveAt(ListField(old(lists), o), selection[0]))
      ensures vars == old(vars) && recentProjects == old(recentProjects) && commandText == old(commandText)
    {
      if selection != [] {
        var index := selection[0];
        listboxes := WithList(listboxes, o, RemoveAt(ListField(listboxes, o), index));
        lists := WithList(lists, o, RemoveAt(ListField(lists, o), index));
      }
    }

    /** `add_data_file`: the chosen file and destination folder, or nothing when no file is chosen. */
    method AddDataFile(filePath: string, destDir: string)
      requires Valid()
      modifies this
      ensures Valid()
      ensures filePath == "" ==> lists == old(lists)
      ensures filePath != "" ==> lists == old(lists).(dataFiles := old(lists.dataFiles) + [DataEntry(filePath, destDir)])
      ensures vars == old(vars) && recentProjects == old(recentProjects) && commandText == old(commandText)
    {
      if filePath != "" {
        var dest := if destDir == "" then "." else destDir;
        AppendEntry(AddData, filePath + ";" + dest);
      }
    }

    method RemoveDataFile(selection: seq<nat>)
      requires Valid() && (selection != [] ==> selection[0] < |lists.dataFiles|)
      modifies this
      ensures Valid()
      ensures selection == [] ==> lists == old(lists)
      ensures selection != [] ==> lists == old(lists).(dataFiles := RemoveAt(old(lists.dataFiles), selection[0]))
      ensures vars == old(vars) && recentProjects == old(recentProjects) && commandText == old(commandText)
    {
      RemoveSelected(AddData, selection);
    }

    /** `add_binary_file`: as for data files. */
    method AddBinaryFile(filePath: string, destDir: string)
      requires Valid()
      modifies this
      ensures Valid()
      ensures filePath == "" ==> lists == old(lists)
      ensures filePath != "" ==>
                lists == old(lists).(binaryFiles := old(lists.binaryFiles) + [DataEntry(filePath, destDir)])
      ensures vars == old(vars) && recentProjects == old(recentProjects) && commandText == old(commandText)
    {
      if filePath != "" {
        var dest := if destDir == "" then "." else destDir;
        AppendEntry(AddBinary, filePath + ";" + dest);
      }
    }

    method RemoveBinaryFile(selection: seq<nat>)
      requires Valid() && (selection != [] ==> selection[0] < |lists.binaryFiles|)
      modifies this
      ensures Valid()
      ensures selection == [] ==> lists == old(lists)
      ensures selection != [] ==> lists == old(lists).(binaryFiles := RemoveAt(old(lists.binaryFiles), selection[0]))
      ensures vars == old(vars) && recentProjects == old(recentProjects) && commandText == old(commandText)
    {
      RemoveSelected(AddBinary, selection);
    }

    /** `add_hidden_import`: the typed module name, stripped; blank input adds nothing. */
    method AddHiddenImport(text: string)
      requires Valid()
      modifies this
      ensures Valid()
      ensures Strip(text) == "" ==> lists == old(lists)
      ensures Strip(text) != "" ==> lists == old(lists).(hiddenImports := old(lists.hiddenImports) + [Strip(text)])
      ensures vars == old(vars) && recentProjects == old(recentProjects) && commandText == old(commandText)
    {
      var moduleName := Strip(text);
      if moduleName != "" {
        AppendEntry(HiddenImport, moduleName);
      }
    }

    method RemoveHiddenImport(selection: seq<nat>)
      requires Valid() && (selection != [] ==> selection[0] < |lists.hiddenImports|)
      modifies this
      ensures Valid()
      ensures selection == [] ==> lists == old(lists)
      ensures selection != [] ==>
                lists == old(lists).(hiddenImports := RemoveAt(old(lists.hiddenImports), selection[0]))
      ensures vars == old(vars) && recentProjects == old(recentProjects) && commandText == old(commandText)
    {
      RemoveSelected(HiddenImport, selection);
    }

    /** `add_exclude_module`: as for hidden imports. */
    method AddExcludeModule(text: string)
      requires Valid()
      modifies this
      ensures Valid()
      ensures Strip(text) == "" ==> lists == old(lists)
      ensures Strip(text) != "" ==> lists == old(lists).(excludeModules := old(lists.excludeModules) + [Strip(text)])
      ensures vars == old(vars) && recentProjects == old(recentProjects) && commandText == old(commandText)
    {
      var moduleName := Strip(text);
      if moduleName != "" {
        AppendEntry(ExcludeModule, moduleName);
      }
    }

    method RemoveExcludeModule(selection: seq<nat>)
      requires Valid() && (selection != [] ==> selection[0] < |lists.excludeModules|)
      modifies this
      ensures Valid()
      ensures selection == [] ==> lists == old(lists)
      ensures selection != [] ==>
                lists == old(lists).(excludeModules := RemoveAt(old(lists.excludeModules), selection[0]))
      ensures vars == old(vars) && recentProjects == old(recentProjects) && commandText == old(commandText)
    {
      RemoveSelected(ExcludeModule, selection);
    }

    /** `add_hooks_dir`: the chosen folder, or nothing when none is chosen. */
    method AddHooksDir(dirPath: string)
      requires Valid()
      modifies this
      ensures Valid()
      ensures dirPath == "" ==> lists == old(lists)
      ensures dirPath != "" ==> lists == old(lists).(hooksDirs := old(lists.hooksDirs) + [dirPath])
      ensures vars == old(vars) && recentProjects == old(recentProjects) && commandText == old(commandText)
    {
      if dirPath != "" {
        AppendEntry(AdditionalHooksDir, dirPath);
      }
    }

    method RemoveHooksDir(selection: seq<nat>)
      requires Valid() && (selection != [] ==> selection[0] < |lists.hooksDirs|)
      modifies this
      ensures Valid()
      ensures selection == [] ==> lists == old(lists)
      ensures selection != [] ==> lists == old(lists).(hooksDirs := RemoveAt(old(lists.hooksDirs), selection[0]))
      ensures vars == old(vars) && recentProjects == old(recentProjects) && commandText == old(commandText)
    {
      RemoveSelected(AdditionalHooksDir, selection);
    }

    /** `add_runtime_hook`: the chosen file, or nothing when none is chosen. */
    method AddRuntimeHook(filePath: string)
      requires Valid()
      modifies this
      ensures Valid()
      ensures filePath == "" ==> lists == old(lists)
      ensures filePath != "" ==> lists == old(lists).(runtimeHooks := old(lists.runtimeHooks) + [filePath])
      ensures vars == old(vars) && recentProjects == old(recentProjects) && commandText == old(commandText)
    {
      if filePath != "" {
        AppendEntry(RuntimeHook, filePath);
      }
    }

    method RemoveRuntimeHook(selection: seq<nat>)
      requires Valid() && (selection != [] ==> selection[0] < |lists.runtimeHooks|)
      modifies this
      ensures Valid()
      ensures selection == [] ==> lists == old(lists)
      ensures selection != [] ==>
                lists == old(lists).(runtimeHooks := RemoveAt(old(lists.runtimeHooks), selection[0]))
      ensures vars == old(vars) && recentProjects == old(recentProjects) && commandText == old(commandText)
    {
      RemoveSelected(RuntimeHook, selection);
    }

    /**
     * `add_resource`: when a file is chosen and the dialog is closed with OK
     * (`confirmed`), the file with the dialog's type, name and language is
     * added; with no file, or a dialog closed otherwise, nothing changes.
     */
    method AddResource(filePath: string, confirmed: bool, typeText: string, nameText: string, langText: string)
      requires Valid()
      modifies this
      ensures Valid()
      ensures filePath == "" || !confirmed ==> lists == old(lists)
      ensures filePath != "" && confirmed ==>
                lists == old(lists).(resources := old(lists.resources) + [ResourceSpec(filePath, typeText, nameText, langText)])
      ensures vars == old(vars) && recentProjects == old(recentProjects) && commandText == old(commandText)
    {
      if filePath != "" && confirmed {
        var spec := BuildResourceSpec(filePath, typeText, nameText, langText);
        AppendEntry(Resource, spec);
      }
    }

    method RemoveResource(selection: seq<nat>)
      requires Valid() && (selection != [] ==> selection[0] < |lists.resources|)
      modifies this
      ensures Valid()
      ensures selection == [] ==> lists == old(lists)
      ensures selection != [] ==> lists == old(lists).(resources := RemoveAt(old(lists.resources), selection[0]))
      ensures vars == old(vars) && recentProjects == old(recentProjects) && commandText == old(commandText)
    {
      RemoveSelected(Resource, selection);
    }

    /**
     * `analyze_and_add_imports`: when the script parses (`parsed` holds the
     * nodes of its tree), the hidden imports are replaced by the sorted set
     * of top-level names it imports; otherwise nothing changes.
     */
    method AnalyzeAndAddImports(parsed: Option<seq<ImportNode>>)
      requires Valid()
      modifies this
      ensures Valid()
      ensures parsed.None? ==> lists == old(lists)
      ensures parsed.Some? ==> lists == old(lists).(hiddenImports := SortedImports(parsed.value))
      ensures vars == old(vars) && recentProjects == old(recentProjects) && commandText == old(commandText)
    {
      if parsed.Some? {
        var found := SortedImports(parsed.value);
        lists := lists.(hiddenImports := []);
        listboxes := listboxes.(hiddenImports := []);
        for i := 0 to |found|
          invariant Valid()
          invariant lists == old(lists).(hiddenImports := found[..i])
          invariant vars == old(vars) && recentProjects == old(recentProjects) && commandText == old(commandText)
        {
          assert found[..i + 1] == found[..i] + [found[i]];
          lists := lists.(hiddenImports := lists.hiddenImports + [found[i]]);
          listboxes := listboxes.(hiddenImports := listboxes.hiddenImports + [found[i]]);
        }
        assert found[..|found|] == found;
      }
    }

    /**
     * `analyze_imports`: when the script parses and the user agrees, every
     * collected name not yet among the hidden imports is appended, in the
     * order `found` visits the set of names.
     */
    method AnalyzeImports(parsed: Option<seq<ImportNode>>, found: seq<string>, confirmed: bool)
      requires Valid()
      requires parsed.Some? ==> NoDuplicates(found) && forall x :: x in found <==> x in FoundNames(parsed.value)
      modifies this
      ensures Valid()
      ensures parsed.None? || !confirmed ==> lists == old(lists)
      ensures parsed.Some? && confirmed ==>
                lists == old(lists).(hiddenImports := Merged(old(lists.hiddenImports), found))
      ensures vars == old(vars) && recentProjects == old(recentProjects) && commandText == old(commandText)
    {
      if parsed.Some? && confirmed {
        for i := 0 to |found|
          invariant Valid()
          invariant lists == old(lists).(hiddenImports := Merged(old(lists.hiddenImports), found[..i]))
          invariant vars == old(vars) && recentProjects == old(recentProjects) && commandText == old(commandText)
        {
          var imp := found[i];
          assert found[..i + 1][..i] == found[..i] && found[..i + 1][i] == imp;
          if imp !in lists.hiddenImports {
            lists := lists.(hiddenImports := lists.hiddenImports + [imp]);
            listboxes := listboxes.(hiddenImports := listboxes.hiddenImports + [imp]);
          }
        }
        assert found[..|found|] == found;
      }
    }

    /** The shared step of `save_project` and `load_project_from_file` that records the project file. */
    method RememberProject(path: string)
      modifies this
      ensures recentProjects == Remembered(old(recentProjects), path)
      ensures vars == old(vars) && lists == old(lists) && listboxes == old(listboxes)
      ensures commandText == old(commandText)
    {
      if path !in recentProjects {
        recentProjects := [path] + recentProjects;
        if |recentProjects| > MaxRecentProjects {
          recentProjects := recentProjects[..|recentProjects| - 1];
        }
      }
    }

    /**
     * `generate_command`. Without a script nothing changes. In safe mode, with
     * the network up (`online`) and packages installed into a fresh virtual
     * environment (`installed`, empty when that failed), those packages
     * replace the hidden imports first. The command box then shows the
     * command for the form.
     */
    method GenerateCommand(online: bool, installed: seq<string>)
      requires Valid()
      modifies this
      ensures Valid()
      ensures vars == old(vars) && recentProjects == old(recentProjects)
      ensures vars.scriptPath == "" ==> lists == old(lists) && commandText == old(commandText)
      ensures vars.scriptPath != "" ==>
                && lists == SafeModeLists(vars, old(lists), online, installed)
                && CommandLine(vars, lists) == Some(commandText)
    {
      var v := vars;
      if v.scriptPath == "" {
        return;
      }
      if v.safeModule && online {
        if installed != [] {
          lists := lists.(hiddenImports := installed);
          listboxes := lists;
        }
      }
      var command := BuildCommand(v, lists);
      commandText := Join(command, " ");
    }
  }

  // ---------------------------------------------------------------------------
  // Properties of the list buttons
  // ---------------------------------------------------------------------------

  /** Adding an entry and then removing the last line gives the list back. */
  lemma AddThenRemove(l: Lists, o: OptionName, entry: string)
    requires ListOption(o)
    ensures var added := WithList(l, o, ListField(l, o) + [entry]);
            WithList(added, o, RemoveAt(ListField(added, o), |ListField(l, o)|)) == l
  {
    RemoveAppended(ListField(l, o), entry);
  }

  /**
   * Removing the line at `i` takes exactly that entry out of the list,
   * keeps the others in order, and leaves the other lists alone.
   */
  lemma RemoveOnlySelected(l: Lists, o: OptionName, i: nat)
    requires ListOption(o) && i < |ListField(l, o)|
    ensures var r := WithList(l, o, RemoveAt(ListField(l, o), i));
            && multiset(ListField(r, o)) + multiset{ListField(l, o)[i]} == multiset(ListField(l, o))
            && ListField(r, o) == ListField(l, o)[..i] + ListField(l, o)[i + 1..]
            && forall p :: ListOption(p) && p != o ==> ListField(r, p) == ListField(l, p)
  {
    RemoveAtMultiset(ListField(l, o), i);
  }

  /**
   * After `analyze_imports` the hidden imports keep their old entries in
   * front, hold exactly the old and the collected names, and stay free of
   * duplicates; the order the set is visited in changes nothing else.
   */
  lemma AnalyzeImportsMerge(hidden: seq<string>, nodes: seq<ImportNode>, found: seq<string>)
    requires forall x :: x in found <==> x in FoundNames(nodes)
    ensures hidden <= Merged(hidden, found)
    ensures forall x :: x in Merged(hidden, found) <==> x in hidden || x in SortedImports(nodes)
    ensures NoDuplicates(hidden) ==> NoDuplicates(Merged(hidden, found))
  {
    MergedProperties(hidden, found);
  }
}
