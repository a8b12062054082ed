/**
 * The PyInstaller command line assembled from the form. The form's values
 * are plain data here; the command is the ordered list of tokens that
 * `generate_command` appends, joined with spaces.
 */
module Command {
  import opened Wrappers
  import opened Text

  /** The values of the form's `StringVar` and `BooleanVar` variables. */
  datatype Vars = Vars(
    scriptPath: string,
    appName: string,
    outputDir: string,
    workDir: string,
    buildType: string,
    consoleOption: string,
    cleanBuild: bool,
    noConfirm: bool,
    logLevel: string,
    useUpx: bool,
    upxDir: string,
    noupx: bool,
    strip: bool,
    ascii: bool,
    uacAdmin: bool,
    uacUiaccess: bool,
    winPrivateAssemblies: bool,
    winNoPreferRedirects: bool,
    iconFile: string,
    versionFile: string,
    manifestFile: string,
    fileVersion: string,
    productVersion: string,
    companyName: string,
    productName: string,
    safeModule: bool)

  /** The form's editable lists, one entry per line of the matching list box. */
  datatype Lists = Lists(
    dataFiles: seq<string>,
    binaryFiles: seq<string>,
    hiddenImports: seq<string>,
    excludeModules: seq<string>,
    hooksDirs: seq<string>,
    runtimeHooks: seq<string>,
    resources: seq<string>)

  /**
   * The initial form: one-folder console build, log level INFO, UPX on,
   * output to the desktop. Its radio fields hold radio values, and with no
   * script chosen it has no command, whatever the lists hold.
   */
  function InitialVars(desktopPath: string): (r: Vars)
    ensures RadioChoices(r)
    ensures r.outputDir == desktopPath && r.logLevel == "INFO" && r.useUpx && !r.noupx
    ensures forall l :: CommandLine(r, l) == None
  {
    Vars("", "", desktopPath, "", "--onedir", "--console", false, false, "INFO",
         true, "", false, false, false, false, false, false, false,
         "", "", "", "1.0.0.0", "1.0.0.0", "", "", true)
  }

  const NoLists := Lists([], [], [], [], [], [], [])

  // ---------------------------------------------------------------------------
  // Tokens
  // ---------------------------------------------------------------------------

  function Quote(s: string): string
  {
    "\"" + s + "\""
  }

  /** `--name=value` */
  function Flag(name: string, value: string): string
  {
    name + "=" + value
  }

  /** The name a token is known by: its text before the first '='. */
  function Tag(token: string): string
  {
    Before(token, '=')
  }

  lemma TagOfFlag(name: string, value: string)
    requires '=' !in name
    ensures Tag(Flag(name, value)) == name
  {
    BeforeFirst(name, value, '=');
  }

  /** The script argument is the only token whose name starts with a quote. */
  lemma TagOfQuoted(s: string)
    ensures |Tag(Quote(s))| > 0 && Tag(Quote(s))[0] == '"'
  {
    assert Quote(s) == ['"'] + (s + "\"");
    BeforeCons('"', s + "\"", '=');
  }

  /** The tokens of `args` whose name is `name`, in order. */
  function WithTag(args: seq<string>, name: string): (r: seq<string>)
    ensures |r| <= |args|
    ensures forall t :: t in r <==> t in args && Tag(t) == name
  {
    if args == [] then []
    else (if Tag(args[0]) == name then [args[0]] else []) + WithTag(args[1..], name)
  }

  /**
   * The filter keeps multiplicity: each token named `name` occurs in the
   * result as often as in `args`, and no other token occurs.
   */
  lemma {:induction false} WithTagCounts(args: seq<string>, name: string)
    ensures forall t :: multiset(WithTag(args, name))[t] == if Tag(t) == name then multiset(args)[t] else 0
  {
    if args != [] {
      WithTagCounts(args[1..], name);
      assert args == [args[0]] + args[1..];
      assert multiset(args) == multiset{args[0]} + multiset(args[1..]);
      var head := if Tag(args[0]) == name then [args[0]] else [];
      assert multiset(WithTag(args, name)) == multiset(head) + multiset(WithTag(args[1..], name));
    }
  }

  lemma {:induction false} WithTagConcat(a: seq<string>, b: seq<string>, name: string)
    ensures WithTag(a + b, name) == WithTag(a, name) + WithTag(b, name)
  {
    if a == [] {
      assert a + b == b;
    } else {
      assert (a + b)[0] == a[0] && (a + b)[1..] == a[1..] + b;
      WithTagConcat(a[1..], b, name);
    }
  }

  /** Every token of `s` has the name `m`: filtering keeps all of `s` or nothing. */
  lemma {:induction false} WithTagUniform(s: seq<string>, m: string, n: string)
    requires forall t :: t in s ==> Tag(t) == m
    ensures WithTag(s, n) == if n == m then s else []
  {
    if s != [] {
      assert s[0] in s;
      WithTagUniform(s[1..], m, n);
      assert s == [s[0]] + s[1..];
    }
  }

  // ---------------------------------------------------------------------------
  // The pieces `generate_command` appends
  // ---------------------------------------------------------------------------

  /** `s` has no '=', so it names itself. */
  predicate Plain(s: string)
  {
    forall i :: 0 <= i < |s| ==> s[i] != '='
  }

  lemma TagOfPlain(s: string)
    requires Plain(s)
    ensures Tag(s) == s
  {
    assert '=' !in s;
  }

  // ---------------------------------------------------------------------------
  // Option names
  // ---------------------------------------------------------------------------

  /** The program and the options `generate_command` can emit. */
  datatype OptionName =
    | Program | AppName | DistPath | WorkPath | Clean | NoConfirm | LogLevel
    | NoUpx | UpxDir | StripSymbols | Ascii | UacAdmin | UacUiaccess
    | WinPrivateAssemblies | WinNoPreferRedirects
    | AddData | AddBinary | HiddenImport | ExcludeModule | AdditionalHooksDir | RuntimeHook
    | Icon | VersionFile | Manifest | Resource | CollectAll

  function Spelling(o: OptionName): string
  {
    match o
    case Program => "pyinstaller"
    case AppName => "--name"
    case DistPath => "--distpath"
    case WorkPath => "--workpath"
    case Clean => "--clean"
    case NoConfirm => "--noconfirm"
    case LogLevel => "--log-level"
    case NoUpx => "--noupx"
    case UpxDir => "--upx-dir"
    case StripSymbols => "--strip"
    case Ascii => "--ascii"
    case UacAdmin => "--uac-admin"
    case UacUiaccess => "--uac-uiaccess"
    case WinPrivateAssemblies => "--win-private-assemblies"
    case WinNoPreferRedirects => "--win-no-prefer-redirects"
    case AddData => "--add-data"
    case AddBinary => "--add-binary"
    case HiddenImport => "--hidden-import"
    case ExcludeModule => "--exclude-module"
    case AdditionalHooksDir => "--additional-hooks-dir"
    case RuntimeHook => "--runtime-hook"
    case Icon => "--icon"
    case VersionFile => "--version-file"
    case Manifest => "--manifest"
    case Resource => "--resource"
    case CollectAll => "--collect-all"
  }

  /** A value the build-type and console radio buttons can hold. */
  predicate RadioValue(s: string)
  {
    s == "--onedir" || s == "--onefile" || s == "--console" || s == "--noconsole"
  }

  /**
   * A name an option can have: non-empty, not starting with a quote (as the
   * script does), without '=', and not a radio value.
   */
  predicate WellSpelled(s: string)
  {
    |s| > 0 && s[0] != '"' && Plain(s) && !RadioValue(s)
  }

  lemma SpelledHead()
    ensures WellSpelled(Spelling(Program))
    ensures WellSpelled(Spelling(AppName))
    ensures WellSpelled(Spelling(DistPath))
    ensures WellSpelled(Spelling(WorkPath))
    ensures WellSpelled(Spelling(Clean))
    ensures WellSpelled(Spelling(NoConfirm))
  {
  }

  lemma SpelledSwitches()
    ensures WellSpelled(Spelling(LogLevel))
    ensures WellSpelled(Spelling(NoUpx))
    ensures WellSpelled(Spelling(UpxDir))
    ensures WellSpelled(Spelling(StripSymbols))
    ensures WellSpelled(Spelling(Ascii))
  {
  }

  lemma SpelledWindows()
    ensures WellSpelled(Spelling(UacAdmin))
    ensures WellSpelled(Spelling(UacUiaccess))
    ensures WellSpelled(Spelling(WinPrivateAssemblies))
    ensures WellSpelled(Spelling(WinNoPreferRedirects))
  {
  }

  lemma SpelledLists()
    ensures WellSpelled(Spelling(AddData))
    ensures WellSpelled(Spelling(AddBinary))
    ensures WellSpelled(Spelling(HiddenImport))
    ensures WellSpelled(Spelling(ExcludeModule))
    ensures WellSpelled(Spelling(AdditionalHooksDir))
    ensures WellSpelled(Spelling(RuntimeHook))
  {
  }

  lemma SpelledTail()
    ensures WellSpelled(Spelling(Icon))
    ensures WellSpelled(Spelling(VersionFile))
    ensures WellSpelled(Spelling(Manifest))
    ensures WellSpelled(Spelling(Resource))
    ensures WellSpelled(Spelling(CollectAll))
  {
  }

  lemma SpellingPlain(o: OptionName)
    ensures WellSpelled(Spelling(o))
  {
    SpelledHead();
    SpelledSwitches();
    SpelledWindows();
    SpelledLists();
    SpelledTail();
  }

  /** Different options are spelled differently. */
  lemma SpellingInjective(a: OptionName, b: OptionName)
    requires a != b
    ensures Spelling(a) != Spelling(b)
  {
  }

  // ---------------------------------------------------------------------------
  // The steps of `generate_command`
  // ---------------------------------------------------------------------------

  /**
   * One step of `generate_command`: an option appended under a condition, a
   * radio value appended when set, `--option=value` appended under a
   * condition, a loop appending one `--option=value` per list entry, or the
   * quoted script path that ends the command.
   */
  datatype Part =
    | Switch(on: bool, opt: OptionName)
    | Choice(value: string)
    | Valued(on: bool, opt: OptionName, value: string, quoted: bool)
    | Repeated(opt: OptionName, values: seq<string>, quoted: bool)
    | Script(path: string)

  predicate HasOption(p: Part, o: OptionName)
  {
    (p.Switch? || p.Valued? || p.Repeated?) && p.opt == o
  }

  /** The name a step's tokens carry. */
  function StepName(p: Part): string
  {
    match p
    case Choice(value) => value
    case Script(path) => Tag(Quote(path))
    case _ => Spelling(p.opt)
  }

  /** A radio step holds nothing or a radio value. */
  predicate WellFormed(p: Part)
  {
    p.Choice? ==> p.value == "" || RadioValue(p.value)
  }

  function Arg(value: string, quoted: bool): string
  {
    if quoted then Quote(value) else value
  }

  /** One `--key=value` per entry, in list order. */
  function Listed(key: string, values: seq<string>, quoted: bool): (r: seq<string>)
    ensures |r| == |values|
    ensures forall k :: 0 <= k < |values| ==> r[k] == Flag(key, Arg(values[k], quoted))
  {
    if values == [] then []
    else Listed(key, values[..|values| - 1], quoted) + [Flag(key, Arg(values[|values| - 1], quoted))]
  }

  /** The tokens one step appends. */
  function Tokens(p: Part): seq<string>
  {
    match p
    case Switch(on, o) => if on then [Spelling(o)] else []
    case Choice(value) => if value != "" then [value] else []
    case Valued(on, o, value, quoted) => if on then [Flag(Spelling(o), Arg(value, quoted))] else []
    case Repeated(o, values, quoted) => Listed(Spelling(o), values, quoted)
    case Script(path) => [Quote(path)]
  }

  lemma RadioPlain(s: string)
    requires RadioValue(s)
    ensures Plain(s)
  {
  }

  /** A step's tokens, filtered by name: all of them under its own name, none under another. */
  lemma TokensWithTag(p: Part, n: string)
    requires WellFormed(p)
    ensures WithTag(Tokens(p), n) == if n == StepName(p) then Tokens(p) else []
  {
    var r := Tokens(p);
    forall t | t in r ensures Tag(t) == StepName(p) {
      match p
      case Switch(_, o) =>
        SpellingPlain(o);
        TagOfPlain(Spelling(o));
      case Choice(value) =>
        RadioPlain(value);
        TagOfPlain(value);
      case Valued(_, o, value, quoted) =>
        SpellingPlain(o);
        TagOfFlag(Spelling(o), Arg(value, quoted));
      case Repeated(o, values, quoted) =>
        var k :| 0 <= k < |r| && r[k] == t;
        SpellingPlain(o);
        TagOfFlag(Spelling(o), Arg(values[k], quoted));
      case Script(_) =>
    }
    WithTagUniform(r, StepName(p), n);
  }

  /** The tokens of several steps, in order. */
  function Concat(ps: seq<Part>): seq<string>
  {
    if ps == [] then [] else Concat(ps[..|ps| - 1]) + Tokens(ps[|ps| - 1])
  }

  lemma ConcatSnoc(ps: seq<Part>, p: Part)
    ensures Concat(ps + [p]) == Concat(ps) + Tokens(p)
  {
    assert (ps + [p])[..|ps|] == ps;
  }

  lemma {:induction false} ConcatCons(p: Part, ps: seq<Part>)
    ensures Concat([p] + ps) == Tokens(p) + Concat(ps)
  {
    var whole := [p] + ps;
    if ps != [] {
      var init, last := ps[..|ps| - 1], ps[|ps| - 1];
      ConcatCons(p, init);
      assert whole[..|whole| - 1] == [p] + init && whole[|whole| - 1] == last;
      assert Concat(whole) == Concat([p] + init) + Tokens(last);
      assert Concat(ps) == Concat(init) + Tokens(last);
      AppendAssoc(Tokens(p), Concat(init), Tokens(last));
    } else {
      assert whole[..0] == [] && whole[0] == p;
      assert Concat(whole) == Concat([]) + Tokens(p);
    }
  }

  lemma {:induction false} ConcatAppend(a: seq<Part>, b: seq<Part>)
    ensures Concat(a + b) == Concat(a) + Concat(b)
    decreases |b|
  {
    if b == [] {
      assert a + b == a;
    } else {
      var init, last := b[..|b| - 1], b[|b| - 1];
      var whole := a + b;
      ConcatAppend(a, init);
      assert whole[..|whole| - 1] == a + init && whole[|whole| - 1] == last;
      assert Concat(whole) == Concat(a + init) + Tokens(last);
      assert Concat(b) == Concat(init) + Tokens(last);
      AppendAssoc(Concat(a), Concat(init), Tokens(last));
    }
  }

  lemma AppendAssoc(x: seq<string>, y: seq<string>, z: seq<string>)
    ensures (x + y) + z == x + (y + z)
  {
  }

  lemma AppendThree(x: seq<string>, a: seq<string>, b: seq<string>, c: seq<string>)
    ensures x + (a + b + c) == x + a + b + c
  {
  }

  lemma AppendFive(x: seq<string>, a: seq<string>, b: seq<string>, c: seq<string>, d: seq<string>, e: seq<string>)
    ensures x + (a + b + c + d + e) == x + a + b + c + d + e
  {
  }

  lemma AppendSix(x: seq<string>, a: seq<string>, b: seq<string>, c: seq<string>, d: seq<string>, e: seq<string>,
                  f: seq<string>)
    ensures x + (a + b + c + d + e + f) == x + a + b + c + d + e + f
  {
  }

  lemma ConcatThree(a: Part, b: Part, c: Part)
    ensures Concat([a, b, c]) == Tokens(a) + Tokens(b) + Tokens(c)
  {
    var one, two := [a], [a, b];
    assert one[..0] == [] && one[0] == a;
    assert Concat(one) == Tokens(a);
    assert two[..1] == one && two[1] == b;
    assert Concat(two) == Tokens(a) + Tokens(b);
    assert [a, b, c][..2] == two && [a, b, c][2] == c;
  }

  lemma ConcatFive(a: Part, b: Part, c: Part, d: Part, e: Part)
    ensures Concat([a, b, c, d, e]) == Tokens(a) + Tokens(b) + Tokens(c) + Tokens(d) + Tokens(e)
  {
    ConcatThree(a, b, c);
    assert [a, b, c, d, e][..4] == [a, b, c, d] && [a, b, c, d][..3] == [a, b, c];
  }

  lemma ConcatSix(a: Part, b: Part, c: Part, d: Part, e: Part, f: Part)
    ensures Concat([a, b, c, d, e, f]) == Tokens(a) + Tokens(b) + Tokens(c) + Tokens(d) + Tokens(e) + Tokens(f)
  {
    ConcatFive(a, b, c, d, e);
    assert [a, b, c, d, e, f][..5] == [a, b, c, d, e];
  }

  /** No step that appends something is named `n`: no token is. */
  lemma {:induction false} NoPart(ps: seq<Part>, n: string)
    requires forall k :: 0 <= k < |ps| ==> WellFormed(ps[k])
    requires forall k :: 0 <= k < |ps| ==> StepName(ps[k]) != n || Tokens(ps[k]) == []
    ensures WithTag(Concat(ps), n) == []
  {
    if ps != [] {
      var init := ps[..|ps| - 1];
      NoPart(init, n);
      TokensWithTag(ps[|ps| - 1], n);
      WithTagConcat(Concat(init), Tokens(ps[|ps| - 1]), n);
    }
  }

  /** Only step `i` is named `n`: the tokens named `n` are exactly its tokens. */
  lemma {:induction false} OnlyPart(ps: seq<Part>, i: nat, n: string)
    requires i < |ps| && StepName(ps[i]) == n
    requires forall k :: 0 <= k < |ps| ==> WellFormed(ps[k])
    requires forall k :: 0 <= k < |ps| && k != i ==> StepName(ps[k]) != n || Tokens(ps[k]) == []
    ensures WithTag(Concat(ps), n) == Tokens(ps[i])
  {
    var init := ps[..|ps| - 1];
    var last := ps[|ps| - 1];
    TokensWithTag(last, n);
    WithTagConcat(Concat(init), Tokens(last), n);
    if i == |ps| - 1 {
      NoPart(init, n);
    } else {
      OnlyPart(init, i, n);
    }
  }

  /** Step `p` is not the one that adds option `o`. */
  predicate Excludes(p: Part, o: OptionName)
  {
    !HasOption(p, o)
  }

  lemma ExcludedName(p: Part, o: OptionName)
    requires WellFormed(p) && Excludes(p, o)
    ensures StepName(p) != Spelling(o) || Tokens(p) == []
  {
    SpellingPlain(o);
    match p
    case Choice(_) =>
    case Script(path) => TagOfQuoted(path);
    case _ => SpellingInjective(p.opt, o);
  }

  /** No step adds option `o`: the steps add nothing named `o`. */
  lemma Silent(ps: seq<Part>, o: OptionName)
    requires forall k :: 0 <= k < |ps| ==> WellFormed(ps[k]) && Excludes(ps[k], o)
    ensures WithTag(Concat(ps), Spelling(o)) == []
  {
    forall k | 0 <= k < |ps|
      ensures StepName(ps[k]) != Spelling(o) || Tokens(ps[k]) == []
    {
      ExcludedName(ps[k], o);
    }
    NoPart(ps, Spelling(o));
  }

  /** Only step `i` adds option `o`: the tokens named `o` are exactly what it appends. */
  lemma OnlyOption(ps: seq<Part>, i: nat, o: OptionName)
    requires i < |ps| && HasOption(ps[i], o)
    requires forall k :: 0 <= k < |ps| ==> WellFormed(ps[k])
    requires forall k :: 0 <= k < |ps| && k != i ==> Excludes(ps[k], o)
    ensures WithTag(Concat(ps), Spelling(o)) == Tokens(ps[i])
  {
    forall k | 0 <= k < |ps| && k != i
      ensures StepName(ps[k]) != Spelling(o) || Tokens(ps[k]) == []
    {
      ExcludedName(ps[k], o);
    }
    OnlyPart(ps, i, Spelling(o));
  }

  // ---------------------------------------------------------------------------
  // The command, group by group as `generate_command` builds it
  // ---------------------------------------------------------------------------

  /** Program, build type, console option, name and the two folders. */
  function Basic(v: Vars): seq<Part>
  {
    [ Switch(true, Program),
      Choice(v.buildType),
      Choice(v.consoleOption),
      Valued(v.appName != "", AppName, v.appName, true),
      Valued(v.outputDir != "", DistPath, v.outputDir, true),
      Valued(v.workDir != "", WorkPath, v.workDir, true) ]
  }

  /** Clean, no-confirm, log level and UPX: `--noupx` takes precedence over `--upx-dir`. */
  function General(v: Vars): seq<Part>
  {
    [ Switch(v.cleanBuild, Clean),
      Switch(v.noConfirm, NoConfirm),
      Valued(v.logLevel != "INFO", LogLevel, v.logLevel, false),
      Switch(!v.useUpx || v.noupx, NoUpx),
      Valued(v.useUpx && !v.noupx && v.upxDir != "", UpxDir, v.upxDir, true) ]
  }

  function Advanced(v: Vars): seq<Part>
  {
    [ Switch(v.strip, StripSymbols),
      Switch(v.ascii, Ascii),
      Switch(v.uacAdmin, UacAdmin),
      Switch(v.uacUiaccess, UacUiaccess),
      Switch(v.winPrivateAssemblies, WinPrivateAssemblies),
      Switch(v.winNoPreferRedirects, WinNoPreferRedirects) ]
  }

  /** One option per entry of each list; data, binaries and hook paths quoted, module names not. */
  function ListSteps(l: Lists): seq<Part>
  {
    [ Repeated(AddData, l.dataFiles, true),
      Repeated(AddBinary, l.binaryFiles, true),
      Repeated(HiddenImport, l.hiddenImports, false),
      Repeated(ExcludeModule, l.excludeModules, false),
      Repeated(AdditionalHooksDir, l.hooksDirs, true),
      Repeated(RuntimeHook, l.runtimeHooks, true) ]
  }

  function PlatformSteps(v: Vars): seq<Part>
  {
    [ Valued(v.iconFile != "", Icon, v.iconFile, true),
      Valued(v.versionFile != "", VersionFile, v.versionFile, true),
      Valued(v.manifestFile != "", Manifest, v.manifestFile, true) ]
  }

  /** The packages that get `--collect-all`, in the order they are checked. */
  function CollectedPackages(hiddenImports: seq<string>): (r: seq<string>)
    ensures forall x :: x in r <==> x in hiddenImports && (x == "pandas" || x == "numpy")
  {
    (if "pandas" in hiddenImports then ["pandas"] else [])
    + (if "numpy" in hiddenImports then ["numpy"] else [])
  }

  /** Resources, `--collect-all` for pandas and numpy, and the script. */
  function Closing(v: Vars, l: Lists): seq<Part>
  {
    [ Repeated(Resource, l.resources, true),
      Repeated(CollectAll, CollectedPackages(l.hiddenImports), false),
      Script(v.scriptPath) ]
  }

  /** The group of steps that adds option `o`. */
  function Group(o: OptionName): nat
  {
    match o
    case Program | AppName | DistPath | WorkPath => 0
    case Clean | NoConfirm | LogLevel | NoUpx | UpxDir => 1
    case StripSymbols | Ascii | UacAdmin | UacUiaccess | WinPrivateAssemblies | WinNoPreferRedirects => 2
    case AddData | AddBinary | HiddenImport | ExcludeModule | AdditionalHooksDir | RuntimeHook => 3
    case Icon | VersionFile | Manifest => 4
    case Resource | CollectAll => 5
  }

  /** All steps of `generate_command`, group by group. */
  function Steps(v: Vars, l: Lists): seq<Part>
  {
    Basic(v) + General(v) + Advanced(v) + ListSteps(l) + PlatformSteps(v) + Closing(v, l)
  }

  /** The steps of group `g`, in the order `generate_command` takes the groups. */
  function GroupSteps(v: Vars, l: Lists, g: nat): seq<Part>
  {
    if g == 0 then Basic(v)
    else if g == 1 then General(v)
    else if g == 2 then Advanced(v)
    else if g == 3 then ListSteps(l)
    else if g == 4 then PlatformSteps(v)
    else Closing(v, l)
  }

  /**
   * The tokens `generate_command` joins into the command, in order: the
   * program name comes first and the quoted script last.
   */
  function CommandArgs(v: Vars, l: Lists): (r: seq<string>)
    ensures |r| >= 2
    ensures r[0] == Spelling(Program)
    ensures r[|r| - 1] == Quote(v.scriptPath)
  {
    StepsGroups(v, l);
    BasicFirst(v);
    ClosingLast(v, l);
    FirstOfSix(Concat(Basic(v)), Concat(General(v)), Concat(Advanced(v)), Concat(ListSteps(l)),
               Concat(PlatformSteps(v)), Concat(Closing(v, l)));
    Concat(Steps(v, l))
  }

  /** The text shown in the command box, or nothing when no script is chosen. */
  function CommandLine(v: Vars, l: Lists): (r: Option<string>)
    ensures r.None? <==> v.scriptPath == ""
  {
    if v.scriptPath == "" then None else Some(Join(CommandArgs(v, l), " "))
  }

  // ---------------------------------------------------------------------------
  // Properties of the command
  // ---------------------------------------------------------------------------

  /**
   * The build type and console option hold nothing or one of the values
   * their radio buttons offer.
   */
  predicate RadioChoices(v: Vars)
  {
    (v.buildType == "" || v.buildType == "--onedir" || v.buildType == "--onefile") &&
    (v.consoleOption == "" || v.consoleOption == "--console" || v.consoleOption == "--noconsole")
  }

  /** A step that adds an option adds one of group `g`. */
  predicate InGroup(p: Part, g: nat)
  {
    (p.Switch? || p.Valued? || p.Repeated?) ==> Group(p.opt) == g
  }

  /** Well-formed steps of group `g` add nothing named after an option of another group. */
  lemma GroupSilent(ps: seq<Part>, g: nat, o: OptionName)
    requires forall k :: 0 <= k < |ps| ==> WellFormed(ps[k]) && InGroup(ps[k], g)
    requires Group(o) != g
    ensures WithTag(Concat(ps), Spelling(o)) == []
  {
    Silent(ps, o);
  }

  // Each group adds no option of another group.

  lemma BasicSilent(v: Vars, o: OptionName)
    requires RadioChoices(v) && Group(o) != 0
    ensures WithTag(Concat(Basic(v)), Spelling(o)) == []
  {
    GroupSilent(Basic(v), 0, o);
  }

  lemma GeneralSilent(v: Vars, o: OptionName)
    requires Group(o) != 1
    ensures WithTag(Concat(General(v)), Spelling(o)) == []
  {
    GroupSilent(General(v), 1, o);
  }

  lemma AdvancedSilent(v: Vars, o: OptionName)
    requires Group(o) != 2
    ensures WithTag(Concat(Advanced(v)), Spelling(o)) == []
  {
    GroupSilent(Advanced(v), 2, o);
  }

  lemma ListStepsSilent(l: Lists, o: OptionName)
    requires Group(o) != 3
    ensures WithTag(Concat(ListSteps(l)), Spelling(o)) == []
  {
    GroupSilent(ListSteps(l), 3, o);
  }

  lemma PlatformStepsSilent(v: Vars, o: OptionName)
    requires Group(o) != 4
    ensures WithTag(Concat(PlatformSteps(v)), Spelling(o)) == []
  {
    GroupSilent(PlatformSteps(v), 4, o);
  }

  lemma ClosingSilent(v: Vars, l: Lists, o: OptionName)
    requires Group(o) != 5
    ensures WithTag(Concat(Closing(v, l)), Spelling(o)) == []
  {
    GroupSilent(Closing(v, l), 5, o);
  }

  /**
   * The command is the groups' tokens one after the other: program, build
   * options and folders; general options and UPX; advanced options; the
   * lists; the platform files; resources, `--collect-all` and the script.
   */
  lemma CommandGroups(v: Vars, l: Lists)
    ensures CommandArgs(v, l) ==
              Concat(Basic(v)) + Concat(General(v)) + Concat(Advanced(v)) + Concat(ListSteps(l))
              + Concat(PlatformSteps(v)) + Concat(Closing(v, l))
  {
    StepsGroups(v, l);
  }

  lemma StepsGroups(v: Vars, l: Lists)
    ensures Concat(Steps(v, l)) ==
              Concat(Basic(v)) + Concat(General(v)) + Concat(Advanced(v)) + Concat(ListSteps(l))
              + Concat(PlatformSteps(v)) + Concat(Closing(v, l))
  {
    ConcatAppend(Basic(v) + General(v) + Advanced(v) + ListSteps(l) + PlatformSteps(v), Closing(v, l));
    ConcatAppend(Basic(v) + General(v) + Advanced(v) + ListSteps(l), PlatformSteps(v));
    ConcatAppend(Basic(v) + General(v) + Advanced(v), ListSteps(l));
    ConcatAppend(Basic(v) + General(v), Advanced(v));
    ConcatAppend(Basic(v), General(v));
  }

  /** Filtering the command by a name filters each group. */
  lemma CommandWithTag(v: Vars, l: Lists, n: string)
    ensures WithTag(CommandArgs(v, l), n) ==
              WithTag(Concat(Basic(v)), n) + WithTag(Concat(General(v)), n) + WithTag(Concat(Advanced(v)), n)
              + WithTag(Concat(ListSteps(l)), n) + WithTag(Concat(PlatformSteps(v)), n)
              + WithTag(Concat(Closing(v, l)), n)
  {
    CommandGroups(v, l);
    var a, b, c := Concat(Basic(v)), Concat(General(v)), Concat(Advanced(v));
    var d, e, f := Concat(ListSteps(l)), Concat(PlatformSteps(v)), Concat(Closing(v, l));
    WithTagConcat(a + b + c + d + e, f, n);
    WithTagConcat(a + b + c + d, e, n);
    WithTagConcat(a + b + c, d, n);
    WithTagConcat(a + b, c, n);
    WithTagConcat(a, b, n);
  }

  /**
   * Within the list group the flags come list by list: data files, binaries,
   * hidden imports, excluded modules, hook folders, runtime hooks.
   */
  lemma ListFlagsInOrder(l: Lists)
    ensures Concat(ListSteps(l)) ==
              Listed(Spelling(AddData), l.dataFiles, true) + Listed(Spelling(AddBinary), l.binaryFiles, true)
              + Listed(Spelling(HiddenImport), l.hiddenImports, false)
              + Listed(Spelling(ExcludeModule), l.excludeModules, false)
              + Listed(Spelling(AdditionalHooksDir), l.hooksDirs, true)
              + Listed(Spelling(RuntimeHook), l.runtimeHooks, true)
  {
    var ps := ListSteps(l);
    ConcatSix(ps[0], ps[1], ps[2], ps[3], ps[4], ps[5]);
    assert ps == [ps[0], ps[1], ps[2], ps[3], ps[4], ps[5]];
  }

  /**
   * The command ends with the resources, then `--collect-all` for pandas and
   * numpy, then the quoted script.
   */
  lemma ClosingInOrder(v: Vars, l: Lists)
    ensures Concat(Closing(v, l)) ==
              Listed(Spelling(Resource), l.resources, true)
              + Listed(Spelling(CollectAll), CollectedPackages(l.hiddenImports), false)
              + [Quote(v.scriptPath)]
  {
    var ps := Closing(v, l);
    ConcatThree(ps[0], ps[1], ps[2]);
    assert ps == [ps[0], ps[1], ps[2]];
  }

  /**
   * Read off the whole command: its last tokens are the resources, then the
   * `--collect-all` tokens, then the quoted script, with nothing between.
   */
  lemma CommandEnding(v: Vars, l: Lists)
    ensures var c := CommandArgs(v, l);
            var tail := Listed(Spelling(Resource), l.resources, true)
                        + Listed(Spelling(CollectAll), CollectedPackages(l.hiddenImports), false)
                        + [Quote(v.scriptPath)];
            |tail| <= |c| && c[|c| - |tail|..] == tail
  {
    CommandGroups(v, l);
    ClosingInOrder(v, l);
    var front := Concat(Basic(v)) + Concat(General(v)) + Concat(Advanced(v)) + Concat(ListSteps(l))
                 + Concat(PlatformSteps(v));
    var tail := Concat(Closing(v, l));
    assert CommandArgs(v, l) == front + tail;
    SuffixOf(front, tail);
  }

  lemma SuffixOf(front: seq<string>, tail: seq<string>)
    ensures (front + tail)[|front + tail| - |tail|..] == tail
  {
  }

  /** Of six sequences all but the `g`-th empty, the concatenation is the `g`-th. */
  lemma OneOfSix(a: seq<string>, b: seq<string>, c: seq<string>, d: seq<string>, e: seq<string>, f: seq<string>, g: nat)
    requires g < 6
    requires (g != 0 ==> a == []) && (g != 1 ==> b == []) && (g != 2 ==> c == [])
    requires (g != 3 ==> d == []) && (g != 4 ==> e == []) && (g != 5 ==> f == [])
    ensures a + b + c + d + e + f == if g == 0 then a else if g == 1 then b else if g == 2 then c
                                     else if g == 3 then d else if g == 4 then e else f
  {
  }

  /** The tokens named after option `o` all come from the group that adds `o`. */
  lemma OptionFromGroup(v: Vars, l: Lists, o: OptionName)
    requires RadioChoices(v)
    ensures WithTag(CommandArgs(v, l), Spelling(o)) == WithTag(Concat(GroupSteps(v, l, Group(o))), Spelling(o))
  {
    var n := Spelling(o);
    CommandWithTag(v, l, n);
    if Group(o) != 0 { BasicSilent(v, o); }
    if Group(o) != 1 { GeneralSilent(v, o); }
    if Group(o) != 2 { AdvancedSilent(v, o); }
    if Group(o) != 3 { ListStepsSilent(l, o); }
    if Group(o) != 4 { PlatformStepsSilent(v, o); }
    if Group(o) != 5 { ClosingSilent(v, l, o); }
    OneOfSix(WithTag(Concat(Basic(v)), n), WithTag(Concat(General(v)), n), WithTag(Concat(Advanced(v)), n),
             WithTag(Concat(ListSteps(l)), n), WithTag(Concat(PlatformSteps(v)), n), WithTag(Concat(Closing(v, l)), n),
             Group(o));
  }

  /** The position of option `o`'s step within its group. */
  function Index(o: OptionName): nat
  {
    match o
    case Program | Clean | StripSymbols | AddData | Icon | Resource => 0
    case NoConfirm | Ascii | AddBinary | VersionFile | CollectAll => 1
    case LogLevel | UacAdmin | HiddenImport | Manifest => 2
    case AppName | NoUpx | UacUiaccess | ExcludeModule => 3
    case DistPath | UpxDir | WinPrivateAssemblies | AdditionalHooksDir => 4
    case WorkPath | WinNoPreferRedirects | RuntimeHook => 5
  }

  /** The step that adds option `o`. */
  function OptionStep(v: Vars, l: Lists, o: OptionName): Part
  {
    var ps := GroupSteps(v, l, Group(o));
    if Index(o) < |ps| then ps[Index(o)] else Script(v.scriptPath)
  }

  /** Among well-formed steps `ps`, the one at `Index(o)` is the only one adding `o`. */
  predicate Owns(ps: seq<Part>, o: OptionName)
  {
    && Index(o) < |ps| && HasOption(ps[Index(o)], o)
    && (forall k :: 0 <= k < |ps| ==> WellFormed(ps[k]))
    && (forall k :: 0 <= k < |ps| && k != Index(o) ==> Excludes(ps[k], o))
  }

  lemma BasicOwner(v: Vars, o: OptionName)
    requires RadioChoices(v) && Group(o) == 0
    ensures Owns(Basic(v), o)
  {
  }

  lemma GeneralOwner(v: Vars, o: OptionName)
    requires Group(o) == 1
    ensures Owns(General(v), o)
  {
  }

  lemma AdvancedOwner(v: Vars, o: OptionName)
    requires Group(o) == 2
    ensures Owns(Advanced(v), o)
  {
  }

  lemma ListStepsOwner(l: Lists, o: OptionName)
    requires Group(o) == 3
    ensures Owns(ListSteps(l), o)
  {
  }

  lemma PlatformStepsOwner(v: Vars, o: OptionName)
    requires Group(o) == 4
    ensures Owns(PlatformSteps(v), o)
  {
  }

  lemma ClosingOwner(v: Vars, l: Lists, o: OptionName)
    requires Group(o) == 5
    ensures Owns(Closing(v, l), o)
  {
  }

  /** Option `o`'s step is in its group at `Index(o)`, and it is the only step there adding `o`. */
  lemma Owner(v: Vars, l: Lists, o: OptionName)
    requires RadioChoices(v)
    ensures Owns(GroupSteps(v, l, Group(o)), o)
  {
    match Group(o)
    case 0 => BasicOwner(v, o);
    case 1 => GeneralOwner(v, o);
    case 2 => AdvancedOwner(v, o);
    case 3 => ListStepsOwner(l, o);
    case 4 => PlatformStepsOwner(v, o);
    case 5 => ClosingOwner(v, l, o);
  }

  /**
   * Every option appears in the command exactly as its own step adds it:
   * no other step emits a token with that option's name.
   */
  lemma OptionTokens(v: Vars, l: Lists, o: OptionName)
    requires RadioChoices(v)
    ensures WithTag(CommandArgs(v, l), Spelling(o)) == Tokens(OptionStep(v, l, o))
  {
    OptionFromGroup(v, l, o);
    Owner(v, l, o);
    OnlyOption(GroupSteps(v, l, Group(o)), Index(o), o);
  }

  // ---------------------------------------------------------------------------
  // What the command holds, option by option, in terms of the form
  // ---------------------------------------------------------------------------

  /** The options that are a bare switch driven by one check box. */
  predicate SwitchOption(o: OptionName)
  {
    o.Clean? || o.NoConfirm? || o.StripSymbols? || o.Ascii? || o.UacAdmin? || o.UacUiaccess?
    || o.WinPrivateAssemblies? || o.WinNoPreferRedirects?
  }

  /** The check box behind a switch option. */
  predicate Ticked(v: Vars, o: OptionName)
  {
    match o
    case Clean => v.cleanBuild
    case NoConfirm => v.noConfirm
    case StripSymbols => v.strip
    case Ascii => v.ascii
    case UacAdmin => v.uacAdmin
    case UacUiaccess => v.uacUiaccess
    case WinPrivateAssemblies => v.winPrivateAssemblies
    case WinNoPreferRedirects => v.winNoPreferRedirects
    case _ => false
  }

  /** A switch option is in the command once when its box is ticked, and not at all otherwise. */
  lemma SwitchTokens(v: Vars, l: Lists, o: OptionName)
    requires RadioChoices(v) && SwitchOption(o)
    ensures WithTag(CommandArgs(v, l), Spelling(o)) == if Ticked(v, o) then [Spelling(o)] else []
  {
    OptionTokens(v, l, o);
    SwitchStep(v, l, o);
  }

  lemma SwitchStep(v: Vars, l: Lists, o: OptionName)
    requires SwitchOption(o)
    ensures OptionStep(v, l, o) == Switch(Ticked(v, o), o)
  {
  }

  /** The options that carry one path or name typed into an entry field. */
  predicate PathOption(o: OptionName)
  {
    o.AppName? || o.DistPath? || o.WorkPath? || o.Icon? || o.VersionFile? || o.Manifest?
  }

  /** The entry field behind a path option. */
  function PathField(v: Vars, o: OptionName): string
  {
    match o
    case AppName => v.appName
    case DistPath => v.outputDir
    case WorkPath => v.workDir
    case Icon => v.iconFile
    case VersionFile => v.versionFile
    case Manifest => v.manifestFile
    case _ => ""
  }

  /**
   * A path option is in the command once, as `--option="value"`, when its
   * field is filled in, and not at all when the field is empty.
   */
  lemma PathTokens(v: Vars, l: Lists, o: OptionName)
    requires RadioChoices(v) && PathOption(o)
    ensures WithTag(CommandArgs(v, l), Spelling(o)) ==
              if PathField(v, o) != "" then [Flag(Spelling(o), Quote(PathField(v, o)))] else []
  {
    OptionTokens(v, l, o);
    PathStep(v, l, o);
  }

  lemma PathStep(v: Vars, l: Lists, o: OptionName)
    requires PathOption(o)
    ensures OptionStep(v, l, o) == Valued(PathField(v, o) != "", o, PathField(v, o), true)
  {
  }

  /** The log level is passed, unquoted, only when it differs from the default INFO. */
  lemma LogLevelTokens(v: Vars, l: Lists)
    requires RadioChoices(v)
    ensures WithTag(CommandArgs(v, l), Spelling(LogLevel)) ==
              if v.logLevel != "INFO" then [Flag(Spelling(LogLevel), v.logLevel)] else []
  {
    OptionTokens(v, l, LogLevel);
    assert OptionStep(v, l, LogLevel) == Valued(v.logLevel != "INFO", LogLevel, v.logLevel, false) by {
      GeneralStep(v, l, LogLevel);
    }
  }

  /**
   * `--noupx` is passed exactly when UPX is off or explicitly refused, and
   * `--upx-dir` exactly when UPX is on, not refused, and a folder is given:
   * the two never appear together.
   */
  lemma UpxFlags(v: Vars, l: Lists)
    requires RadioChoices(v)
    ensures WithTag(CommandArgs(v, l), Spelling(NoUpx)) == if !v.useUpx || v.noupx then [Spelling(NoUpx)] else []
    ensures WithTag(CommandArgs(v, l), Spelling(UpxDir)) ==
              if v.useUpx && !v.noupx && v.upxDir != "" then [Flag(Spelling(UpxDir), Quote(v.upxDir))] else []
  {
    NoUpxTokens(v, l);
    UpxDirTokens(v, l);
  }

  lemma NoUpxTokens(v: Vars, l: Lists)
    requires RadioChoices(v)
    ensures WithTag(CommandArgs(v, l), Spelling(NoUpx)) == if !v.useUpx || v.noupx then [Spelling(NoUpx)] else []
  {
    OptionTokens(v, l, NoUpx);
  }

  lemma UpxDirTokens(v: Vars, l: Lists)
    requires RadioChoices(v)
    ensures WithTag(CommandArgs(v, l), Spelling(UpxDir)) ==
              if v.useUpx && !v.noupx && v.upxDir != "" then [Flag(Spelling(UpxDir), Quote(v.upxDir))] else []
  {
    OptionTokens(v, l, UpxDir);
  }

  /** The steps of the general group are found where `OptionStep` looks for them. */
  lemma GeneralStep(v: Vars, l: Lists, o: OptionName)
    requires Group(o) == 1
    ensures OptionStep(v, l, o) == General(v)[Index(o)]
  {
  }

  /** The options repeated once per entry of one of the form's lists. */
  predicate ListOption(o: OptionName)
  {
    o.AddData? || o.AddBinary? || o.HiddenImport? || o.ExcludeModule? || o.AdditionalHooksDir?
    || o.RuntimeHook? || o.Resource?
  }

  /** The list behind a list option. */
  function ListField(l: Lists, o: OptionName): seq<string>
  {
    match o
    case AddData => l.dataFiles
    case AddBinary => l.binaryFiles
    case HiddenImport => l.hiddenImports
    case ExcludeModule => l.excludeModules
    case AdditionalHooksDir => l.hooksDirs
    case RuntimeHook => l.runtimeHooks
    case Resource => l.resources
    case _ => []
  }

  /** Module names are passed bare; paths and resource specifications in quotes. */
  predicate QuotedList(o: OptionName)
  {
    !(o.HiddenImport? || o.ExcludeModule?)
  }

  /**
   * A list option occurs in the command once per entry of its list, in list
   * order, each occurrence carrying its entry.
   */
  lemma ListTokens(v: Vars, l: Lists, o: OptionName)
    requires RadioChoices(v) && ListOption(o)
    ensures var r := WithTag(CommandArgs(v, l), Spelling(o));
            && |r| == |ListField(l, o)|
            && forall k :: 0 <= k < |r| ==> r[k] == Flag(Spelling(o), Arg(ListField(l, o)[k], QuotedList(o)))
  {
    OptionTokens(v, l, o);
    ListStep(v, l, o);
  }

  lemma ListStep(v: Vars, l: Lists, o: OptionName)
    requires ListOption(o)
    ensures OptionStep(v, l, o) == Repeated(o, ListField(l, o), QuotedList(o))
  {
  }

  /**
   * `--collect-all=pandas` and then `--collect-all=numpy` are passed exactly
   * when those packages are among the hidden imports.
   */
  lemma CollectAllTokens(v: Vars, l: Lists)
    requires RadioChoices(v)
    ensures WithTag(CommandArgs(v, l), Spelling(CollectAll)) ==
              (if "pandas" in l.hiddenImports then [Flag(Spelling(CollectAll), "pandas")] else [])
              + (if "numpy" in l.hiddenImports then [Flag(Spelling(CollectAll), "numpy")] else [])
  {
    OptionTokens(v, l, CollectAll);
    CollectAllStep(v, l);
    CollectedFlags(l.hiddenImports);
  }

  lemma CollectAllStep(v: Vars, l: Lists)
    ensures OptionStep(v, l, CollectAll) == Repeated(CollectAll, CollectedPackages(l.hiddenImports), false)
  {
  }

  lemma CollectedFlags(hiddenImports: seq<string>)
    ensures Listed(Spelling(CollectAll), CollectedPackages(hiddenImports), false) ==
              (if "pandas" in hiddenImports then [Flag(Spelling(CollectAll), "pandas")] else [])
              + (if "numpy" in hiddenImports then [Flag(Spelling(CollectAll), "numpy")] else [])
  {
  }

  lemma BasicFirst(v: Vars)
    ensures |Concat(Basic(v))| >= 1 && Concat(Basic(v))[0] == Spelling(Program)
  {
    var basic := Basic(v);
    ConcatCons(basic[0], basic[1..]);
    assert basic == [basic[0]] + basic[1..];
  }

  lemma ClosingLast(v: Vars, l: Lists)
    ensures |Concat(Closing(v, l))| >= 1 && Concat(Closing(v, l))[|Concat(Closing(v, l))| - 1] == Quote(v.scriptPath)
  {
    ClosingInOrder(v, l);
  }

  lemma FirstOfSix(a: seq<string>, b: seq<string>, c: seq<string>, d: seq<string>, e: seq<string>, f: seq<string>)
    requires |a| >= 1 && |f| >= 1
    ensures var s := a + b + c + d + e + f;
            |s| >= 2 && s[0] == a[0] && s[|s| - 1] == f[|f| - 1]
  {
  }

  /** Only radio steps are named after a radio value. */
  lemma RadioNotNamed(p: Part, n: string)
    requires !p.Choice? && RadioValue(n)
    ensures StepName(p) != n
  {
    match p
    case Switch(_, o) => SpellingPlain(o);
    case Valued(_, o, _, _) => SpellingPlain(o);
    case Repeated(o, _, _) => SpellingPlain(o);
    case Script(path) => TagOfQuoted(path);
  }

  /** The groups after the first hold no radio step: none of their tokens is named after a radio value. */
  lemma NoRadioAfter(ps: seq<Part>, n: string)
    requires forall k :: 0 <= k < |ps| ==> !ps[k].Choice?
    requires RadioValue(n)
    ensures WithTag(Concat(ps), n) == []
  {
    forall k | 0 <= k < |ps| ensures StepName(ps[k]) != n || Tokens(ps[k]) == [] {
      RadioNotNamed(ps[k], n);
    }
    NoPart(ps, n);
  }

  lemma GeneralNoRadio(v: Vars, n: string)
    requires RadioValue(n)
    ensures WithTag(Concat(General(v)), n) == []
  {
    NoRadioAfter(General(v), n);
  }

  lemma AdvancedNoRadio(v: Vars, n: string)
    requires RadioValue(n)
    ensures WithTag(Concat(Advanced(v)), n) == []
  {
    NoRadioAfter(Advanced(v), n);
  }

  lemma ListStepsNoRadio(l: Lists, n: string)
    requires RadioValue(n)
    ensures WithTag(Concat(ListSteps(l)), n) == []
  {
    NoRadioAfter(ListSteps(l), n);
  }

  lemma PlatformStepsNoRadio(v: Vars, n: string)
    requires RadioValue(n)
    ensures WithTag(Concat(PlatformSteps(v)), n) == []
  {
    NoRadioAfter(PlatformSteps(v), n);
  }

  lemma ClosingNoRadio(v: Vars, l: Lists, n: string)
    requires RadioValue(n)
    ensures WithTag(Concat(Closing(v, l)), n) == []
  {
    NoRadioAfter(Closing(v, l), n);
  }

  /**
   * Six steps of which the second and third are radio steps holding
   * different values: a radio value names the tokens of the step holding it.
   */
  lemma {:induction false} TwoRadios(ps: seq<Part>, first: string, second: string, n: string)
    requires |ps| == 6 && ps[1] == Choice(first) && ps[2] == Choice(second)
    requires forall k :: 0 <= k < 6 && k != 1 && k != 2 ==> !ps[k].Choice?
    requires RadioValue(n) && (first == "" || RadioValue(first)) && (second == "" || RadioValue(second))
    requires first == "" || first != second
    ensures WithTag(Concat(ps), n) == (if first == n then [n] else []) + (if second == n then [n] else [])
  {
    forall k | 0 <= k < |ps| && k != 1 && k != 2 ensures StepName(ps[k]) != n {
      RadioNotNamed(ps[k], n);
    }
    if first == n {
      OnlyPart(ps, 1, n);
    } else if second == n {
      OnlyPart(ps, 2, n);
    } else {
      NoPart(ps, n);
    }
  }

  lemma BasicRadio(v: Vars, n: string)
    requires RadioChoices(v) && RadioValue(n)
    ensures WithTag(Concat(Basic(v)), n) ==
              (if v.buildType == n then [n] else []) + (if v.consoleOption == n then [n] else [])
  {
    TwoRadios(Basic(v), v.buildType, v.consoleOption, n);
  }

  /**
   * The chosen build type and console mode are passed as they are, once
   * each; a radio value that is not chosen does not occur.
   */
  lemma RadioTokens(v: Vars, l: Lists, n: string)
    requires RadioChoices(v) && RadioValue(n)
    ensures WithTag(CommandArgs(v, l), n) ==
              (if v.buildType == n then [n] else []) + (if v.consoleOption == n then [n] else [])
  {
    CommandWithTag(v, l, n);
    BasicRadio(v, n);
    GeneralNoRadio(v, n);
    AdvancedNoRadio(v, n);
    ListStepsNoRadio(l, n);
    PlatformStepsNoRadio(v, n);
    ClosingNoRadio(v, l, n);
    OneOfSix(WithTag(Concat(Basic(v)), n), WithTag(Concat(General(v)), n), WithTag(Concat(Advanced(v)), n),
             WithTag(Concat(ListSteps(l)), n), WithTag(Concat(PlatformSteps(v)), n), WithTag(Concat(Closing(v, l)), n),
             0);
  }
}
