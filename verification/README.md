# PyInstaller command generator — a verified model of its core

`pyinstaller_command_generator_GUI.py` is a Tkinter form (`PyInstallerGUI`)
that collects PyInstaller options and editable lists (data files, binaries,
hidden imports, excluded modules, hook folders, runtime hooks, Windows
resources), turns them into a `pyinstaller ...` command line, remembers
recently used project files, and writes Windows version resources. This
project models the parts of the form that compute something:

- `command.dfy` (module `Command`) holds the form's values (`Vars`) and
  lists (`Lists`) as plain data. It defines the token list that
  `generate_command` appends, group by group (`CommandArgs`), and the text
  shown in the command box (`CommandLine`). It proves which tokens each
  option contributes, in which order, and where the program name and the
  script go.
- `gui.dfy` (module `Gui`) is the form itself, as the class
  `PyInstallerGui`. Its fields are the values, the lists, the list boxes
  that show them, the recent projects and the command box. Its methods are
  the add/remove buttons, the two import analyses, the recent-projects
  update and `generate_command`. `generate_command` builds the token list
  with loops and appends, as the source does (`BuildCommand`), and is
  proved equal to `CommandArgs`. The entry texts that the data/binary and
  resource buttons build are here too.
- `imports.dfy` (module `Imports`) reduces the import statements of a
  script to top-level package names. It proves the `sorted(set(...))` list
  that `analyze_and_add_imports` installs, and the merge that
  `analyze_imports` performs.
- `recent.dfy` (module `Recent`) is the most-recently-used list of project
  files.
- `version.dfy` (module `Version`) reads the "a.b.c.d" file and product
  versions into four-integer tuples, or into the `ValueError` that aborts
  the version file.
- `text.dfy` (modules `Wrappers`, `Text`, `Sequences`) holds the Python
  `str` and `list` operations the form uses. These are `split` on one
  character, `join`, `strip`, `int()` on text, `str()` of an integer and
  `list.pop(i)`.

The network check, the virtual environment that safe mode creates, the
parser, the set iteration order and the file dialogs are not modelled.
Their results become parameters of the methods: `online`, `installed`,
`parsed`, `found`, and the paths and texts the buttons receive.

## Model

| member | source | states |
|---|---|---|
| Command.CommandLine | pyinstaller_command_generator_GUI.py:1073-1078 | there is a command exactly when a script path is set; with no script the command box is left alone |
| Command.CommandGroups | pyinstaller_command_generator_GUI.py:1123-1225 | the command is the groups in the source's fixed order: basic, general, advanced, the lists, the platform files, the closing part |
| Command.CommandWithTag | pyinstaller_command_generator_GUI.py:1123-1225 | the tokens with a given option name are that name's tokens from each group, taken group after group |
| Command.CommandArgs | pyinstaller_command_generator_GUI.py:1123-1225 | the command has at least two tokens; the first is `pyinstaller` and the last is the quoted script path |
| Command.InitialVars | pyinstaller_command_generator_GUI.py:25-637 | the initial form holds radio values in its radio fields, log level INFO, UPX on and output to the desktop, and has no command for any lists until a script is chosen |
| Command.OptionTokens | pyinstaller_command_generator_GUI.py:1127-1222 | for every option, its occurrences in the whole command are exactly the tokens of the one step that emits it; no other step emits that name |
| Command.OptionFromGroup | pyinstaller_command_generator_GUI.py:1123-1225 | an option's tokens all come from the group it belongs to |
| Command.Owner | pyinstaller_command_generator_GUI.py:1127-1222 | inside its group, only the option's own step contributes tokens with its name |
| Command.SwitchTokens | pyinstaller_command_generator_GUI.py:1146-1178 | each check-box switch (`--clean`, `--noconfirm`, `--strip`, `--ascii`, `--uac-*`, `--win-*`) appears once exactly when it is ticked, and otherwise not at all |
| Command.PathTokens | pyinstaller_command_generator_GUI.py:1134-1212 | `--name`, `--distpath`, `--workpath`, `--icon`, `--version-file` and `--manifest` each appear once, with the field's value in quotes, exactly when the field is non-empty |
| Command.LogLevelTokens | pyinstaller_command_generator_GUI.py:1152-1153 | `--log-level=<level>` (unquoted) appears once exactly when the level is not INFO |
| Command.UpxFlags | pyinstaller_command_generator_GUI.py:1156-1159 | `--noupx` appears exactly when UPX is off or refused; `--upx-dir="<dir>"` appears exactly when UPX is on, not refused and a folder is given; never both |
| Command.RadioTokens | pyinstaller_command_generator_GUI.py:1127-1131 | a radio value (`--onedir`, `--onefile`, `--console`, `--noconsole`) appears once exactly when the build type or the console option holds it |
| Command.BasicRadio | pyinstaller_command_generator_GUI.py:1127-1131 | within the basic group, the build type and the console option are the only tokens named after a radio value |
| Command.ListTokens | pyinstaller_command_generator_GUI.py:1181-1216 | each list option appears once per list entry, in list order, carrying that entry; paths are quoted and module names are bare |
| Command.ListFlagsInOrder | pyinstaller_command_generator_GUI.py:1181-1202 | the list group is the data files, binaries, hidden imports, excluded modules, hook folders and runtime hooks, one list after another |
| Command.ClosingInOrder | pyinstaller_command_generator_GUI.py:1215-1225 | the closing group is the resources, then `--collect-all` for pandas and numpy, then the quoted script |
| Command.CommandEnding | pyinstaller_command_generator_GUI.py:1215-1228 | the whole command ends with the resource tokens, then the `--collect-all` tokens, then the quoted script, with no other token between them |
| Command.CollectAllTokens | pyinstaller_command_generator_GUI.py:1219-1222 | `--collect-all=pandas` and then `--collect-all=numpy` appear exactly when those names are hidden imports |
| Command.CollectedPackages | pyinstaller_command_generator_GUI.py:1219-1222 | the packages given `--collect-all` are exactly those of pandas and numpy that are hidden imports |
| Command.WithTag | pyinstaller_command_generator_GUI.py:1123-1225 | selecting the tokens by option name keeps exactly the tokens with that name, and never adds any |
| Command.WithTagCounts | pyinstaller_command_generator_GUI.py:1123-1225 | selecting by option name keeps every token with that name as often as it occurs, and drops every other token |
| Command.WithTagConcat | pyinstaller_command_generator_GUI.py:1123-1225 | selecting by name distributes over concatenating parts of the command |
| Command.TagOfFlag | pyinstaller_command_generator_GUI.py:1135-1182 | a `name=value` token is known by its name whatever its value |
| Command.TagOfQuoted | pyinstaller_command_generator_GUI.py:1225 | the script token's name starts with a quote, so it is never taken for an option |
| Command.SpellingPlain | pyinstaller_command_generator_GUI.py:1124-1222 | every option name the command writes is non-empty, has no '=', does not start with a quote and is not a radio value |
| Command.SpellingInjective | pyinstaller_command_generator_GUI.py:1124-1222 | different options are written with different names |
| Command.Listed | pyinstaller_command_generator_GUI.py:1181-1182 | a loop over a list gives one `key=value` token per entry, in order |
| Command.ConcatAppend | pyinstaller_command_generator_GUI.py:1123-1225 | the tokens of consecutive steps are the tokens of the first steps followed by those of the rest |
| Command.NoPart | pyinstaller_command_generator_GUI.py:1123-1225 | steps that all emit other names contribute no token with a given name |
| Command.OnlyPart | pyinstaller_command_generator_GUI.py:1123-1225 | when only one step emits a name, the command's tokens with that name are that step's tokens |
| Command.TwoRadios | pyinstaller_command_generator_GUI.py:1127-1131 | two distinct radio steps among non-radio steps give each radio value at most once |
| Gui.BuildCommand | pyinstaller_command_generator_GUI.py:1123-1225 | building the list append by append, as the source does, gives exactly `CommandArgs` |
| Gui.BasicArgs | pyinstaller_command_generator_GUI.py:1124-1143 | the first appends give the program name, the radio values, the name and the two folders, as specified |
| Gui.AppendGeneral | pyinstaller_command_generator_GUI.py:1146-1159 | the clean, no-confirm, log-level and UPX appends extend the command by the general group; `if/elif` gives `--noupx` precedence |
| Gui.AppendAdvanced | pyinstaller_command_generator_GUI.py:1162-1178 | the six switch appends extend the command by the advanced group |
| Gui.AppendLists | pyinstaller_command_generator_GUI.py:1181-1202 | the six list loops extend the command by the list group |
| Gui.AppendPlatform | pyinstaller_command_generator_GUI.py:1205-1212 | the icon, version-file and manifest appends extend the command by the platform group |
| Gui.AppendClosing | pyinstaller_command_generator_GUI.py:1215-1225 | the resource loop, the two collect-all checks and the script extend the command by the closing group |
| Gui.AppendEach | pyinstaller_command_generator_GUI.py:1181-1182 | a `for` loop appending `key=value` per entry adds exactly the list's tokens, in order, after the existing command |
| Gui.AppendIf | pyinstaller_command_generator_GUI.py:1146-1147 | a guarded append adds the token exactly when the guard holds |
| Gui.PyInstallerGui.GenerateCommand | pyinstaller_command_generator_GUI.py:1073-1230 | without a script nothing changes; otherwise, in safe mode with the network up and packages installed, those packages replace the hidden imports, and the command box shows `CommandLine` for the resulting form |
| Gui.SafeModeLists | pyinstaller_command_generator_GUI.py:1081-1113 | the installed packages replace the hidden imports only when safe mode is on, the network is up and the install gave packages; every other list is untouched |
| Gui.PyInstallerGui.constructor | pyinstaller_command_generator_GUI.py:25-637 | a fresh form: one-folder console build, log level INFO, UPX on, output to the desktop, version 1.0.0.0, safe mode on, empty lists and no recent projects |
| Gui.DataEntry | pyinstaller_command_generator_GUI.py:807-818 | a data or binary entry is the file path, then ';', then the destination |
| Gui.DataEntryFields | pyinstaller_command_generator_GUI.py:811-816 | an entry splits on ';' back into the file and its destination, "." when no destination was chosen |
| Gui.ResourceFields | pyinstaller_command_generator_GUI.py:937-948 | the kept fields are the stripped type, then the name only with a type, then the language only with both; each length holds exactly when those fields are non-blank |
| Gui.ResourceSpec | pyinstaller_command_generator_GUI.py:942-948 | a resource specification always starts with its file, and is the file alone exactly when the stripped type is blank |
| Gui.ResourceSpecFields | pyinstaller_command_generator_GUI.py:942-948 | when no field holds a ',', the specification splits on ',' back into the file and the kept fields |
| Gui.BuildResourceSpec | pyinstaller_command_generator_GUI.py:937-948 | the nested `+=` appends give the file followed by the kept fields, joined with ',' |
| Gui.WithList | pyinstaller_command_generator_GUI.py:817-826 | replacing one list leaves every other list as it was |
| Gui.PyInstallerGui.AppendEntry | pyinstaller_command_generator_GUI.py:817-818 | the entry is appended to both the list and its list box; nothing else changes |
| Gui.PyInstallerGui.RemoveSelected | pyinstaller_command_generator_GUI.py:820-826 | with no selection nothing changes; otherwise the first selected index is popped from the list and its list box |
| Gui.PyInstallerGui.AddDataFile | pyinstaller_command_generator_GUI.py:807-818 | a chosen file appends `file;dest` to the data files; nothing changes when no file is chosen |
| Gui.PyInstallerGui.RemoveDataFile | pyinstaller_command_generator_GUI.py:820-826 | pops exactly the selected data file |
| Gui.PyInstallerGui.AddBinaryFile | pyinstaller_command_generator_GUI.py:828-839 | a chosen file appends `file;dest` to the binaries; nothing changes when no file is chosen |
| Gui.PyInstallerGui.RemoveBinaryFile | pyinstaller_command_generator_GUI.py:841-847 | pops exactly the selected binary |
| Gui.PyInstallerGui.AddHiddenImport | pyinstaller_command_generator_GUI.py:849-855 | the typed name, stripped, is appended; blank input adds nothing |
| Gui.PyInstallerGui.RemoveHiddenImport | pyinstaller_command_generator_GUI.py:857-863 | pops exactly the selected hidden import |
| Gui.PyInstallerGui.AddExcludeModule | pyinstaller_command_generator_GUI.py:865-871 | the typed name, stripped, is appended; blank input adds nothing |
| Gui.PyInstallerGui.RemoveExcludeModule | pyinstaller_command_generator_GUI.py:873-879 | pops exactly the selected excluded module |
| Gui.PyInstallerGui.AddHooksDir | pyinstaller_command_generator_GUI.py:881-886 | a chosen folder is appended; nothing changes when none is chosen |
| Gui.PyInstallerGui.RemoveHooksDir | pyinstaller_command_generator_GUI.py:888-894 | pops exactly the selected hook folder |
| Gui.PyInstallerGui.AddRuntimeHook | pyinstaller_command_generator_GUI.py:896-904 | a chosen file is appended; nothing changes when none is chosen |
| Gui.PyInstallerGui.RemoveRuntimeHook | pyinstaller_command_generator_GUI.py:906-912 | pops exactly the selected runtime hook |
| Gui.PyInstallerGui.AddResource | pyinstaller_command_generator_GUI.py:914-957 | a chosen file, confirmed with OK, appends its resource specification; nothing changes when no file is chosen or the dialog is cancelled |
| Gui.PyInstallerGui.RemoveResource | pyinstaller_command_generator_GUI.py:959-965 | pops exactly the selected resource |
| Gui.AddThenRemove | pyinstaller_command_generator_GUI.py:817-826 | appending an entry and then popping the last line gives the lists back |
| Gui.RemoveOnlySelected | pyinstaller_command_generator_GUI.py:822-826 | popping index i removes exactly that one occurrence, keeps the rest in order and leaves the other lists alone |
| Gui.PyInstallerGui.AnalyzeAndAddImports | pyinstaller_command_generator_GUI.py:706-745 | a script that parses replaces the hidden imports with the sorted, duplicate-free set of its top-level imports; otherwise nothing changes |
| Gui.PyInstallerGui.AnalyzeImports | pyinstaller_command_generator_GUI.py:1034-1071 | when the script parses and the user agrees, each collected name not yet listed is appended; otherwise nothing changes |
| Gui.AnalyzeImportsMerge | pyinstaller_command_generator_GUI.py:1065-1068 | the merge keeps the old entries in front, holds exactly the old and the collected names, and keeps a duplicate-free list duplicate-free |
| Gui.PyInstallerGui.RememberProject | pyinstaller_command_generator_GUI.py:1495-1499 | the recent projects become `Remembered` of the old list; nothing else changes |
| Recent.Remembered | pyinstaller_command_generator_GUI.py:1495-1498 | a listed path changes nothing; a new path goes first, the others keep their order, and the oldest is dropped beyond ten |
| Recent.RememberedNoDuplicates | pyinstaller_command_generator_GUI.py:1495-1498 | no path is ever listed twice |
| Recent.RememberedFrom | pyinstaller_command_generator_GUI.py:1652-1655 | every remaining entry is the new path or was listed before |
| Imports.TopLevel | pyinstaller_command_generator_GUI.py:718-721 | `name.split('.')[0]` is a dot-free prefix of the name that ends just before its first dot, and the whole name when it has no dot |
| Imports.FoundNames | pyinstaller_command_generator_GUI.py:715-721 | every name the walk collects is a top-level package name, with no dot |
| Imports.NodeNamesExactly | pyinstaller_command_generator_GUI.py:715-720 | the names one node adds are exactly the top-level packages of the modules it imports |
| Imports.FoundNamesExactly | pyinstaller_command_generator_GUI.py:715-721 | a name is collected exactly when some `import` or `from ... import` node names a module of that package; collected names have no dot |
| Imports.InsertUnique | pyinstaller_command_generator_GUI.py:728 | inserting into a strictly sorted list keeps it strictly sorted and adds exactly the new name |
| Imports.SortedUnique | pyinstaller_command_generator_GUI.py:728 | `sorted(set(names))` is strictly sorted and holds exactly the names |
| Imports.StrictlySortedUnique | pyinstaller_command_generator_GUI.py:728 | two strictly sorted lists with the same names are equal |
| Imports.SortedImports | pyinstaller_command_generator_GUI.py:724-730 | the installed hidden imports are strictly sorted, duplicate-free and hold exactly the collected names |
| Imports.SortedImportsIsSortedSet | pyinstaller_command_generator_GUI.py:728-730 | any sorted listing of the collected names is that list |
| Imports.Merged | pyinstaller_command_generator_GUI.py:1065-1068 | the merged list starts with the old hidden imports and holds exactly the old names and the found ones |
| Imports.MergedProperties | pyinstaller_command_generator_GUI.py:1065-1068 | the merge keeps the old list as a prefix, appends only names not already there, holds the old and the found names, and keeps a duplicate-free list duplicate-free |
| Imports.LessTransitive | pyinstaller_command_generator_GUI.py:728 | Python's string order is transitive |
| Imports.LessTotal | pyinstaller_command_generator_GUI.py:728 | any two different strings are ordered one way or the other |
| Imports.LessIrreflexive | pyinstaller_command_generator_GUI.py:728 | no string sorts before itself |
| Version.ParseParts | pyinstaller_command_generator_GUI.py:987 | `tuple(int(v) for v in parts)` succeeds exactly when every part is an integer; the part reported is one `int()` refuses, and every part before it reads as an integer |
| Version.ParseVersion | pyinstaller_command_generator_GUI.py:986-987 | four parts are read as integers, any other count gives (1, 0, 0, 0), and a non-integer among four parts is an error naming the first such part |
| Version.VersionRoundTrip | pyinstaller_command_generator_GUI.py:986-987 | every version tuple written as "a.b.c.d" reads back as itself |
| Version.InitialVersion | pyinstaller_command_generator_GUI.py:419-424 | the form's initial "1.0.0.0" reads as the default tuple |
| Version.VersionPair | pyinstaller_command_generator_GUI.py:986-1031 | the file version is read first and its error wins; otherwise the product version's error is reported; the pair is read only when both versions parse |
| Text.Split | pyinstaller_command_generator_GUI.py:986 | `split(c)` gives at least one piece, no piece holds `c`, and joining them with `c` gives the text back |
| Text.Before | pyinstaller_command_generator_GUI.py:718 | `split(c)[0]` is the `c`-free prefix up to the first `c` |
| Text.SplitJoin | pyinstaller_command_generator_GUI.py:986 | joining `c`-free parts with `c` and splitting again gives the parts |
| Text.Strip | pyinstaller_command_generator_GUI.py:938-940 | the stripped text neither starts nor ends with white space |
| Text.TrimIsSlice | pyinstaller_command_generator_GUI.py:938-940 | `strip()`, and the blank-skipping of `int()`, cut only their own white space from either side, so they leave "" exactly for all-blank input |
| Text.StripIdempotent | pyinstaller_command_generator_GUI.py:851 | stripping twice changes nothing more |
| Text.NatToString | pyinstaller_command_generator_GUI.py:992 | `str(n)` is a non-empty run of digits whose value is n |
| Text.IntRoundTrip | pyinstaller_command_generator_GUI.py:987 | `int(str(n)) == n` |
| Text.ParseInt | pyinstaller_command_generator_GUI.py:987 | `int()` refuses text made only of the white space it skips (which, unlike `strip()`, leaves out U+001C to U+001F); a number it reads is, after that skipping, a digit or a sign followed by text ending in a digit, and it is negative only after a `-`; `ParseIntShape` gives the exact shape |
| Text.DigitsShape | pyinstaller_command_generator_GUI.py:987 | the unsigned digits `int()` reads are exactly the texts of ASCII digits and underscores that start and end with a digit and never have two underscores side by side |
| Text.ParseIntShape | pyinstaller_command_generator_GUI.py:987 | `int()` accepts a text exactly when, after its white space is skipped, it is an optional sign followed by such digits, so a part like "1a1" is refused |
| Text.Join | pyinstaller_command_generator_GUI.py:1228 | `sep.join(parts)` starts with the first part, and its length is the parts' lengths plus one separator between each two |
| Text.DigitsAsInt | pyinstaller_command_generator_GUI.py:987 | any digit string `int()` accepts, with no sign or blanks, reads as its digit value |
| Text.ParseIntSpaces | pyinstaller_command_generator_GUI.py:987 | for any text, white space that `int()` skips, put before and after it, changes nothing `int()` reads |
| Text.ParseIntSeparator | pyinstaller_command_generator_GUI.py:987 | a digit string behind one of the separators U+001C to U+001F is cleaned by `strip()` but refused by `int()` |
| Text.ParseIntMinus | pyinstaller_command_generator_GUI.py:987 | for any digit string `int()` accepts, a leading `-` is accepted and negates its value |
| Text.ParseIntPlus | pyinstaller_command_generator_GUI.py:987 | for any digit string `int()` accepts, a leading `+` is accepted and keeps its value |
| Text.ParseIntUnderscore | pyinstaller_command_generator_GUI.py:987 | for any two digit strings `int()` accepts, one underscore between them is accepted and reads as the two run together |
| Text.ParseIntDoubleUnderscore | pyinstaller_command_generator_GUI.py:987 | `int()` refuses every text with two underscores in a row, whatever surrounds them |
| Sequences.RemoveAt | pyinstaller_command_generator_GUI.py:826 | `pop(i)` keeps the entries before i and shifts the later ones down by one |
| Sequences.RemoveAtMultiset | pyinstaller_command_generator_GUI.py:826 | `pop(i)` removes exactly one occurrence, that of the entry at i |
| Sequences.RemoveAppended | pyinstaller_command_generator_GUI.py:817-826 | popping the entry just appended gives the list back |
| Sequences.RemoveAtNoDuplicates | pyinstaller_command_generator_GUI.py:826 | popping keeps a duplicate-free list duplicate-free |

## Left out

- The Tkinter widgets themselves are not modelled: layout, status bar, log text, message boxes and clearing an entry after adding. The list boxes are modelled only as the lists they show.
- The file and folder dialogs (`browse_*`, `askopenfilename`, `askdirectory`) are left out. What they return becomes a method parameter, with "" for a cancelled dialog.
- `execute_command`, its worker thread, the subprocess, the build log and `show_build_results` are left out. They run external programs.
- `check_internet_connection` and `create_virtual_env_and_install_packages` are left out because they use the network and run pip. Their results are the `online` and `installed` parameters of `GenerateCommand`.
- In safe mode, `generate_command` reads and parses the script. An unreadable or unparsable script raises out of `generate_command`, and that path is not modelled.
- Python's `ast.parse` and `ast.walk` are replaced by the sequence of nodes the walk visits, or by `None` when reading or parsing fails. No parser is modelled.
- The order in which `for imp in imports` visits a Python `set` is unspecified. It is the `found` parameter of `AnalyzeImports`, which is required to list each collected name once.
- Gui.PyInstallerGui.constructor: starts with no recent projects. `__init__` ends by calling `load_config`, which fills the recent list from the config file; that file read is not modelled.
- Saving and loading projects, the config file and the filter that drops missing paths from the recent list are left out, because they are file I/O. `update_recent_projects_combo` and `open_output_folder` are left out too. Only the shared recent-projects step is modelled.
- `generate_version_file` is modelled only in how it reads the two versions. The text it writes, the date and the file write are left out.
- Text.ParseInt: reads ASCII digits only; Python also accepts other Unicode decimal digits.
- Text.ParseInt: has no limit on the number of digits. Since Python 3.11, `int()` of text with more than 4300 digits raises `ValueError`, and so does `str()` of such a number; `Version.ParseParts`, `Text.IntRoundTrip` and `Version.VersionRoundTrip` do not model that limit.
- Command.OptionTokens: assumes the build type and console option hold "" or one of their radio values (`RadioChoices`), as the form's radio buttons set them; a loaded project could put other text there.
- Command.OptionFromGroup: assumes the build type and console option hold "" or one of their radio values (`RadioChoices`), as the form's radio buttons set them; a loaded project could put other text there.
- Command.Owner: assumes the build type and console option hold "" or one of their radio values (`RadioChoices`), as the form's radio buttons set them; a loaded project could put other text there.
- Command.SwitchTokens: assumes the build type and console option hold "" or one of their radio values (`RadioChoices`), as the form's radio buttons set them; a loaded project could put other text there.
- Command.PathTokens: assumes the build type and console option hold "" or one of their radio values (`RadioChoices`), as the form's radio buttons set them; a loaded project could put other text there.
- Command.LogLevelTokens: assumes the build type and console option hold "" or one of their radio values (`RadioChoices`), as the form's radio buttons set them; a loaded project could put other text there.
- Command.UpxFlags: assumes the build type and console option hold "" or one of their radio values (`RadioChoices`), as the form's radio buttons set them; a loaded project could put other text there.
- Command.ListTokens: assumes the build type and console option hold "" or one of their radio values (`RadioChoices`), as the form's radio buttons set them; a loaded project could put other text there.
- Command.CollectAllTokens: assumes the build type and console option hold "" or one of their radio values (`RadioChoices`), as the form's radio buttons set them; a loaded project could put other text there.
- Command.RadioTokens: assumes the build type and console option hold "" or one of their radio values (`RadioChoices`), as the form's radio buttons set them; a loaded project could put other text there.
- Command.BasicRadio: assumes the build type and console option hold "" or one of their radio values (`RadioChoices`), as the form's radio buttons set them; a loaded project could put other text there.
- Gui.PyInstallerGui.RemoveSelected: requires the selected index to lie inside the list, as a list box selection showing that list always does; an out-of-range `pop` is not modelled.
- Gui.PyInstallerGui.RemoveDataFile: requires the selected index to lie inside the list, as a list box selection showing that list always does; an out-of-range `pop` is not modelled.
- Gui.PyInstallerGui.RemoveBinaryFile: requires the selected index to lie inside the list, as a list box selection showing that list always does; an out-of-range `pop` is not modelled.
- Gui.PyInstallerGui.RemoveHiddenImport: requires the selected index to lie inside the list, as a list box selection showing that list always does; an out-of-range `pop` is not modelled.
- Gui.PyInstallerGui.RemoveExcludeModule: requires the selected index to lie inside the list, as a list box selection showing that list always does; an out-of-range `pop` is not modelled.
- Gui.PyInstallerGui.RemoveHooksDir: requires the selected index to lie inside the list, as a list box selection showing that list always does; an out-of-range `pop` is not modelled.
- Gui.PyInstallerGui.RemoveRuntimeHook: requires the selected index to lie inside the list, as a list box selection showing that list always does; an out-of-range `pop` is not modelled.
- Gui.PyInstallerGui.RemoveResource: requires the selected index to lie inside the list, as a list box selection showing that list always does; an out-of-range `pop` is not modelled.
