# Desktop Task Launcher — a verified model of its core

Desktop Task Launcher is an Electron application. It keeps a list of user-defined
tasks. Each task is an app to start, a website to open, a command to run or a server
to start. The user can run one task or a selection at once, and save selections as
task groups. A task group can be turned into a launcher file on the desktop: a
`.bat` batch file on Windows, and a `.command` or `.sh` shell script elsewhere. On
Windows the main process also searches the machine for installed programs so the
user can pick one from a list. It also arranges managed windows over the screen.

This project models, in Dafny, the decision logic of that core.

- **Launcher generation (main process).** `splitCommandAndArgs`, the batch-file and
  shell-script generators, file-name sanitising, the desktop path and the
  `createTaskGroupShortcut` outcome.
- **Program search (main process).** The recursive directory scanners run over an
  abstract directory tree. The model also covers the popular-application patterns,
  including the wildcard branch, and the modern-app and user-app rules. It covers
  the fixed registry list, the case-insensitive duplicate removal, and the
  "working shortcut" rewrite with its alternative-path search.
- **Window arrangement.** `arrangeWindows` as a class holding a map from slot name
  to window bounds.
- **IPC-side rules.** The multi-task result summary and the default seed tasks.
- **Renderer handlers.** The task-list transitions of `App.jsx` and the selection
  and group handlers of `TaskList.jsx`. The form handlers of `TaskForm.jsx`, the
  search filter of `ProgramPicker.jsx`, and `getTranslation` over the English and
  Arabic tables.

The main process's loops become methods with invariants, proved against
specification functions:
- the scanners push into a shared `ProgramList` object;
- duplicate removal grows a list and a `seenNames` set;
- the generators grow a string line by line;
- `arrangeWindows` updates the window map.

The renderer's spread, `map` and `filter` expressions become functions. Lemmas then
state what the source promises about them.

The environment is abstracted as follows:
- file-system probes are oracles: `present` for `fs.access`, `listDir` for
  `fs.readdir`, and the `Entry` tree for the recursive scanners;
- the `where` command is an oracle giving its standard output, or nothing when it
  fails;
- environment variables are `Option`s, an unset one reading as the text
  `undefined`, as JavaScript string concatenation does;
- `process.platform`, `Date.now()`, the ISO and locale time strings, and the
  way each `saveTasks` call ends (written, write failed but resolved, or rejected),
  and whether the launcher file write fails, are parameters. The `chmod +x` of a
  launcher is only recorded as requested: the source starts it without awaiting or
  checking it.

Where the code and the project's own description of it differ, the model follows
the code:
- **Unquoted commands.** An unquoted command is split at its first space, even
  inside a path. `C:\Program Files\x.exe` starts `C:\Program`
  (`BatchScript.AppStartLineSplitsAtSpace`).
- **Wildcard patterns.** A wildcard pattern's base directory is the text before
  the `*`. For the Discord and Slack patterns that text ends in `app-`, so the
  branch lists a directory named `...\Discord\app-` rather than `...\Discord`
  (`Popular.DiscordWildcardBase`).
- **`break` in the pattern loop.** `break` leaves only the loop over one
  directory's entries, not the loop over an application's patterns. An
  application can therefore be reported once per existing path
  (`Popular.PlainPathsAllFound`, `Popular.SteamFoundTwice`).
- **Editing a task.** The edit form submits a task without an `id`, so
  `updateTask` replaces nothing on a list whose tasks all have ids
  (`App.EditWithoutIdChangesNothing`).

## Model

| member | source | states |
|---|---|---|
| BatchScript.SplitCommandAndArgs | src/main/index.js:1305-1319 | An empty command gives two empty parts. When the trimmed command opens with a quote that closes at `e`, the program is the text between the quotes and the arguments are the trimmed rest. Otherwise the program holds no space: it is the whole trimmed command when that has no space, else the text before the first space, with the trimmed remainder as arguments. |
| BatchScript.SplitTrimmedSpec | src/main/index.js:1309-1318 | The split of an already trimmed command: the quoted case and the unquoted case as above. |
| BatchScript.SplitQuoted | src/main/index.js:1308-1314 | A trimmed command that opens with `"` and has its next `"` at index 2 or later splits into the text between the quotes and the trimmed remainder. |
| BatchScript.QuoteEndAt | src/main/index.js:1309 | The closing quote found is the first `"` after the opening one. |
| BatchScript.SplitUnquoted | src/main/index.js:1316-1318 | Without such a quoted prefix, the executable holds no space. With no space the whole command is the executable. Otherwise the command splits at its first space, and the arguments are what follows, trimmed. |
| BatchScript.AppStartLineSplitsAtSpace | src/main/index.js:1316-1318 | An unquoted path with a space is cut at that space. The head is started, quoted when it holds a separator, and the rest becomes its arguments. |
| BatchScript.AppStartLineQuoted | src/main/index.js:1308-1313 | `"exe" args` splits back into exactly `exe` and `args`. A quoted path keeps its spaces. |
| BatchScript.StartLineShape | src/main/index.js:1341-1353 | An `app` start line is `start ""`, then the executable, quoted exactly when it holds a space, `\` or `/`. One space and the arguments follow only when there are arguments. Its exact length is given. |
| BatchScript.StartLineQuotedWithArgs | src/main/index.js:1347-1349 | The quoted form with arguments, written out. |
| BatchScript.AppStartLineCalc | src/main/index.js:1341-1353 | `calc` renders as `start "" calc`. |
| BatchScript.BatchActionKnown | src/main/index.js:1340-1366 | A known type emits an `echo` announcement, then one `start` line. |
| BatchScript.BatchActionUnknown | src/main/index.js:1367-1368 | An unknown type emits only `echo    Unknown task type: <type>`, with no `start`. |
| BatchScript.BatchBlockLayout | src/main/index.js:1337-1374 | A task's block is its banner, its type line, its action and the fixed wait-and-completion tail. |
| BatchScript.BatchBlockBanner | src/main/index.js:1337 | Each block holds exactly one `echo [` banner, its own. |
| BatchScript.BatchBlockWait | src/main/index.js:1372 | Each block holds exactly one `timeout /t 1 /nobreak >nul`. |
| BatchScript.BatchBlockStart | src/main/index.js:1340-1369 | Each block holds one `start` line for a known type and none for an unknown type. |
| BatchScript.UnknownBlockFacts | src/main/index.js:1367-1372 | For an unknown type the block has one banner, one wait and no `start` line. |
| BatchScript.KnownBlockFacts | src/main/index.js:1340-1372 | For a known type the block has one banner, one wait and one `start` line. |
| BatchScript.BlocksBanners | src/main/index.js:1336-1337 | Over the first k tasks, the banners are exactly those tasks' banners, numbered in order. |
| BatchScript.BlocksWaits | src/main/index.js:1336-1372 | Over the first k tasks there are exactly k waits. |
| BatchScript.BlocksStarts | src/main/index.js:1336-1369 | Over the first k tasks there is one `start` line per task of known type. |
| BatchScript.Banners | src/main/index.js:1337 | The banner list has one entry per task, at the task's position. |
| BatchScript.KnownCount | src/main/index.js:1340-1369 | The number of tasks of known type is at most the number of tasks. |
| BatchScript.HeaderPlain | src/main/index.js:1324-1334 | The header holds no banner, no wait and no `start` line. |
| BatchScript.FooterPlain | src/main/index.js:1377-1382 | The footer holds no banner, no wait and no `start` line. |
| BatchScript.AllPlain | src/main/index.js:1324-1382 | Lines with none of the three shapes contribute nothing to the selections. |
| BatchScript.FramedFacts | src/main/index.js:1324-1382 | Banners, waits and `start` lines of the whole file come from the task blocks only. |
| BatchScript.BatchLinesParts | src/main/index.js:1322-1385 | Split into header, blocks and footer, the file's parts have the facts above. |
| BatchScript.BatchFileTasks | src/main/index.js:1336-1375 | The whole file has one banner per task in task order, `[ii/NN]` zero-padded. It has exactly one wait per task, and one `start` line per task of known type. |
| BatchScript.BatchFileFraming | src/main/index.js:1323-1382 | The file starts with `@echo off` and ends with `pause >nul`, each followed by CRLF. |
| BatchScript.GenerateBatchFile | src/main/index.js:1322-1385 | The string grown with `+=` equals the header, the blocks in task order and the footer, every line ended by CRLF. |
| ShellScript.GenerateShellScript | src/main/index.js:1390-1459 | The script grown with `+=` equals header, blocks and footer, every line ended by LF. |
| ShellScript.ShellScriptFraming | src/main/index.js:1391-1456 | The script starts with `#!/bin/bash` and ends with `read`. |
| ShellScript.CommandAndServerLaunchAlike | src/main/index.js:1425-1440 | `command` and `server` tasks get the same launch line on every platform. |
| ShellScript.AppLaunchByPlatform | src/main/index.js:1409-1415 | On darwin an app is started with `open -a "cmd" &`. Elsewhere it is run as `"cmd" &`. |
| ShellScript.LaunchIsNotSleep | src/main/index.js:1408-1440 | No launch line is the `sleep 1` line. |
| ShellScript.ShellBlockSleeps | src/main/index.js:1404-1448 | Each task's block holds exactly one `sleep 1`. |
| ShellScript.SleepOnce1 | src/main/index.js:1441-1448 | A block with a one-line action holds exactly one wait. |
| ShellScript.SleepOnce2 | src/main/index.js:1408-1448 | A block with a two-line action holds exactly one wait. |
| ShellScript.ShellBlocksSleeps | src/main/index.js:1404-1449 | The blocks of the first k tasks hold exactly k waits. |
| ShellScript.HeaderNoSleep | src/main/index.js:1391-1402 | The header holds no `sleep 1`. |
| ShellScript.FooterNoSleep | src/main/index.js:1451-1456 | The footer holds no `sleep 1`. |
| ShellScript.ShellScriptSleeps | src/main/index.js:1390-1459 | The script holds exactly one `sleep 1` per task. |
| Lines.AppendLines | src/main/index.js:1324-1334 | Appending lines one by one with `+=` gives the base followed by their rendering. |
| Lines.AppendEach | src/main/index.js:1336-1375 | The `forEach` over the tasks appends each task's block in order. |
| Lines.RenderAppend | src/main/index.js:1322-1385 | Rendering a list of lines distributes over concatenation. |
| Lines.RenderFraming | src/main/index.js:1322-1385 | A rendered text starts with its first line and ends with its last, each with its end marker. |
| Lines.WithPrefix | src/main/index.js:1337 | The selected lines carry the prefix and come from the list. |
| Lines.Count | src/main/index.js:1372 | The count is zero exactly when the line does not occur. |
| Shortcut.SanitizeChar | src/main/index.js:1238 | One character becomes one or two, because the pattern reads UTF-16 code units. |
| Shortcut.SanitizeName | src/main/index.js:1238 | The sanitised name is no shorter than the input and at most twice as long. |
| Shortcut.SanitizedIsSafe | src/main/index.js:1238-1270 | After sanitising, only letters, digits and `_` remain. |
| Shortcut.SanitizeBmp | src/main/index.js:1238 | On text within the Basic Multilingual Plane, each letter or digit is kept and every other character becomes `_`, one for one. |
| Shortcut.SanitizeAppend | src/main/index.js:1238 | Sanitising works character by character (it distributes over concatenation). |
| Shortcut.SanitizeSafe | src/main/index.js:1238 | A name of letters, digits and `_` is unchanged. |
| Shortcut.SanitizeIdempotent | src/main/index.js:1238-1270 | Sanitising twice is sanitising once. |
| Shortcut.DesktopPath | src/main/index.js:1293-1302 | The desktop path is never empty, even when the variable is unset. |
| Shortcut.FileName | src/main/index.js:1238-1270 | The launcher file name is never empty. |
| Shortcut.FileNameNoSeps | src/main/index.js:1238-1270 | A launcher file name holds no path separator. |
| Shortcut.FileOnDesktop | src/main/index.js:1234-1239 | The file lands directly in the desktop folder. The path is the desktop path, one separator, then the separator-free name. |
| Shortcut.FileNameExtension | src/main/index.js:1238-1270 | The file name ends with the platform's extension. |
| Shortcut.CreatedLauncher | src/main/index.js:1231-1290 | With no failure the handler reports a created file. The file ends with its extension, has `chmod +x` requested exactly off Windows, and holds that platform's content. |
| Shortcut.LauncherOnWindows | src/main/index.js:1236-1249 | Windows gets a `.bat` file holding the CRLF batch script, and no `chmod`. |
| Shortcut.LauncherOnMac | src/main/index.js:1251-1266 | darwin gets a `.command` file holding the LF shell script, with `chmod +x` requested. |
| Shortcut.LauncherElsewhere | src/main/index.js:1268-1283 | Any other platform gets a `.sh` file holding the shell script, with `chmod +x` requested. |
| Shortcut.FailuresReported | src/main/index.js:1231-1290 | A failing write is reported with its own message. The handler fails exactly when the write fails. |
| Shortcut.CreateTaskGroupShortcut | src/main/index.js:1231-1290 | The handler's result is the outcome the lemmas above describe. |
| Paths.JoinEndsWithName | src/main/index.js:1239-1271 | Joining a non-empty folder and a name that does not open with a separator puts the name last, after exactly one separator. |
| Paths.JoinEmpty | src/main/index.js:325 | An empty part leaves the other unchanged. |
| Paths.DropTrailingSeps | src/main/index.js:325 | The result is a prefix without a trailing separator. |
| Paths.DropLeadingSeps | src/main/index.js:325 | The result is a suffix without a leading separator. |
| Programs.StripExeKeepsUpperCase | src/main/index.js:327-329 | `APP.EXE` is recognised as an executable, but its extension is not removed. |
| Programs.StripExeFirstOnly | src/main/index.js:301-329 | Only the first `.exe` is removed. Text after it, including another `.exe`, is kept. |
| Programs.FirstExeAfterStem | src/main/index.js:329 | The first `.exe` of `stem.exe...` is right after a dot-free stem. |
| Programs.ProgramList.constructor | src/main/index.js:281 | A new list is empty. |
| Programs.ProgramList.Push | src/main/index.js:330-334 | Push appends one program at the end and changes nothing else. |
| Scanners.Walk | src/main/index.js:318-349 | The reference walk meets only files at depths from the start depth up to the bound minus one. |
| Scanners.ExePrograms | src/main/index.js:327-334 | The executables made from the files met carry the scanner's type and no `working` flag. There are at most as many as files. |
| Scanners.ExeScanIsWalk | src/main/index.js:318-349 | The scanner reports exactly the `.exe` files the depth-bounded walk meets, in walk order. The extra `currentDepth < maxDepth - 1` test never changes the outcome. |
| Scanners.ExeScanAtBound | src/main/index.js:319 | Nothing is read at or beyond `maxDepth`. |
| Scanners.ExeScanSources | src/main/index.js:318-349 | Every program reported comes from a `.exe` file within the depth bound. Its name is the file name without `.exe`, and its path is the file's path. |
| Scanners.ExeProgramsAppend | src/main/index.js:324-344 | Results of consecutive entries concatenate. |
| Scanners.ScanForExecutables | src/main/index.js:318-349 | The shared list grows by exactly the scan's result. |
| Scanners.ScanItemsForExecutables | src/main/index.js:324-344 | The loop over a listing appends each entry's finds in order. |
| Scanners.ScanEntryForExecutables | src/main/index.js:325-343 | One entry pushes its executable, or recurses into its directory. |
| Scanners.ScanDirectoryRecursively | src/main/index.js:318-349 | The list grows by the `executable` finds of the bounded scan. |
| Scanners.ScanDirectoryForPortableApps | src/main/index.js:752-781 | The list grows by the `portable-app` finds of a two-level scan. |
| Scanners.StartMenuScanIsWalk | src/main/index.js:352-389 | With no depth bound, the Start Menu scan classifies every file of the tree, in walk order. |
| Scanners.ShortcutFirst | src/main/index.js:359-367 | A name ending in `.lnk` is always a shortcut, with `.lnk` removed. |
| Scanners.ScanStartMenu | src/main/index.js:352-389 | The list grows by exactly the Start Menu scan's result. |
| Scanners.ScanStartMenuItems | src/main/index.js:356-385 | The loop appends each entry's finds in order. |
| Scanners.ScanStartMenuEntry | src/main/index.js:357-384 | A file pushes a shortcut or an executable. A directory recurses. |
| Popular.FirstAppDirNone | src/main/index.js:577-595 | The wildcard branch reports nothing exactly when no entry is an `app-` directory holding the file. |
| Popular.FirstHit | src/main/index.js:577-590 | The first hit's position has no hit before it. |
| Popular.FirstAppDirFirst | src/main/index.js:577-590 | Otherwise it reports the first hit's path, and only that one (the `break`). |
| Popular.SearchAppDirs | src/main/index.js:577-595 | The loop with its `break` computes the first hit. |
| Popular.PatternFinds | src/main/index.js:562-612 | One pattern yields at most one program. It is a `popular-app` of that name whose path exists. |
| Popular.SearchPattern | src/main/index.js:562-612 | The branch on `*` computes what one pattern yields. |
| Popular.AppFinds | src/main/index.js:561-617 | An application yields at most one program per pattern, each existing and named after it. |
| Popular.SearchApp | src/main/index.js:561-617 | The loop over an application's patterns collects their finds in order. |
| Popular.AllFinds | src/main/index.js:559-618 | Every program found is an existing `popular-app` named after an application of the table. |
| Popular.FindPopularApplications | src/main/index.js:501-627 | The result is every application's finds, in table order. |
| Popular.DiscordWildcardBase | src/main/index.js:512-567 | For the first Discord pattern, the base is `...\Discord\app-` and the file part is `\Discord.exe`. |
| Popular.PlainPathsAllFound | src/main/index.js:596-611 | Plain paths are tried one by one with no `break`. Every existing one is reported, in order. |
| Popular.SteamFoundTwice | src/main/index.js:596-611 | When both Steam paths exist, Steam is reported twice. |
| Popular.RegistryPrograms | src/main/index.js:293-307 | Sixteen `executable` entries, none marked working, whatever the registry holds. Each path is a listed file name, each path is its name followed by `.exe`, and no two names are equal. |
| Popular.CommonAppsStems | src/main/index.js:293-298 | Every listed file name is a stem followed by `.exe`, the stem having no further dot. |
| Popular.CommonAppsDistinct | src/main/index.js:293-298 | No file name is listed twice. |
| Popular.ModernAppName | src/main/index.js:442 | The name is the directory name up to its first `_`, with no `_` left in it. |
| Popular.FirstExe | src/main/index.js:434-453 | One app directory gives at most one modern app, from a `.exe` file in it. It gives none exactly when it holds no `.exe` file. |
| Popular.UserAppPrograms | src/main/index.js:482-498 | The user-app scan reports the `.exe` files directly in the directory, as modern apps, and nothing below it. |
| Dedup.PassDistinct | src/main/index.js:193-206 | A pass takes no name twice, and no name already seen. |
| Dedup.PassSubsequence | src/main/index.js:193-206 | A pass keeps input order. |
| Dedup.PassMembers | src/main/index.js:194-203 | A pass keeps input programs of its own tier only. |
| Dedup.PassCovers | src/main/index.js:193-206 | After a pass, every name of its tier is seen or taken. |
| Dedup.PassKeysFromInput | src/main/index.js:193-206 | Every name taken comes from an input program of the tier. |
| Dedup.PassFirstWins | src/main/index.js:193-206 | Each program a pass keeps is the first of its name in its tier. |
| Dedup.UniqueNamesDistinct | src/main/index.js:189-207 | No two results share a lower-cased name. |
| Dedup.UniquePopularFirst | src/main/index.js:192-206 | Every `popular-app` comes before every other program. |
| Dedup.UniqueFromInput | src/main/index.js:189-207 | Results are input programs, each tier in input order. |
| Dedup.UniqueKeepsEveryName | src/main/index.js:189-207 | Every input name is represented, and no other. |
| Dedup.UniqueFirstWins | src/main/index.js:189-207 | Within each tier the first program of a name wins. |
| Dedup.RemoveDuplicates | src/main/index.js:189-207 | The two loops compute `Unique`. |
| Dedup.KeepPopularFirst | src/main/index.js:192-199 | The first loop keeps the popular pass, and `seenNames` holds exactly its names. |
| Dedup.KeepTheRest | src/main/index.js:201-207 | The second loop appends the other pass, skipping names already seen. |
| Working.WhereFirstLine | src/main/index.js:844-847 | `where` gives nothing exactly when its trimmed output is empty. Otherwise it gives the non-empty first line of the trimmed output. |
| Working.FirstExisting | src/main/index.js:860-870 | The first existing path of the list, and nothing only when none exists. |
| Working.AlternativePathSpec | src/main/index.js:837-871 | `where`'s answer wins when non-empty, else the first existing install location. Nothing is found exactly when both fail. |
| Working.FindAlternativePath | src/main/index.js:837-871 | The loop over the install locations computes the alternative path. |
| Working.WorkingEntry | src/main/index.js:790-825 | One program contributes at most one entry. |
| Working.WorkingPrograms | src/main/index.js:784-834 | The output is no longer than the input. |
| Working.WorkingAppend | src/main/index.js:790-826 | The rewrite works program by program. |
| Working.OthersUnchanged | src/main/index.js:822-825 | Programs other than popular apps pass through unchanged and in order. |
| Working.PopularKeptWorking | src/main/index.js:791-818 | Every kept popular app has `working` set. Its path exists, or it is the alternative found for its name. |
| Working.NothingDroppedIff | src/main/index.js:784-834 | Nothing is dropped exactly when every popular app has an existing path or an alternative. |
| Working.WorkingEntryOf | src/main/index.js:791-825 | The loop body computes one program's entry. |
| Working.CreateWorkingShortcuts | src/main/index.js:784-834 | The loop computes `WorkingPrograms` with the alternative search. |
| Windows.Arranged | src/main/index.js:990-1093 | No window is added or removed. |
| Windows.WindowRegistry.constructor | src/main/index.js:990-993 | The registry starts from the given bounds. |
| Windows.WindowRegistry.Place | src/main/index.js:1001-1008 | A registered slot gets the new bounds. An unregistered one is skipped. |
| Windows.WindowRegistry.ArrangeWindows | src/main/index.js:990-1093 | The new bounds are the old ones with the layout applied to registered slots. |
| Windows.WindowRegistry.ArrangeQuadrants | src/main/index.js:1047-1091 | The quadrant case applies the quadrant layout. |
| Windows.ArrangedNothing | src/main/index.js:994-1092 | An empty layout moves nothing. |
| Windows.ArrangedPlace | src/main/index.js:1001-1018 | A layout can be applied one slot at a time. |
| Windows.ArrangedSpec | src/main/index.js:994-1092 | Registered slots of the arrangement get their rectangle, and other windows keep theirs. An unknown arrangement changes nothing. |
| Windows.SplitHorizontal | src/main/index.js:995-1019 | Left is (x, y, ⌊w/2⌋, h) and right is (x+⌊w/2⌋, y, ⌊w/2⌋, h). They do not overlap. |
| Windows.SplitVertical | src/main/index.js:1021-1045 | Top and bottom halves of height ⌊h/2⌋ that do not overlap. |
| Windows.QuadrantSizes | src/main/index.js:1047-1050 | Four quadrants, each ⌊w/2⌋ by ⌊h/2⌋. |
| Windows.QuadrantsDisjoint | src/main/index.js:1052-1090 | No two quadrants overlap. |
| Windows.QuadrantsInside | src/main/index.js:1052-1090 | On a non-negative area every quadrant lies inside it. |
| TaskResults.CountWhere | src/main/index.js:1111-1112 | A count never exceeds the number of results. |
| TaskResults.CountsPartition | src/main/index.js:1111-1112 | Successes plus failures equal the number of results. |
| TaskResults.NoFailureIff | src/main/index.js:1112 | No failure is counted exactly when every task succeeded. |
| TaskResults.SummaryOpens | src/main/index.js:1116 | The message opens with `Executed <n> tasks successfully`. |
| TaskResults.SummaryAllSucceeded | src/main/index.js:1116 | With no failure, the message names every task as a success and nothing more. |
| TaskResults.SummaryReportsFailures | src/main/index.js:1116 | With failures, the message ends with `<failed> failed`. |
| Tasks.LoadTasks | src/main/index.js:1133-1175 | A readable file gives its tasks. Otherwise the four seed tasks, with ids 1 to 4. |
| Tasks.DefaultTasksShape | src/main/index.js:1138-1173 | The seed holds two apps, a website and a command, each with a description and a category. |
| Translations.Property | src/renderer/src/translations/index.js:216 | Property lookup is absent exactly when no entry has the key, and otherwise gives the value of the last entry with that key, as a duplicated key in an object literal does. |
| Translations.GetTranslation | src/renderer/src/translations/index.js:215-217 | The answer is the key itself or a non-empty text one of the two tables gives for the key. When English has non-empty text, a table's text is served. When the language is `ar` and Arabic has non-empty text, the Arabic text is served. |
| Translations.GetTranslationNonEmpty | src/renderer/src/translations/index.js:216 | A non-empty key never translates to the empty string. |
| Translations.UnknownLanguageIsEnglish | src/renderer/src/translations/index.js:215-216 | A language without a table, or an omitted one, behaves as `en`. |
| Translations.PresentKeyYieldsOwnEntry | src/renderer/src/translations/index.js:216 | A key present in the requested table always yields that table's entry. |
| Translations.ArabicKeysAreEnglishKeys | src/renderer/src/translations/index.js:2-212 | Every key of the `ar` table is a key of the `en` table. |
| Translations.TablesMatch | src/renderer/src/translations/index.js:2-212 | The `ar` table lists exactly the `en` keys, in the same order, and neither holds an empty value. |
| Translations.MatchingAppend | src/renderer/src/translations/index.js:2-212 | Matching sections concatenate to matching tables. |
| Translations.AppHeaderMatches | src/renderer/src/translations/index.js:109-112 | The Arabic app-header section matches the English one. |
| Translations.TaskManagementMatches | src/renderer/src/translations/index.js:113-121 | The task-management sections match. |
| Translations.TaskTypesMatches | src/renderer/src/translations/index.js:122-129 | The task-type sections match. |
| Translations.TaskFormMatches | src/renderer/src/translations/index.js:130-136 | The task-form sections match. |
| Translations.MultiTaskExecutionMatches | src/renderer/src/translations/index.js:137-141 | The multi-task execution sections match. |
| Translations.TaskGroupsMatches | src/renderer/src/translations/index.js:142-153 | The task-group sections match. |
| Translations.MultiTaskCreationMatches | src/renderer/src/translations/index.js:154-162 | The multi-task creation sections match. |
| Translations.WindowArrangerMatches | src/renderer/src/translations/index.js:163-174 | The window-arranger sections match. |
| Translations.ProgramPickerMatches | src/renderer/src/translations/index.js:175-185 | The program-picker sections match. |
| Translations.MessagesMatches | src/renderer/src/translations/index.js:186-194 | The message sections match. |
| Translations.ProgramTypesMatches | src/renderer/src/translations/index.js:195-203 | The program-type sections match. |
| Translations.CommonActionsMatches | src/renderer/src/translations/index.js:204-207 | The common-action sections match. |
| Translations.LanguageMatches | src/renderer/src/translations/index.js:208-211 | The language sections match. |
| App.Replaced | src/renderer/src/App.jsx:65-68 | Length is kept. Exactly the tasks whose id equals the updated id are replaced. |
| App.FailedSaveKeepsTasks | src/renderer/src/App.jsx:39-48 | A rejected save call keeps the list and the form, and shows the save error, for add, update and delete alike. |
| App.LoadTasks | src/renderer/src/App.jsx:29-37 | A loaded list replaces the tasks and leaves the message alone. A failed load keeps the tasks and shows `errorLoadingTasks`. The form is untouched either way. |
| App.SaveTasks | src/renderer/src/App.jsx:39-49 | Reports success exactly when the call is not rejected. On success the list becomes the saved list, otherwise it is kept and the save error is shown. The form is untouched. |
| App.AddTask | src/renderer/src/App.jsx:51-63 | Unless the save is rejected, the list gains the stamped task at its end, the form closes and `taskAdded` is shown. A rejected save keeps the list and the form open. The task being edited and the language never change. |
| App.UpdateTask | src/renderer/src/App.jsx:65-75 | The length is kept. Unless the save is rejected, the tasks with the updated id are replaced, editing ends and `taskUpdated` is shown; otherwise nothing but the message changes. The form's visibility and the language never change. |
| App.DeleteTask | src/renderer/src/App.jsx:77-84 | The list never grows. Unless the save is rejected, exactly the tasks with another id remain and `taskDeleted` is shown; otherwise nothing but the message changes. The form, the task being edited and the language never change. |
| App.FirstLoadShowsSeed | src/renderer/src/App.jsx:29-33 | Loading from a missing tasks file shows the four sample tasks, with ids `1` to `4`. |
| App.WriteFailureShownAsSuccess | src/renderer/src/App.jsx:39-49 | A failed disk write that resolves `{success: false}` acts exactly like a write that succeeded: add, update and delete change the list and show their success message. |
| App.CheckedSaveTasks | src/renderer/src/App.jsx:39-49 | The corrected save succeeds exactly when the file was written. Only then does the list change; otherwise the save error is shown. |
| App.CheckedAddOnlyWhenWritten | src/renderer/src/App.jsx:51-63 | With the corrected save, an add grows the list by one exactly when the file was written. Otherwise the list is kept and the save error is shown. |
| App.AddTaskAppends | src/renderer/src/App.jsx:51-62 | A successful add appends one task, the submitted one with a fresh id, after the unchanged list. It then closes the form and shows `taskAdded`. |
| App.AddTaskSaved | src/renderer/src/App.jsx:51-57 | A saved add extends the list by the stamped task. |
| App.ReplaceNoMatch | src/renderer/src/App.jsx:66-68 | An id that matches nothing leaves the list unchanged. |
| App.EditWithoutIdChangesNothing | src/renderer/src/App.jsx:65-69 | An edited task without id, on a list whose tasks have ids, changes nothing. |
| App.ReplaceIdempotent | src/renderer/src/App.jsx:66-68 | Replacing twice is replacing once. |
| App.DeleteAllAndOnly | src/renderer/src/App.jsx:77-78 | Delete keeps, in order, exactly the tasks with another id. |
| App.DeleteUndoesAdd | src/renderer/src/App.jsx:51-78 | Deleting a just-added task with a new id restores the old list. |
| App.AsWrittenKeepsLastOnly | src/renderer/src/App.jsx:51-63 | With several rows submitted in one event, only the last row reaches the list. |
| App.AsWrittenLosesARow | src/renderer/src/App.jsx:51-63 | Two valid rows submitted together add one task, not two. |
| App.Stamped | src/renderer/src/App.jsx:52-55 | Each row is stamped with its own clock reading. |
| App.AddEachAppendsAll | src/renderer/src/App.jsx:51-63 | When the state is threaded, every row is added in order with its own id, after the unchanged list. |
| TaskList.Toggle | src/renderer/src/components/TaskList.jsx:25-33 | The id's membership flips, and every other id keeps its membership. |
| TaskList.HandleTaskSelect | src/renderer/src/components/TaskList.jsx:25-33 | Copying the set and then deleting or adding the id is the toggle. |
| TaskList.ToggleTwice | src/renderer/src/components/TaskList.jsx:25-33 | Toggling twice restores the selection. |
| TaskList.SelectAll | src/renderer/src/components/TaskList.jsx:35-37 | Exactly the ids of the listed tasks. |
| TaskList.ClearSelection | src/renderer/src/components/TaskList.jsx:39-41 | The empty selection. |
| TaskList.SelectedTasksSpec | src/renderer/src/components/TaskList.jsx:48 | The selected tasks are exactly the listed tasks with a selected id, in list order. |
| TaskList.RunMultiple | src/renderer/src/components/TaskList.jsx:43-51 | Nothing is run exactly when the selection is empty. |
| TaskList.RunAllRunsEverything | src/renderer/src/components/TaskList.jsx:35-51 | Selecting all runs the whole list in order. |
| TaskList.SaveAsTaskGroupSpec | src/renderer/src/components/TaskList.jsx:66-82 | A blank trimmed name or an empty selection is refused with no change. Otherwise one group with the trimmed name and the selected tasks in list order is appended, with `Date.now()` printed in decimal as its id and the ISO time as `createdAt`; the name and selection are cleared and the groups panel closes. |
| TaskList.LoadTaskGroup | src/renderer/src/components/TaskList.jsx:84-88 | The selection becomes exactly the ids of the group's tasks and the groups panel closes. The groups and the name are untouched. |
| TaskList.IdsAppend | src/renderer/src/components/TaskList.jsx:85 | The ids of a concatenation are the union of the ids. |
| TaskList.SelectedIds | src/renderer/src/components/TaskList.jsx:48-85 | The ids of the selected tasks are the selected ids that some listed task carries. |
| TaskList.SaveThenLoad | src/renderer/src/components/TaskList.jsx:66-88 | Saving a group and loading it back gives the selection, less ids no task carries. |
| TaskList.DeleteTaskGroupSpec | src/renderer/src/components/TaskList.jsx:90-93 | Delete keeps, in order, exactly the groups with another id. |
| TaskForm.HandleMultiTaskChange | src/renderer/src/components/TaskForm.jsx:43-55 | Length is kept. Only row `index` changes, by that field. |
| TaskForm.SetFieldOnly | src/renderer/src/components/TaskForm.jsx:48-51 | Only the named field changes. |
| TaskForm.AddMultiTask | src/renderer/src/components/TaskForm.jsx:57-63 | One default row is appended after the unchanged rows. |
| TaskForm.WithoutIndex | src/renderer/src/components/TaskForm.jsx:67 | Exactly row `index` is removed. An out-of-range index removes nothing. |
| TaskForm.RemoveMultiTask | src/renderer/src/components/TaskForm.jsx:65-69 | The list never drops below one row. Otherwise exactly one row is removed. |
| TaskForm.ClearMultiTasks | src/renderer/src/components/TaskForm.jsx:71-77 | One default row. |
| TaskForm.ToTasks | src/renderer/src/components/TaskForm.jsx:93-100 | Each row is converted in place. |
| TaskForm.SubmitEach | src/renderer/src/components/TaskForm.jsx:93-100 | The `forEach` submits each valid row once, in order. |
| TaskForm.HandleSubmit | src/renderer/src/components/TaskForm.jsx:79-121 | The handler computes the submission. |
| TaskForm.UnnamedNeverUsed | src/renderer/src/components/TaskForm.jsx:84-96 | A valid row's trimmed name is never blank, so the `unnamedTask` fallback is dead. |
| TaskForm.MultiSubmitSpec | src/renderer/src/components/TaskForm.jsx:82-104 | With no valid row, submit is refused with an alert and no change. Otherwise each valid row is submitted once, trimmed and without id, and the form resets to one default row in single mode. |
| TaskForm.MultiSubmitKeepsValidRows | src/renderer/src/components/TaskForm.jsx:84-86 | Only valid rows are kept, in their order. |
| TaskForm.SingleSubmitSpec | src/renderer/src/components/TaskForm.jsx:105-120 | A blank trimmed name or command is refused with an alert. Otherwise one trimmed task without id is submitted and the form resets. |
| ProgramPicker.MatchesIff | src/renderer/src/components/ProgramPicker.jsx:64-67 | A program matches exactly when the lower-cased term occurs in its lower-cased name or path. |
| ProgramPicker.FilterSpec | src/renderer/src/components/ProgramPicker.jsx:64-67 | A program is listed if and only if it matches. The listing is an order-preserving subsequence. |
| ProgramPicker.EmptySearchKeepsAll | src/renderer/src/components/ProgramPicker.jsx:64-67 | An empty search lists every program. |
| ProgramPicker.PickedFromList | src/renderer/src/components/ProgramPicker.jsx:52-67 | Picking any entry of the searched list forwards the path of a listed program that matches the search. |
| ProgramPicker.KindsAppend | src/renderer/src/components/ProgramPicker.jsx:144 | Adding a program adds its type to the set of types. |
| ProgramPicker.TypeCountBounds | src/renderer/src/components/ProgramPicker.jsx:144 | The type count is at most the number of programs, and zero only for an empty list. |
| ProgramPicker.OneKindOneType | src/renderer/src/components/ProgramPicker.jsx:144 | Programs of one type count one type. |
| Text.TrimSpec | src/main/index.js:1307 | `trim` keeps a slice of the input and removes only whitespace around it. Neither end of the result is whitespace. |
| Text.TrimEmptyIff | src/renderer/src/components/TaskForm.jsx:85 | A trim is empty exactly when every character is whitespace. |
| Text.TrimIdempotent | src/main/index.js:1307-1312 | Trimming twice is trimming once. |
| Text.TrimUntouched | src/main/index.js:1312 | A string without whitespace at its ends is its own trim. |
| Text.IndexOf | src/main/index.js:1309-1316 | `indexOf` gives the first occurrence at or after `from`, or -1 when there is none. |
| Text.IndexOfFirst | src/main/index.js:1309 | The first occurrence is the one `indexOf` finds. |
| Text.ContainsIff | src/renderer/src/components/ProgramPicker.jsx:65-66 | `includes` holds exactly when the pattern occurs somewhere. |
| Text.ReplaceFirst | src/main/index.js:301-329 | Only the leftmost, case-sensitive occurrence is replaced. |
| Text.BeforeChar | src/main/index.js:442 | `split(c)[0]` is a prefix without `c`, followed in the input by `c` when shorter. |
| Text.SplitAtFirst | src/main/index.js:566-567 | Splitting `pre + c + post` gives `pre` first, and `post` second when it holds no `c`. |
| Text.NatToString | src/main/index.js:1331-1337 | Decimal digits, at least one, with no leading zero, whose decimal value is the number printed. |
| Text.NatToStringInjective | src/main/index.js:1337 | Two numbers print the same text exactly when they are equal, so distinct counters give distinct banners. |
| Text.Pad2Spec | src/main/index.js:1337-1405 | `padStart(2, '0')` keeps the text as its tail and adds only zeros, up to two characters. |
| Seqs.FilterIsSubsequence | src/renderer/src/App.jsx:78 | `filter` keeps an order-preserving subsequence. |
| Seqs.FilterKeepsAll | src/renderer/src/components/ProgramPicker.jsx:64-67 | A filter that keeps everything changes nothing. |
| Shortcut.ShortcutOutcome | src/main/index.js:1231-1290 | No contract of its own: the handler's reference definition. `Shortcut.CreateTaskGroupShortcut`, `Shortcut.CreatedLauncher` and `Shortcut.FailuresReported` state its properties. |
| Windows.Layout | src/main/index.js:994-1092 | No contract of its own: the three arrangements' target rectangles. `Windows.SplitHorizontal`, `Windows.SplitVertical` and the quadrant lemmas state their geometry. |
| BatchScript.StartLine | src/main/index.js:1346-1352 | No contract of its own: the `start` line. `BatchScript.StartLineShape` states its form. |
| BatchScript.BatchLines | src/main/index.js:1321-1385 | No contract of its own: the batch file's lines. `BatchScript.BatchLinesParts` and `BatchScript.BatchFileTasks` state their layout. |
| ShellScript.ShellLines | src/main/index.js:1387-1459 | No contract of its own: the shell script's lines. `ShellScript.ShellScriptFraming` and `ShellScript.ShellScriptSleeps` state their layout. |
| Popular.PopularApps | src/main/index.js:508-552 | No contract of its own: the six known applications and their candidate paths, with unset variables reading as `undefined`. |
| Popular.FirstAppDir | src/main/index.js:577-595 | No contract of its own: the wildcard search. `Popular.FirstAppDirNone` and `Popular.FirstAppDirFirst` state what it finds. |
| Working.AlternativePath | src/main/index.js:837-871 | No contract of its own: `findAlternativePath`. `Working.AlternativePathSpec` states what it answers. |
| Dedup.Pass | src/main/index.js:193-206 | No contract of its own: one loop of the duplicate removal. The `Dedup.Pass…` lemmas state its properties. |
| Dedup.Unique | src/main/index.js:189-207 | No contract of its own: the duplicate removal. The `Dedup.Unique…` lemmas state its properties. |
| TaskList.SaveAsTaskGroup | src/renderer/src/components/TaskList.jsx:66-82 | No contract of its own: `TaskList.SaveAsTaskGroupSpec` states what it does. |
| TaskList.DeleteTaskGroup | src/renderer/src/components/TaskList.jsx:90-93 | No contract of its own: `TaskList.DeleteTaskGroupSpec` states what it does. |
| TaskForm.Submit | src/renderer/src/components/TaskForm.jsx:79-121 | No contract of its own: `handleSubmit`. `TaskForm.HandleSubmit` computes it and the submit lemmas state what it passes on. |
| TaskResults.Summary | src/main/index.js:1116 | No contract of its own: the message text. The `TaskResults.Summary…` lemmas state its form. |
| ProgramPicker.FilteredPrograms | src/renderer/src/components/ProgramPicker.jsx:64-67 | No contract of its own: the search filter. `ProgramPicker.FilterSpec` states what it keeps. |

## Left out

- File system, processes and environment. `fs.access`, `fs.readdir`,
  `fs.readFile`, `fs.writeFile`, `exec` (`where`, `chmod`), `spawn` and
  `process.env` are oracles or parameters. The real calls and their timing are not
  modelled.
- `executeCommand` and the `execute-task` handler (src/main/index.js:909-980,
  1096-1104). Spawning a process is an effect. Only the counting of settled results
  in `execute-multiple-tasks` is modelled (`TaskResults`). `Promise.allSettled`
  concurrency is out.
- `getInstalledPrograms` as a whole (src/main/index.js:52-277). The model covers its
  parts: scanners, popular apps, registry list, modern-app and user-app rules,
  duplicate removal and the working-shortcut rewrite. It does not cover the
  per-platform orchestration or the order in which the parts run. The fixed
  search-path lists of `getCommonProgramPaths` and `getModernWindowsApps` are also
  out.
- `getModernWindowsApps`'s outer loops over its three fixed roots. Only the
  per-directory rule is modelled (`Popular.FirstExe`, `Popular.ModernAppName`).
- `findDiscordDirectly`, `scanUserFolders`, `browseForExecutable`, and the darwin
  and linux discovery branches. They are file-system probing and a native dialog,
  with no decision logic beyond what the scanners already show.
- The `load-tasks` and `save-tasks` file I/O and JSON parsing. `Tasks.LoadTasks`
  takes the parsed result as an input.
- Electron lifecycle, `BrowserWindow`, IPC wiring, `setTimeout` message clearing,
  `localStorage`, `setLanguage`'s reload, the `useEffect` hooks, logging and all JSX
  rendering.
- `loadPrograms` and `handleBrowse` in `ProgramPicker.jsx`. They only call IPC and
  set state.
- Windows.WindowRegistry.ArrangeWindows: one window registered under two slots
  (aliasing) is not modelled. The registry maps each slot to its own bounds.
- Paths.Join: models `path.join` of two parts as trimming separators at the seam
  and inserting one. Normalisation of `.` and `..`, and of repeated separators
  inside a part, is not modelled; nor is the win32 conversion of every `/` in
  the parts to `\`, so a part holding `/` keeps it in the model.
- Text.ToLower: folds ASCII letters only. Unicode case mapping is not modelled.
- Working.WhereFirstLine: the first line keeps any `\r` of Windows output, as the
  source does, because it splits on `\n` only. The model does not say what `where`
  prints.
- TaskForm.HandleMultiTaskChange: requires an index of an existing row. The form
  only calls it with one, and an out-of-range index is not modelled.
- Scanners.Walk: the Start Menu scan has no depth bound. Its equality with the walk
  (`Scanners.StartMenuScanIsWalk`) is stated for any bound deeper than the tree. The
  tree is a finite value, so a directory reached again through a link is not
  modelled.
- BatchScript.SplitCommandAndArgs, BatchScript.GenerateBatchFile and
  ShellScript.GenerateShellScript: task fields are always strings. A task whose
  command or name is missing (`undefined` in JavaScript) is not modelled; the
  source then splits an empty command and writes the text `undefined` into the
  file.
- Translations.Property: looks up the table's own keys only. A JavaScript object
  also answers inherited keys such as `constructor`, so `getTranslation` then
  returns a function; that case is not modelled.
- BatchScript.BatchFileTasks and ShellScript.ShellScriptSleeps count elements of
  the list of lines. A task name or command holding a line break adds further
  lines to the written file, which these counts do not cover.
- App.SaveTasks: the `{success: false}` that the `save-tasks` handler resolves on
  a failed write (src/main/index.js lines 1177-1185) is ignored, as in the source;
  see Findings.
- The timestamp texts and `Date.now()` are parameters, so ids are not shown to be
  unique. `App.DeleteUndoesAdd` states its property under the assumption that the
  id is new.

## Findings

| source | as written | input that shows it | evidently intended | confidence | as-written member | corrected member |
|---|---|---|---|---|---|---|
| src/renderer/src/App.jsx:51-63 | The multi-row submit (src/renderer/src/components/TaskForm.jsx lines 93-100) calls `onSubmit`, which is `addTask`, once per valid row in one event handler. Each call builds `[...tasks, newTask]` from the same rendered `tasks`, and each `setTasks` overwrites the last, so only the last row survives, assuming the saves resolve in submission order. | Two valid rows `a` and `b` on a list `L`. The list ends as `L + [b]`, with one task added instead of two. | Each row is appended to the list the previous one produced, so the list ends as `L + [a, b]`. | not executed | App.AsWrittenLosesARow | App.AddEachAppendsAll |
| src/renderer/src/App.jsx:39-49 | `saveTasks` only catches a rejected call. The `save-tasks` handler (src/main/index.js lines 1177-1185) catches a failed write itself and resolves `{success: false}`, which `saveTasks` never reads, so it replaces the list and reports success. | The disk write fails while adding a task. The list shows the new task and `taskAdded`, though nothing was saved. | Read the resolved `success`: keep the list and show `errorSavingTasks` when the write failed. | not executed | App.WriteFailureShownAsSuccess | App.CheckedAddOnlyWhenWritten |
