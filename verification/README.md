# lswin — window listing filter, rendering and exit code

This project models the core of `lswin`, a small macOS utility. It lists the on-screen windows,
optionally keeps only one window id, prints each kept window in one of three formats, and exits with
a status that says whether a restricted query found anything.

The model is functional. Each enumerated window is an immutable `WindowRecord`. The per-window
callback `PrintWindow` is a pure function from a context and a window to a new context plus the
items it emits. The enumeration is a left fold of that callback over the platform's window list. The
exit code is a pure function of the final count, the title pattern and the id filter.

Modules:

- `Decimal` (`decimal.dfy`): the C `%d` rendering of integers, and a parser that reads it back.
- `Windows` (`windows.dfy`): the window record, and the abstract JSON object built for each window.
- `Render` (`render.dfy`): the display-mode precedence, the brief and long lines, and their parsers.
- `LsWin` (`lswin.dfy`): the context, the callback, the fold, the reference filter and the exit code.
- `Cli` (`cli.dfy`): the initial context, the option events, the whole run and worked examples.
- `Wrappers` (`wrappers.dfy`): `Option`.

Modelling assumptions:

- `jsonMode` is never initialised in `main` (lswin.c:123-125). The model's `Cli.InitialCtx` takes it
  to start false. `Cli.StartAsWritten` keeps the indeterminate value as a parameter (see Findings).
- The title-pattern filter belongs to the platform enumeration (winutils.c is not part of this
  model). `Cli.Run` therefore takes the enumeration as a function from the optional pattern to the
  window list it yields, in platform order.
- The screen-recording authorisation check is a boolean input. When it fails, the run exits 1 with
  no standard output.
- Options arrive as already-tokenised `getopt` events. `-i`'s argument arrives already converted.
- `-h` writes the full usage text to standard output. That is modelled as one `Text` item.
- When the long and JSON flags are both set, JSON wins, because the source tests it first.

## Model

| member | source | states |
|---|---|---|
| Decimal.IntToString | lswin.c:97-102 | `%d` text is canonical: an optional minus sign, then digits with no leading zero (never "-0"), and it starts with `-` exactly for negative values |
| Decimal.IntRoundTrip | lswin.c:97-102 | parsing the `%d` text of any integer gives that integer back |
| Decimal.IntToStringInjective | lswin.c:97-102 | two integers with the same `%d` text are equal |
| Decimal.CanonicalIsPrinted | lswin.c:97-102 | conversely, a canonical text that parses to `n` is exactly the `%d` text of `n` |
| Windows.JsonOf | lswin.c:74-85 | the JSON object carries all eight window fields (appName, windowName, title, windowId, size.height, size.width, position.x, position.y); reading it back gives the window |
| Render.ModeOf | lswin.c:91-103 | JSON mode exactly when the JSON flag is set; long exactly when JSON is off and the long flag is on; brief exactly when both are off |
| Render.BriefLine | lswin.c:101-102 | the brief line is a canonical decimal and a final newline, with nothing else, and it reads back as the window id |
| Render.LongFormatIsJoin | lswin.c:94-100 | the `"%s - %s %d %d %d %d %d\n"` layout is the head "title - appName" joined with the five numeric columns, each after one space, then a newline |
| Render.JoinFieldsCanonical | lswin.c:94-100 | every numeric column of such a join is in canonical `%d` form |
| Render.ParseJoinRoundTrip | lswin.c:94-100 | reading the space-separated numbers off the right of such a join gives back the head and the numbers |
| Render.ParseFieldsConverse | lswin.c:94-100 | conversely, text whose last columns are canonical and read back as a head and numbers is exactly that head joined with those numbers |
| Render.LongLine | lswin.c:94-100 | the long line is exactly the head "title - appName" joined with the id, x, y, width and height as canonical `%d` columns, then a newline; it reads back as that head and those five numbers, whatever spaces the title and application name contain |
| Render.LongLineConverse | lswin.c:94-100 | a line whose five columns are canonical and which reads back as a window's head and numbers is exactly the join `LongLine` produces for that window, so no other text (leading zeros, "-0", extra spaces) reads back as it |
| Render.EmptyAppNameKeepsSpaces | lswin.c:94-100 | with an empty application name the head is the title and " - ", and the first column adds its own space, so both spaces around the name stay |
| Render.RenderWindow | lswin.c:91-103 | the item is a JSON object exactly in JSON mode, and it then decodes to the window; in brief mode it reads back as the id; in long mode it reads back as the head and the five numbers |
| LsWin.PrintWindow | lswin.c:90-105 | a window passing the id filter (-1 or equal id) emits exactly one item in the context's mode and raises the count by one; any other window emits nothing and leaves the context unchanged |
| LsWin.Enumerate | lswin.c:90-105 | across the whole list, only the count changes in the context, and it grows by exactly the number of items emitted, with at most as many items as windows |
| LsWin.Selected | lswin.c:90 | the reference filter keeps only windows passing the id filter, and keeps every such window |
| LsWin.EnumerateRendersSelection | lswin.c:90-105 | the output is the in-order rendering of the selected windows and nothing else; the count grows by the number selected |
| LsWin.UnfilteredSelectsAll | lswin.c:90 | with id -1, every enumerated window is selected |
| LsWin.AbsentIdSelectsNothing | lswin.c:90 | an id no window has selects nothing |
| LsWin.UniqueIdSelectsOne | lswin.c:90 | an id exactly one window has selects exactly that window |
| LsWin.CountUnfiltered | lswin.c:90-104 | with id -1, the count grows by the number of enumerated windows |
| LsWin.JsonModeEmitsOnlyObjects | lswin.c:91-92 | in JSON mode the output is one JSON object per selected window, back to back, with no separator or newline |
| LsWin.ExitStatus | lswin.c:157 | exit code is 0 exactly when something was found, or there was no pattern and no id filter; otherwise 1 |
| Cli.InitialCtx | lswin.c:123-125 | the context starts with id -1, count 0, brief display |
| Cli.ApplyOption | lswin.c:127-144 | `-h` stops with 0; a missing argument or an illegal option stops with 1; `-j`, `-l` and `-i` go on, and never touch the count |
| Cli.ParseOptions | lswin.c:126-145 | option handling either stops with 0 or 1, or goes on with the count untouched |
| Cli.ParseOptionsProceeds | lswin.c:126-145 | without a stopping option, the JSON and long flags are set exactly when given, and the id is the last `-i` value, or the start id when there is none |
| Cli.ParseOptionsStops | lswin.c:126-145 | the first stopping option decides the exit code (0 for help, 1 otherwise), whatever follows it |
| Cli.PatternOf | lswin.c:146-148 | the pattern is the first operand, and absent exactly when there are no operands |
| Cli.RunFrom | lswin.c:113-157 | every run exits 0 or 1 |
| Cli.Run | lswin.c:113-157 | every run from the initialised context exits 0 or 1 |
| Cli.StartAsWritten | lswin.c:123-125 | the context as written: id -1, count 0, long off, `jsonMode` indeterminate |
| Cli.UninitialisedJsonModeExample | lswin.c:123-129 | with a leftover nonzero `jsonMode`, a run with no options prints a JSON object instead of the id line |
| Cli.NoJsonWithoutFlag | lswin.c:123-129 | from the initialised context, without `-j`, the display mode is never JSON |
| Cli.HelpExitsBeforeEnumeration | lswin.c:131-133 | `-h` prints the help text and exits 0 with no enumeration, unless an earlier option already failed |
| Cli.BadOptionExitsOne | lswin.c:140-143 | a missing argument or an illegal option exits 1 with no standard output, unless an earlier option already stopped |
| Cli.RunReportsSelection | lswin.c:148-157 | an authorised run prints the selected windows in order; it exits 0 exactly when some window passed the id filter, or the query was unrestricted |
| Cli.UnauthorizedExitsOne | lswin.c:151 | a failed authorisation check exits 1 with no standard output |
| Cli.FinderBriefExample | lswin.c:101-104 | one window with id 7 and no options prints "7\n" and exits 0 |
| Cli.EmptyDesktopExamples | lswin.c:157 | no windows and no query exits 0; no windows with `-i 5` exits 1 |
| Cli.UntitledLongExample | lswin.c:94-100 | a window titled "Untitled" with no application name, id 3, at (10, 20), 640 by 480, prints "Untitled -  3 10 20 640 480\n" |

## Left out

- Window enumeration (`EnumerateWindows`) and title-pattern matching are platform code in winutils.c, which is not part of this model. They are a function input to `Cli.Run`.
- `windowTitle` (title composition) is in winutils.c, which is not part of this model. The title is a field of the window record.
- The CoreFoundation dictionary getters and `CGWindowGetPosition`/`CGWindowGetSize` are platform calls. Their results are the record's fields.
- The float-to-int truncation of position and size (lswin.c:82-85, 98-99) is floating point. Coordinates are taken as integers.
- The serialised JSON bytes produced by parson (lswin.c:86-87, 92) are library behaviour. The JSON item is an abstract object with the eight fields set at lines 78-85. The unused pretty serialisation is not modelled.
- `getopt` tokenisation and `atoi` (lswin.c:126, 138) are library behaviour. The model takes their already-parsed events.
- `isAuthorizedForScreenRecording` is a platform call. Its answer is a boolean input. The text of its `DIE` message on standard error is not modelled.
- Standard-error text (the usage line after an option error, and the diagnostics) is not modelled. Only the exit code is.
- Memory management (`free`, `json_value_free`) has no observable effect on the modelled output.
- LsWin.Enumerate: the count is an unbounded `nat`, so the C `int` overflow of `numFound++` after 2^31 matches is not modelled. Likewise, ids and coordinates are unbounded integers rather than C `int`.
- A `NULL` name from the dictionary getter (which parson would skip, and `printf("%s")` would not print safely) is not modelled. Names are always strings, possibly empty.

## Findings

| source | as written | input that shows it | evidently intended | confidence | as-written member | corrected member |
|---|---|---|---|---|---|---|
| lswin.c:123-125 | `ctx.jsonMode` is never initialised before the option loop; only `-j` sets it | no options, one window, with the stack slot of `jsonMode` holding a nonzero value | `jsonMode` starts at 0 like `longDisplay`, so the default display is brief | medium, not executed (the value of an uninitialised automatic variable depends on the compiler and the stack) | Cli.UninitialisedJsonModeExample | Cli.NoJsonWithoutFlag |
