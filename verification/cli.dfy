/** The `lswin` entry point: the context's starting values, the effect of each
    command-line option on it, the authorisation gate, the enumeration and the
    exit code. Options arrive already tokenised, one event per option `getopt`
    reports for the option string ":jhli:". */
module Cli {

  import opened Wrappers
  import opened Decimal
  import opened Windows
  import opened Render
  import opened LsWin

  const Usage: string := "usage: lswin [-h] [-l] [-j] [-i id] [title]\n"

  /** The help text `-h` writes to standard output. */
  const FullUsage: string := Usage
    + "    -h       display this help text and exit\n"
    + "    -l       long display, include window ID column in output\n"
    + "    -j       json output mode\n"
    + "    -i id    show only windows with this window ID (-1 for all)\n"
    + "    title    pattern to match \"Application - Title\" against\n"

  /** One option as reported by `getopt`: the four known letters (with `-i`'s
      argument already converted to a number), an option missing its argument,
      or an unknown option. */
  datatype OptEvent =
    | JsonFlag
    | HelpFlag
    | LongFlag
    | IdFlag(value: int)
    | MissingArgument(opt: char)
    | IllegalOption(opt: char)

  /** The options in order, then the operands left after them. */
  datatype CommandLine = CommandLine(options: seq<OptEvent>, operands: seq<string>)

  /** Option handling either goes on with a context or ends the process. */
  datatype Parse = Proceed(ctx: Ctx) | Stop(code: int)

  /** Whether an option ends the process before any enumeration. */
  predicate Stops(e: OptEvent) {
    e.HelpFlag? || e.MissingArgument? || e.IllegalOption?
  }

  /** The context before any option is read. `jsonMode` is never initialised by
      the program; this model takes it to start false. */
  function InitialCtx(): (ctx: Ctx)
    ensures ctx.id == -1 && ctx.numFound == 0
    ensures ModeOfCtx(ctx) == Brief
  {
    Ctx(false, -1, 0, false)
  }

  /** The effect of one option on the context. */
  function ApplyOption(ctx: Ctx, e: OptEvent): (r: Parse)
    ensures r.Stop? <==> Stops(e)
    ensures r.Stop? ==> (r.code == 0 <==> e.HelpFlag?) && (r.code == 0 || r.code == 1)
    ensures r.Proceed? ==> r.ctx.numFound == ctx.numFound
  {
    match e
    case JsonFlag => Proceed(ctx.(jsonMode := true))
    case HelpFlag => Stop(0)
    case LongFlag => Proceed(ctx.(longDisplay := true))
    case IdFlag(v) => Proceed(ctx.(id := v))
    case MissingArgument(_) => Stop(1)
    case IllegalOption(_) => Stop(1)
  }

  /** The options applied in order; the first one that ends the process wins. */
  function ParseOptions(ctx: Ctx, es: seq<OptEvent>): (r: Parse)
    ensures r.Stop? ==> r.code == 0 || r.code == 1
    ensures r.Proceed? ==> r.ctx.numFound == ctx.numFound
    decreases |es|
  {
    if |es| == 0 then Proceed(ctx)
    else match ParseOptions(ctx, es[..|es| - 1])
      case Stop(code) => Stop(code)
      case Proceed(c) => ApplyOption(c, es[|es| - 1])
  }

  /** `es[j]` is an `-i` option and no later option is. */
  predicate LastIdFlag(es: seq<OptEvent>, j: int) {
    0 <= j < |es| && es[j].IdFlag? && forall k :: j < k < |es| ==> !es[k].IdFlag?
  }

  /** Without a process-ending option, the flags are set exactly when given,
      the count is untouched, and the id is the last `-i` value, or the
      starting id when there is none. */
  lemma {:induction false} ParseOptionsProceeds(ctx: Ctx, es: seq<OptEvent>)
    requires forall i :: 0 <= i < |es| ==> !Stops(es[i])
    ensures ParseOptions(ctx, es).Proceed?
    ensures var c := ParseOptions(ctx, es).ctx;
            && c.numFound == ctx.numFound
            && (c.jsonMode <==> ctx.jsonMode || JsonFlag in es)
            && (c.longDisplay <==> ctx.longDisplay || LongFlag in es)
            && ((forall i :: 0 <= i < |es| ==> !es[i].IdFlag?) ==> c.id == ctx.id)
            && (forall j :: LastIdFlag(es, j) ==> c.id == es[j].value)
    decreases |es|
  {
    if |es| > 0 {
      var init := es[..|es| - 1];
      ParseOptionsProceeds(ctx, init);
      assert forall e :: e in es <==> e in init || e == es[|es| - 1];
      assert forall i :: 0 <= i < |init| ==> init[i] == es[i];
    }
  }

  /** The first process-ending option decides: help exits 0, a missing argument
      or an unknown option exits 1, whatever follows it. */
  lemma {:induction false} ParseOptionsStops(ctx: Ctx, es: seq<OptEvent>, j: nat)
    requires j < |es| && Stops(es[j])
    requires forall i :: 0 <= i < j ==> !Stops(es[i])
    ensures ParseOptions(ctx, es) == Stop(if es[j].HelpFlag? then 0 else 1)
    decreases |es|
  {
    var init := es[..|es| - 1];
    if j == |es| - 1 {
      ParseOptionsProceeds(ctx, init);
    } else {
      ParseOptionsStops(ctx, init, j);
    }
  }

  /** The title pattern: the first operand, if there is one. */
  function PatternOf(operands: seq<string>): (p: Option<string>)
    ensures p.None? <==> |operands| == 0
    ensures p.Some? ==> p.value == operands[0]
  {
    if |operands| > 0 then Some(operands[0]) else None
  }

  /** What the process leaves behind: its exit code and its standard output. */
  datatype Outcome = Outcome(exitCode: int, out: seq<Item>)

  /** The program from a given starting context. `authorized` is the answer of
      the screen-recording check; `enumerate` is the platform's window list for
      a title pattern, in its own order, with the pattern already applied. */
  function RunFrom(start: Ctx, cmd: CommandLine, authorized: bool,
                   enumerate: Option<string> -> seq<WindowRecord>): (r: Outcome)
    ensures r.exitCode == 0 || r.exitCode == 1
  {
    match ParseOptions(start, cmd.options)
    case Stop(code) => Outcome(code, if code == 0 then [Text(FullUsage)] else [])
    case Proceed(ctx) =>
      var pattern := PatternOf(cmd.operands);
      if !authorized then Outcome(1, [])
      else
        var done := Enumerate(ctx, enumerate(pattern));
        Outcome(ExitStatus(done.ctx.numFound, pattern, done.ctx.id), done.out)
  }

  /** The whole program, started from the initialised context. */
  function Run(cmd: CommandLine, authorized: bool,
               enumerate: Option<string> -> seq<WindowRecord>): (r: Outcome)
    ensures r.exitCode == 0 || r.exitCode == 1
  {
    RunFrom(InitialCtx(), cmd, authorized, enumerate)
  }

  /** The context exactly as the program sets it up: `jsonMode` is left
      uninitialised, so it holds whatever `garbage` the stack slot held. */
  function StartAsWritten(garbage: bool): (ctx: Ctx)
    ensures ctx.id == -1 && ctx.numFound == 0 && !ctx.longDisplay
    ensures ctx.jsonMode == garbage
  {
    Ctx(false, -1, 0, garbage)
  }

  /** With a nonzero leftover `jsonMode`, a run with no options at all prints
      a JSON object where the brief id line was meant. */
  lemma UninitialisedJsonModeExample()
    ensures var w := WindowRecord(7, "Finder", "Desktop", "Finder - Desktop", 0, 0, 1920, 1080);
            var asWritten := RunFrom(StartAsWritten(true), CommandLine([], []), true, _ => [w]);
            asWritten.out == [JsonText(JsonOf(w))] && asWritten.out != Run(CommandLine([], []), true, _ => [w]).out
  {
    var w := WindowRecord(7, "Finder", "Desktop", "Finder - Desktop", 0, 0, 1920, 1080);
    FinderBriefExample();
    assert [w][..0] == [];
    assert PrintWindow(StartAsWritten(true), w).out == [JsonText(JsonOf(w))];
  }

  /** With no `-j` option the initialised context always renders in brief or
      long mode, never JSON. */
  lemma NoJsonWithoutFlag(cmd: CommandLine)
    requires forall i :: 0 <= i < |cmd.options| ==> !Stops(cmd.options[i])
    requires JsonFlag !in cmd.options
    ensures ParseOptions(InitialCtx(), cmd.options).Proceed?
    ensures ModeOfCtx(ParseOptions(InitialCtx(), cmd.options).ctx) != Json
  {
    ParseOptionsProceeds(InitialCtx(), cmd.options);
  }

  /** `-h` prints the help text and exits 0 before any enumeration, unless an
      earlier option already failed. */
  lemma HelpExitsBeforeEnumeration(cmd: CommandLine, authorized: bool,
                                   enumerate: Option<string> -> seq<WindowRecord>, j: nat)
    requires j < |cmd.options| && cmd.options[j].HelpFlag?
    requires forall i :: 0 <= i < j ==> !Stops(cmd.options[i])
    ensures Run(cmd, authorized, enumerate) == Outcome(0, [Text(FullUsage)])
  {
    ParseOptionsStops(InitialCtx(), cmd.options, j);
  }

  /** A missing option argument or an unknown option exits 1 with no output,
      unless an earlier option already ended the process. */
  lemma BadOptionExitsOne(cmd: CommandLine, authorized: bool,
                          enumerate: Option<string> -> seq<WindowRecord>, j: nat)
    requires j < |cmd.options|
    requires cmd.options[j].MissingArgument? || cmd.options[j].IllegalOption?
    requires forall i :: 0 <= i < j ==> !Stops(cmd.options[i])
    ensures Run(cmd, authorized, enumerate) == Outcome(1, [])
  {
    ParseOptionsStops(InitialCtx(), cmd.options, j);
  }

  /** With usable options and authorisation, the output is the selected
      windows rendered in order, and the exit code is 0 exactly when some
      window passed the id filter or the query was unrestricted. */
  lemma RunReportsSelection(cmd: CommandLine, enumerate: Option<string> -> seq<WindowRecord>)
    requires forall i :: 0 <= i < |cmd.options| ==> !Stops(cmd.options[i])
    ensures ParseOptions(InitialCtx(), cmd.options).Proceed?
    ensures var ctx := ParseOptions(InitialCtx(), cmd.options).ctx;
            var pattern := PatternOf(cmd.operands);
            var ws := enumerate(pattern);
            var r := Run(cmd, true, enumerate);
            && r.out == RenderAll(ModeOfCtx(ctx), Selected(ctx.id, ws))
            && (r.exitCode == 0 <==>
                  (exists i :: 0 <= i < |ws| && Wanted(ctx.id, ws[i]))
                  || (pattern.None? && ctx.id == -1))
  {
    ParseOptionsProceeds(InitialCtx(), cmd.options);
    var ctx := ParseOptions(InitialCtx(), cmd.options).ctx;
    var ws := enumerate(PatternOf(cmd.operands));
    EnumerateRendersSelection(ctx, ws);
    var sel := Selected(ctx.id, ws);
    if |sel| > 0 {
      assert sel[0] in ws;
    }
  }

  /** A failed screen-recording check exits 1 with nothing on standard output. */
  lemma UnauthorizedExitsOne(cmd: CommandLine, enumerate: Option<string> -> seq<WindowRecord>)
    requires forall i :: 0 <= i < |cmd.options| ==> !Stops(cmd.options[i])
    ensures Run(cmd, false, enumerate) == Outcome(1, [])
  {
    ParseOptionsProceeds(InitialCtx(), cmd.options);
  }

  // ---- worked examples

  /** One Finder window, no options: its id alone, exit 0. */
  lemma FinderBriefExample()
    ensures Run(CommandLine([], []), true,
                _ => [WindowRecord(7, "Finder", "Desktop", "Finder - Desktop", 0, 0, 1920, 1080)])
         == Outcome(0, [Text("7\n")])
  {
    var w := WindowRecord(7, "Finder", "Desktop", "Finder - Desktop", 0, 0, 1920, 1080);
    assert IntToString(7) == "7";
    assert [w][..0] == [];
    assert BriefLine(w) == "7\n";
    assert RenderWindow(Brief, w) == Text("7\n");
    assert PrintWindow(InitialCtx(), w).out == [Text("7\n")];
    assert Enumerate(InitialCtx(), [w]).out == [Text("7\n")];
  }

  /** No windows and no query: exit 0; no windows with `-i 5`: exit 1. */
  lemma EmptyDesktopExamples()
    ensures Run(CommandLine([], []), true, _ => []) == Outcome(0, [])
    ensures Run(CommandLine([IdFlag(5)], []), true, _ => []) == Outcome(1, [])
  {
  }

  /** The digits of the worked long-line example. */
  lemma UntitledLineText()
    ensures IntToString(3) == "3" && IntToString(10) == "10" && IntToString(20) == "20"
    ensures IntToString(640) == "640" && IntToString(480) == "480"
  {
    assert IntToString(3) == "3";
    assert IntToString(10) == "10";
    assert IntToString(20) == "20";
    ThreeDigits(640);
    ThreeDigits(480);
  }

  /** The text of a three-digit number is its three digits. */
  lemma ThreeDigits(n: nat)
    requires 100 <= n < 1000
    ensures IntToString(n) == [DigitChar(n / 100), DigitChar(n / 10 % 10), DigitChar(n % 10)]
  {
    assert NatToString(n / 100) == [DigitChar(n / 100)];
    assert NatToString(n / 10) == [DigitChar(n / 100), DigitChar(n / 10 % 10)];
  }

  /** A window with no application name, titled "Untitled", with id 3 at (10, 20)
      and 640 by 480, prints its long line with both spaces around the empty name. */
  lemma UntitledLongExample(w: WindowRecord)
    requires w.appName == "" && w.title == "Untitled" && w.windowId == 3
    requires w.x == 10 && w.y == 20 && w.width == 640 && w.height == 480
    ensures LongLine(w) == "Untitled -  3 10 20 640 480\n"
  {
    LongFormatIsJoin(w.title, w.appName, w.windowId, w.x, w.y, w.width, w.height);
    UntitledLineText();
    UntitledColumns(IntToString(3), IntToString(10), IntToString(20), IntToString(640), IntToString(480));
  }

  /** The example line assembled from its column texts. */
  lemma UntitledColumns(id: string, x: string, y: string, width: string, height: string)
    requires id == "3" && x == "10" && y == "20" && width == "640" && height == "480"
    ensures "Untitled" + " - " + "" + " " + id + " " + x + " " + y + " " + width + " " + height + "\n"
         == "Untitled -  3 10 20 640 480\n"
  {
  }

}
