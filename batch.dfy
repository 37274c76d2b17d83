/** The Windows shortcut: `splitCommandAndArgs` and `generateEnhancedBatchFile`
    (src/main/index.js). The batch file is a list of lines, each ended by CRLF;
    the local-time banner text is a parameter. */
module BatchScript {
  import opened Tasks
  import Text
  import Lines

  const EOL := "\r\n"

  /** The `{ exe, args }` pair `splitCommandAndArgs` returns. */
  datatype CommandParts = CommandParts(exe: string, args: string)

  /** `t` opens with a double quote whose matching closing quote sits at index
      `e`, with at least one character between them. */
  predicate ClosingQuoteAt(t: string, e: int) {
    2 <= e < |t| && t[0] == '"' && t[e] == '"' && '"' !in t[1..e]
  }

  /** The index `splitCommandAndArgs` takes for the closing quote of a trimmed
      command: the next `"` after a leading `"`, or -1. */
  function QuoteEnd(t: string): int {
    if |t| > 0 && t[0] == '"' then Text.IndexOfChar(t, '"', 1) else -1
  }

  /** `splitCommandAndArgs` after its empty-command guard and `trim`. */
  function SplitTrimmed(t: string): CommandParts {
    var end := QuoteEnd(t);
    if end > 1 then CommandParts(t[1..end], Text.Trim(t[end + 1..]))
    else
      var space := Text.IndexOfChar(t, ' ', 0);
      if space == -1 then CommandParts(t, "")
      else CommandParts(t[..space], Text.Trim(t[space + 1..]))
  }

  /** `splitCommandAndArgs`: an empty command gives two empty parts. Any other
      is trimmed; a trimmed command in double quotes, with at least one character
      before the closing quote, gives the quoted text and the trimmed rest;
      otherwise the executable runs up to the first space, holds no space, and
      the arguments are what follows that space, trimmed. */
  function SplitCommandAndArgs(command: string): (r: CommandParts)
    ensures command == "" ==> r == CommandParts("", "")
    ensures forall e :: ClosingQuoteAt(Text.Trim(command), e) ==>
              r == CommandParts(Text.Trim(command)[1..e], Text.Trim(Text.Trim(command)[e + 1..]))
    ensures (forall e :: !ClosingQuoteAt(Text.Trim(command), e)) ==>
              var t := Text.Trim(command);
              && ' ' !in r.exe
              && (' ' !in t ==> r == CommandParts(t, ""))
              && (' ' in t ==> |r.exe| < |t| && t[..|r.exe|] == r.exe && t[|r.exe|] == ' '
                               && r.args == Text.Trim(t[|r.exe| + 1..]))
  {
    if command == "" then CommandParts("", "")
    else
      var t := Text.Trim(command);
      SplitTrimmedSpec(t);
      SplitTrimmed(t)
  }

  /** The two cases of the split, for the trimmed command `t`. */
  lemma SplitTrimmedSpec(t: string)
    ensures forall e :: ClosingQuoteAt(t, e) ==> SplitTrimmed(t) == CommandParts(t[1..e], Text.Trim(t[e + 1..]))
    ensures (forall e :: !ClosingQuoteAt(t, e)) ==>
              var r := SplitTrimmed(t);
              && ' ' !in r.exe
              && (' ' !in t ==> r == CommandParts(t, ""))
              && (' ' in t ==> |r.exe| < |t| && t[..|r.exe|] == r.exe && t[|r.exe|] == ' '
                               && r.args == Text.Trim(t[|r.exe| + 1..]))
  {
    forall e | ClosingQuoteAt(t, e) ensures SplitTrimmed(t) == CommandParts(t[1..e], Text.Trim(t[e + 1..])) {
      SplitQuoted(t, e);
    }
    if forall e :: !ClosingQuoteAt(t, e) {
      SplitUnquoted(t);
      var r := SplitTrimmed(t);
      if ' ' in t {
        assert (r.exe + " " + t[|r.exe| + 1..])[..|r.exe|] == r.exe;
      }
    }
  }

  /** A trimmed command in double quotes, with at least one character before the
      closing quote, is split into the quoted text and the trimmed remainder. */
  lemma SplitQuoted(t: string, e: int)
    requires ClosingQuoteAt(t, e)
    ensures SplitTrimmed(t) == CommandParts(t[1..e], Text.Trim(t[e + 1..]))
  {
    QuoteEndAt(t, e);
  }

  /** The closing quote `splitCommandAndArgs` finds is the first one after the opening quote. */
  lemma QuoteEndAt(t: string, e: int)
    requires ClosingQuoteAt(t, e)
    ensures QuoteEnd(t) == e
  {
    var end := Text.IndexOfChar(t, '"', 1);
    assert end != -1 && end <= e;
  }

  /** Without such a quoted prefix the trimmed command is split at its first
      space: the executable holds no space, and the arguments are what follows
      that space, trimmed. Without a space it is all executable. */
  lemma SplitUnquoted(t: string)
    requires forall e :: !ClosingQuoteAt(t, e)
    ensures var r := SplitTrimmed(t);
            && ' ' !in r.exe
            && (' ' !in t ==> r == CommandParts(t, ""))
            && (' ' in t ==> t == r.exe + " " + t[|r.exe| + 1..] && r.args == Text.Trim(t[|r.exe| + 1..]))
  {
    var end := QuoteEnd(t);
    if end > 1 { assert ClosingQuoteAt(t, end); }
    var space := Text.IndexOfChar(t, ' ', 0);
    if space != -1 {
      assert forall k :: 0 <= k < space ==> t[..space][k] != ' ';
      assert t == t[..space] + " " + t[space + 1..];
    }
  }

  /** The executable needs quotes in a `start` line when it holds a space or a path separator. */
  predicate NeedsQuotes(exe: string) {
    ' ' in exe || '\\' in exe || '/' in exe
  }

  /** The `start` line for an executable and its arguments. */
  function StartLine(p: CommandParts): string {
    var args := if p.args != "" then " " + p.args else "";
    if NeedsQuotes(p.exe) then "start \"\" " + ("\"" + p.exe + "\"" + args) else "start \"\" " + (p.exe + args)
  }

  /** A `start` line has an empty window title, then the executable, wrapped in
      quotes exactly when it needs them, then one space and the arguments only
      when there are arguments. */
  lemma StartLineShape(p: CommandParts)
    ensures var r := StartLine(p);
            && Text.StartsWith(r, "start \"\" ")
            && |r| == 9 + |p.exe| + (if NeedsQuotes(p.exe) then 2 else 0) + (if p.args == "" then 0 else 1 + |p.args|)
            && (NeedsQuotes(p.exe) ==> r[9] == '"' && r[10..10 + |p.exe|] == p.exe && r[10 + |p.exe|] == '"')
            && (!NeedsQuotes(p.exe) ==> r[9..9 + |p.exe|] == p.exe)
            && (p.args != "" ==> Text.EndsWith(r, " " + p.args))
  {
  }

  /** The `start` line of an `app` task. */
  function AppStartLine(command: string): string {
    StartLine(SplitCommandAndArgs(command))
  }

  /** The lines the `switch` on the task type emits. */
  function BatchAction(t: Task): seq<string> {
    match KindOf(t.kind)
    case App => ["echo    Starting application...", AppStartLine(t.command)]
    case Website => ["echo    Opening website...", "start \"\" " + ("\"" + t.command + "\"")]
    case Command =>
      ["echo    Running command in new window...",
       "start \"Task: " + (t.name + "\" cmd /k \"title " + t.name + " && " + t.command + "\"")]
    case Server =>
      ["echo    Starting server...",
       "start \"Server: " + (t.name + "\" cmd /k \"title " + t.name + " && " + t.command + "\"")]
    case Unknown => ["echo    Unknown task type: " + t.kind]
  }

  const TimeoutLine := "timeout /t 1 /nobreak >nul"
  const RuleLine := "echo " + Lines.Rule

  /** The `[ii/NN] Running:` banner of the task at `index` among `total`. */
  function Banner(t: Task, index: nat, total: nat): string {
    "echo [" + (Text.TwoDigits(index + 1) + "/" + Text.TwoDigits(total) + "] Running: " + t.name)
  }

  /** The lines one task contributes: banner, type line, action, wait and completion. */
  function BatchBlock(t: Task, index: nat, total: nat): seq<string> {
    [Banner(t, index, total), "echo    Type: " + (t.kind + " ^| Command: " + t.command)]
    + BatchAction(t)
    + BlockTail
  }

  /** A known task type's action is an announcement followed by one `start`
      line. */
  lemma BatchActionKnown(t: Task)
    requires KindOf(t.kind) != Unknown
    ensures |BatchAction(t)| == 2
    ensures Text.StartsWith(BatchAction(t)[0], "echo    ")
    ensures Text.StartsWith(BatchAction(t)[1], "start ")
  {
    match KindOf(t.kind)
    case App =>
      var p := SplitCommandAndArgs(t.command);
      var args := if p.args != "" then " " + p.args else "";
      Lines.StartsWithConcat("start \"\" ", if NeedsQuotes(p.exe) then "\"" + p.exe + "\"" + args else p.exe + args);
      Lines.StartsWithConcat("echo    ", "Starting application...");
    case Website =>
      Lines.StartsWithConcat("start \"\" ", "\"" + t.command + "\"");
      Lines.StartsWithConcat("echo    ", "Opening website...");
    case Command =>
      Lines.StartsWithConcat("start \"Task: ", t.name + "\" cmd /k \"title " + t.name + " && " + t.command + "\"");
      Lines.StartsWithConcat("echo    ", "Running command in new window...");
    case Server =>
      Lines.StartsWithConcat("start \"Server: ", t.name + "\" cmd /k \"title " + t.name + " && " + t.command + "\"");
      Lines.StartsWithConcat("echo    ", "Starting server...");
  }

  /** An unknown task type's action is the single `Unknown task type` line. */
  lemma BatchActionUnknown(t: Task)
    requires KindOf(t.kind) == Unknown
    ensures BatchAction(t) == ["echo    Unknown task type: " + t.kind]
    ensures Text.StartsWith(BatchAction(t)[0], "echo    ")
  {
    Lines.StartsWithConcat("echo    ", "Unknown task type: " + t.kind);
    assert "echo    Unknown task type: " + t.kind == "echo    " + ("Unknown task type: " + t.kind);
  }

  const BlockTail: seq<string> := ["echo    Waiting 1 second...", TimeoutLine, "echo    Task completed!", "echo."]

  /** A block's lines, named by position: banner, type line, action, tail. */
  lemma BatchBlockLayout(t: Task, index: nat, total: nat)
    ensures var b := BatchBlock(t, index, total);
            var a := BatchAction(t);
            && b == [Banner(t, index, total), b[1]] + a + BlockTail
            && Text.StartsWith(b[0], "echo [")
            && Text.StartsWith(b[1], "echo    ")
  {
    Lines.StartsWithConcat("echo [", Text.TwoDigits(index + 1) + "/" + Text.TwoDigits(total) + "] Running: " + t.name);
    Lines.StartsWithConcat("echo    ", "Type: " + (t.kind + " ^| Command: " + t.command));
    assert "echo    Type: " + (t.kind + " ^| Command: " + t.command) == "echo    " + ("Type: " + (t.kind + " ^| Command: " + t.command));
  }

  /** The selection facts for a block whose action is an announcement and a
      `start` line. */
  lemma BlockLinesFacts2(b0: string, b1: string, a0: string, a1: string)
    requires Text.StartsWith(b0, "echo [") && Text.StartsWith(b1, "echo    ")
    requires Text.StartsWith(a0, "echo    ") && Text.StartsWith(a1, "start ")
    ensures Lines.WithPrefix([b0, b1, a0, a1] + BlockTail, "echo [") == [b0]
    ensures Lines.Count([b0, b1, a0, a1] + BlockTail, TimeoutLine) == 1
    ensures |Lines.WithPrefix([b0, b1, a0, a1] + BlockTail, "start ")| == 1
  {
    var b := [b0, b1, a0, a1] + BlockTail;
    Lines.PrefixesClash(b0, "echo [", "start ", 0);
    Lines.PrefixesClash(b0, "echo [", TimeoutLine, 0);
    Lines.PrefixesClash(b1, "echo    ", "echo [", 5);
    Lines.PrefixesClash(b1, "echo    ", "start ", 0);
    Lines.PrefixesClash(b1, "echo    ", TimeoutLine, 0);
    Lines.PrefixesClash(a0, "echo    ", "echo [", 5);
    Lines.PrefixesClash(a0, "echo    ", "start ", 0);
    Lines.PrefixesClash(a0, "echo    ", TimeoutLine, 0);
    Lines.PrefixesClash(a1, "start ", "echo [", 0);
    Lines.PrefixesClash(a1, "start ", TimeoutLine, 0);
    Lines.WithPrefixOnlyAt(b, "echo [", 0);
    Lines.CountOnlyAt(b, TimeoutLine, 5);
    Lines.WithPrefixOnlyAt(b, "start ", 3);
  }

  /** The selection facts for a block whose action is a single announcement. */
  lemma BlockLinesFacts1(b0: string, b1: string, a0: string)
    requires Text.StartsWith(b0, "echo [") && Text.StartsWith(b1, "echo    ")
    requires Text.StartsWith(a0, "echo    ")
    ensures Lines.WithPrefix([b0, b1, a0] + BlockTail, "echo [") == [b0]
    ensures Lines.Count([b0, b1, a0] + BlockTail, TimeoutLine) == 1
    ensures |Lines.WithPrefix([b0, b1, a0] + BlockTail, "start ")| == 0
  {
    var b := [b0, b1, a0] + BlockTail;
    Lines.PrefixesClash(b0, "echo [", "start ", 0);
    Lines.PrefixesClash(b0, "echo [", TimeoutLine, 0);
    Lines.PrefixesClash(b1, "echo    ", "echo [", 5);
    Lines.PrefixesClash(b1, "echo    ", "start ", 0);
    Lines.PrefixesClash(b1, "echo    ", TimeoutLine, 0);
    Lines.PrefixesClash(a0, "echo    ", "echo [", 5);
    Lines.PrefixesClash(a0, "echo    ", "start ", 0);
    Lines.PrefixesClash(a0, "echo    ", TimeoutLine, 0);
    Lines.WithPrefixOnlyAt(b, "echo [", 0);
    Lines.CountOnlyAt(b, TimeoutLine, 4);
    Lines.WithPrefixNone(b, "start ");
  }

  /** Each task's block holds exactly one banner, its first line. */
  lemma BatchBlockBanner(t: Task, index: nat, total: nat)
    ensures Lines.WithPrefix(BatchBlock(t, index, total), "echo [") == [Banner(t, index, total)]
  {
    if KindOf(t.kind) == Unknown {
      UnknownBlockFacts(t, index, total);
    } else {
      KnownBlockFacts(t, index, total);
    }
  }

  /** Each task's block holds exactly one one-second wait. */
  lemma BatchBlockWait(t: Task, index: nat, total: nat)
    ensures Lines.Count(BatchBlock(t, index, total), TimeoutLine) == 1
  {
    if KindOf(t.kind) == Unknown {
      UnknownBlockFacts(t, index, total);
    } else {
      KnownBlockFacts(t, index, total);
    }
  }

  /** Each task's block holds one `start` line when its type is known, none otherwise. */
  lemma BatchBlockStart(t: Task, index: nat, total: nat)
    ensures |Lines.WithPrefix(BatchBlock(t, index, total), "start ")| == if KindOf(t.kind) == Unknown then 0 else 1
  {
    if KindOf(t.kind) == Unknown {
      UnknownBlockFacts(t, index, total);
    } else {
      KnownBlockFacts(t, index, total);
    }
  }

  lemma UnknownBlockFacts(t: Task, index: nat, total: nat)
    requires KindOf(t.kind) == Unknown
    ensures Lines.WithPrefix(BatchBlock(t, index, total), "echo [") == [Banner(t, index, total)]
    ensures Lines.Count(BatchBlock(t, index, total), TimeoutLine) == 1
    ensures |Lines.WithPrefix(BatchBlock(t, index, total), "start ")| == 0
  {
    var b := BatchBlock(t, index, total);
    BatchBlockLayout(t, index, total);
    var a := BatchAction(t);
    BatchActionUnknown(t);
    assert a == [a[0]];
    assert b == [b[0], b[1], a[0]] + BlockTail;
    BlockLinesFacts1(b[0], b[1], a[0]);
  }

  lemma KnownBlockFacts(t: Task, index: nat, total: nat)
    requires KindOf(t.kind) != Unknown
    ensures Lines.WithPrefix(BatchBlock(t, index, total), "echo [") == [Banner(t, index, total)]
    ensures Lines.Count(BatchBlock(t, index, total), TimeoutLine) == 1
    ensures |Lines.WithPrefix(BatchBlock(t, index, total), "start ")| == 1
  {
    var b := BatchBlock(t, index, total);
    BatchBlockLayout(t, index, total);
    var a := BatchAction(t);
    BatchActionKnown(t);
    assert a == [a[0], a[1]];
    assert b == [b[0], b[1], a[0], a[1]] + BlockTail;
    BlockLinesFacts2(b[0], b[1], a[0], a[1]);
  }

  function BatchHeader(name: string, total: nat, localTime: string): seq<string> {
    ["@echo off", "title Task Group: " + name, "color 0A", "cls", "echo.", RuleLine,
     "echo    TASK GROUP: " + name, "echo    Total Tasks: " + Text.NatToString(total),
     "echo    Time: " + localTime, RuleLine, "echo."]
  }

  const BatchFooter: seq<string> :=
    [RuleLine, "echo    ALL TASKS COMPLETED!", RuleLine, "echo.", "echo Press any key to close...", "pause >nul"]

  /** The blocks of every task of a group, in order. */
  function BatchBlocks(ts: seq<Task>): seq<string> {
    Lines.Blocks(ts, BlockOf(|ts|))
  }

  /** The per-task callback of a group of `total` tasks. */
  function BlockOf(total: nat): (Task, nat) -> seq<string> {
    (t: Task, i: nat) => BatchBlock(t, i, total)
  }

  /** Every line of the batch file for `group`, in order. */
  function BatchLines(group: TaskGroup, localTime: string): seq<string> {
    BatchHeader(group.name, |group.tasks|, localTime) + BatchBlocks(group.tasks) + BatchFooter
  }

  /** `generateEnhancedBatchFile`: the header, then each task's block in order,
      then the footer, each line ended by CRLF. `localTime` stands for
      `new Date().toLocaleString()`. */
  method GenerateBatchFile(group: TaskGroup, localTime: string) returns (content: string)
    ensures content == Lines.Render(BatchLines(group, localTime), EOL)
  {
    var n := |group.tasks|;
    var header := BatchHeader(group.name, n, localTime);
    content := Lines.AppendLines("", header, EOL);
    assert content == Lines.Render(header, EOL);
    content := Lines.AppendEach(content, group.tasks, BlockOf(n), EOL);
    content := Lines.AppendLines(content, BatchFooter, EOL);
    Lines.RenderAppend3(header, BatchBlocks(group.tasks), BatchFooter, EOL);
  }

  /** The number of tasks whose type the generators know. */
  function KnownCount(ts: seq<Task>): (r: nat)
    ensures r <= |ts|
  {
    if ts == [] then 0
    else KnownCount(ts[..|ts| - 1]) + (if KindOf(ts[|ts| - 1].kind) == Unknown then 0 else 1)
  }

  /** The banners of the tasks of `ts`, numbered from 1 out of `total`. */
  function Banners(ts: seq<Task>, total: nat): (r: seq<string>)
    ensures |r| == |ts|
    ensures forall i :: 0 <= i < |ts| ==> r[i] == Banner(ts[i], i, total)
  {
    if ts == [] then []
    else Banners(ts[..|ts| - 1], total) + [Banner(ts[|ts| - 1], |ts| - 1, total)]
  }

  /** The blocks of the first `k` tasks end with the block of task `k - 1`. */
  lemma BlocksStep(ts: seq<Task>, k: nat, total: nat)
    requires 0 < k <= |ts|
    ensures Lines.Blocks(ts[..k], BlockOf(total))
            == Lines.Blocks(ts[..k - 1], BlockOf(total)) + BatchBlock(ts[k - 1], k - 1, total)
  {
    assert ts[..k][..k - 1] == ts[..k - 1];
  }

  /** Over the blocks of the first `k` tasks: their banners, in order. */
  lemma {:induction false} BlocksBanners(ts: seq<Task>, k: nat, total: nat)
    requires k <= |ts|
    ensures Lines.WithPrefix(Lines.Blocks(ts[..k], BlockOf(total)), "echo [") == Banners(ts[..k], total)
  {
    if k > 0 {
      var prev := Lines.Blocks(ts[..k - 1], BlockOf(total));
      var block := BatchBlock(ts[k - 1], k - 1, total);
      BlocksBanners(ts, k - 1, total);
      BlocksStep(ts, k, total);
      BatchBlockBanner(ts[k - 1], k - 1, total);
      Lines.WithPrefixAppend(prev, block, "echo [");
      assert ts[..k][..k - 1] == ts[..k - 1];
    }
  }

  /** Over the blocks of the first `k` tasks: one wait per task. */
  lemma {:induction false} BlocksWaits(ts: seq<Task>, k: nat, total: nat)
    requires k <= |ts|
    ensures Lines.Count(Lines.Blocks(ts[..k], BlockOf(total)), TimeoutLine) == k
  {
    if k > 0 {
      var prev := Lines.Blocks(ts[..k - 1], BlockOf(total));
      var block := BatchBlock(ts[k - 1], k - 1, total);
      BlocksWaits(ts, k - 1, total);
      BlocksStep(ts, k, total);
      BatchBlockWait(ts[k - 1], k - 1, total);
      Lines.CountAppend(prev, block, TimeoutLine);
      assert ts[..k][..k - 1] == ts[..k - 1];
    }
  }

  /** Over the blocks of the first `k` tasks: one `start` line per task of known type. */
  lemma {:induction false} BlocksStarts(ts: seq<Task>, k: nat, total: nat)
    requires k <= |ts|
    ensures |Lines.WithPrefix(Lines.Blocks(ts[..k], BlockOf(total)), "start ")| == KnownCount(ts[..k])
  {
    if k > 0 {
      var prev := Lines.Blocks(ts[..k - 1], BlockOf(total));
      var block := BatchBlock(ts[k - 1], k - 1, total);
      BlocksStarts(ts, k - 1, total);
      BlocksStep(ts, k, total);
      BatchBlockStart(ts[k - 1], k - 1, total);
      Lines.WithPrefixAppend(prev, block, "start ");
      assert ts[..k][..k - 1] == ts[..k - 1];
    }
  }

  /** A line that is neither a banner, a `start` line nor the wait. */
  predicate Plain(line: string) {
    !Text.StartsWith(line, "echo [") && !Text.StartsWith(line, "start ") && line != TimeoutLine
  }

  /** A line built on a head that starts neither with `s`, `t` nor `echo [` is plain. */
  lemma PlainFrom(line: string, head: string, e: nat, w: nat)
    requires Text.StartsWith(line, head) && e < |head| && e < 6 && head[e] != "echo ["[e]
    requires head[0] != 's' && w < |head| && w < |TimeoutLine| && head[w] != TimeoutLine[w]
    ensures Plain(line)
  {
    Lines.PrefixesClash(line, head, "echo [", e);
    Lines.PrefixesClash(line, head, "start ", 0);
    Lines.PrefixesClash(line, head, TimeoutLine, w);
  }

  /** A list of plain lines holds no banner, no `start` line and no wait. */
  lemma AllPlain(lines: seq<string>)
    requires forall k :: 0 <= k < |lines| ==> Plain(lines[k])
    ensures Lines.WithPrefix(lines, "echo [") == [] && Lines.WithPrefix(lines, "start ") == []
    ensures Lines.Count(lines, TimeoutLine) == 0
  {
    Lines.WithPrefixNone(lines, "echo [");
    Lines.WithPrefixNone(lines, "start ");
  }

  /** The header holds no banner, no wait and no `start` line. */
  lemma HeaderPlain(name: string, total: nat, localTime: string)
    ensures forall k :: 0 <= k < |BatchHeader(name, total, localTime)| ==> Plain(BatchHeader(name, total, localTime)[k])
  {
    var h := BatchHeader(name, total, localTime);
    forall k | 0 <= k < |h| ensures Plain(h[k]) {
      if k == 0 { PlainFrom(h[k], "@echo off", 0, 0); }
      else if k == 1 { Lines.StartsWithConcat("title Task Group: ", name); PlainFrom(h[k], "title Task Group: ", 0, 2); }
      else if k == 2 { PlainFrom(h[k], "color 0A", 0, 0); }
      else if k == 3 { PlainFrom(h[k], "cls", 0, 0); }
      else if k == 4 || k == 10 { PlainFrom(h[k], "echo.", 4, 0); }
      else if k == 5 || k == 9 { assert h[k][5] == '='; Lines.DiffersAt(h[k], "echo [", 5); Lines.DiffersAt(h[k], "start ", 0); Lines.DiffersAt(h[k], TimeoutLine, 0); }
      else if k == 6 { Lines.StartsWithConcat("echo    TASK GROUP: ", name); PlainFrom(h[k], "echo    TASK GROUP: ", 5, 0); }
      else if k == 7 {
        Lines.StartsWithConcat("echo    Total Tasks: ", Text.NatToString(total));
        PlainFrom(h[k], "echo    Total Tasks: ", 5, 0);
      } else { Lines.StartsWithConcat("echo    Time: ", localTime); PlainFrom(h[k], "echo    Time: ", 5, 0); }
    }
  }

  /** The footer holds no banner, no wait and no `start` line. */
  lemma FooterPlain()
    ensures forall k :: 0 <= k < |BatchFooter| ==> Plain(BatchFooter[k])
  {
    forall k | 0 <= k < |BatchFooter| ensures Plain(BatchFooter[k]) {
      if k == 0 || k == 2 { assert BatchFooter[k][5] == '='; Lines.DiffersAt(BatchFooter[k], "echo [", 5); Lines.DiffersAt(BatchFooter[k], "start ", 0); Lines.DiffersAt(BatchFooter[k], TimeoutLine, 0); }
      else if k == 1 { PlainFrom(BatchFooter[k], "echo    ALL TASKS COMPLETED!", 5, 0); }
      else if k == 3 { PlainFrom(BatchFooter[k], "echo.", 4, 0); }
      else if k == 4 { PlainFrom(BatchFooter[k], "echo Press any key to close...", 5, 0); }
      else { PlainFrom(BatchFooter[k], "pause >nul", 0, 0); }
    }
  }

  /** The batch file opens with `@echo off` and closes with `pause >nul`, every
      line ended by CRLF. */
  lemma BatchFileFraming(group: TaskGroup, localTime: string)
    ensures Text.StartsWith(Lines.Render(BatchLines(group, localTime), EOL), "@echo off\r\n")
    ensures Text.EndsWith(Lines.Render(BatchLines(group, localTime), EOL), "pause >nul\r\n")
  {
    var lines := BatchLines(group, localTime);
    Lines.RenderFraming(lines, EOL);
    assert lines[0] == "@echo off";
    assert lines[|lines| - 1] == "pause >nul";
  }

  /** The lines of a batch file, split into header, task blocks and footer. */
  lemma BatchLinesParts(group: TaskGroup, localTime: string)
    ensures forall k :: 0 <= k < |BatchHeader(group.name, |group.tasks|, localTime)| ==>
              Plain(BatchHeader(group.name, |group.tasks|, localTime)[k])
    ensures forall k :: 0 <= k < |BatchFooter| ==> Plain(BatchFooter[k])
    ensures Lines.WithPrefix(BatchBlocks(group.tasks), "echo [") == Banners(group.tasks, |group.tasks|)
    ensures Lines.Count(BatchBlocks(group.tasks), TimeoutLine) == |group.tasks|
    ensures |Lines.WithPrefix(BatchBlocks(group.tasks), "start ")| == KnownCount(group.tasks)
  {
    assert group.tasks[..|group.tasks|] == group.tasks;
    BlocksBanners(group.tasks, |group.tasks|, |group.tasks|);
    BlocksWaits(group.tasks, |group.tasks|, |group.tasks|);
    BlocksStarts(group.tasks, |group.tasks|, |group.tasks|);
    HeaderPlain(group.name, |group.tasks|, localTime);
    FooterPlain();
  }

  /** Selection and counting over a file made of plain framing around the blocks. */
  lemma FramedFacts(h: seq<string>, b: seq<string>, f: seq<string>)
    requires forall k :: 0 <= k < |h| ==> Plain(h[k])
    requires forall k :: 0 <= k < |f| ==> Plain(f[k])
    ensures Lines.WithPrefix(h + b + f, "echo [") == Lines.WithPrefix(b, "echo [")
    ensures Lines.WithPrefix(h + b + f, "start ") == Lines.WithPrefix(b, "start ")
    ensures Lines.Count(h + b + f, TimeoutLine) == Lines.Count(b, TimeoutLine)
  {
    AllPlain(h);
    AllPlain(f);
    Lines.WithPrefixAppend(h, b, "echo [");
    Lines.WithPrefixAppend(h + b, f, "echo [");
    Lines.WithPrefixAppend(h, b, "start ");
    Lines.WithPrefixAppend(h + b, f, "start ");
    Lines.CountAppend(h, b, TimeoutLine);
    Lines.CountAppend(h + b, f, TimeoutLine);
  }

  /** Between header and footer, each task in order gets exactly one
      `[ii/NN] Running:` banner and exactly one one-second wait; only tasks of a
      known type get a `start` line, one each. */
  lemma BatchFileTasks(group: TaskGroup, localTime: string)
    ensures Lines.WithPrefix(BatchLines(group, localTime), "echo [") == Banners(group.tasks, |group.tasks|)
    ensures Lines.Count(BatchLines(group, localTime), TimeoutLine) == |group.tasks|
    ensures |Lines.WithPrefix(BatchLines(group, localTime), "start ")| == KnownCount(group.tasks)
  {
    BatchLinesParts(group, localTime);
    FramedFacts(BatchHeader(group.name, |group.tasks|, localTime), BatchBlocks(group.tasks), BatchFooter);
  }

  /** `calc` starts without quotes and without arguments. */
  lemma AppStartLineCalc()
    ensures AppStartLine("calc") == "start \"\" calc"
  {
    assert Text.Trim("calc") == "calc";
    assert forall e :: !ClosingQuoteAt("calc", e);
    assert ' ' !in "calc";
    assert SplitCommandAndArgs("calc") == CommandParts("calc", "");
  }

  /** A `start` line for an executable that needs quotes and has arguments. */
  lemma StartLineQuotedWithArgs(exe: string, args: string)
    requires NeedsQuotes(exe) && args != ""
    ensures StartLine(CommandParts(exe, args)) == "start \"\" \"" + exe + "\" " + args
  {
  }

  /** An unquoted command is cut at its first space even when that space is
      inside a path: the part before it is started, quoted when it holds a path
      separator, and the rest is passed as its arguments. */
  lemma AppStartLineSplitsAtSpace(exe: string, rest: string)
    requires exe != [] && exe[0] != '"' && !Text.IsTrimmable(exe[0]) && ' ' !in exe
    requires rest != [] && !Text.IsTrimmable(rest[0]) && !Text.IsTrimmable(rest[|rest| - 1])
    ensures SplitCommandAndArgs(exe + " " + rest) == CommandParts(exe, rest)
    ensures NeedsQuotes(exe) ==> AppStartLine(exe + " " + rest) == "start \"\" \"" + exe + "\" " + rest
  {
    var c := exe + " " + rest;
    Text.TrimUntouched(c);
    Text.TrimUntouched(rest);
    assert c[|exe|] == ' ' && forall k :: 0 <= k < |exe| ==> c[k] != ' ';
    assert Text.IndexOfChar(c, ' ', 0) == |exe|;
    assert c[..|exe|] == exe && c[|exe| + 1..] == rest;
    if NeedsQuotes(exe) {
      StartLineQuotedWithArgs(exe, rest);
    }
  }

  /** A quoted path keeps its spaces: the text between the quotes is the
      executable and what follows the space after the closing quote the arguments. */
  lemma AppStartLineQuoted(exe: string, args: string)
    requires |exe| >= 1 && '"' !in exe
    requires args != [] && !Text.IsTrimmable(args[0]) && !Text.IsTrimmable(args[|args| - 1])
    ensures SplitCommandAndArgs("\"" + exe + "\" " + args) == CommandParts(exe, args)
  {
    var c := "\"" + exe + "\" " + args;
    var e := |exe| + 1;
    assert c[0] == '"' && c[|c| - 1] == args[|args| - 1];
    Text.TrimUntouched(c);
    assert c[1..e] == exe;
    assert ClosingQuoteAt(c, e);
    SplitQuoted(c, e);
    assert c[e + 1..] == " " + args;
    assert Text.Trim(" " + args) == args by {
      Text.TrimUntouched(args);
      assert Text.TrimStart(" " + args) == Text.TrimStart(args);
    }
  }
}
