/** The macOS and Linux shortcut: `generateEnhancedShellScript`
    (src/main/index.js). The script is a list of lines, each ended by LF; the
    platform and both timestamp texts are parameters. */
module ShellScript {
  import opened Tasks
  import Text
  import Lines

  const EOL := "\n"
  const SleepLine := "sleep 1"
  const RuleLine := "echo \"" + Lines.Rule + "\""

  /** The line that launches a task of a known type, in the background. On
      darwin `open` is used for apps and websites and Terminal (through
      `osascript`) for commands and servers; elsewhere the app is run directly,
      websites go to `xdg-open` and commands to `gnome-terminal`. */
  function ShellLaunch(kind: Kind, command: string, platform: string): string {
    LaunchOpening(kind, platform == "darwin") + command + LaunchClosing(kind, platform == "darwin")
  }

  /** The text of the launch line before the command. */
  function LaunchOpening(kind: Kind, darwin: bool): string {
    match kind
    case App => if darwin then "open -a \"" else "\""
    case Website => if darwin then "open \"" else "xdg-open \""
    case _ =>
      if darwin then "osascript" + " -e 'tell app \"Terminal\" to do script \"" else "gnome-terminal -- bash -c \""
  }

  /** The text of the launch line after the command. */
  function LaunchClosing(kind: Kind, darwin: bool): string {
    match kind
    case App => "\" &"
    case Website => "\" &"
    case _ => if darwin then "\"' &" else "; exec bash\" &"
  }


  /** The lines the `switch` on the task type emits. */
  function ShellAction(t: Task, platform: string): seq<string> {
    match KindOf(t.kind)
    case App => ["echo \"   Starting application...\"", ShellLaunch(App, t.command, platform)]
    case Website => ["echo \"   Opening website...\"", ShellLaunch(Website, t.command, platform)]
    case Command => ["echo \"   Running command in new terminal...\"", ShellLaunch(Command, t.command, platform)]
    case Server => ["echo \"   Starting server...\"", ShellLaunch(Server, t.command, platform)]
    case Unknown => ["echo \"   Unknown task type: " + t.kind + "\""]
  }

  const ShellTail: seq<string> := ["echo \"   Waiting 1 second...\"", SleepLine, "echo \"   Task completed!\"", "echo"]

  /** The lines one task contributes: banner, type line, action, wait and completion. */
  function ShellBlock(t: Task, index: nat, total: nat, platform: string): seq<string> {
    ["echo \"[" + Text.TwoDigits(index + 1) + "/" + Text.TwoDigits(total) + "] Running: " + t.name + "\"",
     "echo \"   Type: " + t.kind + " | Command: " + t.command + "\""]
    + ShellAction(t, platform)
    + ShellTail
  }

  /** The per-task callback of a group of `total` tasks. */
  function ShellBlockOf(total: nat, platform: string): (Task, nat) -> seq<string> {
    (t: Task, i: nat) => ShellBlock(t, i, total, platform)
  }

  function ShellHeader(name: string, total: nat, isoTime: string, localTime: string): seq<string> {
    ["#!/bin/bash", "", "# Task Group Executor", "# Group: " + name, "# Tasks: " + Text.NatToString(total),
     "# Generated: " + isoTime, "", "clear", RuleLine, "echo \"    TASK GROUP: " + name + "\"",
     "echo \"    Total Tasks: " + Text.NatToString(total) + "\"", "echo \"    Time: " + localTime + "\"",
     RuleLine, "echo"]
  }

  const ShellFooter: seq<string> :=
    [RuleLine, "echo \"    ALL TASKS COMPLETED!\"", RuleLine, "echo", "echo \"Press Enter to close...\"", "read"]

  /** Every line of the script for `group`, in order. */
  function ShellLines(group: TaskGroup, platform: string, isoTime: string, localTime: string): seq<string> {
    ShellHeader(group.name, |group.tasks|, isoTime, localTime)
    + Lines.Blocks(group.tasks, ShellBlockOf(|group.tasks|, platform))
    + ShellFooter
  }

  /** `generateEnhancedShellScript`: the header, then each task's block in order,
      then the footer, each line ended by LF. `isoTime` and `localTime` stand for
      `new Date().toISOString()` and `toLocaleString()`, `platform` for
      `process.platform`. */
  method GenerateShellScript(group: TaskGroup, platform: string, isoTime: string, localTime: string)
    returns (content: string)
    ensures content == Lines.Render(ShellLines(group, platform, isoTime, localTime), EOL)
  {
    var n := |group.tasks|;
    var header := ShellHeader(group.name, n, isoTime, localTime);
    content := Lines.AppendLines("", header, EOL);
    assert content == Lines.Render(header, EOL);
    content := Lines.AppendEach(content, group.tasks, ShellBlockOf(n, platform), EOL);
    content := Lines.AppendLines(content, ShellFooter, EOL);
    Lines.RenderAppend3(header, Lines.Blocks(group.tasks, ShellBlockOf(n, platform)), ShellFooter, EOL);
  }

  /** The script starts with the `#!/bin/bash` line and ends with `read`. */
  lemma ShellScriptFraming(group: TaskGroup, platform: string, isoTime: string, localTime: string)
    ensures Text.StartsWith(Lines.Render(ShellLines(group, platform, isoTime, localTime), EOL), "#!/bin/bash\n")
    ensures Text.EndsWith(Lines.Render(ShellLines(group, platform, isoTime, localTime), EOL), "read\n")
  {
    var lines := ShellLines(group, platform, isoTime, localTime);
    Lines.RenderFraming(lines, EOL);
    assert lines[0] == "#!/bin/bash";
    assert lines[|lines| - 1] == "read";
  }

  /** Commands and servers are launched by the same line. */
  lemma CommandAndServerLaunchAlike(command: string, platform: string)
    ensures ShellLaunch(Command, command, platform) == ShellLaunch(Server, command, platform)
  {
  }

  /** On darwin an app is opened by name with `open -a`; elsewhere it is run directly. */
  lemma AppLaunchByPlatform(command: string, platform: string)
    ensures platform == "darwin" ==> ShellLaunch(App, command, platform) == "open -a \"" + command + "\" &"
    ensures platform != "darwin" ==> ShellLaunch(App, command, platform) == "\"" + command + "\" &"
  {
  }

  /** A line that begins with anything but `s` is not the wait. */
  lemma NotSleep(line: string)
    requires |line| > 0 && line[0] != 's'
    ensures line != SleepLine
  {
  }

  /** No launch line is the wait. */
  lemma LaunchIsNotSleep(kind: Kind, command: string, platform: string)
    ensures |ShellLaunch(kind, command, platform)| > 0 && ShellLaunch(kind, command, platform)[0] != 's'
  {
    var head := LaunchOpening(kind, platform == "darwin");
    assert |head| > 0 && head[0] != 's';
    OpensWith(head, command + LaunchClosing(kind, platform == "darwin"));
  }

  /** A string built on a non-empty head opens with the head's first character. */
  lemma OpensWith(head: string, rest: string)
    requires head != []
    ensures |head + rest| > 0 && (head + rest)[0] == head[0]
  {
  }


  /** Each task's block holds exactly one `sleep 1`. */
  lemma ShellBlockSleeps(t: Task, index: nat, total: nat, platform: string)
    ensures Lines.Count(ShellBlock(t, index, total, platform), SleepLine) == 1
  {
    var a := ShellAction(t, platform);
    var b := ShellBlock(t, index, total, platform);
    assert b == [b[0], b[1]] + a + ShellTail;
    assert b[0][0] == 'e' && b[1][0] == 'e' && a[0][0] == 'e';
    if KindOf(t.kind) == Unknown {
      assert a == [a[0]];
      assert b == [b[0], b[1], a[0]] + ShellTail;
      SleepOnce1(b[0], b[1], a[0]);
    } else {
      LaunchIsNotSleep(KindOf(t.kind), t.command, platform);
      assert a == [a[0], a[1]];
      assert b == [b[0], b[1], a[0], a[1]] + ShellTail;
      SleepOnce2(b[0], b[1], a[0], a[1]);
    }
  }

  /** A block of three lines none of which begins with `s`, then the tail, waits once. */
  lemma SleepOnce1(b0: string, b1: string, a0: string)
    requires |b0| > 0 && b0[0] != 's' && |b1| > 0 && b1[0] != 's' && |a0| > 0 && a0[0] != 's'
    ensures Lines.Count([b0, b1, a0] + ShellTail, SleepLine) == 1
  {
    NotSleep(b0);
    NotSleep(b1);
    NotSleep(a0);
    Lines.CountOnlyAt([b0, b1, a0] + ShellTail, SleepLine, 4);
  }

  /** A block of four lines none of which begins with `s`, then the tail, waits once. */
  lemma SleepOnce2(b0: string, b1: string, a0: string, a1: string)
    requires |b0| > 0 && b0[0] != 's' && |b1| > 0 && b1[0] != 's'
    requires |a0| > 0 && a0[0] != 's' && |a1| > 0 && a1[0] != 's'
    ensures Lines.Count([b0, b1, a0, a1] + ShellTail, SleepLine) == 1
  {
    NotSleep(b0);
    NotSleep(b1);
    NotSleep(a0);
    NotSleep(a1);
    Lines.CountOnlyAt([b0, b1, a0, a1] + ShellTail, SleepLine, 5);
  }


  /** The blocks of the first `k` tasks hold one `sleep 1` each. */
  lemma {:induction false} ShellBlocksSleeps(ts: seq<Task>, k: nat, total: nat, platform: string)
    requires k <= |ts|
    ensures Lines.Count(Lines.Blocks(ts[..k], ShellBlockOf(total, platform)), SleepLine) == k
  {
    if k > 0 {
      ShellBlocksSleeps(ts, k - 1, total, platform);
      var prev := Lines.Blocks(ts[..k - 1], ShellBlockOf(total, platform));
      assert ts[..k][..k - 1] == ts[..k - 1];
      ShellBlockSleeps(ts[k - 1], k - 1, total, platform);
      Lines.CountAppend(prev, ShellBlock(ts[k - 1], k - 1, total, platform), SleepLine);
    }
  }

  /** The header holds no `sleep 1`. */
  lemma HeaderNoSleep(name: string, total: nat, isoTime: string, localTime: string)
    ensures SleepLine !in ShellHeader(name, total, isoTime, localTime)
  {
    var h := ShellHeader(name, total, isoTime, localTime);
    forall k | 0 <= k < |h| ensures h[k] != SleepLine {
      if k != 1 && k != 6 {
        assert h[k][0] != 's';
      }
    }
  }

  /** The footer holds no `sleep 1`. */
  lemma FooterNoSleep()
    ensures SleepLine !in ShellFooter
  {
    forall k | 0 <= k < |ShellFooter| ensures ShellFooter[k] != SleepLine {
      assert ShellFooter[k][0] != 's';
    }
  }

  /** The script holds exactly one `sleep 1` per task. */
  lemma ShellScriptSleeps(group: TaskGroup, platform: string, isoTime: string, localTime: string)
    ensures Lines.Count(ShellLines(group, platform, isoTime, localTime), SleepLine) == |group.tasks|
  {
    var h := ShellHeader(group.name, |group.tasks|, isoTime, localTime);
    var b := Lines.Blocks(group.tasks, ShellBlockOf(|group.tasks|, platform));
    assert group.tasks[..|group.tasks|] == group.tasks;
    ShellBlocksSleeps(group.tasks, |group.tasks|, |group.tasks|, platform);
    HeaderNoSleep(group.name, |group.tasks|, isoTime, localTime);
    FooterNoSleep();
    Lines.CountAppend(h, b, SleepLine);
    Lines.CountAppend(h + b, ShellFooter, SleepLine);
  }
}
