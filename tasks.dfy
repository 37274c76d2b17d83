/** The launcher's task records and the task store's fallback seed list
    (src/main/index.js, the `load-tasks` handler). */
module Tasks {
  import opened Options
  import Text

  /** A task id; `None` is a task object without an `id` property. */
  type TaskId = Option<string>

  /** A user-defined task. `kind` is the source's `type` field ("app", "website",
      "command", "server", or anything else a stored file holds). */
  datatype Task = Task(
    id: TaskId,
    name: string,
    kind: string,
    command: string,
    description: Option<string>,
    category: Option<string>)

  /** How the script generators read a task's type string. */
  datatype Kind = App | Website | Command | Server | Unknown

  function KindOf(kind: string): Kind {
    if kind == "app" then App
    else if kind == "website" then Website
    else if kind == "command" then Command
    else if kind == "server" then Server
    else Unknown
  }

  /** A named snapshot of selected tasks, as saved by the task list. */
  datatype TaskGroup = TaskGroup(id: string, name: string, tasks: seq<Task>, createdAt: string)

  /** The four tasks the store returns when its file is missing or unreadable. */
  const DefaultTasks: seq<Task> := [
    Task(Some("1"), "Open Calculator", "app", "calc", Some("Launch Windows Calculator"), Some("System")),
    Task(Some("2"), "Open Notepad", "app", "notepad", Some("Launch Notepad"), Some("System")),
    Task(Some("3"), "Google Search", "website", "https://www.google.com", Some("Open Google in browser"), Some("Web")),
    Task(Some("4"), "Check IP", "command", "ipconfig", Some("Show network configuration"), Some("Network"))
  ]

  /** `load-tasks`: the parsed file when it could be read and parsed (`Some`),
      otherwise the seed list. Reading and JSON parsing are the caller's. */
  function LoadTasks(stored: Option<seq<Task>>): (r: seq<Task>)
    ensures stored.Some? ==> r == stored.value
    ensures stored.None? ==> |r| == 4
    ensures stored.None? ==> forall i :: 0 <= i < 4 ==> r[i].id == Some(Text.NatToString(i + 1))
  {
    match stored
    case Some(ts) => ts
    case None => DefaultTasks
  }

  /** The seed list holds two apps, one website and one command, each with
      a description and a category. */
  lemma DefaultTasksShape()
    ensures [DefaultTasks[0].kind, DefaultTasks[1].kind, DefaultTasks[2].kind, DefaultTasks[3].kind]
            == ["app", "app", "website", "command"]
    ensures forall t :: t in DefaultTasks ==> t.description.Some? && t.category.Some?
  {
  }
}
