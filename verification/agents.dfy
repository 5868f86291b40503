/**
 * The "AI agents" task board (components/AIAgents.tsx): three fixed tasks,
 * each with a status and an optional result, and the `runAgent` sequence
 * that drives one task through THINKING, GENERATING and then COMPLETED or
 * ERROR.
 *
 * The remote generation call is an `Outcome` handed to the run: either the
 * text the client returned or a failure. Each write to the `tasks` state
 * cell is a pure update of the list (`UpdateTask`), and a run's writes are
 * taken one after another, with no other action in between.
 */
module AIAgents {
  import opened Optional

  datatype Status = Idle | Thinking | Generating | Completed | Error

  datatype Task = Task(
    id: string,
    name: string,
    description: string,
    prompt: string,
    result: Option<string>,
    status: Status)

  /** The three prompt texts the board is created with. */
  datatype Prompts = Prompts(bookOutline: string, productIdeas: string, marketingStrategy: string)

  /** What the content generation client did: resolved with a text, or threw. */
  datatype Outcome = Success(text: string) | Failure

  /** The change one `setTasks` call makes to the task it targets. */
  datatype Patch = SetStatus(status: Status) | Complete(text: string)

  // ---------------------------------------------------------------------
  // The board and its queries
  // ---------------------------------------------------------------------

  predicate HasTask(tasks: seq<Task>, id: string) {
    exists i :: 0 <= i < |tasks| && tasks[i].id == id
  }

  predicate UniqueIds(tasks: seq<Task>) {
    forall i, j :: 0 <= i < j < |tasks| ==> tasks[i].id != tasks[j].id
  }

  /** The fields a run never touches: id, name, description and prompt. */
  predicate SameIdentity(a: Task, b: Task) {
    a.id == b.id && a.name == b.name && a.description == b.description && a.prompt == b.prompt
  }

  /** The task list the board starts with. */
  function InitialTasks(prompts: Prompts): (r: seq<Task>)
    ensures |r| == 3 && UniqueIds(r)
    ensures r[0].id == "task1" && r[1].id == "task2" && r[2].id == "task3"
    ensures forall i :: 0 <= i < |r| ==> r[i].status == Idle && r[i].result == None
  {
    [ Task("task1", "Agent Alpha", "Expert Book Editor", prompts.bookOutline, None, Idle),
      Task("task2", "Agent Beta", "Market Trend Analyst", prompts.productIdeas, None, Idle),
      Task("task3", "Agent Gamma", "Growth Strategist", prompts.marketingStrategy, None, Idle) ]
  }

  /** `tasks.find(t => t.id === id)`: the first task with that id, if any. */
  function FindTask(tasks: seq<Task>, id: string): (r: Option<Task>)
    ensures r.Some? <==> HasTask(tasks, id)
    ensures r.Some? ==> r.value in tasks && r.value.id == id
  {
    if tasks == [] then None
    else if tasks[0].id == id then Some(tasks[0])
    else
      assert forall i :: 1 <= i < |tasks| ==> tasks[i] == tasks[1..][i - 1];
      FindTask(tasks[1..], id)
  }

  /** A generation is under way: the statuses the guard refuses and the button is disabled for. */
  predicate InFlight(s: Status) {
    s == Thinking || s == Generating
  }

  /** The guard at the head of `runAgent`: the task exists and is in flight. */
  predicate Blocked(tasks: seq<Task>, id: string) {
    match FindTask(tasks, id)
    case Some(t) => InFlight(t.status)
    case None => false
  }

  // ---------------------------------------------------------------------
  // Updates of the `tasks` state cell
  // ---------------------------------------------------------------------

  /** `{ ...t, status }` or `{ ...t, status: COMPLETED, result }`. */
  function Patched(t: Task, p: Patch): Task {
    match p
    case SetStatus(s) => t.(status := s)
    case Complete(text) => t.(status := Completed, result := Some(text))
  }

  /**
   * `prev.map(t => t.id === id ? patched : t)`: only the tasks with that id
   * change, the length and order are kept, and no task's identity changes.
   */
  function UpdateTask(tasks: seq<Task>, id: string, p: Patch): (r: seq<Task>)
    ensures |r| == |tasks|
    ensures forall i :: 0 <= i < |tasks| ==> SameIdentity(r[i], tasks[i])
    ensures forall i :: 0 <= i < |tasks| && tasks[i].id != id ==> r[i] == tasks[i]
    ensures UniqueIds(tasks) ==> UniqueIds(r)
  {
    seq(|tasks|, i requires 0 <= i < |tasks| => if tasks[i].id == id then Patched(tasks[i], p) else tasks[i])
  }

  /** The last write of a run: COMPLETED with the text, or ERROR. */
  function FinalPatch(o: Outcome): Patch {
    match o
    case Success(text) => Complete(text)
    case Failure => SetStatus(Error)
  }

  /**
   * The successive values `runAgent(id)` writes to the `tasks` cell when the
   * calling closure was rendered with the list `view` and the cell holds
   * `board`. The guard and the lookup read `view`; every write updates the
   * list the cell holds at that moment. The result is: no write when the
   * guard refuses, one harmless write when `view` has no task with the id,
   * and otherwise the THINKING, GENERATING and final writes.
   */
  function RunWritesFrom(view: seq<Task>, board: seq<Task>, id: string, o: Outcome): seq<seq<Task>> {
    if Blocked(view, id) then []
    else
      var thinking := UpdateTask(board, id, SetStatus(Thinking));
      if !HasTask(view, id) then [thinking]
      else
        var generating := UpdateTask(thinking, id, SetStatus(Generating));
        [thinking, generating, UpdateTask(generating, id, FinalPatch(o))]
  }

  /**
   * The writes of a run whose closure was rendered with the list the cell
   * holds when the run starts. This is the case for a button click, because
   * every write re-renders the board before the next click.
   */
  function RunWrites(tasks: seq<Task>, id: string, o: Outcome): seq<seq<Task>> {
    RunWritesFrom(tasks, tasks, id, o)
  }

  /** The prompt `runAgent(id)` sends to the generation client, if it calls it at all. */
  function RunRequest(tasks: seq<Task>, id: string): Option<string> {
    if Blocked(tasks, id) then None
    else match FindTask(tasks, id)
      case Some(t) => Some(t.prompt)
      case None => None
  }

  /** The task list once `runAgent(id)` has finished. */
  function Settled(tasks: seq<Task>, id: string, o: Outcome): seq<Task> {
    var w := RunWrites(tasks, id, o);
    if w == [] then tasks else w[|w| - 1]
  }

  // ---------------------------------------------------------------------
  // The view rules
  // ---------------------------------------------------------------------

  /** The run button's caption. */
  function ButtonLabel(s: Status): (r: string)
    ensures r == "Initialize" <==> s == Idle
    ensures r == "Rerun" <==> s == Completed
    ensures r == "Busy" <==> s != Idle && s != Completed
  {
    if s == Idle then "Initialize" else if s == Completed then "Rerun" else "Busy"
  }

  /**
   * Whether the result pane renders the result: while GENERATING or
   * COMPLETED, and only for a result that is present and, as JavaScript
   * truthiness has it, not the empty string.
   */
  function ResultShown(t: Task): (r: bool)
    ensures r <==> (t.status == Generating || t.status == Completed) && t.result.Some? && |t.result.value| > 0
  {
    (t.status == Generating || t.status == Completed)
    && (match t.result case Some(text) => text != "" case None => false)
  }

  // ---------------------------------------------------------------------
  // The board's state cell
  // ---------------------------------------------------------------------

  class Board {
    var tasks: seq<Task>

    ghost predicate Valid()
      reads this
    {
      UniqueIds(tasks)
    }

    /** The board at mount: the three initial tasks, all IDLE without a result. */
    constructor (prompts: Prompts)
      ensures Valid()
      ensures tasks == InitialTasks(prompts)
    {
      tasks := InitialTasks(prompts);
    }

    /**
     * `runAgent(taskId)`, its generation call resolved as `outcome`. Returns
     * the values written to `tasks`, in order (a record of the run only),
     * and the prompt sent to the generation client (`None` when it was not
     * called). The closure is taken to be rendered with the current list.
     */
    method RunAgent(taskId: string, outcome: Outcome) returns (ghost writes: seq<seq<Task>>, request: Option<string>)
      requires Valid()
      modifies this
      ensures Valid()
      ensures writes == RunWrites(old(tasks), taskId, outcome)
      ensures request == RunRequest(old(tasks), taskId)
      ensures tasks == Settled(old(tasks), taskId, outcome)
    {
      // Both lookups read the closure's list; for this method (a button click) that is the list
      // the cell held when the run began.
      var snapshot := tasks;
      writes, request := [], None;
      var current := FindTask(snapshot, taskId);
      if current.Some? && InFlight(current.value.status) {
        return;
      }
      tasks := UpdateTask(tasks, taskId, SetStatus(Thinking));
      writes := writes + [tasks];
      var task := FindTask(snapshot, taskId);
      if task.None? {
        return;
      }
      tasks := UpdateTask(tasks, taskId, SetStatus(Generating));
      writes := writes + [tasks];
      request := Some(task.value.prompt);
      match outcome {
        case Success(content) =>
          tasks := UpdateTask(tasks, taskId, Complete(content));
        case Failure =>
          tasks := UpdateTask(tasks, taskId, SetStatus(Error));
      }
      writes := writes + [tasks];
    }
  }

  // ---------------------------------------------------------------------
  // Lemmas
  // ---------------------------------------------------------------------

  /** In a list with unique ids, finding a task's id yields that task. */
  lemma {:induction false} FindTaskAt(tasks: seq<Task>, k: nat)
    requires UniqueIds(tasks) && k < |tasks|
    ensures FindTask(tasks, tasks[k].id) == Some(tasks[k])
  {
    if k > 0 {
      assert tasks[0].id != tasks[k].id;
      assert UniqueIds(tasks[1..]) by {
        forall i, j | 0 <= i < j < |tasks[1..]| ensures tasks[1..][i].id != tasks[1..][j].id {
          assert tasks[1..][i] == tasks[i + 1] && tasks[1..][j] == tasks[j + 1];
        }
      }
      FindTaskAt(tasks[1..], k - 1);
    }
  }

  /** With unique ids, an update rewrites exactly the task at `k`. */
  lemma UpdateAt(tasks: seq<Task>, k: nat, p: Patch)
    requires UniqueIds(tasks) && k < |tasks|
    ensures UpdateTask(tasks, tasks[k].id, p) == tasks[k := Patched(tasks[k], p)]
  {
  }

  /** The run button is disabled exactly when `runAgent` would ignore the click. */
  lemma GuardMatchesButton(tasks: seq<Task>, k: nat)
    requires UniqueIds(tasks) && k < |tasks|
    ensures Blocked(tasks, tasks[k].id) <==> InFlight(tasks[k].status)
  {
    FindTaskAt(tasks, k);
  }

  /** A run on a task that is THINKING or GENERATING writes nothing and calls no generation. */
  lemma RunIgnoredWhileInFlight(tasks: seq<Task>, k: nat, o: Outcome)
    requires UniqueIds(tasks) && k < |tasks| && InFlight(tasks[k].status)
    ensures RunWrites(tasks, tasks[k].id, o) == []
    ensures RunRequest(tasks, tasks[k].id) == None
    ensures Settled(tasks, tasks[k].id, o) == tasks
  {
    FindTaskAt(tasks, k);
  }

  /** A run for an id no task has changes no task and calls no generation. */
  lemma RunUnknownId(tasks: seq<Task>, id: string, o: Outcome)
    requires !HasTask(tasks, id)
    ensures RunWrites(tasks, id, o) == [tasks]
    ensures RunRequest(tasks, id) == None
    ensures Settled(tasks, id, o) == tasks
  {
    var thinking := UpdateTask(tasks, id, SetStatus(Thinking));
    assert thinking == tasks;
  }

  /**
   * A run on a task that is not in flight writes three lists. In each, every
   * other task is as before and the task keeps its identity; its status goes
   * THINKING, GENERATING, and then COMPLETED with the returned text or ERROR
   * with its earlier result. The generation client gets the task's prompt.
   */
  lemma RunTrace(tasks: seq<Task>, k: nat, o: Outcome)
    requires UniqueIds(tasks) && k < |tasks| && !InFlight(tasks[k].status)
    ensures var w := RunWrites(tasks, tasks[k].id, o);
      && |w| == 3
      && w[0] == tasks[k := tasks[k].(status := Thinking)]
      && w[1] == tasks[k := tasks[k].(status := Generating)]
      && w[2] == tasks[k := Patched(tasks[k], FinalPatch(o))]
    ensures RunRequest(tasks, tasks[k].id) == Some(tasks[k].prompt)
  {
    var id := tasks[k].id;
    FindTaskAt(tasks, k);
    var thinking := UpdateTask(tasks, id, SetStatus(Thinking));
    UpdateAt(tasks, k, SetStatus(Thinking));
    assert thinking[k].id == id;
    var generating := UpdateTask(thinking, id, SetStatus(Generating));
    UpdateAt(thinking, k, SetStatus(Generating));
    assert generating == tasks[k := tasks[k].(status := Generating)];
    UpdateAt(generating, k, FinalPatch(o));
    assert generating[k].id == id;
  }

  /** A successful run ends with only that task changed: COMPLETED, holding the returned text. */
  lemma RunSucceeds(tasks: seq<Task>, k: nat, text: string)
    requires UniqueIds(tasks) && k < |tasks| && !InFlight(tasks[k].status)
    ensures Settled(tasks, tasks[k].id, Success(text))
         == tasks[k := tasks[k].(status := Completed, result := Some(text))]
  {
    RunTrace(tasks, k, Success(text));
  }

  /** A failed run ends with only that task changed: ERROR, its result as it was before the run. */
  lemma RunFails(tasks: seq<Task>, k: nat)
    requires UniqueIds(tasks) && k < |tasks| && !InFlight(tasks[k].status)
    ensures Settled(tasks, tasks[k].id, Failure) == tasks[k := tasks[k].(status := Error)]
  {
    RunTrace(tasks, k, Failure);
  }

  /**
   * At each point where a run suspends (after the THINKING write and after
   * the GENERATING write), a second `runAgent` for the same task is refused:
   * it writes nothing and calls no generation.
   */
  lemma SecondRunRefused(tasks: seq<Task>, k: nat, o: Outcome, o2: Outcome)
    requires UniqueIds(tasks) && k < |tasks| && !InFlight(tasks[k].status)
    ensures forall i :: 0 <= i < 2 ==>
      RunWrites(RunWrites(tasks, tasks[k].id, o)[i], tasks[k].id, o2) == []
      && RunRequest(RunWrites(tasks, tasks[k].id, o)[i], tasks[k].id) == None
  {
    RunTrace(tasks, k, o);
    var w := RunWrites(tasks, tasks[k].id, o);
    forall i | 0 <= i < 2
      ensures RunWrites(w[i], tasks[k].id, o2) == [] && RunRequest(w[i], tasks[k].id) == None
    {
      assert UniqueIds(w[i]) by {
        assert forall a :: 0 <= a < |tasks| ==> w[i][a].id == tasks[a].id;
      }
      FindTaskAt(w[i], k);
    }
  }

  /** A finished run leaves the task COMPLETED or ERROR, which the guard lets through again. */
  lemma SettledCanRerun(tasks: seq<Task>, k: nat, o: Outcome)
    requires UniqueIds(tasks) && k < |tasks| && !InFlight(tasks[k].status)
    ensures var s := Settled(tasks, tasks[k].id, o);
      && (s[k].status == Completed || s[k].status == Error)
      && !Blocked(s, tasks[k].id)
      && RunRequest(s, tasks[k].id) == Some(tasks[k].prompt)
  {
    RunTrace(tasks, k, o);
    var s := Settled(tasks, tasks[k].id, o);
    assert UniqueIds(s) by {
      assert forall a :: 0 <= a < |tasks| ==> s[a].id == tasks[a].id;
    }
    FindTaskAt(s, k);
  }

  /**
   * A rerun of a COMPLETED task keeps the earlier text through THINKING and
   * GENERATING, and the pane shows it again while GENERATING; after a failed
   * rerun the task is ERROR, still holding that text, and the pane hides it.
   */
  lemma RerunKeepsEarlierResult(tasks: seq<Task>, k: nat)
    requires UniqueIds(tasks) && k < |tasks|
    requires tasks[k].status == Completed && tasks[k].result.Some? && tasks[k].result.value != ""
    ensures var w := RunWrites(tasks, tasks[k].id, Failure);
      && w[0][k].result == tasks[k].result && !ResultShown(w[0][k])
      && w[1][k].result == tasks[k].result && ResultShown(w[1][k])
      && w[2][k].status == Error && w[2][k].result == tasks[k].result && !ResultShown(w[2][k])
  {
    RunTrace(tasks, k, Failure);
  }

  /** Once completed with a non-empty text, the pane shows that text. */
  lemma CompletedResultShown(tasks: seq<Task>, k: nat, text: string)
    requires UniqueIds(tasks) && k < |tasks| && !InFlight(tasks[k].status) && text != ""
    ensures ResultShown(Settled(tasks, tasks[k].id, Success(text))[k])
  {
    RunSucceeds(tasks, k, text);
  }

  /**
   * The button reads "Busy" whenever it is disabled; an ERROR task also reads
   * "Busy" although its button is enabled and a click reruns it.
   */
  lemma LabelAndButton(s: Status)
    ensures InFlight(s) ==> ButtonLabel(s) == "Busy"
    ensures !InFlight(s) ==> (ButtonLabel(s) == "Busy" <==> s == Error)
  {
  }

  /**
   * The timer's closure holds the mount-time list, in which task1 is IDLE.
   * So when a run started by a click on task1 is still THINKING or
   * GENERATING, the automatic run passes its guard anyway. It writes
   * THINKING and GENERATING over the in-flight task and sends the prompt a
   * second time, although a guard that read the current list would refuse it.
   */
  lemma AutoRunDuplicatesRequest(prompts: Prompts, clickOutcome: Outcome, timerOutcome: Outcome, i: nat)
    requires i < 2
    ensures var mount := InitialTasks(prompts);
      var current := RunWrites(mount, "task1", clickOutcome)[i];
      var w := RunWritesFrom(mount, current, "task1", timerOutcome);
      && InFlight(current[0].status)
      && Blocked(current, "task1")
      && !Blocked(mount, "task1")
      && |w| == 3
      && w[0][0].status == Thinking && w[1][0].status == Generating
      && RunRequest(mount, "task1") == Some(prompts.bookOutline)
  {
    var mount := InitialTasks(prompts);
    RunTrace(mount, 0, clickOutcome);
    var current := RunWrites(mount, "task1", clickOutcome)[i];
    assert UniqueIds(current) by {
      assert forall a :: 0 <= a < |mount| ==> current[a].id == mount[a].id;
    }
    FindTaskAt(current, 0);
    FindTaskAt(mount, 0);
    assert HasTask(mount, "task1") by { assert mount[0].id == "task1"; }
    var thinking := UpdateTask(current, "task1", SetStatus(Thinking));
    UpdateAt(current, 0, SetStatus(Thinking));
    assert thinking[0].id == "task1";
    UpdateAt(thinking, 0, SetStatus(Generating));
  }

  /** The automatic first run goes through the guard and sends the book-outline prompt. */
  lemma AutoRunFirstTask(prompts: Prompts, o: Outcome)
    ensures RunRequest(InitialTasks(prompts), "task1") == Some(prompts.bookOutline)
    ensures Settled(InitialTasks(prompts), "task1", o)[0].status
         == (if o.Success? then Completed else Error)
  {
    var tasks := InitialTasks(prompts);
    RunTrace(tasks, 0, o);
  }
}
