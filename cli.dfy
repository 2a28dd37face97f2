/** The command switch of the program: one invocation reads the command name and its
    argument words, runs the matching store operation and reports how it ended. Reading
    and writing the task file, the clock and the console are outside: the caller loads the
    collection into a `TaskStore`, passes the two clock readings an `add` would take, and
    saves the collection when `written` is true. */
module Cli {
  import opened Text
  import opened Tasks
  import opened Store

  const Commands: set<string> := {"add", "update", "delete", "mark-in-progress", "mark-done", "list"}

  /** `Number(args[0])`: NaN when there is no first argument. */
  function IdArgument(args: seq<string>): Number {
    if args == [] then NaN else ParseNumber(args[0])
  }

  /** `args.slice(1)`. */
  function AfterFirst(args: seq<string>): seq<string> {
    if args == [] then [] else args[1..]
  }

  /** `args[0]` as the `list` filter, with a missing argument as the empty (falsy) text. */
  function FilterArgument(args: seq<string>): string {
    if args == [] then [] else args[0]
  }

  /** An id passed as the first argument the way `list` prints it names that id. */
  lemma IdArgumentRendered(id: int)
    ensures IdArgument([IntToDecimal(id)]) == Num(id)
  {
    ParseRendered(id);
  }

  /** The status the process exits with. */
  function ExitCode(r: Outcome): int {
    if r == ValidationError || r == NotFound then 1 else 0
  }

  /** One run of the program. `lines` are the task lines `list` prints; `written` says
      whether `writeTasks` runs, which happens only after a successful change. */
  method Dispatch(store: TaskStore, command: string, args: seq<string>, firstNow: Timestamp, secondNow: Timestamp)
    returns (r: Outcome, lines: seq<string>, written: bool)
    modifies store
    ensures written <==> r == Ok && command in Commands && command != "list"
    ensures !written ==> store.tasks == old(store.tasks)
    ensures ExitCode(r) != 0 ==> !written
    ensures r == Help <==> command !in Commands
    ensures command != "list" ==> lines == []
    ensures UniqueIds(old(store.tasks)) ==> UniqueIds(store.tasks)
    ensures command == "add" ==>
              (r == Ok || r == ValidationError) &&
              (r == ValidationError <==> Description(args) == []) &&
              (r == Ok ==> store.tasks == old(store.tasks) + [Task(NextId(old(store.tasks)), Description(args), Todo, firstNow, secondNow)])
    ensures command == "update" ==>
              (r == Ok || r == ValidationError || r == NotFound) &&
              (r == ValidationError <==> !Truthy(IdArgument(args)) || Description(AfterFirst(args)) == []) &&
              (r == NotFound <==> r != ValidationError && !HasId(old(store.tasks), IdArgument(args).value))
    ensures command == "update" && r == Ok ==>
              Truthy(IdArgument(args)) &&
              FindIndex(old(store.tasks), IdArgument(args).value).Some? &&
              var i := FindIndex(old(store.tasks), IdArgument(args).value).value;
              store.tasks == old(store.tasks)[i := old(store.tasks)[i].(description := Description(AfterFirst(args)), updatedAt := firstNow)]
    ensures command == "delete" ==>
              (r == Ok || r == ValidationError || r == NotFound) &&
              (r == ValidationError <==> !Truthy(IdArgument(args))) &&
              (r == NotFound <==> Truthy(IdArgument(args)) && !HasId(old(store.tasks), IdArgument(args).value))
    ensures command == "delete" && r == Ok ==>
              Truthy(IdArgument(args)) &&
              FindIndex(old(store.tasks), IdArgument(args).value).Some? &&
              var i := FindIndex(old(store.tasks), IdArgument(args).value).value;
              store.tasks == old(store.tasks)[..i] + old(store.tasks)[i + 1..]
    ensures command == "mark-in-progress" || command == "mark-done" ==>
              (r == Ok || r == NotFound) &&
              (r == NotFound <==> Lookup(old(store.tasks), IdArgument(args)).None?)
    ensures (command == "mark-in-progress" || command == "mark-done") && r == Ok ==>
              Lookup(old(store.tasks), IdArgument(args)).Some? &&
              var i := Lookup(old(store.tasks), IdArgument(args)).value;
              var status := if command == "mark-done" then Done else InProgress;
              store.tasks == old(store.tasks)[i := old(store.tasks)[i].(status := status, updatedAt := firstNow)]
    ensures command == "list" ==>
              r == Ok &&
              var filter := FilterArgument(args);
              var shown := if filter == [] then store.tasks else Filter(store.tasks, filter);
              |lines| == |shown| && forall k :: 0 <= k < |lines| ==> lines[k] == RenderLine(shown[k])
  {
    lines, written := [], false;
    if command == "add" {
      r := store.Add(args, firstNow, secondNow);
    } else if command == "update" {
      r := store.Update(IdArgument(args), AfterFirst(args), firstNow);
    } else if command == "delete" {
      r := store.Delete(IdArgument(args));
    } else if command == "mark-in-progress" {
      r := store.SetStatus(IdArgument(args), InProgress, firstNow);
    } else if command == "mark-done" {
      r := store.SetStatus(IdArgument(args), Done, firstNow);
    } else if command == "list" {
      var shown;
      shown, lines := store.List(FilterArgument(args));
      r := Ok;
    } else {
      r := Help;
    }
    written := r == Ok && command != "list";
  }

  /** The words `Buy` and `milk` make the description `Buy milk`. */
  lemma BuyMilk()
    ensures Description(["Buy", "milk"]) == "Buy milk"
  {
    assert Join(["Buy", "milk"]) == "Buy milk";
    TrimUnpadded("Buy milk");
  }

  /** The first step of a session against an empty task file: `add Buy milk` creates
      task 1, `todo`, and the file is written. */
  method SessionAdd() returns (store: TaskStore, r: Outcome, written: bool)
    ensures fresh(store) && store.tasks == [Task(1, "Buy milk", Todo, "T1", "T1")]
    ensures r == Ok && written
  {
    store := new TaskStore([]);
    BuyMilk();
    var lines;
    assert NextId([]) == 1;
    r, lines, written := Dispatch(store, "add", ["Buy", "milk"], "T1", "T1");
  }

  /** The session goes on: `mark-in-progress 1` starts the task, and `list todo` then
      prints no task line. */
  method SessionStart() returns (store: TaskStore, shown: seq<string>)
    ensures fresh(store) && store.tasks == [Task(1, "Buy milk", InProgress, "T1", "T2")]
    ensures shown == []
  {
    var r, lines, written;
    store, r, written := SessionAdd();
    IdArgumentRendered(1);
    assert IntToDecimal(1) == "1";
    r, lines, written := Dispatch(store, "mark-in-progress", ["1"], "T2", "T2");
    assert store.tasks[0].status != Todo;
    r, shown, written := Dispatch(store, "list", ["todo"], "T3", "T3");
  }

  /** The session ends: `delete 1` empties the file and a second `delete 1` is not found
      and exits with status 1. */
  method SessionDelete() returns (first: Outcome, second: Outcome, left: seq<Task>)
    ensures first == Ok && ExitCode(first) == 0
    ensures second == NotFound && ExitCode(second) == 1
    ensures left == []
  {
    var store, shown := SessionStart();
    IdArgumentRendered(1);
    assert IntToDecimal(1) == "1";
    assert FindIndex(store.tasks, 1) == Some(0);
    var lines, written;
    first, lines, written := Dispatch(store, "delete", ["1"], "T4", "T4");
    assert store.tasks == [];
    second, lines, written := Dispatch(store, "delete", ["1"], "T5", "T5");
    left := store.tasks;
  }
}
