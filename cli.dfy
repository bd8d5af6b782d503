/** The command-line entry point: a decision on the argument list and the
    one store call it leads to. Console text is left out; each outcome is a
    value of `Command`. */
module Cli {
  import opened TaskStore

  datatype Command =
    | NoCommand            // no arguments: the list of commands is printed
    | AddUsage             // `add` without a description: usage is printed
    | Add(description: string)
    | Unknown              // any other first argument

  /** The length check and the `switch` on the first argument. Matching is
      exact and case-sensitive, and arguments after the description are
      ignored. */
  function Dispatch(args: seq<string>): (c: Command)
    ensures c == NoCommand <==> |args| == 0
    ensures c == AddUsage <==> |args| == 1 && args[0] == "add"
    ensures c.Add? <==> |args| >= 2 && args[0] == "add"
    ensures c.Add? ==> c.description == args[1]
    ensures c == Unknown <==> |args| >= 1 && args[0] != "add"
  {
    if |args| == 0 then NoCommand
    else if args[0] == "add" then (if |args| < 2 then AddUsage else Add(args[1]))
    else Unknown
  }

  /** Runs one invocation against `manager`. Only `add <description>` calls
      the store, exactly once; every other outcome leaves it as it was.
      `status`, `createdAt` and `updatedAt` are what a new task is
      constructed with. */
  method Execute(args: seq<string>, manager: TaskManager,
                 status: string, createdAt: string, updatedAt: string)
    returns (c: Command)
    requires manager.Valid()
    modifies manager
    ensures c == Dispatch(args) && manager.Valid()
    ensures c.Add? ==>
      && manager.Records() == Added(old(manager.Records()), NewTask(args[1], status, createdAt, updatedAt))
      && |old(manager.tasks)| <= |manager.tasks| && manager.tasks[..|old(manager.tasks)|] == old(manager.tasks)
      && manager.saves == if NextId(IdsOf(old(manager.Records()))).Some?
                          then old(manager.saves) + [manager.Records()]
                          else old(manager.saves)
    ensures !c.Add? ==>
      && manager.tasks == old(manager.tasks) && manager.Records() == old(manager.Records())
      && manager.saves == old(manager.saves)
  {
    c := Dispatch(args);
    if c.Add? {
      var _ := manager.AddTask(c.description, status, createdAt, updatedAt);
    }
  }
}
