/**
 * The command dispatch table: a map from command names to handlers, filled
 * by Register and consulted by Run.
 */
module Dispatch {
  import opened Wrappers

  /** A command line: the command's name and the arguments after it. */
  datatype Command = Command(name: string, args: seq<string>)

  /**
   * A handler, seen through its effect: the program state it leaves and the
   * error it returns (Pass for a nil error).
   */
  type Handler<!S> = (S, Command) -> (S, Outcome<string>)

  /** The error Run returns for a name nobody registered. */
  function UnknownCommand(name: string): (e: Outcome<string>)
    ensures e.Fail? && |e.error| == |"unknown command: "| + |name|
    ensures e.error[..|"unknown command: "|] == "unknown command: "
    ensures e.error[|"unknown command: "|..] == name
  {
    Fail("unknown command: " + name)
  }

  class Commands<S(!new)> {
    var handlers: map<string, Handler<S>>

    /** An empty table (main.go makes one with an empty map). */
    constructor ()
      ensures handlers == map[]
    {
      handlers := map[];
    }

    /**
     * Runs `cmd` against state `s`: an unknown name fails without calling
     * any handler, so the state is left as it was; a known name gives exactly
     * what its handler gives.
     */
    function Run(s: S, cmd: Command): (r: (S, Outcome<string>))
      reads this
      ensures cmd.name !in handlers ==> r.0 == s && r.1 == UnknownCommand(cmd.name)
      ensures cmd.name in handlers ==> r == handlers[cmd.name](s, cmd)
    {
      if cmd.name in handlers then handlers[cmd.name](s, cmd)
      else (s, UnknownCommand(cmd.name))
    }

    /** Registers `f` under `name`, replacing any handler it had; other names keep theirs. */
    method Register(name: string, f: Handler<S>)
      modifies this
      ensures handlers == old(handlers)[name := f]
      ensures forall s, cmd: Command :: cmd.name != name ==> Run(s, cmd) == old(Run(s, cmd))
      ensures forall s, cmd: Command :: cmd.name == name ==> Run(s, cmd) == f(s, cmd)
    {
      handlers := handlers[name := f];
    }
  }
}
