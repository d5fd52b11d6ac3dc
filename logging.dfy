/** The logger base class of `easy_prompting/logger.py`: a verbose flag,
    set on construction, gates every `log` call before it reaches the
    logger's own `_log`. What a logger does with a message is observed
    through a shared `Journal`: a concrete logger (a `LogPrint`, `LogFunc`
    or `LogFile`) records every message it is handed and its closing. */
module Logging {
  import opened Wrappers
  import opened Messages

  /** What a concrete logger was handed, in order. */
  datatype Event =
    | Logged(sink: string, message: Message, idx: Option<int>, tag: Option<string>)
    | Closed(sink: string)

  /** The outside world the loggers write to: every event of every logger,
      in the order they happened. */
  class Journal {
    var events: seq<Event>

    constructor()
      ensures events == []
    {
      events := [];
    }
  }

  /** A concrete logger, named so that its events can be told apart. */
  class Logger {
    var verbose: bool
    const name: string
    const journal: Journal

    /** `Logger()`: verbose until told otherwise. */
    constructor(name: string, journal: Journal)
      ensures verbose && this.name == name && this.journal == journal
    {
      verbose := true;
      this.name := name;
      this.journal := journal;
    }

    /** `set_verbose(verbose)`: the flag that `get_verbose` returns and
        that `log` consults. */
    method SetVerbose(verbose: bool)
      modifies this
      ensures this.verbose == verbose
    {
      this.verbose := verbose;
    }

    /** `log(message, idx, tag)`: handed on to `_log` exactly when the
        logger is verbose. */
    method Log(message: Message, idx: Option<int>, tag: Option<string>)
      modifies journal
      ensures journal.events == old(journal.events) + (if verbose then [Logged(name, message, idx, tag)] else [])
    {
      if verbose {
        journal.events := journal.events + [Logged(name, message, idx, tag)];
      }
    }

    /** `close()`, whatever the flag says. */
    method Close()
      modifies journal
      ensures journal.events == old(journal.events) + [Closed(name)]
    {
      journal.events := journal.events + [Closed(name)];
    }

    /** `__enter__`: the logger itself. */
    method Enter() returns (r: Logger)
      ensures r == this
    {
      return this;
    }

    /** `__exit__`: closes the logger. */
    method Exit()
      modifies journal
      ensures journal.events == old(journal.events) + [Closed(name)]
    {
      Close();
    }
  }
}
