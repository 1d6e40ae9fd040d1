/** The process log, reduced to the events the handler reports. */
module Logging {

  datatype Event =
    | WriteFailed(message: string)  // "error writing response: %v"
    | CloseFailed(message: string)  // "error closing response body: %v"

  class Log {
    ghost var events: seq<Event>

    constructor ()
      ensures events == []
    {
      events := [];
    }

    method Printf(e: Event)
      modifies this
      ensures events == old(events) + [e]
    {
      events := events + [e];
    }
  }
}
