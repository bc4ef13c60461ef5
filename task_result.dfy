/** The result record every operation produces: a success flag, a message and
    an ordered log that callers append to in place. */
module Tasks {

  /** The observable content of a TaskResult at one moment. */
  datatype Outcome = Outcome(success: bool, message: string, logs: seq<string>)

  class TaskResult {
    var success: bool
    /** Java's uninitialised (null) message is represented by "". */
    var message: string
    /** The live log list: `getLogs().add(...)` and `addLog` both append here. */
    var logs: seq<string>

    function Snapshot(): (o: Outcome)
      reads this
      ensures o.success == success && o.message == message && o.logs == logs
    {
      Outcome(success, message, logs)
    }

    /** `new TaskResult()`: not successful, no message, empty log. */
    constructor ()
      ensures !success && message == "" && logs == []
    {
      success, message, logs := false, "", [];
    }

    /** `new TaskResult(success, message)`: the log starts empty. */
    constructor WithStatus(success: bool, message: string)
      ensures this.success == success && this.message == message && logs == []
    {
      this.success, this.message, logs := success, message, [];
    }

    method AddLog(line: string)
      modifies this
      ensures logs == old(logs) + [line]
      ensures success == old(success) && message == old(message)
    {
      logs := logs + [line];
    }

    /** `getLogs().addAll(lines)` on the live list. */
    method AddAllLogs(lines: seq<string>)
      modifies this
      ensures logs == old(logs) + lines
      ensures success == old(success) && message == old(message)
    {
      logs := logs + lines;
    }

    method SetSuccess(success: bool)
      modifies this
      ensures this.success == success
      ensures message == old(message) && logs == old(logs)
    {
      this.success := success;
    }

    method SetMessage(message: string)
      modifies this
      ensures this.message == message
      ensures success == old(success) && logs == old(logs)
    {
      this.message := message;
    }

    method SetLogs(logs: seq<string>)
      modifies this
      ensures this.logs == logs
      ensures success == old(success) && message == old(message)
    {
      this.logs := logs;
    }
  }
}
