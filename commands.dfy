/**
 The PM2 command lines the dashboard sends, and what it does with the reply
 to a stop, restart or logs request.
 */
module Commands {
  import opened Text

  // ---------------------------------------------------------------------------
  // Command lines
  // ---------------------------------------------------------------------------

  const LIST_COMMAND := "pm2 jlist"

  /**
   `head"name"tail`: the process name goes between double quotes exactly as
   given, without escaping.
   */
  function Quoted(head: string, name: string, tail: string): string {
    head + "\"" + name + "\"" + tail
  }

  /** The quoted argument of a command built as `head"…"tail`, if it has that shape. */
  function QuotedArgument(command: string, head: string, tail: string): Option<string> {
    var n := |head| + 1;
    var m := 1 + |tail|;
    if |command| >= n + m && command[..n] == head + "\"" && command[|command| - m..] == "\"" + tail
    then Some(command[n..|command| - m])
    else None
  }

  /** The quoted name is read back from a built command, whatever it holds. */
  lemma QuotedRoundTrip(head: string, name: string, tail: string)
    ensures QuotedArgument(Quoted(head, name, tail), head, tail) == Some(name)
  {
    var c := Quoted(head, name, tail);
    var n := |head| + 1;
    var m := 1 + |tail|;
    assert c == (head + "\"") + name + ("\"" + tail);
    assert c[..n] == head + "\"";
    assert c[|c| - m..] == "\"" + tail;
    assert c[n..|c| - m] == name;
  }

  const STOP_HEAD := "pm2 stop "
  const RESTART_HEAD := "pm2 restart "
  const LOGS_HEAD := "pm2 logs "
  const LOGS_TAIL := " --lines 100 --nostream"

  /** `pm2 stop "<name>"` */
  function StopCommand(name: string): (c: string)
    ensures StartsWith(c, STOP_HEAD)
    ensures QuotedArgument(c, STOP_HEAD, "") == Some(name)
  {
    QuotedRoundTrip(STOP_HEAD, name, "");
    Quoted(STOP_HEAD, name, "")
  }

  /** `pm2 restart "<name>"` */
  function RestartCommand(name: string): (c: string)
    ensures StartsWith(c, RESTART_HEAD)
    ensures QuotedArgument(c, RESTART_HEAD, "") == Some(name)
  {
    QuotedRoundTrip(RESTART_HEAD, name, "");
    Quoted(RESTART_HEAD, name, "")
  }

  /** `pm2 logs "<name>" --lines 100 --nostream` */
  function LogsCommand(name: string): (c: string)
    ensures StartsWith(c, LOGS_HEAD)
    ensures QuotedArgument(c, LOGS_HEAD, LOGS_TAIL) == Some(name)
  {
    QuotedRoundTrip(LOGS_HEAD, name, LOGS_TAIL);
    Quoted(LOGS_HEAD, name, LOGS_TAIL)
  }

  /** Different process names give different command lines. */
  lemma CommandsInjective(a: string, b: string)
    requires StopCommand(a) == StopCommand(b) || RestartCommand(a) == RestartCommand(b) ||
             LogsCommand(a) == LogsCommand(b)
    ensures a == b
  {
  }

  /**
   A name is not escaped: every double quote in the name appears as it is in
   the command, before the closing quote, so it closes the quoted argument
   early. With `x"; rm -rf ~; "` as the name, `"; rm` follows the early
   closing quote.
   */
  lemma NameIsNotEscaped(name: string)
    ensures forall i :: 0 <= i < |name| && name[i] == '"' ==>
      |STOP_HEAD| + 1 + i < |StopCommand(name)| - 1 && StopCommand(name)[|STOP_HEAD| + 1 + i] == '"'
    ensures OccursAt(StopCommand("x\"; rm -rf ~; \""), "\"; rm", 11)
  {
    var c := StopCommand("x\"; rm -rf ~; \"");
    assert c[11..16] == "\"; rm";
  }

  // ---------------------------------------------------------------------------
  // What follows a stop or restart
  // ---------------------------------------------------------------------------

  datatype Action = Stop | Restart
  {
    function Command(name: string): string {
      match this
      case Stop => StopCommand(name)
      case Restart => RestartCommand(name)
    }

    /** Shown before the error of a reply that says `success: false`. */
    function FailedPrefix(): string {
      match this
      case Stop => "Failed to stop process: "
      case Restart => "Failed to restart process: "
    }

    /** Shown before the message of an exception raised by the request. */
    function ErrorPrefix(): string {
      match this
      case Stop => "Error stopping process: "
      case Restart => "Error restarting process: "
    }
  }

  /** How a request for an action ended, as the action's handler sees it. */
  datatype ActionResult =
    | Replied(success: bool, error: string)
    | Threw(message: string)

  /** The handler either reloads the process list or shows an error. */
  datatype FollowUp = ReloadProcesses | ShowError(message: string)

  function AfterAction(a: Action, result: ActionResult): (f: FollowUp)
    ensures f.ReloadProcesses? <==> result.Replied? && result.success
    ensures result.Replied? && !result.success ==>
      f.ShowError? && StartsWith(f.message, a.FailedPrefix()) &&
      f.message[|a.FailedPrefix()|..] == result.error
    ensures result.Threw? ==>
      f.ShowError? && StartsWith(f.message, a.ErrorPrefix()) &&
      f.message[|a.ErrorPrefix()|..] == result.message
  {
    match result
    case Replied(success, error) =>
      if success then ReloadProcesses else ShowError(a.FailedPrefix() + error)
    case Threw(message) => ShowError(a.ErrorPrefix() + message)
  }

  const NO_LOGS := "No logs available"

  /**
   What the logs panel shows after a logs request: nothing changes unless the
   reply succeeded, and an empty output shows a placeholder.
   */
  function LogsPanelText(success: bool, output: Option<string>): (t: Option<string>)
    ensures t.Some? <==> success
    ensures t.Some? ==> t.value != ""
    ensures t.Some? && output.Some? && output.value != "" ==> t.value == output.value
    ensures success && (output.None? || output.value == "") ==> t == Some(NO_LOGS)
  {
    if !success then None
    else if output.Some? && output.value != "" then Some(output.value)
    else Some(NO_LOGS)
  }
}
