/**
 How the dashboard sends a command to the server and what it makes of the
 answer: a non-2xx status is raised as an error, and an error whose message
 mentions `fetch` (the server cannot be reached) falls back to the demo
 replies. The network call itself is an input: either the server answered,
 or the request failed with some message.
 */
module Client {
  import opened Text
  import opened Commands
  import opened Demo
  import opened Server

  /** What the network call produced. */
  datatype Fetched =
    | Answered(response: Response, statusText: string)
    | FetchFailed(message: string)

  /** What `executeCommand` resolves with, or the message of what it raises. */
  datatype Outcome =
    | FromServer(body: Body)
    | FromDemo(reply: DemoReply)
    | Raised(message: string)

  /** The range of statuses a fetch response counts as `ok`. */
  predicate IsOk(status: int) {
    200 <= status <= 299
  }

  /** The message of the error raised inside the request, if any. */
  function ThrownMessage(fetched: Fetched): Option<string> {
    match fetched
    case FetchFailed(message) => Some(message)
    case Answered(response, statusText) =>
      if IsOk(response.status) then None
      else Some("HTTP " + IntToString(response.status) + ": " + statusText)
  }

  /**
   `executeCommand`: a 2xx answer resolves with its body; any error raised on
   the way (including the one for a non-2xx status) is replaced by the demo
   reply when its message mentions `fetch`, and raised again otherwise.
   */
  function ExecuteCommand(command: string, fetched: Fetched, now: int): (r: Outcome)
    ensures r.FromServer? <==> fetched.Answered? && IsOk(fetched.response.status)
    ensures r.FromServer? ==> r.body == fetched.response.body
    ensures r.FromDemo? <==> ThrownMessage(fetched).Some? && Contains(ThrownMessage(fetched).value, "fetch")
    ensures r.FromDemo? ==> r.reply == SimulateCommand(command, now)
    ensures r.Raised? ==> Some(r.message) == ThrownMessage(fetched) && !Contains(r.message, "fetch")
    ensures fetched.FetchFailed? && !r.FromDemo? ==> r == Raised(fetched.message)
  {
    match ThrownMessage(fetched)
    case None => FromServer(fetched.response.body)
    case Some(message) =>
      if Contains(message, "fetch") then FromDemo(SimulateCommand(command, now)) else Raised(message)
  }

  /** How a template literal shows a field the reply does not have. */
  const UNDEFINED := "undefined"

  /** What a stop or restart handler sees of the outcome: `success` and `error`, or the raised error. */
  function AsActionResult(o: Outcome): (r: ActionResult)
    ensures r.Threw? <==> o.Raised?
    ensures o.Raised? ==> r == Threw(o.message)
    ensures o.FromServer? ==> r == Replied(o.body.success, if o.body.error.Some? then o.body.error.value else UNDEFINED)
    ensures o.FromDemo? ==> r.Replied? && (r.success <==> o.reply.Success())
    ensures o.FromDemo? ==> r.error == if o.reply.DemoError? then o.reply.error else UNDEFINED
  {
    match o
    case FromServer(body) => Replied(body.success, if body.error.Some? then body.error.value else UNDEFINED)
    case FromDemo(reply) => Replied(reply.Success(), if reply.DemoError? then reply.error else UNDEFINED)
    case Raised(message) => Threw(message)
  }

  /**
   What the logs panel shows after `loadLogs`: new text only when the request
   resolved with a successful reply; a raised error is only logged. A demo
   listing cannot answer a logs command, which is never `pm2 jlist`, so
   nothing is promised for it.
   */
  function LogsAfter(o: Outcome): (t: Option<string>)
    ensures o.Raised? ==> t.None?
    ensures o.FromServer? ==> t == LogsPanelText(o.body.success, o.body.output)
    ensures o.FromDemo? && o.reply.DemoLogs? ==>
      t == Some(if Join(o.reply.lines, '\n') == "" then NO_LOGS else Join(o.reply.lines, '\n'))
    ensures o.FromDemo? && o.reply.DemoAck? ==> t == Some(DEMO_ACK)
    ensures o.FromDemo? && o.reply.DemoError? ==> t.None?
  {
    match o
    case FromServer(body) => LogsPanelText(body.success, body.output)
    case FromDemo(reply) =>
      LogsPanelText(reply.Success(), if reply.DemoLogs? || reply.DemoAck? then Some(reply.Output()) else None)
    case Raised(_) => None
  }

  /** Every command line the dashboard builds passes the server's guard. */
  lemma DashboardCommandsAllowed(name: string)
    ensures Allowed(Some(LIST_COMMAND))
    ensures Allowed(Some(StopCommand(name)))
    ensures Allowed(Some(RestartCommand(name)))
    ensures Allowed(Some(LogsCommand(name)))
  {
    assert LIST_COMMAND[..3] == ALLOWED_PREFIX;
    StartsWithTransitive(StopCommand(name), STOP_HEAD, ALLOWED_PREFIX);
    StartsWithTransitive(RestartCommand(name), RESTART_HEAD, ALLOWED_PREFIX);
    StartsWithTransitive(LogsCommand(name), LOGS_HEAD, ALLOWED_PREFIX);
  }

  /** The server's reply to a request, as a fetch answer with some status text. */
  function ServerAnswer(command: string, outcome: ExecOutcome, statusText: string): Fetched {
    Answered(Last(HandleExecute(Some(command), outcome)).response, statusText)
  }

  /**
   A stop or restart that reaches the server reloads the list exactly when the
   shell command succeeded, and otherwise shows the shell's error message.
   */
  lemma ActionThroughServer(a: Action, name: string, outcome: ExecOutcome, statusText: string, now: int)
    ensures
      var f := AfterAction(a, AsActionResult(ExecuteCommand(a.Command(name), ServerAnswer(a.Command(name), outcome, statusText), now)));
      (f.ReloadProcesses? <==> outcome.ExecOk?) &&
      (outcome.ExecFailed? ==> f == ShowError(a.FailedPrefix() + outcome.message))
  {
    DashboardCommandsAllowed(name);
  }

  /** A stop or restart while the server is unreachable always reloads the (demo) list. */
  lemma ActionWithoutServer(a: Action, name: string, message: string, now: int)
    requires Contains(message, "fetch")
    ensures AfterAction(a, AsActionResult(ExecuteCommand(a.Command(name), FetchFailed(message), now))) == ReloadProcesses
  {
    DemoAcceptsDashboardCommands(name, now);
  }

  /**
   A logs request that reaches the server shows the shell's stdout when it
   succeeded with some output, the placeholder when it succeeded silently,
   and leaves the panel alone when it failed.
   */
  lemma LogsThroughServer(name: string, outcome: ExecOutcome, statusText: string, now: int)
    ensures
      var t := LogsAfter(ExecuteCommand(LogsCommand(name), ServerAnswer(LogsCommand(name), outcome, statusText), now));
      (t.Some? <==> outcome.ExecOk?) &&
      (outcome.ExecOk? && outcome.stdout != "" ==> t == Some(outcome.stdout))
  {
    DashboardCommandsAllowed(name);
  }

  /**
   A logs request while the server cannot be reached shows the ten demo log
   lines, one per line.
   */
  lemma LogsWithoutServer(name: string, message: string, now: int)
    requires Contains(message, "fetch")
    ensures LogsAfter(ExecuteCommand(LogsCommand(name), FetchFailed(message), now)) == Some(Join(DemoLogLines(), '\n'))
  {
    DemoAcceptsDashboardCommands(name, now);
    var lines := DemoLogLines();
    assert lines[0] == DemoLogLine(0);
    assert Join(lines, '\n') == lines[0] + ['\n'] + Join(lines[1..], '\n');
  }

  /**
   A command the guard refuses comes back with status 400, which the client
   raises as an error unless its status text mentions `fetch`.
   */
  lemma RefusedCommandRaises(command: string, statusText: string, now: int)
    requires !Allowed(Some(command))
    requires !Contains(statusText, "fetch")
    ensures ExecuteCommand(command, ServerAnswer(command, ExecOk("", ""), statusText), now).Raised?
  {
    var head := "HTTP " + IntToString(400) + ": ";
    assert AllDigits(IntToString(400));
    assert 'f' !in head;
    ContainsAfterPrefix(head, statusText, "fetch");
  }
}
