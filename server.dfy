/**
 The `/api/execute` endpoint: a command from the request body is run through
 the shell only when it starts with `pm2`, and the outcome of the run is
 turned into the JSON reply. The shell run itself is not modelled: its
 outcome is an input, and the handler's observable behaviour is the list of
 effects it has, in order.
 */
module Server {
  import opened Text

  const ALLOWED_PREFIX := "pm2"
  const EXEC_TIMEOUT_MS := 10000
  const REJECTION_MESSAGE := "Only PM2 commands are allowed"

  /**
   How `exec` ended: with exit code zero, or with an error (a non-zero exit or
   the timeout) carrying its message. Both carry what was written to stderr.
   */
  datatype ExecOutcome =
    | ExecOk(stdout: string, stderr: string)
    | ExecFailed(message: string, stderr: string)

  /** The JSON body of a reply; an absent field is `None`. */
  datatype Body = Body(success: bool, output: Option<string>, error: Option<string>, stderr: Option<string>)

  datatype Response = Response(status: int, body: Body)

  /** What handling a request does: spawn a shell command, or send a reply. */
  datatype Effect =
    | Spawn(command: string, timeoutMs: int)
    | Reply(response: Response)

  /** The guard: the command is present, non-empty and starts with `pm2`. */
  predicate Allowed(command: Option<string>) {
    command.Some? && command.value != "" && StartsWith(command.value, ALLOWED_PREFIX)
  }

  /** The reply to a command the guard refuses. */
  function Rejection(): (r: Response)
    ensures r.status == 400 && !r.body.success
    ensures r.body.error == Some(REJECTION_MESSAGE)
    ensures r.body.output.None? && r.body.stderr.None?
  {
    Response(400, Body(false, None, Some(REJECTION_MESSAGE), None))
  }

  /**
   The reply once `exec` has ended: status 200, `success` exactly when the
   command succeeded, its stdout as `output` or its error message as `error`,
   and its stderr passed through in both cases.
   */
  function ExecResponse(outcome: ExecOutcome): (r: Response)
    ensures r.status == 200
    ensures r.body.success <==> outcome.ExecOk?
    ensures r.body.stderr == Some(outcome.stderr)
    ensures outcome.ExecOk? ==> r.body.output == Some(outcome.stdout) && r.body.error.None?
    ensures outcome.ExecFailed? ==> r.body.error == Some(outcome.message) && r.body.output.None?
  {
    match outcome
    case ExecFailed(message, stderr) => Response(200, Body(false, None, Some(message), Some(stderr)))
    case ExecOk(stdout, stderr) => Response(200, Body(true, Some(stdout), None, Some(stderr)))
  }

  /** The number of replies among some effects. */
  function ReplyCount(effects: seq<Effect>): nat
    decreases |effects|
  {
    if |effects| == 0 then 0
    else (if effects[0].Reply? then 1 else 0) + ReplyCount(effects[1..])
  }

  /**
   Handles `POST /api/execute` whose body holds `command`, where `outcome` is
   how the shell run would end if the command were run. A refused command gets
   the 400 reply and nothing is spawned; an accepted one is spawned with the
   10-second timeout, and its outcome is replied once it has ended.
   */
  function HandleExecute(command: Option<string>, outcome: ExecOutcome): (effects: seq<Effect>)
    ensures |effects| == if Allowed(command) then 2 else 1
    ensures Last(effects).Reply?
    ensures forall k :: 0 <= k < |effects| - 1 ==> effects[k].Spawn?
    ensures effects[0].Spawn? <==> Allowed(command)
    ensures !Allowed(command) ==> Last(effects).response == Rejection()
    ensures Allowed(command) ==>
      effects[0] == Spawn(command.value, EXEC_TIMEOUT_MS) && Last(effects).response == ExecResponse(outcome)
  {
    if !Allowed(command) then
      [Reply(Rejection())]
    else
      [Spawn(command.value, EXEC_TIMEOUT_MS), Reply(ExecResponse(outcome))]
  }

  /** Every request gets exactly one reply. */
  lemma ExactlyOneReply(command: Option<string>, outcome: ExecOutcome)
    ensures ReplyCount(HandleExecute(command, outcome)) == 1
  {
    var effects := HandleExecute(command, outcome);
    if Allowed(command) {
      assert effects[1..][1..] == [];
      assert ReplyCount(effects[1..]) == 1;
    } else {
      assert effects[1..] == [];
    }
  }

  /** Whatever is spawned starts with `pm2` and carries the 10-second timeout. */
  lemma SpawnedCommandsAreGuarded(command: Option<string>, outcome: ExecOutcome)
    ensures forall e :: e in HandleExecute(command, outcome) && e.Spawn? ==>
      StartsWith(e.command, ALLOWED_PREFIX) && e.timeoutMs == EXEC_TIMEOUT_MS
  {
  }

  /** The guard is a bare prefix test: emptiness adds nothing to it. */
  lemma AllowedIsPrefixTest(s: string)
    ensures Allowed(Some(s)) <==> |s| >= 3 && s[..3] == "pm2"
  {
  }

  /**
   Anything after the prefix is accepted: other words glued to it, and shell
   separators that start a second command.
   */
  lemma AllowedAfterPrefix(rest: string)
    ensures Allowed(Some(ALLOWED_PREFIX + rest))
    ensures Allowed(Some("pm2x"))
    ensures Allowed(Some("pm2 jlist; rm -rf ~"))
  {
    assert (ALLOWED_PREFIX + rest)[..3] == ALLOWED_PREFIX;
    assert "pm2x"[..3] == ALLOWED_PREFIX;
    assert "pm2 jlist; rm -rf ~"[..3] == ALLOWED_PREFIX;
  }

  /** A missing command, an empty one, and one with another prefix are all refused. */
  lemma RefusedCommands(s: string)
    requires !StartsWith(s, ALLOWED_PREFIX)
    ensures HandleExecute(None, ExecOk("", "")) == [Reply(Rejection())]
    ensures HandleExecute(Some(""), ExecOk("", "")) == [Reply(Rejection())]
    ensures forall o :: HandleExecute(Some(s), o) == [Reply(Rejection())]
  {
  }
}
