/**
 Demo mode: the canned replies the dashboard falls back to when the request
 to the server fails with a fetch error.
 */
module Demo {
  import opened Text
  import opened Commands

  /** The fields of a PM2 process record that the dashboard reads. */
  datatype ProcessInfo = ProcessInfo(
    name: string,
    pid: int,
    status: string,
    pmUptime: int,
    restartTime: int,
    execPath: string,
    cpu: int,
    memory: int)

  /** The three processes demo mode lists when the clock reads `now`. */
  function DemoProcesses(now: int): seq<ProcessInfo> {
    [ ProcessInfo("web-server", 1234, "online", now - 3600000, 2, "/app/server.js", 15, 67108864),
      ProcessInfo("api-service", 5678, "stopped", now - 1800000, 0, "/app/api.js", 0, 0),
      ProcessInfo("worker", 9012, "online", now - 7200000, 5, "/app/worker.js", 8, 134217728) ]
  }

  const DEMO_LOG_COUNT := 10

  /** The `k`-th demo log line (counting from 0, oldest first). */
  function DemoLogLine(k: int): string
    requires 0 <= k < DEMO_LOG_COUNT
  {
    match k
    case 0 => "2024-01-01 12:00:01: Server started on port 3000"
    case 1 => "2024-01-01 12:00:05: Database connection established"
    case 2 => "2024-01-01 12:01:15: Received GET request to /api/users"
    case 3 => "2024-01-01 12:01:16: Query executed: SELECT * FROM users"
    case 4 => "2024-01-01 12:01:17: Response sent: 200 OK"
    case 5 => "2024-01-01 12:02:30: Received POST request to /api/auth"
    case 6 => "2024-01-01 12:02:31: User authentication successful"
    case 7 => "2024-01-01 12:02:32: JWT token generated"
    case 8 => "2024-01-01 12:03:45: WebSocket connection established"
    case _ => "2024-01-01 12:04:10: Real-time data push initiated"
  }

  /** The ten log lines demo mode returns, oldest first. */
  function DemoLogLines(): seq<string> {
    seq(DEMO_LOG_COUNT, k requires 0 <= k < DEMO_LOG_COUNT => DemoLogLine(k))
  }

  const DEMO_ACK := "Command executed successfully"
  const DEMO_UNSUPPORTED := "Command not supported in demo mode"

  /**
   A canned reply. The listing is kept as records rather than JSON text, and
   the log reply as its lines, whose text is the lines joined by newlines.
   */
  datatype DemoReply =
    | DemoListing(processes: seq<ProcessInfo>)
    | DemoLogs(lines: seq<string>)
    | DemoAck
    | DemoError(error: string)
  {
    predicate Success() {
      !DemoError?
    }

    /** The `output` field of a successful reply that carries text. */
    function Output(): string
      requires DemoLogs? || DemoAck?
    {
      if DemoLogs? then Join(lines, '\n') else DEMO_ACK
    }
  }

  /**
   The demo reply to a command, routed in a fixed order: the exact listing
   command, then anything mentioning `pm2 logs`, then anything mentioning
   `pm2 stop` or `pm2 restart`; everything else is refused.
   */
  function SimulateCommand(command: string, now: int): (r: DemoReply)
    ensures r.DemoListing? <==> command == LIST_COMMAND
    ensures r.DemoListing? ==> |r.processes| == 3
    ensures r.DemoLogs? <==> command != LIST_COMMAND && Contains(command, "pm2 logs")
    ensures r.DemoLogs? ==> r.lines == DemoLogLines() && |r.lines| == 10
    ensures r.DemoAck? <==>
      command != LIST_COMMAND && !Contains(command, "pm2 logs") &&
      (Contains(command, "pm2 stop") || Contains(command, "pm2 restart"))
    ensures !r.Success() <==>
      command != LIST_COMMAND && !Contains(command, "pm2 logs") &&
      !Contains(command, "pm2 stop") && !Contains(command, "pm2 restart")
    ensures !r.Success() ==> r.error == DEMO_UNSUPPORTED
  {
    if command == LIST_COMMAND then DemoListing(DemoProcesses(now))
    else if Contains(command, "pm2 logs") then DemoLogs(DemoLogLines())
    else if Contains(command, "pm2 stop") || Contains(command, "pm2 restart") then DemoAck
    else DemoError(DEMO_UNSUPPORTED)
  }

  /**
   In demo mode every command the dashboard builds succeeds: the listing
   command lists, and a stop, restart or logs command gets an output.
   */
  lemma DemoAcceptsDashboardCommands(name: string, now: int)
    ensures SimulateCommand(LIST_COMMAND, now).DemoListing?
    ensures SimulateCommand(StopCommand(name), now).Success()
    ensures SimulateCommand(RestartCommand(name), now).Success()
    ensures SimulateCommand(LogsCommand(name), now).DemoLogs?
  {
    ContainsPrefix(StopCommand(name), "pm2 stop");
    ContainsPrefix(RestartCommand(name), "pm2 restart");
    ContainsPrefix(LogsCommand(name), "pm2 logs");
  }
}
