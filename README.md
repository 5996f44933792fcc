# PM2 dashboard: command construction, display helpers and the execute endpoint

This project models the logic of a browser dashboard for the PM2 process
manager and of the small Express server behind it. It covers the following:

- **Command lines.** The dashboard builds them for listing, stopping,
  restarting and tailing the logs of a process.
- **The `/api/execute` endpoint.** The server runs a command through the
  shell only when it starts with `pm2`, and turns the outcome into a JSON
  reply.
- **The client side of a request.** A non-2xx status is raised as an error.
  An error that mentions `fetch` falls back to canned demo replies.
- **Follow-ups.** What a stop, restart or logs request leads to: a reload, an
  error message, or new panel text.
- **Display helpers.** These are the status CSS class, the memory unit, the
  uptime text and the script name shown for an executable path.
- **The dashboard object's own state.** This is its process list, the
  current view, the process whose logs are followed, and whether its two
  polling timers are running.

Modules, one per file:

- `Text` (`text.dfy`): the JavaScript string operations the code relies on,
  stated over `seq<char>`. These are `startsWith`, `includes`, ASCII
  `toLowerCase`, `split`/`join`/`pop`, and integer rendering in template
  literals, with a reader that inverts the rendering.
- `Format` (`format.dfy`): `getStatusClass`, `formatMemory`, `formatUptime`
  and the script column.
- `Commands` (`commands.dfy`): the command lines, and what `stopProcess`,
  `restartProcess` and `loadLogs` do with a reply.
- `Demo` (`demo.dfy`): `simulateCommand`.
- `Dashboard` (`dashboard.dfy`): the `PM2Dashboard` class, whose methods
  update its fields in place.
- `Server` (`server.dfy`): the `/api/execute` handler, as the ordered list of
  effects it has (spawn a command, send a reply).
- `Client` (`client.dfy`): `executeCommand`, plus end-to-end lemmas. These
  join the dashboard's commands, the server's guard and reply, and the
  dashboard's follow-ups.

The server code has no password check and no socket broadcaster. The model
follows the code: the endpoint is guarded only by the `pm2` prefix, and the
only periodic work is the dashboard's own polling timers.

## Model

| member | source | states |
|---|---|---|
| Text.ContainsIff | script.js:276 | `includes` as a left-to-right scan holds exactly when some index holds an occurrence |
| Text.ContainsAfterPrefix | script.js:270-276 | an occurrence whose first character is absent from a prefix lies wholly after that prefix |
| Text.ToLowerAsciiSpec | script.js:170 | lower-casing leaves no upper-case letter and changes only letter case |
| Text.LowerAsciiFixed | script.js:170 | lower-casing a lower-case string leaves it unchanged |
| Text.Split | script.js:130 | `split` always yields at least one piece, no piece holds the separator, and several pieces mean the separator occurs |
| Text.JoinSplit | script.js:130 | joining the pieces of a split gives back the original string |
| Text.SplitJoin | script.js:130 | splitting a join of separator-free pieces gives back the pieces |
| Text.LastPieceIsSuffix | script.js:130 | the popped last piece has no separator, is a suffix, and is the whole string or comes right after a separator |
| Text.NatToString | script.js:187-190 | a rendered natural is a non-empty digit string without a leading zero |
| Text.ReadIntString | script.js:187-190 | a rendered integer followed by a non-digit is read back as the same integer and the same remainder |
| Format.StatusClass | script.js:168-171 | a missing or empty status gives `errored`; otherwise the class is the status with only letter case changed, and has no upper-case letter |
| Format.StatusClassIdempotent | script.js:168-171 | a status class fed back in as a status comes out unchanged |
| Format.StatusClassIgnoresCase | script.js:168-171 | statuses that differ only in letter case get the same class |
| Format.FormatMemory | script.js:173-177 | `0 MB` exactly for a missing or zero count; gigabytes exactly from 1024³ bytes on; the quantity shown times its unit is the byte count |
| Format.NestedFloors | script.js:181-185 | the chained floors of seconds, minutes, hours and days equal direct floors of the milliseconds, and days and hours-of-day recombine into hours |
| Format.FormatUptime | script.js:179-191 | `N/A` exactly for a missing or zero timestamp; otherwise the largest unit that is at least one, and the whole next unit left over, bound the elapsed time from both sides (negative elapsed times fall to the seconds form) |
| Format.ShowsUnique | script.js:179-191 | at most one display shows a given elapsed time, so the uptime display is determined by the elapsed time |
| Format.ParseUptimeText | script.js:187-190 | every uptime text is read back as the display it came from |
| Format.UptimeTextInjective | script.js:187-190 | different displays never print the same text |
| Format.ExecPathDisplay | script.js:130 | `N/A` exactly when the path is missing or its last `/`-piece is empty; otherwise that last piece, which holds no `/` |
| Format.ExecPathDisplayIsTail | script.js:130 | a shown script name is a `/`-free tail of the path that starts it or follows a `/` |
| Format.ExecPathDisplayEmptyTail | script.js:130 | an empty path, or one ending in `/`, shows `N/A` |
| Commands.QuotedRoundTrip | script.js:195 | the name put between the quotes of a command is read back from it, whatever it holds |
| Commands.StopCommand | script.js:195 | the stop command starts with `pm2 stop ` and carries the name as its quoted argument |
| Commands.RestartCommand | script.js:208 | the restart command starts with `pm2 restart ` and carries the name as its quoted argument |
| Commands.LogsCommand | script.js:243 | the logs command starts with `pm2 logs `, ends with ` --lines 100 --nostream` and carries the name in between |
| Commands.CommandsInjective | script.js:195-243 | different names give different stop, restart and logs commands |
| Commands.NameIsNotEscaped | script.js:195 | every double quote in the name appears unescaped in the stop command, before the closing quote; for the name `x"; rm -rf ~; "`, the text `"; rm` follows the early closing quote |
| Commands.AfterAction | script.js:193-217 | the list is reloaded exactly when the reply says success; otherwise the reply's error, or the raised message, is shown after the action's own prefix |
| Commands.LogsPanelText | script.js:244-248 | the panel changes exactly when the reply says success; it shows the output when there is some, and `No logs available` when the output is missing or empty |
| Demo.SimulateCommand | script.js:284-367 | the exact listing command gets three processes, then anything mentioning `pm2 logs` gets the ten log lines, then anything mentioning `pm2 stop` or `pm2 restart` is acknowledged, and everything else alone fails as unsupported |
| Demo.DemoAcceptsDashboardCommands | script.js:284-367 | every command the dashboard builds succeeds in demo mode |
| Dashboard.PM2Dashboard.constructor | script.js:2-9 | the view is the stored preference, or `cards` when none or an empty one is stored; the list is empty, no log process is selected, and only the process timer runs |
| Dashboard.PM2Dashboard.RenderProcesses | script.js:85-91 | the cards are drawn exactly when the current view is `cards`, which is the view `View()` names |
| Dashboard.PM2Dashboard.SwitchView | script.js:40-59 | the current view becomes the requested one, and the cards are drawn exactly when it is `cards` |
| Dashboard.PM2Dashboard.LoadProcesses | script.js:65-83 | a successful listing replaces the list; a failed one leaves it as it was |
| Dashboard.PM2Dashboard.ProcessTimerTick | script.js:394-400 | a tick, which happens only while the process timer runs, requests `pm2 jlist` exactly when the processes tab is active |
| Dashboard.PM2Dashboard.LoadLogs | script.js:239-252 | a request is made exactly when a non-empty process is selected, and its quoted argument is that process |
| Dashboard.PM2Dashboard.SelectLogProcess | script.js:225-237 | the process is selected, log polling runs exactly when the name is non-empty, the logs command for it is sent then, the panel shows the selection prompt otherwise, and polling only ever runs with a process selected |
| Dashboard.PM2Dashboard.Destroy | script.js:402-405 | both timers are stopped |
| Server.Rejection | server.js:13-18 | a refused command gets status 400, `success: false` and the fixed error message, with no output and no stderr |
| Server.ExecResponse | server.js:20-33 | status 200; `success` exactly when the command succeeded; stdout as output or the error message as error; stderr passed through either way |
| Server.HandleExecute | server.js:10-34 | a refused command is only answered with the rejection; an accepted one is spawned exactly once, first, with the 10-second timeout, and its outcome is the one reply |
| Server.ExactlyOneReply | server.js:10-34 | every request gets exactly one reply |
| Server.SpawnedCommandsAreGuarded | server.js:13-20 | whatever is spawned starts with `pm2` and carries the 10-second timeout |
| Server.AllowedIsPrefixTest | server.js:13 | the guard accepts a command exactly when its first three characters are `pm2` |
| Server.AllowedAfterPrefix | server.js:13 | anything after `pm2` is accepted, including other words glued to it and a `;` that starts a second shell command |
| Server.RefusedCommands | server.js:13-18 | a missing or empty command, or one with another prefix, is only answered with the rejection |
| Client.ExecuteCommand | script.js:259-282 | a 2xx answer resolves with its body; a raised message mentioning `fetch` gives the demo reply, and any other one is raised again |
| Client.AsActionResult | script.js:193-217 | a stop or restart handler sees `success` and `error` from the server body or the demo reply (an absent error prints as `undefined`), or the raised error with its message |
| Client.LogsAfter | script.js:239-252 | a raised error leaves the logs panel alone; a server body is shown as the logs panel rule says; demo log lines are shown joined by newlines, a demo acknowledgement shows its text, and a demo refusal leaves the panel alone |
| Client.DashboardCommandsAllowed | server.js:13 | the listing, stop, restart and logs commands all pass the server's guard |
| Client.ActionThroughServer | script.js:193-217 | a stop or restart that reaches the server reloads the list exactly when the shell command succeeded, and otherwise shows the shell's error after the action's prefix |
| Client.ActionWithoutServer | script.js:272-280 | a stop or restart while the server cannot be reached always reloads the list |
| Client.LogsWithoutServer | script.js:239-252 | a logs request while the server cannot be reached shows the ten demo log lines joined by newlines |
| Client.LogsThroughServer | script.js:239-252 | a logs request through the server changes the panel exactly when the shell command succeeded, and shows its stdout when there is some |
| Client.RefusedCommandRaises | script.js:268-281 | a refused command's 400 reply is raised as an error unless its status text mentions `fetch` |

## Left out

- The DOM: the cards and table HTML, tab switching, the process picker, error banners and the connection badge. Only which view is drawn, and the text a logs request or an empty selection puts in the logs panel, are modelled.
- Dashboard.PM2Dashboard.SelectLogProcess: each call is modelled as running to its end before the next. In the source the call awaits `loadLogs` between clearing the old log timer and starting the new one. A second selection during that wait finds no timer to clear. Picking `A` and then the empty option can leave a log timer running, and `A`'s logs shown, with no process selected. Picking `A` and then `B` can leave two timers running, one of which nothing ever clears, not even `destroy`. So `Valid()` holds in the model but not in the source under such interleavings.
- Dashboard.PM2Dashboard.SwitchView: a view name that no view button carries makes the source throw at the button lookup. That happens after `currentView` is set and the preference stored, and before anything is drawn. The stored name then makes every later page load throw in `init`, before the process timer starts. The model draws the table for every name other than `cards`, and its constructor always starts the process timer.
- `clearLogs`: it only resets the logs panel to the selection prompt, a DOM write with no state of its own.
- Dashboard.PM2Dashboard.constructor: `init` also draws the stored view and sends the first `pm2 jlist` request. The model leaves both to later `SwitchView` and `LoadProcesses` calls.
- `fetch`, Express routing, static files and `listen`. A request's result is an input: either a server answer with its status text, or a failure message.
- `child_process.exec`. Its outcome (exit code zero or an error, with stdout and stderr) is an input, and the timeout is recorded as the value passed to it.
- Timer timing. Each timer is a boolean saying whether it runs, and one tick of the process timer is a method. Asynchronous interleavings between requests are not modelled.
- `localStorage`. The stored view preference is a constructor argument. Writing the preference in `switchView` is not modelled.
- `JSON.parse` of the listing, and the shape of PM2's records beyond the fields the demo listing fills in. `LoadProcesses` takes the parsed listing or its failure.
- Format.FormatMemory: the `toFixed(1)` rounding to one decimal is not modelled. The contract states the exact quantity before rounding, and its unit.
- Format.StatusClass: lower-casing covers ASCII letters only. Non-ASCII case mapping is not modelled.
- JavaScript's exponent form for very large numbers in template literals. Integers are always rendered in plain decimal.
- Client.ExecuteCommand: a failure inside `response.json()` is not modelled. Only the non-2xx error and the network failure are.
- Demo.SimulateCommand: the listing is returned as records, not as its JSON text, and the log lines as a sequence whose text is their newline join.
- Command values that are not strings (numbers, objects) in the request body. The command is an optional string.
- Password authentication and live-update sockets. The server code has neither.
