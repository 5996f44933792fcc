/**
 The state the dashboard object keeps between events: the process list it
 last loaded, the view it renders (cards or table), the process whose logs
 are shown, and whether its two polling timers are running. Timers are
 modelled by whether they are active; a request the dashboard makes is
 returned as the command line it sends.
 */
module Dashboard {
  import opened Text
  import opened Commands
  import opened Demo

  datatype ViewKind = Cards | Table

  const CARDS_VIEW := "cards"

  /** The logs panel text while no process is selected. */
  const SELECT_PROMPT := "Select a process to view logs..."

  /** The parsed outcome of the `pm2 jlist` request that `loadProcesses` makes. */
  datatype ListingResult = Listed(processes: seq<ProcessInfo>) | ListingFailed(message: string)

  class PM2Dashboard {
    var processes: seq<ProcessInfo>
    var currentView: string
    var currentLogProcess: Option<string>
    // `logUpdateInterval` holds a live two-second timer
    var logPolling: bool
    // `processUpdateInterval` holds a live five-second timer
    var processPolling: bool

    /**
     Logs are polled only while a process is selected. Every method that
     touches the log timer re-establishes this whatever the state before, so
     it is a postcondition of those methods rather than a precondition.
     */
    ghost predicate Valid()
      reads this
    {
      logPolling ==> currentLogProcess.Some? && currentLogProcess.value != ""
    }

    /** The view `renderProcesses` draws: cards for the view named `cards`, the table otherwise. */
    function View(): ViewKind
      reads this
    {
      if currentView == CARDS_VIEW then Cards else Table
    }

    /**
     A new dashboard takes its view from the stored preference, or `cards`
     when none is stored, and starts the periodic process refresh.
     */
    constructor (storedView: Option<string>)
      ensures Valid()
      ensures currentView == if storedView.Some? && storedView.value != "" then storedView.value else CARDS_VIEW
      ensures processes == [] && currentLogProcess == None
      ensures !logPolling && processPolling
    {
      processes := [];
      currentLogProcess := None;
      logPolling := false;
      currentView := if storedView.Some? && storedView.value != "" then storedView.value else CARDS_VIEW;
      processPolling := true;
    }

    /** Draws the process list in the current view, and says which one it drew. */
    method RenderProcesses() returns (shown: ViewKind)
      ensures shown == View()
      ensures shown == Cards <==> currentView == CARDS_VIEW
    {
      if currentView == CARDS_VIEW {
        shown := Cards;
      } else {
        shown := Table;
      }
    }

    /** Switches to the named view and redraws in it. */
    method SwitchView(viewType: string) returns (shown: ViewKind)
      modifies this`currentView
      ensures currentView == viewType
      ensures shown == View()
      ensures shown == Cards <==> viewType == CARDS_VIEW
    {
      currentView := viewType;
      shown := RenderProcesses();
    }

    /**
     Stores the process list of a successful listing; after a failed one the
     list is left as it was and an error is shown instead.
     */
    method LoadProcesses(result: ListingResult)
      modifies this`processes
      ensures processes == if result.Listed? then result.processes else old(processes)
    {
      if result.Listed? {
        processes := result.processes;
      }
    }

    /** One tick of the five-second timer: reloads when the processes tab is active. */
    method ProcessTimerTick(processesTabActive: bool) returns (request: Option<string>)
      requires processPolling
      ensures request.Some? <==> processesTabActive
      ensures request.Some? ==> request.value == LIST_COMMAND
    {
      if processesTabActive {
        request := Some(LIST_COMMAND);
      } else {
        request := None;
      }
    }

    /** Asks for the last 100 log lines of the selected process, if one is selected. */
    method LoadLogs() returns (request: Option<string>)
      ensures request.Some? <==> currentLogProcess.Some? && currentLogProcess.value != ""
      ensures request.Some? ==>
        QuotedArgument(request.value, LOGS_HEAD, LOGS_TAIL) == currentLogProcess
    {
      if currentLogProcess.Some? && currentLogProcess.value != "" {
        request := Some(LogsCommand(currentLogProcess.value));
      } else {
        request := None;
      }
    }

    /**
     Selects the process whose logs are shown: any running log timer is
     stopped, and for a non-empty name the logs are loaded at once and a new
     timer started; for the empty name the panel shows the selection prompt.
     */
    method SelectLogProcess(name: string) returns (request: Option<string>, panel: Option<string>)
      modifies this`currentLogProcess, this`logPolling
      ensures Valid()
      ensures currentLogProcess == Some(name)
      ensures logPolling <==> name != ""
      ensures request.Some? <==> name != ""
      ensures request.Some? ==> request.value == LogsCommand(name)
      ensures panel.Some? <==> request.None?
      ensures panel.Some? ==> panel.value == SELECT_PROMPT
    {
      panel := None;
      currentLogProcess := Some(name);
      if logPolling {
        logPolling := false;
      }
      if name != "" {
        request := LoadLogs();
        logPolling := true;
      } else {
        request := None;
        panel := Some(SELECT_PROMPT);
      }
    }

    /** Stops both timers when the page is unloaded. */
    method Destroy()
      modifies this`logPolling, this`processPolling
      ensures Valid()
      ensures !logPolling && !processPolling
    {
      processPolling := false;
      logPolling := false;
    }
  }
}
