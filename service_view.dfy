/** ServiceManagementView: the page that installs, uninstalls, starts and stops
    the background service. Its buttons are enabled by the Can* properties,
    its label shows the service state, and every action runs through one
    wrapper that raises and lowers the in-progress flag. What the
    ServiceCommunication calls answer is a parameter. */
module ServiceView {

  /** The actions behind the page's buttons and check box. */
  datatype ServiceAction = Install | Uninstall | StartService | StopService | SetAutoStart(enable: bool)

  /** The two actions that ask the user to confirm first. */
  predicate NeedsConfirmation(a: ServiceAction)
  {
    a.Uninstall? || a.StopService?
  }

  /** The message shown while an action runs. */
  function ProgressMessage(a: ServiceAction): string
  {
    match a
    case Install => "Installing service..."
    case Uninstall => "Uninstalling service..."
    case StartService => "Starting service..."
    case StopService => "Stopping service..."
    case SetAutoStart(enable) => if enable then "Enabling auto-start..." else "Disabling auto-start..."
  }

  /** The message shown when the call returned `success`. */
  function ResultMessage(a: ServiceAction, success: bool): string
  {
    match a
    case Install => if success then "Service installed successfully." else "Failed to install service."
    case Uninstall => if success then "Service uninstalled successfully." else "Failed to uninstall service."
    case StartService => if success then "Service started successfully." else "Failed to start service."
    case StopService => if success then "Service stopped successfully." else "Failed to stop service."
    case SetAutoStart(enable) =>
      if success then (if enable then "Auto-start enabled successfully." else "Auto-start disabled successfully.")
      else (if enable then "Failed to enable auto-start." else "Failed to disable auto-start.")
  }

  /** Success and failure of an action read differently, and neither reads like
      the message shown while it runs. */
  lemma OutcomeMessagesDiffer(a: ServiceAction)
    ensures ResultMessage(a, true) != ResultMessage(a, false)
    ensures ResultMessage(a, true) != ProgressMessage(a) && ResultMessage(a, false) != ProgressMessage(a)
  {
  }

  /** What a ServiceCommunication install/uninstall/start/stop/auto-start call did. */
  datatype CallOutcome = Returned(success: bool) | Threw(message: string)

  /** What the status queries of RefreshServiceStatus did: IsServiceInstalled
      threw, IsServiceRunning threw after the installed flag was read, or both
      answered. */
  datatype StatusProbe = InstalledThrew | RunningThrew(installed: bool) | Status(installed: bool, running: bool)

  const StatusCheckError: string := "Error checking service status."

  class ServiceManagementView {
    var isServiceInstalled: bool
    var isServiceRunning: bool
    var autoStartEnabled: bool
    var isOperationInProgress: bool
    var statusMessage: string

    /** The view starts from the defaults and refreshes the status once. */
    constructor (probe: StatusProbe)
      ensures !isOperationInProgress
      ensures probe.Status? ==>
        isServiceInstalled == probe.installed && isServiceRunning == probe.running &&
        autoStartEnabled == probe.installed && statusMessage == ""
      ensures probe.RunningThrew? ==>
        isServiceInstalled == probe.installed && !isServiceRunning && !autoStartEnabled &&
        statusMessage == StatusCheckError
      ensures probe.InstalledThrew? ==>
        !isServiceInstalled && !isServiceRunning && !autoStartEnabled && statusMessage == StatusCheckError
    {
      isServiceInstalled := false;
      isServiceRunning := false;
      autoStartEnabled := false;
      isOperationInProgress := false;
      statusMessage := "";
      new;
      RefreshServiceStatus(probe);
    }

    predicate CanInstall()
      reads this
    {
      !isOperationInProgress && !isServiceInstalled
    }

    predicate CanUninstall()
      reads this
    {
      !isOperationInProgress && isServiceInstalled
    }

    predicate CanStart()
      reads this
    {
      !isOperationInProgress && isServiceInstalled && !isServiceRunning
    }

    predicate CanStop()
      reads this
    {
      !isOperationInProgress && isServiceInstalled && isServiceRunning
    }

    /** The label names the state; an uninstalled service reads "Not Installed"
        whatever its running flag says. */
    function ServiceStatusText(): (r: string)
      reads this
      ensures r == "Not Installed" <==> !isServiceInstalled
      ensures r == "Running" <==> isServiceInstalled && isServiceRunning
      ensures r == "Stopped" <==> isServiceInstalled && !isServiceRunning
    {
      if !isServiceInstalled then "Not Installed"
      else if isServiceRunning then "Running"
      else "Stopped"
    }

    /** RefreshServiceStatus: the flags are read back from the service, and the
        auto-start box follows the installed flag. A failing query keeps the
        flags it did not reach and reports an error. */
    method RefreshServiceStatus(probe: StatusProbe)
      modifies `isServiceInstalled, `isServiceRunning, `autoStartEnabled, `statusMessage
      ensures probe.Status? ==>
        isServiceInstalled == probe.installed && isServiceRunning == probe.running &&
        autoStartEnabled == isServiceInstalled && statusMessage == old(statusMessage)
      ensures probe.RunningThrew? ==>
        isServiceInstalled == probe.installed && isServiceRunning == old(isServiceRunning) &&
        autoStartEnabled == old(autoStartEnabled) && statusMessage == StatusCheckError
      ensures probe.InstalledThrew? ==>
        isServiceInstalled == old(isServiceInstalled) && isServiceRunning == old(isServiceRunning) &&
        autoStartEnabled == old(autoStartEnabled) && statusMessage == StatusCheckError
    {
      match probe {
        case InstalledThrew =>
          statusMessage := StatusCheckError;
        case RunningThrew(installed) =>
          isServiceInstalled := installed;
          statusMessage := StatusCheckError;
        case Status(installed, running) =>
          isServiceInstalled := installed;
          isServiceRunning := running;
          autoStartEnabled := isServiceInstalled;
      }
    }

    /** What one run of an action leaves behind, against the state before it.
        A call that throws shows its message and keeps the flags, as the refresh
        is skipped. A call that returns shows its result, and the refresh then
        sets the flags the status query reached; a failing query replaces the
        message with the error, as RefreshServiceStatus says. */
    twostate predicate Ran(a: ServiceAction, call: CallOutcome, probe: StatusProbe)
      reads this
    {
      !isOperationInProgress &&
      match call
      case Threw(message) =>
        statusMessage == "Error: " + message &&
        isServiceInstalled == old(isServiceInstalled) && isServiceRunning == old(isServiceRunning) &&
        autoStartEnabled == old(autoStartEnabled)
      case Returned(ok) =>
        match probe
        case Status(installed, running) =>
          statusMessage == ResultMessage(a, ok) &&
          isServiceInstalled == installed && isServiceRunning == running && autoStartEnabled == installed
        case RunningThrew(installed) =>
          statusMessage == StatusCheckError &&
          isServiceInstalled == installed && isServiceRunning == old(isServiceRunning) &&
          autoStartEnabled == old(autoStartEnabled)
        case InstalledThrew =>
          statusMessage == StatusCheckError &&
          isServiceInstalled == old(isServiceInstalled) && isServiceRunning == old(isServiceRunning) &&
          autoStartEnabled == old(autoStartEnabled)
    }

    /** ExecuteServiceOperation around one action. The in-progress flag is raised
        for the call and always lowered at the end; the answer is the call's, or
        false when it throws. */
    method ExecuteServiceOperation(a: ServiceAction, call: CallOutcome, probe: StatusProbe) returns (success: bool)
      modifies this
      ensures Ran(a, call, probe)
      ensures success <==> call.Returned? && call.success
    {
      isOperationInProgress := true;
      statusMessage := ProgressMessage(a);
      match call {
        case Threw(message) =>
          statusMessage := "Error: " + message;
          success := false;
        case Returned(ok) =>
          statusMessage := ResultMessage(a, ok);
          RefreshServiceStatus(probe);
          success := ok;
      }
      isOperationInProgress := false;
    }

    /** A button or check-box click: uninstall and stop go ahead only when the
        user confirms, and an unconfirmed click changes nothing; everything else
        runs the action at once. */
    method Click(a: ServiceAction, confirmed: bool, call: CallOutcome, probe: StatusProbe)
      modifies this
      ensures NeedsConfirmation(a) && !confirmed ==>
        isServiceInstalled == old(isServiceInstalled) && isServiceRunning == old(isServiceRunning) &&
        autoStartEnabled == old(autoStartEnabled) && isOperationInProgress == old(isOperationInProgress) &&
        statusMessage == old(statusMessage)
      ensures !NeedsConfirmation(a) || confirmed ==> Ran(a, call, probe)
    {
      if NeedsConfirmation(a) && !confirmed {
        return;
      }
      var _ := ExecuteServiceOperation(a, call, probe);
    }
  }

  /** While an operation runs, every action is disabled. */
  lemma ActionsLockedWhileBusy(v: ServiceManagementView)
    requires v.isOperationInProgress
    ensures !v.CanInstall() && !v.CanUninstall() && !v.CanStart() && !v.CanStop()
  {
  }

  /** When idle, exactly one of install and uninstall is offered; start and stop
      need the service installed and are never offered together, and when
      installed and idle exactly one of them is. */
  lemma ActionsExclusive(v: ServiceManagementView)
    ensures !v.isOperationInProgress ==> (v.CanInstall() <==> !v.CanUninstall())
    ensures v.CanStart() || v.CanStop() ==> v.isServiceInstalled
    ensures !(v.CanStart() && v.CanStop())
    ensures !v.isOperationInProgress && v.isServiceInstalled ==> (v.CanStart() <==> !v.CanStop())
  {
  }
}
