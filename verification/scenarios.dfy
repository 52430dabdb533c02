/** Host-side runs of the view model: a host drives `ChatDemoViewModel`
    through a sequence of operations and reports what it observes.  Each run's
    postcondition follows from the operations' contracts alone. */
module ChatDemoScenarios {
  import opened EventLog
  import opened ChatDemo

  /** Company "acme", no profile: initialization succeeds, the chat is
      opened, then the demo is reset.  The handle sees exactly one open and
      one teardown; the open is the newest entry until the reset empties the
      log. */
  method OpenThenReset(now: string)
    returns (trace: seq<Command>, newestAfterOpen: Message, initialized: bool, status: StatusText, log: seq<Entry>)
    ensures trace == [Open, Teardown]
    ensures newestAfterOpen == Opening
    ensures !initialized && status == NotInitializedText && log == []
  {
    var vm := new ChatDemoViewModel();
    vm.companyId := "acme";
    vm.InitializeChat(now);
    var handle := vm.chat;
    vm.SucceedInitialization(now);
    ghost var beforeOpen := vm.eventLog;
    vm.OpenChat(now);
    PushedShifts(beforeOpen, Entry(Opening, Primary, Bullet, now));
    newestAfterOpen := vm.eventLog[0].message;
    vm.Reset(now);
    trace := handle.commands;
    initialized, status, log := vm.isInitialized, vm.statusText, vm.eventLog;
  }

  /** An empty company id: `InitializeChat` changes nothing. */
  method EmptyCompanyId(now: string)
    returns (initializing: bool, status: StatusText, log: seq<Entry>, hasHandle: bool)
    ensures !initializing && status == NotInitializedText && log == [] && !hasHandle
  {
    var vm := new ChatDemoViewModel();
    vm.InitializeChat(now);
    initializing, status, log, hasHandle := vm.isInitializing, vm.statusText, vm.eventLog, vm.chat != null;
  }

  /** Commands issued before any initialization are still logged, one entry
      each, though there is no handle to forward them to. */
  method CommandsWithoutHandle(now: string) returns (logLength: nat, hasHandle: bool)
    ensures logLength == 4 && !hasHandle
  {
    var vm := new ChatDemoViewModel();
    vm.OpenChat(now);
    vm.CloseChat(now);
    vm.ShowLauncher(now);
    vm.HideLauncher(now);
    logLength, hasHandle := |vm.eventLog|, vm.chat != null;
  }

  /** A success completion that arrives after a reset still applies: the
      view model reports "Ready" with no handle installed. */
  method LateSuccessAfterReset(now: string)
    returns (initialized: bool, status: StatusText, hasHandle: bool)
    ensures initialized && status == ReadyText && !hasHandle
  {
    var vm := new ChatDemoViewModel();
    vm.companyId := "acme";
    vm.InitializeChat(now);
    vm.Reset(now);
    vm.SucceedInitialization(now);
    initialized, status, hasHandle := vm.isInitialized, vm.statusText, vm.chat != null;
  }

  /** A failed initialization raises the alert with the error's description
      and keeps the handle it failed on. */
  method FailureKeepsHandle(description: string, now: string)
    returns (initialized: bool, status: StatusText, alert: bool, message: string, sameHandle: bool)
    ensures !initialized && status == FailedText
    ensures alert && message == description
    ensures sameHandle
  {
    var vm := new ChatDemoViewModel();
    vm.companyId := "acme";
    vm.InitializeChat(now);
    var handle := vm.chat;
    vm.FailInitialization(description, now);
    initialized, status := vm.isInitialized, vm.statusText;
    alert, message, sameHandle := vm.showError, vm.errorMessage, vm.chat == handle && handle != null;
  }

  /** Initializing again once ready replaces the handle without tearing the
      first one down, and the status dot stays green while the status line
      reads "Initializing...". */
  method ReinitializeWhileReady(now: string)
    returns (firstTrace: seq<Command>, replaced: bool, color: Tint, status: StatusText)
    ensures firstTrace == [] && replaced
    ensures color == Green && status == InitializingText
  {
    var vm := new ChatDemoViewModel();
    vm.companyId := "acme";
    vm.InitializeChat(now);
    var first := vm.chat;
    vm.SucceedInitialization(now);
    vm.InitializeChat(now);
    firstTrace := first.commands;
    replaced := vm.chat != first;
    color, status := vm.StatusColor(), vm.statusText;
  }
}
