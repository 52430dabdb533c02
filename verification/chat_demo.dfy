/** `ChatDemoViewModel`: the demo's lifecycle controller for one embedded
    chat widget.  It keeps two flags, a status line and an alert, owns at most
    one `AssembledChat` handle, and mirrors every step into the event log. */
module ChatDemo {
  import opened EventLog

  datatype Option<T> = None | Some(value: T)

  /** `AssembledChatConfiguration`: what a handle is built from. */
  datatype Configuration = Configuration(companyId: string, profileId: Option<string>, debug: bool)

  /** The fire-and-forget commands the view model sends to a handle. */
  datatype Command = Open | Close | ShowLauncher | HideLauncher | Teardown

  /** The four texts the status line takes; `Text` gives the words shown. */
  datatype StatusText = NotInitializedText | InitializingText | ReadyText | FailedText {
    function Text(): string {
      match this
      case NotInitializedText => "Not initialized"
      case InitializingText => "Initializing..."
      case ReadyText => "Ready"
      case FailedText => "Initialization failed"
    }
  }

  /** The status line never shows the same words for two different states,
      so a reader of the screen can tell the four apart. */
  lemma StatusTextsDistinct(a: StatusText, b: StatusText)
    ensures a.Text() == b.Text() <==> a == b
  {
  }

  /** The flags, status line and alert: all of the view model but its form
      inputs, its log and its handle. */
  datatype Lifecycle = Lifecycle(
    isInitialized: bool,
    isInitializing: bool,
    statusText: StatusText,
    showError: bool,
    errorMessage: string)

  /** The three form fields the host edits before initializing. */
  datatype Form = Form(companyId: string, profileId: string, debugMode: bool)

  /** The status line agrees with the flags:
      "Initializing..." exactly while an initialization is outstanding, "Ready"
      only when initialized, "Not initialized" only with both flags down. */
  predicate StatusConsistent(isInitialized: bool, isInitializing: bool, statusText: StatusText)
  {
    (statusText == NotInitializedText && !isInitialized && !isInitializing) ||
    (statusText == InitializingText && isInitializing) ||
    (statusText == ReadyText && isInitialized && !isInitializing) ||
    (statusText == FailedText && !isInitializing)
  }

  /** The configuration `initializeChat` builds from the form: an empty
      profile field means no profile at all. */
  function ConfigurationFor(companyId: string, profileId: string, debug: bool): (c: Configuration)
    ensures c.companyId == companyId && c.debug == debug
    ensures c.profileId == None <==> |profileId| == 0
    ensures c.profileId.Some? ==> c.profileId.value == profileId
  {
    Configuration(companyId, if |profileId| == 0 then None else Some(profileId), debug)
  }

  /** The entries `initializeChat` logs about the form, in the order it logs
      them: the start, the company id, the profile id when there is one, and
      the debug flag. */
  function FormEntries(companyId: string, profileId: string, debug: bool, now: string): (es: seq<Entry>)
    ensures |es| == if |profileId| == 0 then 3 else 4
  {
    var profile := if |profileId| == 0 then [] else [Entry(ProfileIdLine(profileId), Primary, Bullet, now)];
    [Entry(StartingInitialization, Blue, Bullet, now), Entry(CompanyIdLine(companyId), Primary, Bullet, now)]
      + profile
      + [Entry(DebugModeLine(debug), Primary, Bullet, now)]
  }

  /** All the entries `initializeChat` logs: the form, then the creation of
      the handle. */
  function InitializationEntries(companyId: string, profileId: string, debug: bool, now: string): (es: seq<Entry>)
    ensures |es| == if |profileId| == 0 then 4 else 5
  {
    FormEntries(companyId, profileId, debug, now) + [Entry(InstanceCreated, Primary, Bullet, now)]
  }

  /** What `initializeChat` logs, in order: the start, the company id, the
      profile id exactly when one was given, the debug flag, and the creation
      of the handle. */
  lemma InitializationEntriesInOrder(companyId: string, profileId: string, debug: bool, now: string)
    ensures var es := InitializationEntries(companyId, profileId, debug, now);
      && es[0] == Entry(StartingInitialization, Blue, Bullet, now)
      && es[1].message == CompanyIdLine(companyId)
      && es[|es| - 2].message == DebugModeLine(debug)
      && es[|es| - 1].message == InstanceCreated
      && ((exists i :: 0 <= i < |es| && es[i].message == ProfileIdLine(profileId)) <==> |profileId| != 0)
  {
    var es := InitializationEntries(companyId, profileId, debug, now);
    if |profileId| != 0 {
      assert es[2].message == ProfileIdLine(profileId);
    }
  }

  /** Adding the form entries to a log, unrolled one `addLog` at a time. */
  lemma FormLog(log: seq<Entry>, companyId: string, profileId: string, debug: bool, now: string)
    ensures PushedAll(log, FormEntries(companyId, profileId, debug, now)) ==
      var afterCompany := Pushed(Pushed(log, Entry(StartingInitialization, Blue, Bullet, now)),
                                 Entry(CompanyIdLine(companyId), Primary, Bullet, now));
      var afterProfile := if |profileId| == 0 then afterCompany
                          else Pushed(afterCompany, Entry(ProfileIdLine(profileId), Primary, Bullet, now));
      Pushed(afterProfile, Entry(DebugModeLine(debug), Primary, Bullet, now))
  {
    var es := FormEntries(companyId, profileId, debug, now);
    var k := |es|;
    PushedAllStep(log, es, 0);
    PushedAllStep(log, es, 1);
    if |profileId| != 0 {
      PushedAllStep(log, es, 2);
    }
    PushedAllStep(log, es, k - 1);
    assert es[..0] == [];
    assert es[..k] == es;
  }

  /** `InitializationEntries` added to a log: the form entries, then one more. */
  lemma InitializationLog(log: seq<Entry>, companyId: string, profileId: string, debug: bool, now: string)
    ensures PushedAll(log, InitializationEntries(companyId, profileId, debug, now)) ==
            Pushed(PushedAll(log, FormEntries(companyId, profileId, debug, now)),
                   Entry(InstanceCreated, Primary, Bullet, now))
  {
  }

  /** Stand-in for an `AssembledChat` instance: the configuration it was built
      from and the commands it has been sent, oldest first. */
  class ChatHandle {
    const configuration: Configuration
    var commands: seq<Command>

    constructor (configuration: Configuration)
      ensures this.configuration == configuration && commands == []
    {
      this.configuration := configuration;
      commands := [];
    }

    method Receive(c: Command)
      modifies this
      ensures commands == old(commands) + [c]
    {
      commands := commands + [c];
    }
  }

  class ChatDemoViewModel {
    var companyId: string
    var profileId: string
    var debugMode: bool

    var isInitialized: bool
    var isInitializing: bool
    var statusText: StatusText
    var eventLog: seq<Entry>
    var showError: bool
    var errorMessage: string

    var chat: ChatHandle?

    /** The log is within its capacity and the status line agrees with the flags. */
    ghost predicate Valid()
      reads this
    {
      |eventLog| <= Capacity && StatusConsistent(isInitialized, isInitializing, statusText)
    }

    function State(): Lifecycle
      reads this
    {
      Lifecycle(isInitialized, isInitializing, statusText, showError, errorMessage)
    }

    function Inputs(): Form
      reads this
    {
      Form(companyId, profileId, debugMode)
    }

    constructor ()
      ensures Valid()
      ensures Inputs() == Form("", "", true)
      ensures State() == Lifecycle(false, false, NotInitializedText, false, "")
      ensures eventLog == [] && chat == null
    {
      companyId, profileId, debugMode := "", "", true;
      isInitialized, isInitializing := false, false;
      statusText := NotInitializedText;
      eventLog := [];
      showError, errorMessage := false, "";
      chat := null;
    }

    /** The colour of the status dot: green once initialized, orange while
        initializing, red otherwise. */
    function StatusColor(): (t: Tint)
      reads this
      ensures t == Green <==> isInitialized
      ensures t == Orange <==> !isInitialized && isInitializing
      ensures t == Red <==> !isInitialized && !isInitializing
    {
      if isInitialized then Green
      else if isInitializing then Orange
      else Red
    }

    /** `addLog`: insert the entry at the front, then cut the log back to its
        capacity. */
    method AddLog(message: Message, tint: Tint, icon: Icon, now: string)
      modifies this`eventLog
      ensures eventLog == Pushed(old(eventLog), Entry(message, tint, icon, now))
    {
      eventLog := [Entry(message, tint, icon, now)] + eventLog;
      if |eventLog| > Capacity {
        eventLog := eventLog[..Capacity];
      }
    }

    /** `clearLog`. */
    method ClearLog()
      modifies this`eventLog
      ensures eventLog == []
    {
      eventLog := [];
    }

    /** `showErrorAlert`. */
    method ShowErrorAlert(message: string)
      modifies this`errorMessage, this`showError
      ensures errorMessage == message && showError
    {
      errorMessage := message;
      showError := true;
    }

    /** The synchronous part of `initializeChat`, up to handing the
        initialize request to the new handle.  With no company id it does
        nothing at all.  Otherwise it marks the initialization as outstanding,
        logs the form, and installs a fresh handle; a handle already there is
        dropped without a teardown. */
    method InitializeChat(now: string)
      requires Valid()
      modifies this
      ensures Valid() && Inputs() == old(Inputs())
      ensures |old(companyId)| == 0 ==>
        State() == old(State()) && eventLog == old(eventLog) && chat == old(chat)
      ensures |old(companyId)| != 0 ==>
        && isInitializing && statusText == InitializingText
        && isInitialized == old(isInitialized)
        && showError == old(showError) && errorMessage == old(errorMessage)
        && chat != null && fresh(chat) && chat.commands == []
        && chat.configuration == ConfigurationFor(companyId, profileId, debugMode)
        && eventLog == Pushed(PushedAll(old(eventLog), FormEntries(companyId, profileId, debugMode, now)),
                              Entry(InstanceCreated, Primary, Bullet, now))
      ensures |old(companyId)| != 0 ==>
        eventLog == PushedAll(old(eventLog), InitializationEntries(companyId, profileId, debugMode, now))
      ensures old(chat) != null ==> old(chat).commands == old(chat.commands)
    {
      if |companyId| == 0 {
        return;
      }
      isInitializing := true;
      statusText := InitializingText;
      LogAndInstall(now);
    }

    /** The logging and the handle of `initializeChat`'s synchronous part:
        the form is logged, a new handle replaces the old one, and its
        creation is logged last. */
    method LogAndInstall(now: string)
      modifies this`chat, this`eventLog
      ensures chat != null && fresh(chat) && chat.commands == []
      ensures chat.configuration == ConfigurationFor(companyId, profileId, debugMode)
      ensures eventLog == PushedAll(old(eventLog), InitializationEntries(companyId, profileId, debugMode, now))
      ensures eventLog == Pushed(PushedAll(old(eventLog), FormEntries(companyId, profileId, debugMode, now)),
                                 Entry(InstanceCreated, Primary, Bullet, now))
    {
      LogForm(now);
      InstallHandle(now);
      InitializationLog(old(eventLog), companyId, profileId, debugMode, now);
    }

    /** The logging of the form at the start of `initializeChat`. */
    method LogForm(now: string)
      modifies this`eventLog
      ensures eventLog == PushedAll(old(eventLog), FormEntries(companyId, profileId, debugMode, now))
    {
      AddLog(StartingInitialization, Blue, Bullet, now);
      AddLog(CompanyIdLine(companyId), Primary, Bullet, now);
      if |profileId| != 0 {
        AddLog(ProfileIdLine(profileId), Primary, Bullet, now);
      }
      AddLog(DebugModeLine(debugMode), Primary, Bullet, now);
      FormLog(old(eventLog), companyId, profileId, debugMode, now);
    }

    /** The second half of `initializeChat`'s synchronous part: build the
        configuration, install a new handle built from it, and log that. */
    method InstallHandle(now: string)
      modifies this`chat, this`eventLog
      ensures chat != null && fresh(chat) && chat.commands == []
      ensures chat.configuration == ConfigurationFor(companyId, profileId, debugMode)
      ensures eventLog == Pushed(old(eventLog), Entry(InstanceCreated, Primary, Bullet, now))
    {
      var config := ConfigurationFor(companyId, profileId, debugMode);
      chat := new ChatHandle(config);
      AddLog(InstanceCreated, Primary, Bullet, now);
    }

    /** The success completion of `initializeChat`.  Nothing checks that the
        handle it belonged to is still installed: after a `Reset` it still
        marks the view model as ready. */
    method SucceedInitialization(now: string)
      requires Valid()
      modifies this
      ensures Valid() && Inputs() == old(Inputs()) && chat == old(chat)
      ensures isInitialized && !isInitializing && statusText == ReadyText
      ensures showError == old(showError) && errorMessage == old(errorMessage)
      ensures eventLog == Pushed(Pushed(old(eventLog), Entry(InitializedSuccessfully, Green, Bullet, now)),
                                 Entry(ReadyToOpen, Primary, Bullet, now))
    {
      isInitialized := true;
      isInitializing := false;
      statusText := ReadyText;
      AddLog(InitializedSuccessfully, Green, Bullet, now);
      AddLog(ReadyToOpen, Primary, Bullet, now);
    }

    /** The failure completion of `initializeChat`: the failure is logged and
        raised as an alert carrying the error's description.  The handle stays
        installed and `isInitialized` keeps its value. */
    method FailInitialization(description: string, now: string)
      requires Valid()
      modifies this
      ensures Valid() && Inputs() == old(Inputs()) && chat == old(chat)
      ensures !isInitializing && statusText == FailedText && isInitialized == old(isInitialized)
      ensures showError && errorMessage == description
      ensures eventLog == Pushed(old(eventLog), Entry(InitializationFailed(description), Red, Bullet, now))
    {
      isInitializing := false;
      statusText := FailedText;
      AddLog(InitializationFailed(description), Red, Bullet, now);
      ShowErrorAlert(description);
    }

    /** `openChat`: logged whether or not there is a handle; forwarded only
        when there is one. */
    method OpenChat(now: string)
      requires Valid()
      modifies this, chat
      ensures Valid() && State() == old(State()) && Inputs() == old(Inputs()) && chat == old(chat)
      ensures eventLog == Pushed(old(eventLog), Entry(Opening, Primary, Bullet, now))
      ensures chat != null ==> chat.commands == old(chat.commands) + [Open]
    {
      AddLog(Opening, Primary, Bullet, now);
      if chat != null {
        chat.Receive(Open);
      }
    }

    /** `closeChat`. */
    method CloseChat(now: string)
      requires Valid()
      modifies this, chat
      ensures Valid() && State() == old(State()) && Inputs() == old(Inputs()) && chat == old(chat)
      ensures eventLog == Pushed(old(eventLog), Entry(Closing, Primary, Bullet, now))
      ensures chat != null ==> chat.commands == old(chat.commands) + [Close]
    {
      AddLog(Closing, Primary, Bullet, now);
      if chat != null {
        chat.Receive(Close);
      }
    }

    /** `showLauncher`. */
    method ShowLauncher(now: string)
      requires Valid()
      modifies this, chat
      ensures Valid() && State() == old(State()) && Inputs() == old(Inputs()) && chat == old(chat)
      ensures eventLog == Pushed(old(eventLog), Entry(ShowingLauncher, Primary, Bullet, now))
      ensures chat != null ==> chat.commands == old(chat.commands) + [Command.ShowLauncher]
    {
      AddLog(ShowingLauncher, Primary, Bullet, now);
      if chat != null {
        chat.Receive(Command.ShowLauncher);
      }
    }

    /** `hideLauncher`. */
    method HideLauncher(now: string)
      requires Valid()
      modifies this, chat
      ensures Valid() && State() == old(State()) && Inputs() == old(Inputs()) && chat == old(chat)
      ensures eventLog == Pushed(old(eventLog), Entry(HidingLauncher, Primary, Bullet, now))
      ensures chat != null ==> chat.commands == old(chat.commands) + [Command.HideLauncher]
    {
      AddLog(HidingLauncher, Primary, Bullet, now);
      if chat != null {
        chat.Receive(Command.HideLauncher);
      }
    }

    /** `reset`: tear the handle down and drop it, lower both flags, and
        clear the log, including the entry that announced the reset.  The
        alert is left as it was. */
    method Reset(now: string)
      requires Valid()
      modifies this, chat
      ensures Valid() && Inputs() == old(Inputs())
      ensures chat == null
      ensures !isInitialized && !isInitializing && statusText == NotInitializedText
      ensures showError == old(showError) && errorMessage == old(errorMessage)
      ensures eventLog == []
      ensures old(chat) != null ==> old(chat).commands == old(chat.commands) + [Teardown]
    {
      AddLog(Resetting, Orange, Bullet, now);
      if chat != null {
        chat.Receive(Teardown);
      }
      chat := null;
      isInitialized := false;
      isInitializing := false;
      statusText := NotInitializedText;
      eventLog := [];
    }

    /** Delegate callback `assembledChatDidLoad`. */
    method ChatDidLoad(now: string)
      requires Valid()
      modifies this
      ensures Valid() && State() == old(State()) && Inputs() == old(Inputs()) && chat == old(chat)
      ensures eventLog == Pushed(old(eventLog), Entry(DelegateLoaded, Green, Inbox, now))
    {
      AddLog(DelegateLoaded, Green, Inbox, now);
    }

    /** Delegate callback `assembledChatDidOpen`. */
    method ChatDidOpen(now: string)
      requires Valid()
      modifies this
      ensures Valid() && State() == old(State()) && Inputs() == old(Inputs()) && chat == old(chat)
      ensures eventLog == Pushed(old(eventLog), Entry(DelegateOpened, Green, Phone, now))
    {
      AddLog(DelegateOpened, Green, Phone, now);
    }

    /** Delegate callback `assembledChatDidClose`. */
    method ChatDidClose(now: string)
      requires Valid()
      modifies this
      ensures Valid() && State() == old(State()) && Inputs() == old(Inputs()) && chat == old(chat)
      ensures eventLog == Pushed(old(eventLog), Entry(DelegateClosed, Orange, Lock, now))
    {
      AddLog(DelegateClosed, Orange, Lock, now);
    }

    /** Delegate callback `assembledChat(didReceiveError:)`: logged only; the
        alert is not raised and the flags do not move. */
    method ChatDidReceiveError(description: string, now: string)
      requires Valid()
      modifies this
      ensures Valid() && State() == old(State()) && Inputs() == old(Inputs()) && chat == old(chat)
      ensures eventLog == Pushed(old(eventLog), Entry(DelegateError(description), Red, Warning, now))
    {
      AddLog(DelegateError(description), Red, Warning, now);
    }

    /** Delegate callback `assembledChat(didReceiveNotification:)`. */
    method ChatDidReceiveNotification(notificationId: string, now: string)
      requires Valid()
      modifies this
      ensures Valid() && State() == old(State()) && Inputs() == old(Inputs()) && chat == old(chat)
      ensures eventLog == Pushed(old(eventLog), Entry(DelegateNotification(notificationId), Purple, Bell, now))
    {
      AddLog(DelegateNotification(notificationId), Purple, Bell, now);
    }
  }

  /** The status dot agrees with the status line whenever the view model is
      valid: green when "Ready", red when "Not initialized", never red while
      "Initializing...", never orange after a failure. */
  lemma StatusColorMatchesText(vm: ChatDemoViewModel)
    requires vm.Valid()
    ensures vm.statusText == ReadyText ==> vm.StatusColor() == Green
    ensures vm.statusText == NotInitializedText ==> vm.StatusColor() == Red
    ensures vm.statusText == InitializingText ==> vm.StatusColor() != Red
    ensures vm.statusText == FailedText ==> vm.StatusColor() != Orange
    ensures vm.StatusColor() == Orange ==> vm.statusText == InitializingText
  {
  }
}
