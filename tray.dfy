/**
 * TrayApplicationContext: the tray agent's state and the handlers that change
 * it. Every handler is proved against the value-level definitions of the
 * other modules: discovery against DiscoveredMonitors, the debouncer against
 * Queue/QueueAll/Tick, execution against Execute, profile changes against
 * ChangeProfile, and the setters against SaveSelection/SaveNotifications.
 *
 * The environment is passed in: `host` (application directory, existing
 * files, process launcher), the text the calibration tool lists displays
 * with, what the registry key holds, whether each hotkey could be
 * registered, and how each registry write goes.
 */
module Tray {
  import opened Wrappers
  import opened Text
  import opened Paths
  import opened Monitors
  import opened Notifications
  import opened Executor
  import opened Settings
  import opened Profiles

  class TrayApplicationContext {
    /** Which profile is active (`_isDefaultProfile`). */
    var isDefaultProfile: bool
    /** The monitor catalog (`_availableMonitors`). */
    var availableMonitors: seq<MonitorInfo>
    /** -1 for all monitors, otherwise a display number (`_selectedMonitorIndex`). */
    var selectedMonitorIndex: int
    var notificationsEnabled: bool

    /** The debouncer: the timer's existence and running state, and the pending slot. */
    var timerExists: bool
    var timerRunning: bool
    var pendingNotification: Option<Notification>

    /** The tray icon: visible or not, its tooltip, whether it shows the gamma icon, and the last balloon set on it. */
    var iconVisible: bool
    var toolTipText: string
    var gammaIcon: bool
    var balloon: Option<Notification>

    /** Check marks of the "Apply to Monitor" submenu and of "Show Notifications". */
    var monitorMenu: MenuChecks
    var notificationsChecked: bool

    /** The integer values under the application's registry key. */
    var registry: Values

    /** Every balloon actually shown, and every process launched to change a profile, in order. */
    ghost var shown: seq<Notification>
    ghost var launched: seq<Invocation>

    function Debounce(): Debouncer
      reads this`timerExists, this`timerRunning, this`pendingNotification
    {
      Debouncer(timerExists, timerRunning, pendingNotification)
    }

    /** Whether a balloon would be shown now: notifications on and the icon visible. */
    predicate CanShow()
      reads this`notificationsEnabled, this`iconVisible
    {
      notificationsEnabled && iconVisible
    }

    /** GetMonitorDisplayText. */
    function GetMonitorDisplayText(): string
      reads this`selectedMonitorIndex, this`availableMonitors
    {
      MonitorDisplayText(selectedMonitorIndex, availableMonitors)
    }

    /**
     * What startup loads and no profile change touches: the monitor catalog
     * as discovery finds it, both settings as stored, and the check marks
     * that show them.
     */
    predicate Loaded(host: Host, listing: Option<string>, stored: Option<Values>)
      reads this`availableMonitors, this`selectedMonitorIndex, this`notificationsEnabled, this`notificationsChecked, this`monitorMenu
    {
      && availableMonitors == DiscoveredMonitors(host.baseDirectory, host.files, listing)
      && selectedMonitorIndex == LoadedSelection(stored)
      && notificationsEnabled == LoadedNotificationsEnabled(stored) && notificationsChecked == notificationsEnabled
      && monitorMenu == MonitorMenuChecks(selectedMonitorIndex, availableMonitors)
    }

    /** The effect of running `action` from the previous state, as ChangeProfile defines it. */
    twostate predicate ProfileChanged(host: Host, action: ProfileAction)
      reads this
    {
      var c := ChangeProfile(host, action, old(selectedMonitorIndex), old(availableMonitors), old(isDefaultProfile));
      && isDefaultProfile == c.isDefaultProfile
      && toolTipText == (if c.toolTip.Some? then c.toolTip.value else old(toolTipText))
      && gammaIcon == (if c.toolTip.Some? then !c.isDefaultProfile else old(gammaIcon))
      && Debounce() == QueueAll(old(Debounce()), c.queued)
      && launched == old(launched) + c.log
    }

    /**
     * The constructor: create the timer, discover the monitors, load both
     * settings, build the icon and menus, register the hotkeys, then apply
     * the gamma profile once.
     */
    constructor(host: Host, listing: Option<string>, stored: Option<Values>, gammaRegistered: bool, defaultRegistered: bool)
      ensures Started(host, listing, stored, gammaRegistered, defaultRegistered)
      ensures registry == (if stored.Some? then stored.value else map[])
    {
      isDefaultProfile := true;
      availableMonitors := [];
      selectedMonitorIndex := -1;
      notificationsEnabled := true;
      timerExists := false;
      timerRunning := false;
      pendingNotification := None;
      iconVisible := false;
      toolTipText := "";
      gammaIcon := false;
      balloon := None;
      monitorMenu := MenuChecks(false, []);
      notificationsChecked := false;
      registry := if stored.Some? then stored.value else map[];
      shown := [];
      launched := [];
      new;
      Start(host, listing, stored, gammaRegistered, defaultRegistered);
    }

    /** The constructor's steps once the fields exist; nothing is written to the key. */
    method Start(host: Host, listing: Option<string>, stored: Option<Values>, gammaRegistered: bool, defaultRegistered: bool)
      requires isDefaultProfile && launched == []
      modifies this`timerExists, this`timerRunning, this`pendingNotification, this`availableMonitors, this`selectedMonitorIndex,
        this`notificationsEnabled, this`monitorMenu, this`notificationsChecked, this`iconVisible, this`toolTipText, this`gammaIcon,
        this`isDefaultProfile, this`launched
      ensures Started(host, listing, stored, gammaRegistered, defaultRegistered)
      ensures unchanged(this`registry)
    {
      PrepareStartup(host, listing, stored, gammaRegistered, defaultRegistered);
      ApplyAtStartup(host, HotkeyWarnings(gammaRegistered, defaultRegistered));
    }

    /** The state right after construction: settings loaded, then the gamma profile applied once from the default. */
    ghost predicate Started(host: Host, listing: Option<string>, stored: Option<Values>, gammaRegistered: bool, defaultRegistered: bool)
      reads this
    {
      && Loaded(host, listing, stored)
      && FirstChange(host, HotkeyWarnings(gammaRegistered, defaultRegistered))
    }

    /**
     * The state the first profile change leaves: the gamma profile applied
     * over the loaded catalog and selection from the default profile, its
     * balloons queued after the startup `warnings`.
     */
    ghost predicate FirstChange(host: Host, warnings: seq<Notification>)
      reads this
    {
      var c := ChangeProfile(host, ApplyGamma, selectedMonitorIndex, availableMonitors, true);
      && isDefaultProfile == c.isDefaultProfile
      && toolTipText == (if c.toolTip.Some? then c.toolTip.value else InitialToolTip)
      && gammaIcon == !c.isDefaultProfile
      && Debounce() == QueueAll(Initial, warnings + c.queued)
      && launched == c.log
    }

    /** The gamma profile applied once over the freshly loaded state, with the hotkey warnings already queued. */
    method ApplyAtStartup(host: Host, ghost warnings: seq<Notification>)
      requires isDefaultProfile && launched == [] && toolTipText == InitialToolTip && !gammaIcon
      requires Debounce() == QueueAll(Initial, warnings)
      modifies this`isDefaultProfile, this`toolTipText, this`gammaIcon, this`timerRunning, this`pendingNotification, this`launched
      ensures unchanged(this`availableMonitors, this`selectedMonitorIndex, this`notificationsEnabled, this`notificationsChecked, this`monitorMenu)
      ensures unchanged(this`registry)
      ensures FirstChange(host, warnings)
    {
      ghost var c := ChangeProfile(host, ApplyGamma, selectedMonitorIndex, availableMonitors, true);
      QueueAllAppend(Initial, warnings, c.queued);
      ApplySrgbToGamma(host);
    }

    /**
     * The constructor's steps before the first profile change: the timer,
     * the monitor catalog, both settings, the icon and menus, the hotkeys.
     */
    method PrepareStartup(host: Host, listing: Option<string>, stored: Option<Values>, gammaRegistered: bool, defaultRegistered: bool)
      modifies this`timerExists, this`timerRunning, this`pendingNotification, this`availableMonitors, this`selectedMonitorIndex,
        this`notificationsEnabled, this`monitorMenu, this`notificationsChecked, this`iconVisible, this`toolTipText, this`gammaIcon
      ensures Loaded(host, listing, stored)
      ensures unchanged(this`registry)
      ensures iconVisible && timerExists && toolTipText == InitialToolTip && !gammaIcon
      ensures Debounce() == QueueAll(Initial, HotkeyWarnings(gammaRegistered, defaultRegistered))
    {
      InitializeNotificationTimer();
      DetectAvailableMonitors(host, listing);
      LoadMonitorSelection(stored);
      LoadNotificationSetting(stored);
      InitializeComponent();
      RegisterHotkeys(gammaRegistered, defaultRegistered);
    }

    /** InitializeNotificationTimer: a stopped timer with nothing pending. */
    method InitializeNotificationTimer()
      modifies this`timerExists, this`timerRunning, this`pendingNotification
      ensures Debounce() == Initial
    {
      timerExists := true;
      timerRunning := false;
      pendingNotification := None;
    }

    /** InitializeComponent, for the state it sets: the icon, its tooltip and the menu check marks. */
    method InitializeComponent()
      modifies this`monitorMenu, this`notificationsChecked, this`iconVisible, this`toolTipText, this`gammaIcon
      ensures monitorMenu == MonitorMenuChecks(selectedMonitorIndex, availableMonitors)
      ensures notificationsChecked == notificationsEnabled
      ensures iconVisible && toolTipText == InitialToolTip && !gammaIcon
    {
      RefreshMonitorMenu();
      notificationsChecked := notificationsEnabled;
      gammaIcon := false;
      toolTipText := InitialToolTip;
      iconVisible := true;
    }

    // ------------------------------------------------------ notifications

    /** QueueBalloonTip: the newest notification takes the slot and restarts the timer; without a timer nothing happens. */
    method QueueBalloonTip(n: Notification)
      modifies this`timerRunning, this`pendingNotification
      ensures Debounce() == Queue(old(Debounce()), n)
    {
      if !timerExists {
        return;
      }
      pendingNotification := Some(n);
      timerRunning := false;
      timerRunning := true;
    }

    /** ShowBalloonTipInternal: shows `n` only when notifications are on and the icon is visible. */
    method ShowBalloonTipInternal(n: Notification)
      modifies this`iconVisible, this`balloon, this`shown
      ensures iconVisible == old(iconVisible)
      ensures old(CanShow()) ==> balloon == Some(n) && shown == old(shown) + [n]
      ensures !old(CanShow()) ==> balloon == old(balloon) && shown == old(shown)
    {
      if !notificationsEnabled {
        return;
      }
      if !iconVisible {
        return;
      }
      iconVisible := false;
      iconVisible := true;
      balloon := Some(n);
      shown := shown + [n];
    }

    /** NotificationTimer_Tick: stop the timer, show the pending notification if allowed, and empty the slot. */
    method NotificationTimerTick()
      modifies this`timerRunning, this`pendingNotification, this`iconVisible, this`balloon, this`shown
      ensures var t := Tick(old(Debounce()), old(CanShow()));
              && Debounce() == t.after
              && shown == old(shown) + Emitted(t)
              && (t.emitted.Some? ==> balloon == t.emitted)
              && (t.emitted.None? ==> balloon == old(balloon))
      ensures iconVisible == old(iconVisible)
    {
      timerRunning := false;
      if pendingNotification.Some? {
        ShowBalloonTipInternal(pendingNotification.value);
        pendingNotification := None;
      }
    }

    // ------------------------------------------------------------ monitors

    /**
     * DetectAvailableMonitors: clear the catalog; without the tool, the
     * primary-monitor fallback; otherwise the monitors parsed from the
     * listing (None when no listing could be obtained), or the fallback when
     * there are none.
     */
    method DetectAvailableMonitors(host: Host, listing: Option<string>)
      modifies this`availableMonitors
      ensures availableMonitors == DiscoveredMonitors(host.baseDirectory, host.files, listing)
    {
      availableMonitors := [];
      var tool := FindDispwinExecutable(host.baseDirectory, host.files);
      if tool.None? {
        availableMonitors := availableMonitors + [PrimaryFallback];
        return;
      }
      if listing.Some? {
        ParseMonitorsFromDispwinOutput(listing.value);
      }
      if |availableMonitors| == 0 {
        availableMonitors := availableMonitors + [PrimaryFallback];
      }
    }

    /** ParseMonitorsFromDispwinOutput: append the monitor of every accepted line, in order. */
    method ParseMonitorsFromDispwinOutput(output: string)
      modifies this`availableMonitors
      ensures availableMonitors == old(availableMonitors) + ParsedMonitors(output)
    {
      var results := ParseLines(Text.SplitLines(output));
      var i := 0;
      while i < |results|
        invariant 0 <= i <= |results|
        invariant availableMonitors == old(availableMonitors) + Collected(results[..i])
      {
        assert results[..i + 1][..i] == results[..i];
        match results[i] {
          case Some(monitor) =>
            availableMonitors := availableMonitors + [monitor];
          case None =>
        }
        i := i + 1;
      }
      assert results[..|results|] == results;
    }

    // ----------------------------------------------------------- execution

    /** ExecuteBatchFileOriginal: launch the legacy script; queue an error balloon when it cannot be found or started. */
    method ExecuteBatchFileOriginal(host: Host, fileName: string) returns (success: bool)
      modifies this`timerRunning, this`pendingNotification, this`launched
      ensures var r := RunOriginal(host, fileName);
              success == r.success && Debounce() == QueueAll(old(Debounce()), r.queued) && launched == old(launched) + r.log
    {
      var found := FindScript(host.baseDirectory, fileName, host.files);
      if found.None? {
        QueueBalloonTip(ErrorNotice(NotFoundText + fileName));
        return false;
      }
      var invocation := Invocation(found.value, "", WorkingDirectory(found.value, host.baseDirectory));
      launched := launched + [invocation];
      match host.launch(invocation) {
        case Started(_) =>
          success := true;
        case NotStarted =>
          QueueBalloonTip(ErrorNotice(NotStartedText + fileName));
          success := false;
        case Threw(_) =>
          QueueBalloonTip(ErrorNotice(ScriptErrorText + fileName));
          success := false;
      }
    }

    /** ExecuteBatchFileForMonitor: run the calibration tool for one display number and wait for its exit code. */
    method ExecuteBatchFileForMonitor(host: Host, fileName: string, monitorIndex: int) returns (success: bool)
      modifies this`timerRunning, this`pendingNotification, this`launched
      ensures var r := RunForMonitor(host, fileName, monitorIndex);
              success == r.success && Debounce() == QueueAll(old(Debounce()), r.queued) && launched == old(launched) + r.log
    {
      var tool := FindDispwinExecutable(host.baseDirectory, host.files);
      if tool.None? {
        QueueBalloonTip(ErrorNotice(ToolMissingText));
        return false;
      }
      var workingDirectory := WorkingDirectory(tool.value, host.baseDirectory);
      var arguments := ToolArguments(fileName, monitorIndex, workingDirectory);
      if arguments.None? {
        success := ExecuteBatchFileOriginal(host, fileName);
        return;
      }
      var invocation := Invocation(tool.value, arguments.value, workingDirectory);
      launched := launched + [invocation];
      match host.launch(invocation) {
        case Started(exitCode) =>
          success := exitCode == 0;
        case NotStarted =>
          success := false;
        case Threw(reason) =>
          QueueBalloonTip(ErrorNotice(CommandErrorText + reason));
          success := false;
      }
    }

    /**
     * ExecuteBatchFile: for all monitors (-1) run the tool for each catalog
     * entry without stopping at a failure and report whether all succeeded;
     * for a positive selection run it for that number; otherwise launch the
     * legacy script.
     */
    method ExecuteBatchFile(host: Host, fileName: string) returns (success: bool)
      modifies this`timerRunning, this`pendingNotification, this`launched
      ensures var r := Execute(host, fileName, selectedMonitorIndex, availableMonitors);
              success == r.success && Debounce() == QueueAll(old(Debounce()), r.queued) && launched == old(launched) + r.log
    {
      if selectedMonitorIndex == -1 {
        success := ExecuteForEveryMonitor(host, fileName);
      } else if selectedMonitorIndex > 0 {
        assert PlanFor(selectedMonitorIndex) == OneMonitor(selectedMonitorIndex);
        success := ExecuteBatchFileForMonitor(host, fileName, selectedMonitorIndex);
      } else {
        assert PlanFor(selectedMonitorIndex) == LegacyScript;
        success := ExecuteBatchFileOriginal(host, fileName);
      }
    }

    /** The all-monitors branch of ExecuteBatchFile: every catalog entry in order, with no early exit. */
    method ExecuteForEveryMonitor(host: Host, fileName: string) returns (success: bool)
      modifies this`timerRunning, this`pendingNotification, this`launched
      ensures var r := RunAll(host, fileName, availableMonitors);
              success == r.success && Debounce() == QueueAll(old(Debounce()), r.queued) && launched == old(launched) + r.log
    {
      success := true;
      ghost var runs := Runs(host, fileName, availableMonitors);
      ghost var done := Nothing;
      var i := 0;
      while i < |availableMonitors|
        invariant 0 <= i <= |availableMonitors|
        invariant done == Sequenced(runs[..i])
        invariant success == done.success && Debounce() == QueueAll(old(Debounce()), done.queued) && launched == old(launched) + done.log
      {
        RunsAt(host, fileName, availableMonitors, i);
        ghost var before := launched;
        var ok := ExecuteBatchFileForMonitor(host, fileName, availableMonitors[i].displayNumber);
        if !ok {
          success := false;
        }
        QueueAllAppend(old(Debounce()), done.queued, runs[i].queued);
        assert launched == before + runs[i].log;
        AppendAssociates(old(launched), done.log, runs[i].log);
        SequencedSnoc(runs, i);
        done := Then(done, runs[i]);
        i := i + 1;
      }
      assert runs[..|runs|] == runs;
    }

    // ------------------------------------------------------------ profiles

    /** UpdateIconAndText: the icon and tooltip follow the active profile and the scope. */
    method UpdateIconAndText()
      modifies this`toolTipText, this`gammaIcon
      ensures toolTipText == ToolTipText(isDefaultProfile, GetMonitorDisplayText())
      ensures gammaIcon == !isDefaultProfile
    {
      gammaIcon := !isDefaultProfile;
      var profileText := if isDefaultProfile then DefaultProfileName else GammaProfileName;
      toolTipText := ToolTipPrefix + profileText + GetMonitorDisplayText();
    }

    /** ApplySrgbToGamma. */
    method ApplySrgbToGamma(host: Host)
      modifies this`isDefaultProfile, this`toolTipText, this`gammaIcon, this`timerRunning, this`pendingNotification, this`launched
      ensures ProfileChanged(host, ApplyGamma)
    {
      ghost var run := Execute(host, ApplyScript, selectedMonitorIndex, availableMonitors);
      ghost var scope := GetMonitorDisplayText();
      ghost var c := ChangeProfile(host, ApplyGamma, selectedMonitorIndex, availableMonitors, isDefaultProfile);
      assert c == if run.success then Change(false, Some(ToolTipText(false, scope)), run.queued + [ChangedNotice(ApplyGamma, scope)], run.log)
                  else Change(isDefaultProfile, None, run.queued, run.log);
      var ok := ExecuteBatchFile(host, ApplyScript);
      if ok {
        isDefaultProfile := false;
        UpdateIconAndText();
        var notice := ChangedNotice(ApplyGamma, GetMonitorDisplayText());
        assert notice == ChangedNotice(ApplyGamma, scope);
        QueueBalloonTip(notice);
        QueueAllSnoc(old(Debounce()), run.queued, notice);
      }
    }

    /** RevertToDefault. */
    method RevertToDefault(host: Host)
      modifies this`isDefaultProfile, this`toolTipText, this`gammaIcon, this`timerRunning, this`pendingNotification, this`launched
      ensures ProfileChanged(host, RevertDefault)
    {
      ghost var run := Execute(host, RevertScript, selectedMonitorIndex, availableMonitors);
      ghost var scope := GetMonitorDisplayText();
      ghost var c := ChangeProfile(host, RevertDefault, selectedMonitorIndex, availableMonitors, isDefaultProfile);
      assert c == if run.success then Change(true, Some(ToolTipText(true, scope)), run.queued + [ChangedNotice(RevertDefault, scope)], run.log)
                  else Change(isDefaultProfile, None, run.queued, run.log);
      var ok := ExecuteBatchFile(host, RevertScript);
      if ok {
        isDefaultProfile := true;
        UpdateIconAndText();
        var notice := ChangedNotice(RevertDefault, GetMonitorDisplayText());
        assert notice == ChangedNotice(RevertDefault, scope);
        QueueBalloonTip(notice);
        QueueAllSnoc(old(Debounce()), run.queued, notice);
      }
    }

    /** ToggleProfile (a left click on the icon). */
    method ToggleProfile(host: Host)
      modifies this`isDefaultProfile, this`toolTipText, this`gammaIcon, this`timerRunning, this`pendingNotification, this`launched
      ensures ProfileChanged(host, ToggleAction(old(isDefaultProfile)))
    {
      if isDefaultProfile {
        ApplySrgbToGamma(host);
      } else {
        RevertToDefault(host);
      }
    }

    /** OnHotkeyPressed: Alt+F1 applies, Alt+F2 reverts, other identifiers change nothing. */
    method OnHotkeyPressed(host: Host, hotkeyId: int)
      modifies this`isDefaultProfile, this`toolTipText, this`gammaIcon, this`timerRunning, this`pendingNotification, this`launched
      ensures HotkeyAction(hotkeyId).Some? ==> ProfileChanged(host, HotkeyAction(hotkeyId).value)
      ensures HotkeyAction(hotkeyId).None? ==>
        && isDefaultProfile == old(isDefaultProfile) && toolTipText == old(toolTipText) && gammaIcon == old(gammaIcon)
        && Debounce() == old(Debounce()) && launched == old(launched)
    {
      if hotkeyId == HotkeyGamma {
        ApplySrgbToGamma(host);
      } else if hotkeyId == HotkeyDefault {
        RevertToDefault(host);
      }
    }

    /** RegisterHotkeys: a warning balloon for each hotkey that could not be registered. */
    method RegisterHotkeys(gammaRegistered: bool, defaultRegistered: bool)
      modifies this`timerRunning, this`pendingNotification
      ensures Debounce() == QueueAll(old(Debounce()), HotkeyWarnings(gammaRegistered, defaultRegistered))
    {
      var warnings := HotkeyWarnings(gammaRegistered, defaultRegistered);
      if !gammaRegistered {
        QueueBalloonTip(warnings[0]);
      }
      if !defaultRegistered {
        QueueBalloonTip(warnings[|warnings| - 1]);
      }
      QueueAllAppend(old(Debounce()), if gammaRegistered then [] else [warnings[0]], if defaultRegistered then [] else [warnings[|warnings| - 1]]);
      assert warnings == (if gammaRegistered then [] else [warnings[0]]) + (if defaultRegistered then [] else [warnings[|warnings| - 1]]);
    }

    // ------------------------------------------------------------ settings

    /** LoadMonitorSelection. */
    method LoadMonitorSelection(stored: Option<Values>)
      modifies this`selectedMonitorIndex
      ensures selectedMonitorIndex == LoadedSelection(stored)
    {
      if stored.Some? && SelectedMonitorName in stored.value {
        selectedMonitorIndex := stored.value[SelectedMonitorName];
      } else {
        selectedMonitorIndex := -1;
      }
    }

    /** LoadNotificationSetting. */
    method LoadNotificationSetting(stored: Option<Values>)
      modifies this`notificationsEnabled
      ensures notificationsEnabled == LoadedNotificationsEnabled(stored)
    {
      if stored.Some? && NotificationsEnabledName in stored.value {
        notificationsEnabled := stored.value[NotificationsEnabledName] != 0;
      } else {
        notificationsEnabled := true;
      }
    }

    /** SaveMonitorSelection: the key takes the selection when written; memory takes it unless the write raised. */
    method SaveMonitorSelection(monitorIndex: int, write: StoreWrite)
      modifies this`registry, this`selectedMonitorIndex
      ensures var saved := SaveSelection(old(registry), old(selectedMonitorIndex), monitorIndex, write);
              registry == saved.values && selectedMonitorIndex == saved.current
    {
      if write == WriteFailed {
        return;
      }
      if write == Written {
        registry := registry[SelectedMonitorName := monitorIndex];
      }
      selectedMonitorIndex := monitorIndex;
    }

    /** SaveNotificationSetting: the same for the notification flag, stored as 1 or 0. */
    method SaveNotificationSetting(enabled: bool, write: StoreWrite)
      modifies this`registry, this`notificationsEnabled
      ensures var saved := SaveNotifications(old(registry), old(notificationsEnabled), enabled, write);
              registry == saved.values && notificationsEnabled == saved.current
    {
      if write == WriteFailed {
        return;
      }
      if write == Written {
        registry := registry[NotificationsEnabledName := if enabled then 1 else 0];
      }
      notificationsEnabled := enabled;
    }

    /** RefreshMonitorMenu: "All Monitors" is checked for -1, each monitor entry when its number is the selection. */
    method RefreshMonitorMenu()
      modifies this`monitorMenu
      ensures monitorMenu == MonitorMenuChecks(selectedMonitorIndex, availableMonitors)
    {
      var checks := [];
      var i := 0;
      while i < |availableMonitors|
        invariant 0 <= i <= |availableMonitors|
        invariant checks == NumberChecks(selectedMonitorIndex, availableMonitors[..i])
      {
        assert availableMonitors[..i + 1][..i] == availableMonitors[..i];
        checks := checks + [availableMonitors[i].displayNumber == selectedMonitorIndex];
        i := i + 1;
      }
      assert availableMonitors[..i] == availableMonitors;
      monitorMenu := MenuChecks(selectedMonitorIndex == -1, checks);
    }

    /** A click on "All Monitors" (-1) or on a monitor entry: save the selection, refresh the check marks and the tooltip. */
    method SelectMonitor(monitorIndex: int, write: StoreWrite)
      modifies this`registry, this`selectedMonitorIndex, this`monitorMenu, this`toolTipText, this`gammaIcon
      ensures var saved := SaveSelection(old(registry), old(selectedMonitorIndex), monitorIndex, write);
              && registry == saved.values && selectedMonitorIndex == saved.current
              && monitorMenu == MonitorMenuChecks(selectedMonitorIndex, availableMonitors)
              && toolTipText == ToolTipText(isDefaultProfile, GetMonitorDisplayText())
              && gammaIcon == !isDefaultProfile
    {
      SaveMonitorSelection(monitorIndex, write);
      RefreshMonitorMenu();
      UpdateIconAndText();
    }

    /**
     * A click on "Show Notifications": the check mark flips first, then the
     * new state is saved; when the write raises, the check mark and the
     * in-memory flag disagree.
     */
    method ToggleNotifications(write: StoreWrite)
      modifies this`notificationsChecked, this`registry, this`notificationsEnabled
      ensures notificationsChecked == !old(notificationsChecked)
      ensures var saved := SaveNotifications(old(registry), old(notificationsEnabled), notificationsChecked, write);
              registry == saved.values && notificationsEnabled == saved.current
      ensures write != WriteFailed ==> notificationsEnabled == notificationsChecked
      ensures write == WriteFailed ==> notificationsEnabled == old(notificationsEnabled)
    {
      notificationsChecked := !notificationsChecked;
      SaveNotificationSetting(notificationsChecked, write);
    }

    // ----------------------------------------------------------- shutdown

    /** OnExit: hide the icon, so no balloon is shown afterwards. */
    method OnExit()
      modifies this`iconVisible
      ensures !iconVisible && !CanShow()
    {
      iconVisible := false;
    }

    /**
     * Dispose, for the state it changes: the timer is stopped. Releasing the
     * timer, the icons, the menu and the message window, and unregistering
     * the hotkeys, are left out.
     */
    method Dispose()
      modifies this`timerRunning
      ensures !timerRunning
    {
      timerRunning := false;
    }
  }
}
