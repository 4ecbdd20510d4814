/**
 * The profile toggle: which script a click or a hotkey runs, how the
 * "is default profile" flag follows a run's outcome, the balloon that
 * announces a change, and the tray tooltip.
 */
module Profiles {
  import opened Wrappers
  import opened Notifications
  import opened Monitors
  import opened Executor

  /** The two profiles' scripts: apply sRGB-to-gamma, or revert to default. */
  datatype ProfileAction = ApplyGamma | RevertDefault

  /** The identifiers the two global hotkeys are registered under (Alt+F1, Alt+F2). */
  const HotkeyGamma := 1
  const HotkeyDefault := 2

  function ScriptOf(action: ProfileAction): string
  {
    match action
    case ApplyGamma => ApplyScript
    case RevertDefault => RevertScript
  }

  /** ToggleProfile: apply when the default profile is active, revert otherwise. */
  function ToggleAction(isDefaultProfile: bool): (action: ProfileAction)
    ensures action == ApplyGamma <==> isDefaultProfile
  {
    if isDefaultProfile then ApplyGamma else RevertDefault
  }

  /** OnHotkeyPressed: Alt+F1 applies, Alt+F2 reverts, any other identifier does nothing. */
  function HotkeyAction(hotkeyId: int): (action: Option<ProfileAction>)
    ensures action == Some(ApplyGamma) <==> hotkeyId == HotkeyGamma
    ensures action == Some(RevertDefault) <==> hotkeyId == HotkeyDefault
    ensures action.None? <==> hotkeyId != HotkeyGamma && hotkeyId != HotkeyDefault
  {
    if hotkeyId == HotkeyGamma then Some(ApplyGamma)
    else if hotkeyId == HotkeyDefault then Some(RevertDefault)
    else None
  }

  /** The texts of the "Profile Changed" balloon and of the tooltip. */
  const ChangedTitle := "Profile Changed"
  const AppliedText := "Applied sRGB to Gamma profile"
  const RevertedText := "Reverted to Default profile"
  const ToolTipPrefix := "HDR Gamma Fix: "
  const DefaultProfileName := "Default"
  const GammaProfileName := "sRGB to Gamma"

  /** The title and texts of the warnings for hotkeys that could not be registered. */
  const HotkeyTitle := "Hotkey Registration Failed"
  const GammaHotkeyMessage := "Could not register Alt+F1 hotkey. It may be in use by another application."
  const DefaultHotkeyMessage := "Could not register Alt+F2 hotkey. It may be in use by another application."

  /** The "Profile Changed" balloon, ending with the scope text. */
  function ChangedNotice(action: ProfileAction, scope: string): Notification
  {
    var message := match action
      case ApplyGamma => AppliedText
      case RevertDefault => RevertedText;
    Notification(ChangedTitle, message + scope, Info)
  }

  /** UpdateIconAndText's tooltip: the active profile followed by the scope text. */
  function ToolTipText(isDefaultProfile: bool, scope: string): string
  {
    ToolTipPrefix + (if isDefaultProfile then DefaultProfileName else GammaProfileName) + scope
  }

  /** The tooltip the icon is created with, until the first profile change. */
  const InitialToolTip := "Color Profile: Default"

  /** The warnings RegisterHotkeys queues for the hotkeys that could not be registered, Alt+F1 first. */
  function HotkeyWarnings(gammaRegistered: bool, defaultRegistered: bool): (ns: seq<Notification>)
    ensures |ns| == (if gammaRegistered then 0 else 1) + (if defaultRegistered then 0 else 1)
    ensures forall k :: 0 <= k < |ns| ==> ns[k].title == HotkeyTitle && ns[k].icon == Warning
  {
    var gamma := Notification(HotkeyTitle, GammaHotkeyMessage, Warning);
    var default := Notification(HotkeyTitle, DefaultHotkeyMessage, Warning);
    (if gammaRegistered then [] else [gamma]) + (if defaultRegistered then [] else [default])
  }

  /** The effect of ApplySrgbToGamma or RevertToDefault. */
  datatype Change = Change(isDefaultProfile: bool, toolTip: Option<string>, queued: seq<Notification>, log: seq<Invocation>)

  /**
   * Run the action's script for the current selection; only when the run
   * reports success does the flag take the action's profile, the tooltip
   * get rewritten and the "Profile Changed" balloon get queued (after any
   * error balloons the run itself queued).
   */
  function ChangeProfile(host: Host, action: ProfileAction, selection: int, monitors: seq<MonitorInfo>, isDefaultProfile: bool): Change
  {
    var run := Execute(host, ScriptOf(action), selection, monitors);
    var scope := MonitorDisplayText(selection, monitors);
    if run.success then
      var isDefault := action == RevertDefault;
      Change(isDefault, Some(ToolTipText(isDefault, scope)), run.queued + [ChangedNotice(action, scope)], run.log)
    else
      Change(isDefaultProfile, None, run.queued, run.log)
  }

  /** Apply leaves the gamma profile active and revert the default one, exactly when the run succeeds. */
  lemma FlagFollowsSuccess(host: Host, action: ProfileAction, selection: int, monitors: seq<MonitorInfo>, isDefaultProfile: bool)
    ensures var run := Execute(host, ScriptOf(action), selection, monitors);
            var c := ChangeProfile(host, action, selection, monitors, isDefaultProfile);
            && (run.success ==> c.isDefaultProfile == (action == RevertDefault))
            && (!run.success ==> c.isDefaultProfile == isDefaultProfile && c.toolTip.None?)
            && c.log == run.log
  {
  }

  /** A toggle that succeeds flips the flag; one that fails keeps it. */
  lemma ToggleFlips(host: Host, selection: int, monitors: seq<MonitorInfo>, isDefaultProfile: bool)
    ensures var action := ToggleAction(isDefaultProfile);
            var c := ChangeProfile(host, action, selection, monitors, isDefaultProfile);
            c.isDefaultProfile == (if Execute(host, ScriptOf(action), selection, monitors).success then !isDefaultProfile else isDefaultProfile)
  {
  }

  /**
   * A successful change is announced: with the timer in place, once the
   * change's balloons are queued the pending slot holds the "Profile
   * Changed" balloon for this action and scope, and the tooltip names the
   * new profile.
   */
  lemma SuccessIsAnnounced(d: Debouncer, host: Host, action: ProfileAction, selection: int, monitors: seq<MonitorInfo>, isDefaultProfile: bool)
    requires d.timerExists
    requires Execute(host, ScriptOf(action), selection, monitors).success
    ensures var c := ChangeProfile(host, action, selection, monitors, isDefaultProfile);
            var scope := MonitorDisplayText(selection, monitors);
            && QueueAll(d, c.queued).pending == Some(ChangedNotice(action, scope))
            && c.toolTip == Some(ToolTipText(action == RevertDefault, scope))
  {
    var c := ChangeProfile(host, action, selection, monitors, isDefaultProfile);
    QueueAllLastWins(d, c.queued);
  }

  /** A failed change never announces a profile change: every balloon it queues is an error. */
  lemma FailureIsNotAnnounced(host: Host, action: ProfileAction, selection: int, monitors: seq<MonitorInfo>, isDefaultProfile: bool)
    requires !Execute(host, ScriptOf(action), selection, monitors).success
    ensures var c := ChangeProfile(host, action, selection, monitors, isDefaultProfile);
            forall k :: 0 <= k < |c.queued| ==> c.queued[k].title == ErrorTitle && c.queued[k].icon == Error
  {
    ExecuteQueuesOnlyErrors(host, ScriptOf(action), selection, monitors);
  }

  /** The tooltip always tells the two profiles apart. */
  lemma ToolTipDistinguishesProfiles(scope1: string, scope2: string)
    ensures ToolTipText(true, scope1) != ToolTipText(false, scope2)
  {
    assert ToolTipText(true, scope1)[15] == 'D';
    assert ToolTipText(false, scope2)[15] == 's';
  }

  /** The apply and revert balloons never coincide. */
  lemma ChangedNoticesDiffer(scope1: string, scope2: string)
    ensures ChangedNotice(ApplyGamma, scope1) != ChangedNotice(RevertDefault, scope2)
  {
    assert ChangedNotice(ApplyGamma, scope1).message[0] == 'A';
    assert ChangedNotice(RevertDefault, scope2).message[0] == 'R';
  }
}
