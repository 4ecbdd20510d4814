/**
 * The two user settings kept under HKCU\SOFTWARE\HDRGammaFix: the selected
 * monitor ("SelectedMonitor", -1 for all monitors) and whether balloons are
 * shown ("NotificationsEnabled", stored as 1 or 0). The registry key is a
 * store that may be unreadable or fail to take a write.
 */
module Settings {
  import opened Wrappers

  const SelectedMonitorName := "SelectedMonitor"
  const NotificationsEnabledName := "NotificationsEnabled"

  /**
   * The integer values under the key. A value of another type reads as
   * absent, which is what the source's `is int` test makes of it.
   */
  type Values = map<string, int>

  /**
   * How a write to the key goes: it is written; CreateSubKey gives no key,
   * so nothing is written but no exception is raised either; or an
   * exception is raised and swallowed.
   */
  datatype StoreWrite = Written | KeyUnavailable | WriteFailed

  /** LoadMonitorSelection: the stored integer, or -1 (all monitors) when the key or value is missing or unreadable. */
  function LoadedSelection(stored: Option<Values>): int
  {
    if stored.Some? && SelectedMonitorName in stored.value then stored.value[SelectedMonitorName] else -1
  }

  /** LoadNotificationSetting: any non-zero stored integer enables balloons; missing or unreadable means enabled. */
  function LoadedNotificationsEnabled(stored: Option<Values>): (enabled: bool)
    ensures !enabled <==> stored.Some? && NotificationsEnabledName in stored.value && stored.value[NotificationsEnabledName] == 0
  {
    if stored.Some? && NotificationsEnabledName in stored.value then stored.value[NotificationsEnabledName] != 0 else true
  }

  /** An unreadable key, or one without the values, gives all monitors and balloons enabled. */
  lemma LoadDefaults(stored: Option<Values>)
    requires stored.Some? ==> SelectedMonitorName !in stored.value && NotificationsEnabledName !in stored.value
    ensures LoadedSelection(stored) == -1 && LoadedNotificationsEnabled(stored)
  {
  }

  /** A setter's effect: the key's values afterwards and the in-memory setting afterwards. */
  datatype Saved<T> = Saved(values: Values, current: T)

  /**
   * SaveMonitorSelection: the in-memory selection follows the request
   * unless the write raised; the key takes it only when written.
   */
  function SaveSelection(values: Values, current: int, selection: int, write: StoreWrite): Saved<int>
  {
    match write
    case Written => Saved(values[SelectedMonitorName := selection], selection)
    case KeyUnavailable => Saved(values, selection)
    case WriteFailed => Saved(values, current)
  }

  /** SaveNotificationSetting, storing 1 for enabled and 0 for disabled. */
  function SaveNotifications(values: Values, current: bool, enabled: bool, write: StoreWrite): Saved<bool>
  {
    match write
    case Written => Saved(values[NotificationsEnabledName := if enabled then 1 else 0], enabled)
    case KeyUnavailable => Saved(values, enabled)
    case WriteFailed => Saved(values, current)
  }

  /** A written selection is what the next start loads, and the other setting is not disturbed. */
  lemma SelectionRoundTrip(values: Values, current: int, selection: int)
    ensures var saved := SaveSelection(values, current, selection, Written);
            && LoadedSelection(Some(saved.values)) == selection
            && saved.current == selection
            && LoadedNotificationsEnabled(Some(saved.values)) == LoadedNotificationsEnabled(Some(values))
  {
  }

  /** A written notification flag is what the next start loads, and the selection is not disturbed. */
  lemma NotificationsRoundTrip(values: Values, current: bool, enabled: bool)
    ensures var saved := SaveNotifications(values, current, enabled, Written);
            && LoadedNotificationsEnabled(Some(saved.values)) == enabled
            && saved.current == enabled
            && LoadedSelection(Some(saved.values)) == LoadedSelection(Some(values))
  {
  }

  /** Only a write that raised leaves the in-memory selection alone, and only a completed write changes the key. */
  lemma SaveSelectionOutcomes(values: Values, current: int, selection: int, write: StoreWrite)
    ensures var saved := SaveSelection(values, current, selection, write);
            && (saved.current == selection || saved.current == current)
            && (write == WriteFailed ==> saved == Saved(values, current))
            && (write != WriteFailed ==> saved.current == selection)
            && (saved.values != values ==> write == Written)
  {
  }

  /** The same for the notification flag. */
  lemma SaveNotificationsOutcomes(values: Values, current: bool, enabled: bool, write: StoreWrite)
    ensures var saved := SaveNotifications(values, current, enabled, write);
            && (write == WriteFailed ==> saved == Saved(values, current))
            && (write != WriteFailed ==> saved.current == enabled)
            && (saved.values != values ==> write == Written)
  {
  }
}
