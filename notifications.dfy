/**
 * Balloon notifications and their debouncer: a single pending slot that the
 * newest notification overwrites, and a timer that, when it fires, shows the
 * pending notification (if the user allows notifications and the tray icon
 * is visible) and empties the slot. The timer's 500 ms delay is not modelled:
 * a tick is an explicit step.
 */
module Notifications {
  import opened Wrappers

  /** The balloon icon (ToolTipIcon). */
  datatype ToolTipIcon = NoIcon | Info | Warning | Error

  /** A balloon's title, text and icon. */
  datatype Notification = Notification(title: string, message: string, icon: ToolTipIcon)

  /** The debouncer's state: whether the timer exists, whether it runs, and the pending slot. */
  datatype Debouncer = Debouncer(timerExists: bool, timerRunning: bool, pending: Option<Notification>)

  /** The state right after the timer is created: stopped, nothing pending. */
  const Initial := Debouncer(true, false, None)

  /** QueueBalloonTip: without a timer nothing happens; otherwise the slot takes `n` and the timer restarts. */
  function Queue(d: Debouncer, n: Notification): Debouncer
  {
    if !d.timerExists then d else Debouncer(true, true, Some(n))
  }

  /** Queueing several notifications one after the other. */
  function QueueAll(d: Debouncer, ns: seq<Notification>): Debouncer
  {
    if ns == [] then d else Queue(QueueAll(d, ns[..|ns| - 1]), ns[|ns| - 1])
  }

  /** What a tick leaves behind, and the balloon it shows, if any. */
  datatype TickResult = TickResult(after: Debouncer, emitted: Option<Notification>)

  /**
   * NotificationTimer_Tick: the timer stops and the slot is emptied; the
   * pending notification is shown only when `canShow` holds (notifications
   * enabled and the tray icon visible).
   */
  function Tick(d: Debouncer, canShow: bool): (r: TickResult)
    ensures !r.after.timerRunning && r.after.pending.None? && r.after.timerExists == d.timerExists
    ensures r.emitted.Some? <==> d.pending.Some? && canShow
    ensures r.emitted.Some? ==> r.emitted == d.pending
  {
    TickResult(Debouncer(d.timerExists, false, None), if canShow then d.pending else None)
  }

  /** Queueing in two runs is queueing the whole sequence. */
  lemma {:induction false} QueueAllAppend(d: Debouncer, a: seq<Notification>, b: seq<Notification>)
    ensures QueueAll(d, a + b) == QueueAll(QueueAll(d, a), b)
    decreases |b|
  {
    if b == [] {
      assert a + b == a;
    } else {
      assert (a + b)[..|a + b| - 1] == a + b[..|b| - 1];
      QueueAllAppend(d, a, b[..|b| - 1]);
    }
  }

  /** Queueing one more notification after a run of them. */
  lemma QueueAllSnoc(d: Debouncer, ns: seq<Notification>, n: Notification)
    ensures QueueAll(d, ns + [n]) == Queue(QueueAll(d, ns), n)
  {
    assert (ns + [n])[..|ns|] == ns;
  }

  /** Without a timer, queueing changes nothing. */
  lemma {:induction false} QueueAllWithoutTimer(d: Debouncer, ns: seq<Notification>)
    requires !d.timerExists
    ensures QueueAll(d, ns) == d
  {
    if ns != [] {
      QueueAllWithoutTimer(d, ns[..|ns| - 1]);
    }
  }

  /** The timer's existence is never changed by queueing. */
  lemma {:induction false} QueueAllKeepsTimer(d: Debouncer, ns: seq<Notification>)
    ensures QueueAll(d, ns).timerExists == d.timerExists
  {
    if ns != [] {
      QueueAllKeepsTimer(d, ns[..|ns| - 1]);
    }
  }

  /** Last write wins: with a timer, after a burst the slot holds the newest notification and the timer runs. */
  lemma QueueAllLastWins(d: Debouncer, ns: seq<Notification>)
    requires d.timerExists && ns != []
    ensures QueueAll(d, ns) == Debouncer(true, true, Some(ns[|ns| - 1]))
  {
    QueueAllKeepsTimer(d, ns[..|ns| - 1]);
  }

  /** An empty burst leaves the debouncer as it was. */
  lemma QueueAllNothing(d: Debouncer)
    ensures QueueAll(d, []) == d
  {
  }

  /** A burst followed by a tick shows exactly the newest notification of the burst, once, when showing is allowed. */
  lemma BurstThenTick(d: Debouncer, ns: seq<Notification>, canShow: bool)
    requires d.timerExists && ns != []
    ensures Tick(QueueAll(d, ns), canShow).emitted == if canShow then Some(ns[|ns| - 1]) else None
    ensures Tick(QueueAll(d, ns), canShow).after == Debouncer(true, false, None)
  {
    QueueAllLastWins(d, ns);
  }

  /** A second tick without anything queued in between shows nothing. */
  lemma TickTwice(d: Debouncer, canShow1: bool, canShow2: bool)
    ensures Tick(Tick(d, canShow1).after, canShow2).emitted.None?
  {
  }

  /** A tick on an empty slot shows nothing and only stops the timer. */
  lemma TickOnEmptySlot(d: Debouncer, canShow: bool)
    requires d.pending.None?
    ensures Tick(d, canShow) == TickResult(d.(timerRunning := false), None)
  {
  }

  /** A pending notification always has a running timer that will tick it out: nothing queued is stranded. */
  predicate Armed(d: Debouncer)
  {
    d.pending.Some? ==> d.timerExists && d.timerRunning
  }

  /** Queueing keeps the debouncer armed, whatever was queued. */
  lemma QueueAllKeepsArmed(d: Debouncer, ns: seq<Notification>)
    requires Armed(d)
    ensures Armed(QueueAll(d, ns))
  {
    if !d.timerExists {
      QueueAllWithoutTimer(d, ns);
    } else if ns != [] {
      QueueAllLastWins(d, ns);
    }
  }

  /** A tick leaves the debouncer armed, as it empties the slot; so is the freshly created timer. */
  lemma TickArms(d: Debouncer, canShow: bool)
    ensures Armed(Tick(d, canShow).after)
    ensures Armed(Initial)
  {
  }

  /** The balloon a tick shows, as log entries: one or none. */
  function Emitted(r: TickResult): seq<Notification>
  {
    if r.emitted.Some? then [r.emitted.value] else []
  }
}
