/**
 * The per-class notification record `{count, lastSent, lastStatus}` and
 * the two rules that change it: the edge-triggered status step of the
 * background status check, and the time-gated hourly reminder.
 */
module Tracking {

  import opened Wrappers
  import opened Alerts

  const MAX_NOTIFICATIONS := 10
  const NOTIFICATION_INTERVAL_HOURS := 1
  /** The reminder interval in milliseconds. */
  const INTERVAL_MS := NOTIFICATION_INTERVAL_HOURS * 60 * 60 * 1000

  const OPEN := "OPEN"
  const FULL := "FULL"

  /** One entry of the notification tracker; `lastSent` is in milliseconds. */
  datatype Tracker = Tracker(count: int, lastSent: int, lastStatus: string)

  /** The record the code falls back on when a class has no entry. */
  const DEFAULT := Tracker(0, 0, FULL)

  /**
   * What every stored tracker satisfies: the count stays within
   * 0..MAX_NOTIFICATIONS, and a record that last saw OPEN has counted the
   * opening alert.
   */
  predicate TrackerOk(t: Tracker)
  {
    0 <= t.count <= MAX_NOTIFICATIONS && (t.lastStatus == OPEN ==> t.count >= 1)
  }

  /** The alert the status check sends when a class moves from `oldStatus` to `newStatus`. */
  function EdgeAlert(oldStatus: string, newStatus: string): Option<Reason>
  {
    if newStatus == oldStatus then None
    else if newStatus == OPEN then Some(Open)
    else if newStatus == FULL && oldStatus == OPEN then Some(Full)
    else None
  }

  /** The tracker after the status check has seen status `newStatus` at time `now`. */
  function Observe(t: Tracker, newStatus: string, now: int): Tracker
  {
    if newStatus == t.lastStatus then t
    else if newStatus == OPEN then Tracker(1, now, OPEN)
    else if newStatus == FULL && t.lastStatus == OPEN then Tracker(0, 0, FULL)
    else t.(lastStatus := newStatus)
  }

  /** Only the two edges alert: a rising edge into OPEN and a falling edge from OPEN to FULL. */
  lemma EdgeAlertCases(oldStatus: string, newStatus: string)
    ensures EdgeAlert(oldStatus, newStatus) == Some(Open) <==> newStatus == OPEN && oldStatus != OPEN
    ensures EdgeAlert(oldStatus, newStatus) == Some(Full) <==> newStatus == FULL && oldStatus == OPEN
    ensures EdgeAlert(oldStatus, newStatus).None? <==> newStatus == oldStatus || (newStatus != OPEN && !(newStatus == FULL && oldStatus == OPEN))
  {
  }

  /** After a step the record has seen the new status. */
  lemma ObserveRecordsStatus(t: Tracker, newStatus: string, now: int)
    ensures Observe(t, newStatus, now).lastStatus == newStatus
  {
  }

  /**
   * The debounce: seeing the same status twice, at any two times, alerts at
   * most once (only the first time) and leaves the record as the first step
   * left it.
   */
  lemma {:induction false} ObserveDebounce(t: Tracker, s: string, t1: int, t2: int)
    ensures Observe(Observe(t, s, t1), s, t2) == Observe(t, s, t1)
    ensures EdgeAlert(Observe(t, s, t1).lastStatus, s).None?
  {
    ObserveRecordsStatus(t, s, t1);
  }

  /** A rising edge starts a streak with the opening alert counted once. */
  lemma RisingEdge(t: Tracker, now: int)
    requires t.lastStatus != OPEN
    ensures EdgeAlert(t.lastStatus, OPEN) == Some(Open)
    ensures Observe(t, OPEN, now) == Tracker(1, now, OPEN)
  {
  }

  /** A falling edge ends the streak and clears the count and the send time. */
  lemma FallingEdge(t: Tracker, now: int)
    requires t.lastStatus == OPEN
    ensures EdgeAlert(t.lastStatus, FULL) == Some(Full)
    ensures Observe(t, FULL, now) == Tracker(0, 0, FULL)
  {
  }

  /** Any other change of status only records the new status. */
  lemma OtherChange(t: Tracker, newStatus: string, now: int)
    requires newStatus != t.lastStatus && newStatus != OPEN && !(newStatus == FULL && t.lastStatus == OPEN)
    ensures EdgeAlert(t.lastStatus, newStatus).None?
    ensures Observe(t, newStatus, now) == t.(lastStatus := newStatus)
  {
  }

  lemma ObserveKeepsTrackerOk(t: Tracker, newStatus: string, now: int)
    requires TrackerOk(t)
    ensures TrackerOk(Observe(t, newStatus, now))
  {
  }

  /**
   * When the hourly job sends a reminder: the stored details exist and say
   * OPEN, the streak has started and not used up its count, and an hour
   * has passed since the last alert.
   */
  predicate ReminderDue(d: Option<Details>, t: Tracker, now: int)
  {
    && d.Some? && d.value.status == OPEN
    && 0 < t.count < MAX_NOTIFICATIONS
    && now - t.lastSent >= INTERVAL_MS
  }

  /** The record after a reminder has been sent at `now`. */
  function Remind(t: Tracker, now: int): Tracker
  {
    t.(count := t.count + 1, lastSent := now)
  }

  lemma RemindKeepsTrackerOk(d: Option<Details>, t: Tracker, now: int)
    requires TrackerOk(t) && ReminderDue(d, t, now)
    ensures TrackerOk(Remind(t, now))
    ensures Remind(t, now).count <= MAX_NOTIFICATIONS
  {
  }

  /** One reminder: when it went out and the count it displayed. */
  datatype Sent = Sent(at: int, count: int)

  datatype Run = Run(final: Tracker, sent: seq<Sent>)

  /**
   * The hourly job run at each of `times` in turn on one record whose
   * stored details stay `d` (no status check in between).
   */
  function RemindRun(d: Option<Details>, t: Tracker, times: seq<int>): Run
    decreases |times|
  {
    if times == [] then Run(t, [])
    else if ReminderDue(d, t, times[0]) then
      var r := RemindRun(d, Remind(t, times[0]), times[1..]);
      Run(r.final, [Sent(times[0], t.count)] + r.sent)
    else RemindRun(d, t, times[1..])
  }

  /**
   * Over any sequence of reminder ticks: every reminder raises the count by
   * one and displays the count before the raise, which runs from 1 to 9;
   * the count never passes MAX_NOTIFICATIONS, so one streak yields at most
   * nine reminders; none goes out before a streak has started; and any two
   * reminders, like the first and the preceding alert, are at least an
   * hour apart.
   */
  lemma {:induction false} RemindRunBounds(d: Option<Details>, t: Tracker, times: seq<int>)
    requires 0 <= t.count <= MAX_NOTIFICATIONS
    decreases |times|
    ensures var r := RemindRun(d, t, times);
      && r.final.count == t.count + |r.sent|
      && r.final.count <= MAX_NOTIFICATIONS
      && r.final.lastStatus == t.lastStatus
      && (t.count == 0 ==> r.sent == [])
      && |r.sent| <= MAX_NOTIFICATIONS - 1
      && (forall i :: 0 <= i < |r.sent| ==> r.sent[i].count == t.count + i && 1 <= r.sent[i].count < MAX_NOTIFICATIONS)
      && (|r.sent| > 0 ==> r.sent[0].at - t.lastSent >= INTERVAL_MS)
      && (forall i :: 0 < i < |r.sent| ==> r.sent[i].at - r.sent[i - 1].at >= INTERVAL_MS)
  {
    if times != [] {
      if ReminderDue(d, t, times[0]) {
        var t' := Remind(t, times[0]);
        RemindRunBounds(d, t', times[1..]);
        var r' := RemindRun(d, t', times[1..]);
        var r := RemindRun(d, t, times);
        assert r.sent == [Sent(times[0], t.count)] + r'.sent;
        forall i | 0 < i < |r.sent|
          ensures r.sent[i].at - r.sent[i - 1].at >= INTERVAL_MS
        {
          if i == 1 {
            assert r.sent[1] == r'.sent[0];
          } else {
            assert r.sent[i] == r'.sent[i - 1] && r.sent[i - 1] == r'.sent[i - 2];
          }
        }
      } else {
        RemindRunBounds(d, t, times[1..]);
      }
    }
  }

  /*
   * The status check as written looks a class's record up with a default
   * and writes it back only when the class already had one (the default
   * record is changed and then dropped). The version below stores it, as
   * the debounce evidently intends.
   */

  datatype Step = Step(trackers: map<string, Tracker>, alert: Option<Reason>)

  /** One class of the status check seeing `newStatus`, as written: a missing record is not saved. */
  function ObserveKey(trackers: map<string, Tracker>, num: string, newStatus: string, now: int): Step
  {
    var t := if num in trackers then trackers[num] else DEFAULT;
    Step(if num in trackers then trackers[num := Observe(t, newStatus, now)] else trackers,
         EdgeAlert(t.lastStatus, newStatus))
  }

  /** The corrected step: a missing record is created from the default and saved. */
  function ObserveKeyLazy(trackers: map<string, Tracker>, num: string, newStatus: string, now: int): Step
  {
    var t := if num in trackers then trackers[num] else DEFAULT;
    Step(trackers[num := Observe(t, newStatus, now)], EdgeAlert(t.lastStatus, newStatus))
  }

  /** The number of alerts for `num` over successive status checks reporting `statuses`. */
  function AlertsOver(trackers: map<string, Tracker>, num: string, statuses: seq<string>, now: int, lazy: bool): nat
    decreases |statuses|
  {
    if statuses == [] then 0
    else
      var st := if lazy then ObserveKeyLazy(trackers, num, statuses[0], now)
                else ObserveKey(trackers, num, statuses[0], now);
      (if st.alert.Some? then 1 else 0) + AlertsOver(st.trackers, num, statuses[1..], now, lazy)
  }

  /** As written: a tracked class without a record alerts OPEN on every check that reports it OPEN. */
  lemma {:induction false} MissingTrackerRealerts(trackers: map<string, Tracker>, num: string, statuses: seq<string>, now: int)
    requires num !in trackers
    requires forall i :: 0 <= i < |statuses| ==> statuses[i] == OPEN
    ensures AlertsOver(trackers, num, statuses, now, false) == |statuses|
    decreases |statuses|
  {
    if statuses != [] {
      assert ObserveKey(trackers, num, statuses[0], now) == Step(trackers, Some(Open));
      MissingTrackerRealerts(trackers, num, statuses[1..], now);
    }
  }

  /** A concrete case: two checks that both report OPEN send two opening alerts. */
  lemma MissingTrackerTwoAlerts()
    ensures AlertsOver(map[], "12345", [OPEN, OPEN], 0, false) == 2
  {
    MissingTrackerRealerts(map[], "12345", [OPEN, OPEN], 0);
  }

  /** Corrected: however many checks report OPEN in a row, at most one alert goes out. */
  lemma {:induction false} LazyObserveDebounces(trackers: map<string, Tracker>, num: string, statuses: seq<string>, now: int)
    requires forall i :: 0 <= i < |statuses| ==> statuses[i] == OPEN
    ensures AlertsOver(trackers, num, statuses, now, true) <= 1
    ensures num in trackers && trackers[num].lastStatus == OPEN ==> AlertsOver(trackers, num, statuses, now, true) == 0
    decreases |statuses|
  {
    if statuses != [] {
      var st := ObserveKeyLazy(trackers, num, statuses[0], now);
      assert num in st.trackers && st.trackers[num].lastStatus == OPEN;
      LazyObserveDebounces(st.trackers, num, statuses[1..], now);
    }
  }
}
