/**
 * Class details as the notifier stores them, and the alerts it hands to
 * the ntfy.sh topic: which title goes with which reason, and which count a
 * reminder displays.
 */
module Alerts {

  import opened Wrappers

  /** One class section, as returned by the search and stored while tracked. */
  datatype Details = Details(
    className: string,
    classNumber: string,
    status: string,
    title: string,
    instructor: string,
    seats: string)

  /**
   * Why an alert goes out. A reminder carries the count it displays as
   * "count/MAX_NOTIFICATIONS".
   */
  datatype Reason = Open | Full | Reminder(count: int)

  /**
   * What one post to the topic carries: its title header and the class the
   * message body describes. The emoji and the exact wording of the body are
   * not modelled; the reason (with a reminder's count) determines them.
   */
  datatype Alert = Alert(topic: string, title: string, reason: Reason, details: Details)

  const OPEN_PREFIX := "Seat Open: "
  const FULL_PREFIX := "Class Full: "
  const REMINDER_PREFIX := "Still Open: "

  function TitlePrefix(reason: Reason): string
  {
    match reason
    case Open => OPEN_PREFIX
    case Full => FULL_PREFIX
    case Reminder(_) => REMINDER_PREFIX
  }

  /** The title header of an alert for the given reason and class name. */
  function Title(reason: Reason, className: string): (t: string)
    ensures |t| == |TitlePrefix(reason)| + |className|
    ensures t[|TitlePrefix(reason)|..] == className
  {
    TitlePrefix(reason) + className
  }

  /**
   * The alerts one call of send_notification produces: none when no topic
   * is configured, otherwise exactly one, titled after the reason.
   */
  function Send(topic: string, d: Details, reason: Reason): (out: seq<Alert>)
    ensures |out| == if topic == "" then 0 else 1
    ensures forall a :: a in out ==>
              a.topic == topic && a.reason == reason && a.details == d && a.title == Title(reason, d.className)
  {
    if topic == "" then [] else [Alert(topic, Title(reason, d.className), reason, d)]
  }

  /** The kinds of alert a reader of the topic can tell apart by the title alone. */
  datatype Kind = OpenKind | FullKind | ReminderKind

  function KindOf(reason: Reason): Kind
  {
    match reason
    case Open => OpenKind
    case Full => FullKind
    case Reminder(_) => ReminderKind
  }

  predicate HasPrefix(s: string, p: string) { |p| <= |s| && s[..|p|] == p }

  /** Reads the kind and the class name back from an alert title. */
  function ParseTitle(t: string): Option<(Kind, string)>
  {
    if HasPrefix(t, OPEN_PREFIX) then Some((OpenKind, t[|OPEN_PREFIX|..]))
    else if HasPrefix(t, FULL_PREFIX) then Some((FullKind, t[|FULL_PREFIX|..]))
    else if HasPrefix(t, REMINDER_PREFIX) then Some((ReminderKind, t[|REMINDER_PREFIX|..]))
    else None
  }

  /** Every title names its alert's kind and class unambiguously. */
  lemma {:induction false} TitleRoundTrip(reason: Reason, className: string)
    ensures ParseTitle(Title(reason, className)) == Some((KindOf(reason), className))
  {
    var t := Title(reason, className);
    assert t[..|TitlePrefix(reason)|] == TitlePrefix(reason);
    match reason
    case Open =>
    case Full =>
      assert t[0] != OPEN_PREFIX[0];
    case Reminder(_) =>
      assert t[1] != OPEN_PREFIX[1];
      assert t[0] != FULL_PREFIX[0];
  }

  /** So alerts of different kinds never share a title. */
  lemma TitlesOfKindsDiffer(r1: Reason, r2: Reason, n1: string, n2: string)
    requires KindOf(r1) != KindOf(r2)
    ensures Title(r1, n1) != Title(r2, n2)
  {
    TitleRoundTrip(r1, n1);
    TitleRoundTrip(r2, n2);
  }
}
