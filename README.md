# class-notify: the tracking and notification engine

class-notify watches class sections and posts alerts to an ntfy.sh topic
when a seat opens. Its backend (backend/app.py) keeps three in-memory
stores:
- `tracked_classes`: class number to the stored details.
- `notify_tracker`: class number to `{count, lastSent, lastStatus}`.
- `app_settings`: the term code and the topic.

The stores change in five places:
- Three request handlers: add a class, delete a class, update settings.
- Two scheduled jobs: the background status check and the hourly reminder.

This project models those stores and their changes, together with
`get_term_name` and the choice of title and reason in `send_notification`.
It proves what each change does.

The model has three layers:
- **Pure rules.**
  - `Terms` decodes a term code.
  - `Alerts` picks alert titles.
  - `Tracking` holds the per-tracker rules: the edge-triggered status step and the time-gated reminder.
  - `Ordered` models Python dict insertion order: a map plus the sequence of its keys.
- **The whole state as a value.** Each handler and job is a function of it:
  - `EngineSpec` holds the handlers and `perform_immediate_check`.
  - `Jobs` holds `check_class_statuses` and `hourly_reminder_check`.
  - Lemmas there say what each effect means and that it keeps `EngineSpec.Inv`. Per class, they state:
    - which alerts go out;
    - which trackers change;
    - what stays untouched.
- **`Engine.Notifier`**, a class whose fields are the stores plus an `outbox` of posted alerts.
  - Its methods update the fields in place with the same loops and branches as the Python code.
  - Each one is proved to leave the fields exactly as the matching function says.

Notes on how the model reads the Python code:
- `fetch(className, term)` is a parameter that stands for `class_checker.fetch_class_details`.
- `now` is a parameter that stands for `time.time()` in milliseconds.
- An alert that reaches ntfy.sh is an entry appended to `outbox`.
- An empty `classNumber` stands for a missing one, since `if not class_number` treats both alike.
- An empty topic stands for an unset one.

Two places where the code does less than its neighbouring code suggests;
the model follows the code as written:
- **A class without a tracker never gets one from the status check.** At
  backend/app.py:120 a missing tracker is read with a `.get` default
  record. Lines 127-134 change that record, but it is never stored. The
  class is therefore judged against `lastStatus = FULL` on every run, and an
  OPEN class alerts on every run. `perform_immediate_check`, by contrast,
  stores its record before changing it (backend/app.py:95-96). See
  "## Findings".
- **An immediate check with no matching section installs no tracker.** The
  code creates a tracker only when a fetched section carries the class
  number (backend/app.py:90-101). Such a class then falls under the
  previous point.

A further reading of the code:
- **A falling edge resets the send time as well as the count.**
  backend/app.py:132 sets `lastSent` to 0 together with `count`.

## Model

| member | source | states |
|---|---|---|
| Terms.IntOfTwoChars | backend/app.py:33 | `int()` of the two year characters: two digits give their value; a sign or white space around one digit is accepted; two non-digits raise ValueError; any value lies in -9..99 |
| Terms.NatToString | backend/app.py:33-37 | the year printed in decimal: at least one character, all digits, and no leading zero unless the number is 0 |
| Terms.DecimalRoundTrip | backend/app.py:33-37 | reading the printed year back as a decimal number gives the year again |
| Terms.GetTermName | backend/app.py:31-38 | a code whose length is not 4 is "Unknown Term"; for length 4, ValueError exactly when the year characters do not parse; a known name exactly when the year parses and the last character is 1, 4 or 7; that name is season, space, 2000 + year |
| Terms.TermCodeRoundTrip | backend/app.py:31-38 | any code built from a season character and two year digits decodes to that season and 2000 + the digits, whatever the first character |
| Terms.TermNameDeterminesTerm | backend/app.py:31-38 | two codes with the same known name agree on season character and year value |
| Terms.DefaultTermIsFall2025 | backend/app.py:24 | the start-up code "2257" names "Fall 2025" |
| Alerts.Title | backend/app.py:157-166 | a title is the reason's prefix followed by the class name |
| Alerts.Send | backend/app.py:148-169 | no alert without a topic; otherwise exactly one, addressed to the topic, carrying the reason, the details and the reason's title |
| Alerts.TitleRoundTrip | backend/app.py:157-166 | the kind (open, full, reminder) and the class name can be read back from every title |
| Alerts.TitlesOfKindsDiffer | backend/app.py:157-166 | alerts of different kinds never share a title |
| Tracking.EdgeAlert | backend/app.py:123-132 | definition of the alert a status change sends; its cases are stated by Tracking.EdgeAlertCases |
| Tracking.Observe | backend/app.py:121-134 | definition of the tracker after a status step; stated by Tracking.ObserveRecordsStatus, Tracking.ObserveDebounce, Tracking.RisingEdge, Tracking.FallingEdge, Tracking.OtherChange and Tracking.ObserveKeepsTrackerOk |
| Tracking.ObserveKey | backend/app.py:120-134 | definition of one class's status step as written, with the unsaved `.get` default; stated by Tracking.MissingTrackerRealerts and Jobs.CheckMissingTracker |
| Tracking.ReminderDue | backend/app.py:141-142 | definition of when a reminder is due: stored class OPEN, 0 < count < 10, an hour since the last alert; used by Jobs.ReminderCheckAt and Tracking.RemindRunBounds |
| Tracking.Remind | backend/app.py:145-146 | definition of the tracker after a reminder; stated by Tracking.RemindKeepsTrackerOk and Jobs.RemindFoldTracker |
| Tracking.EdgeAlertCases | backend/app.py:123-132 | an OPEN alert exactly on a change into OPEN; a FULL alert exactly on OPEN to FULL; no alert otherwise |
| Tracking.ObserveRecordsStatus | backend/app.py:134 | after a status step the tracker holds the new status |
| Tracking.ObserveDebounce | backend/app.py:121-123 | the same status seen twice, at any times, alerts at most on the first sighting; the second step leaves the tracker as the first left it |
| Tracking.RisingEdge | backend/app.py:126-129 | into OPEN from any other status: OPEN alert, tracker (1, now, OPEN) |
| Tracking.FallingEdge | backend/app.py:130-132 | OPEN to FULL: FULL alert, tracker (0, 0, FULL) |
| Tracking.OtherChange | backend/app.py:126-134 | every other change of status records the new status, without an alert |
| Tracking.ObserveKeepsTrackerOk | backend/app.py:126-134 | a status step keeps the count in 0..10 and a count of at least 1 while OPEN |
| Tracking.RemindKeepsTrackerOk | backend/app.py:142-146 | a due reminder keeps the tracker sound; the count stays at most MAX_NOTIFICATIONS |
| Tracking.RemindRun | backend/app.py:138-146 | definition of one class's record under a sequence of reminder ticks, with the count each reminder displays; the single-record reference stated by Tracking.RemindRunBounds and matched against the real job by Jobs.TicksTracker and Jobs.TicksFollowRemindRun |
| Tracking.RemindRunBounds | backend/app.py:138-146 | over any sequence of reminder ticks: each reminder adds one to the count and displays the count before the raise, in 1..9; the count never exceeds 10; no reminder before a streak starts; at most 9 per streak; reminders at least an hour after the previous alert and after each other |
| Tracking.MissingTrackerRealerts | backend/app.py:120 | as written: a class with no tracker, reported OPEN on n checks, alerts n times |
| Tracking.MissingTrackerTwoAlerts | backend/app.py:120 | concrete case: two checks both reporting OPEN send two OPEN alerts |
| Tracking.ObserveKeyLazy | backend/app.py:120-134 | definition of the corrected status step, which stores the `.get` default record on first sight; stated by Tracking.LazyObserveDebounces |
| Tracking.LazyObserveDebounces | backend/app.py:120 | corrected step: however many checks report OPEN in a row, at most one alert, and none if the tracker was already OPEN |
| Ordered.Put | backend/app.py:74 | dict assignment order: the keys are the old ones plus the new one, without duplicates; a present key leaves the order as it was |
| Ordered.PutAppends | backend/app.py:74 | a key not yet present goes last, after every key already present |
| Ordered.Drop | backend/app.py:81-82 | `pop(k, None)` order: exactly k is gone, without duplicates, never longer; nothing changes if k was absent |
| Ordered.DropAt | backend/app.py:81-82 | dropping the key at place i leaves the keys before and after it, in their order, with the gap closed |
| Ordered.PutOrder | backend/app.py:74 | after an assignment the order lists exactly the dict's keys, once each |
| Ordered.DropOrder | backend/app.py:81-82 | after a pop the order lists exactly the remaining keys, once each |
| EngineSpec.InitialInv | backend/app.py:23-25 | the start-up state satisfies the store invariant |
| EngineSpec.Values | backend/app.py:77 | `list(tracked_classes.values())`, in key order by its definition: one entry per tracked class |
| EngineSpec.ValuesListsStored | backend/app.py:77 | the list holds the details of every tracked class, and nothing that is not stored |
| EngineSpec.Delete | backend/app.py:80-82 | definition of the delete handler's effect; stated by EngineSpec.DeleteEffect and EngineSpec.DeleteAbsentIsNoop |
| EngineSpec.DeleteEffect | backend/app.py:80-84 | delete removes the key from both dicts, keeps every other entry and keeps the invariant |
| EngineSpec.DeleteAbsentIsNoop | backend/app.py:81-82 | deleting an untracked number changes nothing |
| EngineSpec.UpdateSettings | backend/app.py:52-60 | definition of the settings handler's effect and reply; stated by EngineSpec.UpdateSettingsEffect |
| EngineSpec.UpdateSettingsEffect | backend/app.py:52-60 | termChanged exactly when a different term is given; then term replaced and both dicts cleared; otherwise both dicts and orders intact; a given topic replaces the old; the reply's name decodes the term after the update |
| EngineSpec.Immediate | backend/app.py:87-101 | definition of `perform_immediate_check`'s effect; stated by EngineSpec.ImmediateInv, EngineSpec.ImmediateFrame, EngineSpec.AddOpenAlertsOnce, EngineSpec.AddNotOpenResetsTracker and EngineSpec.AddNoMatchLeavesTrackers |
| EngineSpec.FirstMatch | backend/app.py:90-91 | none exactly when no section has the number; otherwise the first section that has it |
| EngineSpec.FirstMatchAt | backend/app.py:90-101 | the scan that stops at the first hit finds FirstMatch |
| EngineSpec.ImmediateInv | backend/app.py:87-101 | the immediate check keeps the store invariant |
| EngineSpec.ImmediateFrame | backend/app.py:87-101 | the immediate check changes no entry but the checked class's; term and topic stay |
| EngineSpec.Add | backend/app.py:69-77 | the add handler keeps the store invariant |
| EngineSpec.AddRejectsMissingNumber | backend/app.py:71-72 | no class number: the error reply, state unchanged |
| EngineSpec.AddOpenAlertsOnce | backend/app.py:90-98 | an OPEN first match: details replaced, tracker (1, now, OPEN), exactly one OPEN alert (none without a topic) |
| EngineSpec.AddNotOpenResetsTracker | backend/app.py:99-100 | a first match that is not OPEN: details replaced, tracker (0, 0, FULL), no alert |
| EngineSpec.AddNoMatchLeavesTrackers | backend/app.py:71-101 | no match: the request's details stay stored and the tracker dict is untouched, so a new class has no tracker |
| EngineSpec.AddKeepsOthers | backend/app.py:69-77 | adding touches only the added number's entries; the tracked keys gain exactly that number |
| EngineSpec.AddRunsImmediate | backend/app.py:74-76 | an accepted add stores the request's details under their number, then runs the immediate check |
| EngineSpec.AddListsAll | backend/app.py:77 | the reply is the value list of the new state: one entry per stored class, the added class among them |
| Jobs.Grouping | backend/app.py:108-109 | definition of the defaultdict of class names to numbers; stated by Jobs.GroupingOk and Jobs.GroupingPlan |
| Jobs.GroupingOk | backend/app.py:108-109 | the defaultdict groups: names distinct; every tracked number lies in exactly the group of its class name, once |
| Jobs.GroupingPlan | backend/app.py:108-111 | every group holds tracked numbers of its own class name; the second conjunct is a definitional bridge, tying the groups to CheckOrder so the nested loops can be proved against it |
| Jobs.FlattenFacts | backend/app.py:111-115 | visiting the groups in turn visits each grouped number once |
| Jobs.CheckOrder | backend/app.py:108-115 | the status check visits every tracked number exactly once |
| Jobs.LastMatch | backend/app.py:113 | the last entry with the number, none exactly when no entry has it |
| Jobs.FreshMap | backend/app.py:113 | definition of the comprehension over the fetched sections; stated by Jobs.FreshMapIsLastMatch |
| Jobs.FreshMapIsLastMatch | backend/app.py:113 | the comprehension keeps, for each number, its last entry in the fetched list |
| Jobs.FreshFor | backend/app.py:112-117 | the fresh entry found for a number carries that number |
| Jobs.KeyAlerts | backend/app.py:123-132 | the alerts for a number are all about that number |
| Jobs.ObserveFresh | backend/app.py:116-134 | definition of one number's step in the status check; stated by Jobs.CheckFoldTracked, Jobs.CheckFoldTracker and Jobs.CheckFoldOutbox |
| Jobs.StatusCheck | backend/app.py:103-134 | definition of one run of the status check; stated by Jobs.StatusCheckAt, Jobs.StatusCheckEffect, Jobs.StatusCheckInv and Jobs.StatusCheckAlertsPerClass |
| Jobs.CheckFold | backend/app.py:111-134 | definition of the per-number step over a visiting order; stated by Jobs.CheckFoldSnoc, Jobs.CheckFoldShape, Jobs.CheckFoldTracked, Jobs.CheckFoldTracker and Jobs.CheckFoldOutbox |
| Jobs.CheckFoldSnoc | backend/app.py:113-118 | visiting one more number steps it exactly when its group's fresh map holds it |
| Jobs.CheckFoldShape | backend/app.py:115-134 | the per-number loop never adds or removes a key and leaves term, topic and orders alone |
| Jobs.CheckFoldTracked | backend/app.py:116-118 | after the loop a visited number holds its fresh details; others keep theirs |
| Jobs.CheckFoldTracker | backend/app.py:120-134 | after the loop a visited tracker holds its stepped value; others keep theirs |
| Jobs.CheckFoldOutbox | backend/app.py:120-132 | the loop posts each number's edge alert in visiting order, judged on the tracker before the run |
| Jobs.StatusCheckAt | backend/app.py:103-134 | per class: it stays tracked with its fresh details (or its old ones), and its tracker, if any, is stepped on the fresh status |
| Jobs.StatusCheckEffect | backend/app.py:103-134 | the whole run: no key gained or lost, orders, term and topic unchanged, every entry as in StatusCheckAt, alerts appended in visiting order |
| Jobs.StatusCheckInv | backend/app.py:103-134 | the status check keeps the store invariant |
| Jobs.CheckAbsentUntouched | backend/app.py:116 | a number missing from the fresh results keeps its details and tracker, and gets no alert |
| Jobs.CheckSameStatusNoAlert | backend/app.py:123 | the tracker's status seen again: details refreshed, tracker unchanged, no alert |
| Jobs.CheckRisingEdge | backend/app.py:126-129 | fresh OPEN after anything else: one OPEN alert, tracker (1, now, OPEN) |
| Jobs.CheckFallingEdge | backend/app.py:130-132 | fresh FULL after OPEN: one FULL alert, tracker (0, 0, FULL) |
| Jobs.CheckOtherChange | backend/app.py:134 | any other change: only lastStatus changes, no alert |
| Jobs.CheckMissingTracker | backend/app.py:120 | a class without a tracker still has none afterwards, and a fresh OPEN status alerts OPEN |
| Jobs.StatusCheckAlertsPerClass | backend/app.py:111-134 | per class, the run posts exactly its edge alerts, at most one |
| Jobs.ReminderCount | backend/app.py:164 | definition of the count a reminder displays: the tracker's count, 0 without one; stated by Engine.ReasonOf and Jobs.RemindAlertsShape |
| Jobs.RemindKey | backend/app.py:140-146 | definition of one tracker's reminder step; stated by Jobs.RemindFoldTracker and Jobs.RemindFoldOutbox |
| Jobs.ReminderCheck | backend/app.py:136-146 | definition of one run of the hourly job; stated by Jobs.ReminderCheckAt, Jobs.ReminderCheckEffect, Jobs.ReminderCheckInv and Jobs.ReminderCheckAlertsPerClass |
| Jobs.RemindFold | backend/app.py:139-146 | the reminder loop keeps the tracker keys and changes nothing but trackers and outbox |
| Jobs.KeyReminder | backend/app.py:144 | a reminder carries the stored details of its class |
| Jobs.RemindFoldTracker | backend/app.py:139-146 | after the loop a due tracker has count + 1 and lastSent = now; others are unchanged |
| Jobs.RemindFoldOutbox | backend/app.py:139-166 | the loop posts each due reminder in tracker order, showing the count before the raise |
| Jobs.ReminderCheckAt | backend/app.py:136-146 | per tracker: raised exactly when the stored class is OPEN, 0 < count < 10, and an hour has passed |
| Jobs.ReminderCheckEffect | backend/app.py:136-146 | the whole run: only trackers and outbox change, no tracker added or removed, every tracker as in ReminderCheckAt |
| Jobs.ReminderCheckInv | backend/app.py:136-146 | the reminder job keeps the store invariant |
| Jobs.RemindAlertsShape | backend/app.py:139-166 | every reminder is about a stored OPEN class with a tracker, shows that tracker's count before the raise, between 1 and 9, and has the reminder title |
| Jobs.RemindAlertsFor | backend/app.py:139-146 | per tracker, the run's reminders are just that tracker's due reminder |
| Jobs.ReminderCheckAlertsPerClass | backend/app.py:139-152 | per class, one run posts one reminder when due and a topic is set, none otherwise |
| Jobs.Ticks | backend/app.py:136-146 | repeated runs keep the invariant, the details, the topic and the tracker keys, and only append to the outbox |
| Jobs.TicksTracker | backend/app.py:136-146 | repeated runs leave each tracker where the single-record RemindRun ends |
| Jobs.OneTickShown | backend/app.py:144-166 | one run shows a class the count before the raise if its reminder was due and a topic is set, nothing otherwise |
| Jobs.RunStep | backend/app.py:139-146 | RemindRun's first tick is one run of the job on that record |
| Jobs.TicksFollowRemindRun | backend/app.py:136-166 | repeated runs send each class exactly RemindRun's reminders with the same displayed counts (none without a topic), so RemindRunBounds holds for the real job |
| Engine.Notifier.constructor | backend/app.py:23-25 | the stores start empty with term "2257" and the default topic |
| Engine.Notifier.ListValues | backend/app.py:77 | the reply list equals Values of the state |
| Engine.Notifier.SendNotification | backend/app.py:148-169 | appends Send's alerts for the reason of the kind, and changes nothing else |
| Engine.Notifier.ImmediateCheck | backend/app.py:87-101 | the scan that breaks at the first match leaves the fields as Immediate says |
| Engine.Notifier.Add | backend/app.py:69-77 | leaves the fields and the reply as EngineSpec.Add says, and keeps the invariant |
| Engine.Notifier.Delete | backend/app.py:80-84 | leaves the fields as EngineSpec.Delete says; replies with the remaining classes |
| Engine.Notifier.UpdateSettings | backend/app.py:52-60 | leaves the fields and the reply as EngineSpec.UpdateSettings says |
| Engine.Notifier.BuildFreshMap | backend/app.py:113 | the comprehension's loop builds FreshMap |
| Engine.Notifier.WriteBack | backend/app.py:120-134 | a tracker change reaches the dict only when the record came from it |
| Engine.Notifier.ApplyFresh | backend/app.py:116-134 | one number's step, with the tracker changed in place, leaves the fields as ObserveFresh says |
| Engine.Notifier.BuildGroups | backend/app.py:108-109 | the defaultdict loop builds Grouping |
| Engine.Notifier.CheckGroup | backend/app.py:111-134 | one group's fetch and inner loop extend the fold by that group's numbers |
| Engine.Notifier.CheckNumber | backend/app.py:115-134 | one number of the group: skipped when the fresh results lack it, otherwise stepped in place; extends the fold by that number |
| Engine.Notifier.CheckStatuses | backend/app.py:103-134 | the nested loops leave the fields as StatusCheck says, and keep the invariant |
| Engine.Notifier.RemindOne | backend/app.py:140-146 | one tracker's step leaves the fields as RemindKey says |
| Engine.Notifier.RemindKeys | backend/app.py:139-146 | the loop over a snapshot of the keys leaves the fields as RemindFold says |
| Engine.Notifier.HourlyReminder | backend/app.py:136-146 | the loop over the key snapshot leaves the fields as ReminderCheck says, and keeps the invariant |
| Engine.ReasonOf | backend/app.py:157-166 | the reason has the kind asked for; a reminder shows the class's tracked count, 0 without a tracker |

## Left out

- Flask routing, JSON decoding and encoding, CORS and logging (backend/app.py:1-20, 41-84). Only each handler's effect on the stores and its reply value are modelled.
- Request bodies are modelled as well-typed details. JSON values of other types, and missing keys (Python's KeyError), are not modelled.
- An empty `classNumber` stands for every falsy value that `if not class_number` rejects.
- `get_full_state` and `search_class` (backend/app.py:41-66) read state or call the fetcher without changing anything. They are not modelled beyond `Values` and `GetTermName`.
- `class_checker.fetch_class_details` lives in the `class_checker` module, which is not part of this model. It is a total function parameter. Its exceptions, and whether a failing fetch stops a job, are not modelled.
- The ntfy.sh `requests.post` and its try/except (backend/app.py:171-180) are network I/O. A post is an entry appended to `outbox`. Tracker bookkeeping happens whether or not the post succeeds, as in the code.
- The message body is not modelled: emoji, wording, and the title/instructor/seats lines. The title, the reason and a reminder's displayed count are modelled.
- `send_notification`'s branch for an unknown reason string (backend/app.py:167) is not modelled. Every caller passes one of the three reasons, and these are a `Kind` in the model.
- APScheduler, the threads and port handling (backend/app.py:184-202) are left out. Each job run and each request is one atomic method call.
- `time.time()` becomes the `now` parameter, in milliseconds. The immediate check and the status check read the clock once per OPEN alert (the FULL branch reads none); the model uses one `now` per call.
- `Terms.IntOfTwoChars`: `int()` also accepts non-ASCII digits and Unicode white space. The model accepts only ASCII digits, `+`, `-` and ASCII white space.
- `Terms.GetTermName` takes a string. A term that is not a string (JSON null or a number) is not modelled.
- `Engine.Notifier.WriteBack`: the shared Python dict object behind `tracker` is modelled by writing each change back into the map when the record was stored. Object identity itself is not modelled.

## Findings

| source | as written | input that shows it | evidently intended | confidence | as-written member | corrected member |
|---|---|---|---|---|---|---|
| backend/app.py:120 | a class with no tracker is judged against a default record that is changed but never stored, so it keeps its missing tracker | add a class whose immediate fetch has no match, then run two status checks that both report it OPEN: two OPEN alerts | the default record is stored on first sight (lazy creation), so a streak alerts once | not executed | Tracking.MissingTrackerRealerts | Tracking.LazyObserveDebounces |

The as-written step is `Tracking.ObserveKey`; the corrected step is
`Tracking.ObserveKeyLazy`. The classes in `Engine` and the functions in
`Jobs` model the program as it is, so they use the as-written step.
`Jobs.CheckMissingTracker` states its consequence for a whole run. The
corrected step and its debounce property stand beside it.
