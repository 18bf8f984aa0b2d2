/**
 * The notifier's in-memory store as an object: tracked_classes,
 * notify_tracker and app_settings are fields that the request handlers and
 * the scheduled jobs update in place, and every alert handed to the topic
 * is appended to `outbox`. Each method is proved to leave the fields as the
 * matching function of EngineSpec or Jobs says, and to keep Inv.
 */
module Engine {

  import opened Wrappers
  import Terms
  import opened Alerts
  import opened Tracking
  import opened Ordered
  import EngineSpec
  import Jobs

  class Notifier {
    var tracked: map<string, Details>
    var trackedOrder: seq<string>
    var trackers: map<string, Tracker>
    var trackerOrder: seq<string>
    var term: string
    var topic: string
    var outbox: seq<Alert>

    /** The fields as one state value. */
    ghost function Snapshot(): EngineSpec.State
      reads this
    {
      EngineSpec.State(tracked, trackedOrder, trackers, trackerOrder, term, topic, outbox)
    }

    ghost predicate Valid()
      reads this
    {
      EngineSpec.Inv(Snapshot())
    }

    /** The store at start-up: nothing tracked, the default term and topic. */
    constructor()
      ensures Valid() && Snapshot() == EngineSpec.INITIAL
    {
      tracked := map[];
      trackedOrder := [];
      trackers := map[];
      trackerOrder := [];
      term := "2257";
      topic := "susumaanclassalerts";
      outbox := [];
      new;
      EngineSpec.InitialInv();
    }

    /** `list(tracked_classes.values())`. */
    method ListValues() returns (list: seq<Details>)
      requires Valid()
      ensures list == EngineSpec.Values(Snapshot())
    {
      list := [];
      for i := 0 to |trackedOrder|
        invariant list == EngineSpec.Values(Snapshot())[..i]
      {
        list := list + [tracked[trackedOrder[i]]];
      }
    }

    /**
     * send_notification: nothing without a topic; otherwise one alert whose
     * reason is the kind asked for, a reminder showing the class's current
     * count.
     */
    method SendNotification(d: Details, kind: Kind)
      modifies this
      ensures outbox == old(outbox) + Send(topic, d, ReasonOf(kind, trackers, d.classNumber))
      ensures Snapshot() == old(Snapshot()).(outbox := outbox)
    {
      if topic == "" {
        return;
      }
      var reason := ReasonOf(kind, trackers, d.classNumber);
      outbox := outbox + [Alert(topic, Title(reason, d.className), reason, d)];
    }

    /**
     * perform_immediate_check: scans the fetched sections for d's number
     * and acts on the first match only.
     */
    method ImmediateCheck(d: Details, fetch: (string, string) -> seq<Details>, now: int)
      modifies this
      ensures Snapshot() == EngineSpec.Immediate(old(Snapshot()), d, fetch, now)
    {
      var num := d.classNumber;
      var freshList := fetch(d.className, term);
      for i := 0 to |freshList|
        invariant forall j :: 0 <= j < i ==> freshList[j].classNumber != num
        invariant Snapshot() == old(Snapshot())
      {
        var fd := freshList[i];
        if fd.classNumber == num {
          EngineSpec.FirstMatchAt(freshList, num, i);
          tracked := tracked[num := fd];
          trackedOrder := Put(trackedOrder, num);
          if fd.status == OPEN {
            trackers := trackers[num := DEFAULT];
            trackerOrder := Put(trackerOrder, num);
            SendNotification(fd, OpenKind);
            trackers := trackers[num := Tracker(1, now, OPEN)];
          } else {
            trackers := trackers[num := DEFAULT];
            trackerOrder := Put(trackerOrder, num);
          }
          return;
        }
      }
    }

    /** POST /api/tracked: the reply is the error or the list of stored classes. */
    method Add(d: Details, fetch: (string, string) -> seq<Details>, now: int) returns (result: EngineSpec.AddResult)
      requires Valid()
      modifies this
      ensures Valid()
      ensures EngineSpec.Add(old(Snapshot()), d, fetch, now) == EngineSpec.AddReply(Snapshot(), result)
    {
      if d.classNumber == "" {
        return EngineSpec.ClassNumberRequired;
      }
      ghost var s := Snapshot();
      tracked := tracked[d.classNumber := d];
      trackedOrder := Put(trackedOrder, d.classNumber);
      PutOrder(s.trackedOrder, s.tracked, d.classNumber, d);
      ghost var s1 := Snapshot();
      ImmediateCheck(d, fetch, now);
      EngineSpec.ImmediateInv(s1, d, fetch, now);
      var list := ListValues();
      result := EngineSpec.Added(list);
    }

    /** DELETE /api/tracked/<class_number>: the reply is the list of stored classes. */
    method Delete(num: string) returns (list: seq<Details>)
      requires Valid()
      modifies this
      ensures Valid()
      ensures Snapshot() == EngineSpec.Delete(old(Snapshot()), num)
      ensures list == EngineSpec.Values(Snapshot())
    {
      EngineSpec.DeleteEffect(Snapshot(), num);
      tracked := tracked - {num};
      trackedOrder := Drop(trackedOrder, num);
      trackers := trackers - {num};
      trackerOrder := Drop(trackerOrder, num);
      list := ListValues();
    }

    /** POST /api/settings with the optional "term" and "ntfyTopic" fields. */
    method UpdateSettings(newTerm: Option<string>, newTopic: Option<string>)
      returns (termChanged: bool, termName: Terms.Result<string>)
      requires Valid()
      modifies this
      ensures Valid()
      ensures EngineSpec.UpdateSettings(old(Snapshot()), newTerm, newTopic) ==
                EngineSpec.SettingsReply(Snapshot(), termChanged, termName)
    {
      EngineSpec.UpdateSettingsEffect(Snapshot(), newTerm, newTopic);
      termChanged := false;
      if newTerm.Some? && newTerm.value != term {
        term := newTerm.value;
        tracked := map[];
        trackedOrder := [];
        trackers := map[];
        trackerOrder := [];
        termChanged := true;
      }
      if newTopic.Some? {
        topic := newTopic.value;
      }
      termName := Terms.GetTermName(term);
    }

    /** `{d['classNumber']: d for d in xs}`. */
    static method BuildFreshMap(xs: seq<Details>) returns (m: map<string, Details>)
      ensures m == Jobs.FreshMap(xs)
    {
      m := map[];
      for i := 0 to |xs|
        invariant m == Jobs.FreshMap(xs[..i])
      {
        assert xs[..i + 1][..i] == xs[..i];
        m := m[xs[i].classNumber := xs[i]];
      }
      assert xs[..|xs|] == xs;
    }

    /** Writes a tracker back through the dict entry it came from, if it came from one. */
    method WriteBack(num: string, t: Tracker)
      modifies this
      ensures trackers == if num in old(trackers) then old(trackers)[num := t] else old(trackers)
      ensures Snapshot() == old(Snapshot()).(trackers := trackers)
    {
      if num in trackers {
        trackers := trackers[num := t];
      }
    }

    /**
     * The status check's step for a number found in its group's fresh
     * results: the tracker is looked up with the default record, changed
     * step by step, and each change reaches the dict only when the record
     * was stored there.
     */
    method ApplyFresh(num: string, nd: Details, now: int)
      modifies this
      ensures Snapshot() == Jobs.ObserveFresh(old(Snapshot()), num, nd, now)
    {
      tracked := tracked[num := nd];
      trackedOrder := Put(trackedOrder, num);
      var t := if num in trackers then trackers[num] else DEFAULT;
      ghost var st := ObserveKey(trackers, num, nd.status, now);
      ghost var s1 := Snapshot();
      var oldStatus, newStatus := t.lastStatus, nd.status;
      if newStatus == oldStatus {
        assert st.trackers == trackers && st.alert.None?;
        return;
      }
      if newStatus == OPEN {
        t := t.(count := 0, lastSent := 0);
        WriteBack(num, t);
        SendNotification(nd, OpenKind);
        t := t.(count := 1, lastSent := now);
        WriteBack(num, t);
        assert outbox == s1.outbox + Jobs.AlertsOf(topic, nd, st.alert);
      } else if newStatus == FULL && oldStatus == OPEN {
        SendNotification(nd, FullKind);
        t := t.(count := 0, lastSent := 0);
        WriteBack(num, t);
        assert outbox == s1.outbox + Jobs.AlertsOf(topic, nd, st.alert);
      } else {
        assert st.alert.None?;
      }
      t := t.(lastStatus := newStatus);
      WriteBack(num, t);
      assert trackers == st.trackers;
    }

    /** classes_to_fetch: the tracked numbers grouped by class name. */
    method BuildGroups() returns (names: seq<string>, members: map<string, seq<string>>)
      requires Valid()
      ensures Jobs.Groups(names, members) == Jobs.Grouping(trackedOrder, tracked)
    {
      names, members := [], map[];
      for i := 0 to |trackedOrder|
        invariant Jobs.Groups(names, members) == Jobs.Grouping(trackedOrder[..i], tracked)
      {
        assert trackedOrder[..i + 1][..i] == trackedOrder[..i];
        var details := tracked[trackedOrder[i]];
        var n := details.className;
        ghost var g := Jobs.Grouping(trackedOrder[..i], tracked);
        ghost var prior := if n in g.members then g.members[n] else [];
        assert Jobs.Grouping(trackedOrder[..i + 1], tracked) ==
          Jobs.Groups(if n in g.members then g.names else g.names + [n], g.members[n := prior + [details.classNumber]]);
        if n in members {
          members := members[n := members[n] + [details.classNumber]];
        } else {
          assert prior + [details.classNumber] == [details.classNumber];
          names := names + [n];
          members := members[n := [details.classNumber]];
        }
      }
      assert trackedOrder[..|trackedOrder|] == trackedOrder;
    }

    /**
     * One group of the status check: fetch the class's sections once, then
     * step each number of the group that the fresh results contain.
     */
    method CheckGroup(ghost s0: EngineSpec.State, fetch: (string, string) -> seq<Details>, now: int,
                      ghost before: seq<string>, className: string, checkTerm: string, numbers: seq<string>)
      requires checkTerm == s0.term
      requires forall k :: k in before + numbers ==> k in s0.tracked
      requires forall k :: k in numbers ==> s0.tracked[k].className == className
      requires Snapshot() == Jobs.CheckFold(s0, fetch, now, before)
      modifies this
      ensures Snapshot() == Jobs.CheckFold(s0, fetch, now, before + numbers)
    {
      var freshMap := BuildFreshMap(fetch(className, checkTerm));
      ghost var done := before;
      for j := 0 to |numbers|
        invariant done == before + numbers[..j]
        invariant forall k :: k in done ==> k in s0.tracked
        invariant Snapshot() == Jobs.CheckFold(s0, fetch, now, done)
      {
        assert numbers[j] in numbers;
        CheckNumber(s0, fetch, now, done, className, freshMap, numbers[j]);
        done := done + [numbers[j]];
        assert done == before + numbers[..j + 1];
      }
      assert numbers[..|numbers|] == numbers;
    }

    /** The inner loop's body: step `num` when the group's fresh results hold it. */
    method CheckNumber(ghost s0: EngineSpec.State, fetch: (string, string) -> seq<Details>, now: int,
                       ghost done: seq<string>, ghost className: string, freshMap: map<string, Details>, num: string)
      requires forall k :: k in done ==> k in s0.tracked
      requires num in s0.tracked && s0.tracked[num].className == className
      requires freshMap == Jobs.FreshMap(fetch(className, s0.term))
      requires Snapshot() == Jobs.CheckFold(s0, fetch, now, done)
      modifies this
      ensures forall k :: k in done + [num] ==> k in s0.tracked
      ensures Snapshot() == Jobs.CheckFold(s0, fetch, now, done + [num])
    {
      Jobs.CheckFoldSnoc(s0, fetch, now, done, num, className, freshMap);
      if num in freshMap {
        ApplyFresh(num, freshMap[num], now);
      }
    }

    /** check_class_statuses: one fetch per class name, then each number of the group in turn. */
    method CheckStatuses(fetch: (string, string) -> seq<Details>, now: int)
      requires Valid()
      modifies this
      ensures Valid()
      ensures Snapshot() == Jobs.StatusCheck(old(Snapshot()), fetch, now)
    {
      ghost var s0 := Snapshot();
      Jobs.StatusCheckInv(s0, fetch, now);
      if tracked == map[] {
        return;
      }
      var names, members := BuildGroups();
      Jobs.GroupingPlan(s0);
      var checkTerm := term;
      assert names[..0] == [];
      for gi := 0 to |names|
        invariant forall k :: k in Jobs.Flatten(names[..gi], members) ==> k in s0.tracked
        invariant Snapshot() == Jobs.CheckFold(s0, fetch, now, Jobs.Flatten(names[..gi], members))
      {
        var className := names[gi];
        ghost var before := Jobs.Flatten(names[..gi], members);
        Jobs.FlattenStep(names, members, gi);
        CheckGroup(s0, fetch, now, before, className, checkTerm, members[className]);
      }
      assert names[..|names|] == names;
    }

    /** One tracker of the hourly job: a reminder when the stored class is OPEN and one is due. */
    method RemindOne(num: string, now: int)
      requires num in trackers
      modifies this
      ensures Snapshot() == Jobs.RemindKey(old(Snapshot()), num, now)
    {
      var t := trackers[num];
      var details := if num in tracked then Some(tracked[num]) else None;
      if details.None? || details.value.status != OPEN {
        return;
      }
      if 0 < t.count < MAX_NOTIFICATIONS && now - t.lastSent >= INTERVAL_MS {
        SendNotification(details.value, ReminderKind);
        trackers := trackers[num := t.(count := t.count + 1)];
        trackers := trackers[num := trackers[num].(lastSent := now)];
      }
    }

    /** The reminder loop over the snapshot `keys` of the tracker keys. */
    method RemindKeys(ghost s0: EngineSpec.State, now: int, keys: seq<string>)
      requires forall k :: k in keys ==> k in s0.trackers
      requires Snapshot() == s0
      modifies this
      ensures Snapshot() == Jobs.RemindFold(s0, now, keys)
    {
      for i := 0 to |keys|
        invariant Snapshot() == Jobs.RemindFold(s0, now, keys[..i])
      {
        assert keys[..i + 1][..i] == keys[..i];
        RemindOne(keys[i], now);
      }
      assert keys[..|keys|] == keys;
    }

    /** hourly_reminder_check: `list(notify_tracker.items())` is taken before the loop. */
    method HourlyReminder(now: int)
      requires Valid()
      modifies this
      ensures Valid()
      ensures Snapshot() == Jobs.ReminderCheck(old(Snapshot()), now)
    {
      ghost var s0 := Snapshot();
      Jobs.ReminderCheckInv(s0, now);
      var keys := trackerOrder;
      RemindKeys(s0, now, keys);
    }
  }

  /** The reason send_notification gives an alert of the given kind; a reminder shows the class's count (0 without a tracker). */
  function ReasonOf(kind: Kind, trackers: map<string, Tracker>, num: string): (r: Reason)
    ensures KindOf(r) == kind
    ensures r.Reminder? ==> r.count == Jobs.ReminderCount(trackers, num)
  {
    match kind
    case OpenKind => Open
    case FullKind => Full
    case ReminderKind => Reminder(Jobs.ReminderCount(trackers, num))
  }
}
