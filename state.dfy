/**
 * The notifier's whole in-memory state as a value, and the effect of each
 * handler and job on it. The class in module Engine is proved to change
 * its fields exactly as these functions say; the lemmas here state what
 * the effects mean.
 */
module EngineSpec {

  import opened Wrappers
  import Terms
  import opened Alerts
  import opened Tracking
  import opened Ordered

  /**
   * tracked_classes and notify_tracker (each with its key order),
   * app_settings, and the alerts posted so far.
   */
  datatype State = State(
    tracked: map<string, Details>,
    trackedOrder: seq<string>,
    trackers: map<string, Tracker>,
    trackerOrder: seq<string>,
    term: string,
    topic: string,
    outbox: seq<Alert>)

  /** The state the process starts in. */
  const INITIAL := State(map[], [], map[], [], "2257", "susumaanclassalerts", [])

  /**
   * What every handler and job keeps: the key orders list the keys, each
   * class is stored under its own class number, only tracked classes have
   * a tracker, and every tracker satisfies TrackerOk.
   */
  predicate Inv(s: State)
  {
    && OrderOf(s.trackedOrder, s.tracked)
    && OrderOf(s.trackerOrder, s.trackers)
    && (forall k :: k in s.tracked ==> s.tracked[k].classNumber == k)
    && (forall k :: k in s.trackers ==> k in s.tracked && TrackerOk(s.trackers[k]))
  }

  lemma InitialInv()
    ensures Inv(INITIAL)
  {
  }

  /** `list(tracked_classes.values())`: the stored details in insertion order. */
  function Values(s: State): (r: seq<Details>)
    requires Inv(s)
    ensures |r| == |s.tracked|
  {
    OrderCardinality(s.trackedOrder, s.tracked);
    seq(|s.trackedOrder|, i requires 0 <= i < |s.trackedOrder| => s.tracked[s.trackedOrder[i]])
  }

  /** The list holds every stored class's details and nothing else. */
  lemma ValuesListsStored(s: State)
    requires Inv(s)
    ensures forall k :: k in s.tracked ==> s.tracked[k] in Values(s)
    ensures forall x :: x in Values(s) ==> x in s.tracked.Values
  {
    var r := Values(s);
    forall k | k in s.tracked ensures s.tracked[k] in r {
      var i :| 0 <= i < |s.trackedOrder| && s.trackedOrder[i] == k;
      assert r[i] == s.tracked[k];
    }
  }

  // ---------------------------------------------------------------------
  // DELETE /api/tracked/<class_number>

  function Delete(s: State, num: string): State
  {
    s.(tracked := s.tracked - {num}, trackedOrder := Drop(s.trackedOrder, num),
       trackers := s.trackers - {num}, trackerOrder := Drop(s.trackerOrder, num))
  }

  /** Deleting removes the class from both dicts and changes no other entry. */
  lemma DeleteEffect(s: State, num: string)
    requires Inv(s)
    ensures var s' := Delete(s, num);
      && Inv(s')
      && s'.tracked.Keys == s.tracked.Keys - {num}
      && s'.trackers.Keys == s.trackers.Keys - {num}
      && (forall k :: k in s'.tracked ==> s'.tracked[k] == s.tracked[k])
      && (forall k :: k in s'.trackers ==> s'.trackers[k] == s.trackers[k])
      && s'.term == s.term && s'.topic == s.topic && s'.outbox == s.outbox
  {
    DropOrder(s.trackedOrder, s.tracked, num);
    DropOrder(s.trackerOrder, s.trackers, num);
  }

  /** Deleting a class that is not tracked changes nothing. */
  lemma DeleteAbsentIsNoop(s: State, num: string)
    requires Inv(s) && num !in s.tracked
    ensures Delete(s, num) == s
  {
    assert s.tracked - {num} == s.tracked;
    assert s.trackers - {num} == s.trackers;
  }

  // ---------------------------------------------------------------------
  // POST /api/settings

  datatype SettingsReply = SettingsReply(state: State, termChanged: bool, termName: Terms.Result<string>)

  /**
   * `term` and `topic` are the optional "term" and "ntfyTopic" fields of
   * the request. The reply's term name is computed after the update.
   */
  function UpdateSettings(s: State, term: Option<string>, topic: Option<string>): SettingsReply
  {
    var changed := term.Some? && term.value != s.term;
    var s1 := if changed then s.(term := term.value, tracked := map[], trackedOrder := [], trackers := map[], trackerOrder := [])
              else s;
    var s2 := if topic.Some? then s1.(topic := topic.value) else s1;
    SettingsReply(s2, changed, Terms.GetTermName(s2.term))
  }

  /**
   * A different term clears both dicts and reports the change; the same
   * term or no term leaves them as they were. A given topic replaces the
   * old one. Nothing is posted.
   */
  lemma UpdateSettingsEffect(s: State, term: Option<string>, topic: Option<string>)
    requires Inv(s)
    ensures var r := UpdateSettings(s, term, topic);
      && Inv(r.state)
      && (r.termChanged <==> term.Some? && term.value != s.term)
      && (r.termChanged ==> r.state.term == term.value && r.state.tracked == map[] && r.state.trackers == map[])
      && (!r.termChanged ==> r.state.term == s.term && r.state.tracked == s.tracked && r.state.trackers == s.trackers
                             && r.state.trackedOrder == s.trackedOrder && r.state.trackerOrder == s.trackerOrder)
      && r.state.topic == (if topic.Some? then topic.value else s.topic)
      && r.state.outbox == s.outbox
      && r.termName == Terms.GetTermName(r.state.term)
  {
  }

  // ---------------------------------------------------------------------
  // perform_immediate_check

  /** The first entry of `xs` with class number `num`, if any. */
  function FirstMatch(xs: seq<Details>, num: string): (r: Option<Details>)
    ensures r.None? <==> forall i :: 0 <= i < |xs| ==> xs[i].classNumber != num
    ensures r.Some? ==> r.value.classNumber == num
    ensures r.Some? ==> exists i :: 0 <= i < |xs| && xs[i] == r.value && r.value.classNumber == num &&
                                   forall j :: 0 <= j < i ==> xs[j].classNumber != num
  {
    if xs == [] then None
    else if xs[0].classNumber == num then Some(xs[0])
    else
      var r := FirstMatch(xs[1..], num);
      assert r.Some? ==> exists i :: 1 <= i < |xs| && xs[i] == r.value && r.value.classNumber == num &&
                                    forall j :: 0 <= j < i ==> xs[j].classNumber != num by {
        if r.Some? {
          var i :| 0 <= i < |xs[1..]| && xs[1..][i] == r.value && forall j :: 0 <= j < i ==> xs[1..][j].classNumber != num;
          assert xs[i + 1] == r.value;
          forall j | 0 <= j < i + 1 ensures xs[j].classNumber != num {
            if j > 0 { assert xs[j] == xs[1..][j - 1]; }
          }
        }
      }
      r
  }

  /** A match found at index `i` after none at earlier indices is the first match. */
  lemma FirstMatchAt(xs: seq<Details>, num: string, i: nat)
    requires i < |xs| && xs[i].classNumber == num
    requires forall j :: 0 <= j < i ==> xs[j].classNumber != num
    ensures FirstMatch(xs, num) == Some(xs[i])
  {
    var r := FirstMatch(xs, num);
    var i' :| 0 <= i' < |xs| && xs[i'] == r.value && r.value.classNumber == num &&
              forall j :: 0 <= j < i' ==> xs[j].classNumber != num;
    assert !(i' < i) && !(i < i');
  }

  /**
   * The immediate check of `d` against the fetched sections of its class:
   * the first section with d's number replaces the stored details; if it is
   * OPEN its tracker starts a streak (count 1, sent now) and one OPEN alert
   * goes out, otherwise its tracker is reset to the default. Without a
   * match nothing changes.
   */
  function Immediate(s: State, d: Details, fetch: (string, string) -> seq<Details>, now: int): State
  {
    var num := d.classNumber;
    match FirstMatch(fetch(d.className, s.term), num)
    case None => s
    case Some(fd) =>
      var s1 := s.(tracked := s.tracked[num := fd], trackedOrder := Put(s.trackedOrder, num),
                   trackerOrder := Put(s.trackerOrder, num));
      if fd.status == OPEN then
        s1.(trackers := s.trackers[num := Tracker(1, now, OPEN)], outbox := s.outbox + Send(s.topic, fd, Open))
      else
        s1.(trackers := s.trackers[num := DEFAULT])
  }

  lemma ImmediateInv(s: State, d: Details, fetch: (string, string) -> seq<Details>, now: int)
    requires Inv(s)
    ensures Inv(Immediate(s, d, fetch, now))
  {
    var num := d.classNumber;
    var m := FirstMatch(fetch(d.className, s.term), num);
    if m.Some? {
      var fd := m.value;
      var t := if fd.status == OPEN then Tracker(1, now, OPEN) else DEFAULT;
      var s' := Immediate(s, d, fetch, now);
      assert s'.tracked == s.tracked[num := fd] && s'.trackers == s.trackers[num := t];
      assert s'.trackedOrder == Put(s.trackedOrder, num) && s'.trackerOrder == Put(s.trackerOrder, num);
      PutOrder(s.trackedOrder, s.tracked, num, fd);
      PutOrder(s.trackerOrder, s.trackers, num, t);
      TrackedUpdateInv(s, s', num, fd, t);
    }
  }

  /** Storing matching details and a sound tracker under one number keeps the per-entry invariant. */
  lemma TrackedUpdateInv(s: State, s': State, num: string, fd: Details, t: Tracker)
    requires Inv(s) && fd.classNumber == num && TrackerOk(t)
    requires s'.tracked == s.tracked[num := fd] && s'.trackers == s.trackers[num := t]
    requires OrderOf(s'.trackedOrder, s'.tracked) && OrderOf(s'.trackerOrder, s'.trackers)
    ensures Inv(s')
  {
  }

  // ---------------------------------------------------------------------
  // POST /api/tracked

  datatype AddResult = Added(list: seq<Details>) | ClassNumberRequired

  datatype AddReply = AddReply(state: State, result: AddResult)

  /**
   * Adding a class: an empty class number (the model's stand-in for a
   * missing one) is refused; otherwise the request's details are stored
   * under their number and the immediate check runs.
   */
  function Add(s: State, d: Details, fetch: (string, string) -> seq<Details>, now: int): (r: AddReply)
    requires Inv(s)
    ensures Inv(r.state)
  {
    if d.classNumber == "" then AddReply(s, ClassNumberRequired)
    else
      var s1 := s.(tracked := s.tracked[d.classNumber := d], trackedOrder := Put(s.trackedOrder, d.classNumber));
      PutOrder(s.trackedOrder, s.tracked, d.classNumber, d);
      ImmediateInv(s1, d, fetch, now);
      var s2 := Immediate(s1, d, fetch, now);
      AddReply(s2, Added(Values(s2)))
  }

  /** A request without a class number is an error and changes nothing. */
  lemma AddRejectsMissingNumber(s: State, d: Details, fetch: (string, string) -> seq<Details>, now: int)
    requires Inv(s) && d.classNumber == ""
    ensures Add(s, d, fetch, now) == AddReply(s, ClassNumberRequired)
  {
  }

  /**
   * Adding a class whose fetched sections show it OPEN stores the fresh
   * details, starts its tracker with count 1 sent now, and posts exactly
   * one OPEN alert (none without a topic).
   */
  lemma AddOpenAlertsOnce(s: State, d: Details, fetch: (string, string) -> seq<Details>, now: int)
    requires Inv(s) && d.classNumber != ""
    requires var m := FirstMatch(fetch(d.className, s.term), d.classNumber); m.Some? && m.value.status == OPEN
    ensures var fd := FirstMatch(fetch(d.className, s.term), d.classNumber).value;
      var r := Add(s, d, fetch, now);
      && r.result.Added?
      && r.state.tracked == s.tracked[d.classNumber := fd]
      && r.state.trackers == s.trackers[d.classNumber := Tracker(1, now, OPEN)]
      && r.state.outbox == s.outbox + Send(s.topic, fd, Open)
      && |r.state.outbox| == |s.outbox| + (if s.topic == "" then 0 else 1)
  {
    AddRunsImmediate(s, d, fetch, now);
  }

  /** A match that is not OPEN stores the fresh details and resets the tracker, without an alert. */
  lemma AddNotOpenResetsTracker(s: State, d: Details, fetch: (string, string) -> seq<Details>, now: int)
    requires Inv(s) && d.classNumber != ""
    requires var m := FirstMatch(fetch(d.className, s.term), d.classNumber); m.Some? && m.value.status != OPEN
    ensures var fd := FirstMatch(fetch(d.className, s.term), d.classNumber).value;
      var r := Add(s, d, fetch, now);
      && r.state.tracked == s.tracked[d.classNumber := fd]
      && r.state.trackers == s.trackers[d.classNumber := Tracker(0, 0, FULL)]
      && r.state.outbox == s.outbox
  {
    AddRunsImmediate(s, d, fetch, now);
  }

  /**
   * Without a match the request's details stay stored and the tracker dict
   * is left as it was: a newly added class then has no tracker.
   */
  lemma AddNoMatchLeavesTrackers(s: State, d: Details, fetch: (string, string) -> seq<Details>, now: int)
    requires Inv(s) && d.classNumber != ""
    requires FirstMatch(fetch(d.className, s.term), d.classNumber).None?
    ensures var r := Add(s, d, fetch, now);
      && r.state.tracked == s.tracked[d.classNumber := d]
      && r.state.trackers == s.trackers
      && (d.classNumber !in s.trackers ==> d.classNumber !in r.state.trackers)
      && r.state.outbox == s.outbox
  {
    AddRunsImmediate(s, d, fetch, now);
  }

  /** Adding touches only the added class's entries. */
  lemma AddKeepsOthers(s: State, d: Details, fetch: (string, string) -> seq<Details>, now: int)
    requires Inv(s) && d.classNumber != ""
    ensures var r := Add(s, d, fetch, now);
      && r.state.tracked.Keys == s.tracked.Keys + {d.classNumber}
      && (forall k :: k in s.tracked && k != d.classNumber ==> r.state.tracked[k] == s.tracked[k])
      && (forall k :: k != d.classNumber ==> (k in r.state.trackers <==> k in s.trackers))
      && (forall k :: k in s.trackers && k != d.classNumber ==> r.state.trackers[k] == s.trackers[k])
  {
    AddRunsImmediate(s, d, fetch, now);
    StoreThenImmediateKeepsOthers(s, d, fetch, now);
  }

  /** Storing the request's details and then running the immediate check touches only that class. */
  lemma StoreThenImmediateKeepsOthers(s: State, d: Details, fetch: (string, string) -> seq<Details>, now: int)
    ensures var num := d.classNumber;
      var s' := Immediate(s.(tracked := s.tracked[num := d], trackedOrder := Put(s.trackedOrder, num)), d, fetch, now);
      && s'.tracked.Keys == s.tracked.Keys + {num}
      && (forall k :: k in s.tracked && k != num ==> s'.tracked[k] == s.tracked[k])
      && (forall k :: k != num ==> (k in s'.trackers <==> k in s.trackers))
      && (forall k :: k in s.trackers && k != num ==> s'.trackers[k] == s.trackers[k])
  {
    var num := d.classNumber;
    var s1 := s.(tracked := s.tracked[num := d], trackedOrder := Put(s.trackedOrder, num));
    ImmediateFrame(s1, d, fetch, now);
  }

  /** An accepted add stores the request's details and then runs the immediate check. */
  lemma AddRunsImmediate(s: State, d: Details, fetch: (string, string) -> seq<Details>, now: int)
    requires Inv(s) && d.classNumber != ""
    ensures var num := d.classNumber;
      Add(s, d, fetch, now).state ==
        Immediate(s.(tracked := s.tracked[num := d], trackedOrder := Put(s.trackedOrder, num)), d, fetch, now)
  {
  }

  /** The reply to an accepted add lists every stored class, once each. */
  lemma AddListsAll(s: State, d: Details, fetch: (string, string) -> seq<Details>, now: int)
    requires Inv(s) && d.classNumber != ""
    ensures var r := Add(s, d, fetch, now);
      && r.result == Added(Values(r.state))
      && |r.result.list| == |r.state.tracked|
      && d.classNumber in r.state.tracked && r.state.tracked[d.classNumber] in r.result.list
  {
    ValuesListsStored(Add(s, d, fetch, now).state);
  }

  /** The immediate check changes no entry but the checked class's. */
  lemma ImmediateFrame(s: State, d: Details, fetch: (string, string) -> seq<Details>, now: int)
    ensures var s' := Immediate(s, d, fetch, now); var num := d.classNumber;
      && s'.tracked.Keys == s.tracked.Keys + (if num in s'.tracked then {num} else {})
      && (forall k :: k in s.tracked && k != num ==> s'.tracked[k] == s.tracked[k])
      && (forall k :: k != num ==> (k in s'.trackers <==> k in s.trackers))
      && (forall k :: k in s.trackers && k != num ==> s'.trackers[k] == s.trackers[k])
      && s'.term == s.term && s'.topic == s.topic
  {
  }

  /** A key order has as many entries as its dict. */
  lemma {:induction false} OrderCardinality<V>(order: seq<string>, m: map<string, V>)
    requires OrderOf(order, m)
    ensures |order| == |m|
    decreases |order|
  {
    if order != [] {
      var k := order[|order| - 1];
      var rest := order[..|order| - 1];
      assert OrderOf(rest, m - {k}) by {
        forall x | x in m - {k} ensures x in rest {
          var i :| 0 <= i < |order| && order[i] == x;
          assert i != |order| - 1;
          assert rest[i] == x;
        }
      }
      OrderCardinality(rest, m - {k});
      assert m.Keys == (m - {k}).Keys + {k};
    } else {
      assert m.Keys == {};
    }
  }
}
