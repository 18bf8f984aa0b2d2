/**
 * The two scheduled jobs as effects on the state value: the background
 * status check (check_class_statuses) and the hourly reminder check
 * (hourly_reminder_check). Each run is one atomic step.
 */
module Jobs {

  import opened Wrappers
  import opened Alerts
  import opened Tracking
  import opened Ordered
  import opened EngineSpec

  // ---------------------------------------------------------------------
  // classes_to_fetch: tracked numbers grouped by class name

  datatype Groups = Groups(names: seq<string>, members: map<string, seq<string>>)

  /** Every key in `order` is stored in `tracked` under its own class number. */
  predicate KeysStored(order: seq<string>, tracked: map<string, Details>)
  {
    forall k :: k in order ==> k in tracked && tracked[k].classNumber == k
  }

  /**
   * The defaultdict the status check builds: class names in order of first
   * appearance, and for each the class numbers of that name in insertion
   * order.
   */
  function Grouping(order: seq<string>, tracked: map<string, Details>): (g: Groups)
    requires forall k :: k in order ==> k in tracked
    decreases |order|
  {
    if order == [] then Groups([], map[])
    else
      var rest := order[..|order| - 1];
      assert forall x :: x in rest ==> x in order;
      var g := Grouping(rest, tracked);
      var d := tracked[order[|order| - 1]];
      var n := d.className;
      var prior := if n in g.members then g.members[n] else [];
      Groups(if n in g.members then g.names else g.names + [n], g.members[n := prior + [d.classNumber]])
  }

  /** What the grouping guarantees: every tracked number lands, once, in exactly the group of its name. */
  ghost predicate GroupsOk(g: Groups, order: seq<string>, tracked: map<string, Details>)
    requires forall k :: k in order ==> k in tracked
  {
    && NoDup(g.names)
    && (forall n :: n in g.members <==> n in g.names)
    && MembersOk(g.members, order, tracked)
    && (forall k :: k in order ==> tracked[k].className in g.members && k in g.members[tracked[k].className])
  }

  lemma GroupingOk(order: seq<string>, tracked: map<string, Details>)
    requires KeysStored(order, tracked) && NoDup(order)
    ensures GroupsOk(Grouping(order, tracked), order, tracked)
  {
    GroupNamesOk(order, tracked);
    GroupMembersOk(order, tracked);
    GroupsCover(order, tracked);
  }

  lemma {:induction false} GroupNamesOk(order: seq<string>, tracked: map<string, Details>)
    requires forall k :: k in order ==> k in tracked
    ensures var g := Grouping(order, tracked); NoDup(g.names) && forall n :: n in g.members <==> n in g.names
    decreases |order|
  {
    if order != [] {
      var rest := order[..|order| - 1];
      assert forall x :: x in rest ==> x in order;
      GroupNamesOk(rest, tracked);
    }
  }

  /** Each group lists distinct numbers of `order` whose stored class name is the group's. */
  ghost predicate MembersOk(members: map<string, seq<string>>, order: seq<string>, tracked: map<string, Details>)
  {
    && (forall n, k :: n in members && k in members[n] ==> k in order && k in tracked && tracked[k].className == n)
    && (forall n :: n in members ==> NoDup(members[n]))
  }

  lemma {:induction false} GroupMembersOk(order: seq<string>, tracked: map<string, Details>)
    requires KeysStored(order, tracked) && NoDup(order)
    ensures MembersOk(Grouping(order, tracked).members, order, tracked)
    decreases |order|
  {
    if order != [] {
      var rest := order[..|order| - 1];
      var k := order[|order| - 1];
      NoDupNotInPrefix(order, |order| - 1);
      assert forall x :: x in rest ==> x in order;
      GroupMembersOk(rest, tracked);
      var g := Grouping(rest, tracked);
      var n := tracked[k].className;
      var prior := if n in g.members then g.members[n] else [];
      var m' := g.members[n := prior + [k]];
      assert Grouping(order, tracked).members == m';
      forall x | x in prior ensures x in rest && x != k {
        assert n in g.members && x in g.members[n];
      }
      NoDupConcat(prior, [k]);
      forall n', x | n' in m' && x in m'[n'] ensures x in order && x in tracked && tracked[x].className == n' {
        if n' == n {
          assert x in prior || x == k;
        } else {
          assert x in g.members[n'];
        }
      }
    }
  }

  lemma {:induction false} GroupsCover(order: seq<string>, tracked: map<string, Details>)
    requires KeysStored(order, tracked)
    ensures var g := Grouping(order, tracked);
      forall k :: k in order ==> tracked[k].className in g.members && k in g.members[tracked[k].className]
    decreases |order|
  {
    if order != [] {
      var rest := order[..|order| - 1];
      var last := order[|order| - 1];
      assert forall x :: x in order <==> x in rest || x == last;
      GroupsCover(rest, tracked);
    }
  }

  /** The class numbers group after group, in the order the status check visits them. */
  function Flatten(names: seq<string>, members: map<string, seq<string>>): seq<string>
    requires forall n :: n in names ==> n in members
    decreases |names|
  {
    if names == [] then []
    else Flatten(names[..|names| - 1], members) + members[names[|names| - 1]]
  }

  lemma {:induction false} FlattenFacts(names: seq<string>, members: map<string, seq<string>>, tracked: map<string, Details>)
    requires NoDup(names)
    requires forall n :: n in names ==> n in members && NoDup(members[n])
    requires forall n, k :: n in members && k in members[n] ==> k in tracked && tracked[k].className == n
    ensures NoDup(Flatten(names, members))
    ensures forall k :: k in Flatten(names, members) ==> k in tracked && tracked[k].className in names
    ensures forall n, k :: n in names && k in members[n] ==> k in Flatten(names, members)
    decreases |names|
  {
    if names != [] {
      var rest := names[..|names| - 1];
      var last := names[|names| - 1];
      assert forall n :: n in rest ==> n in names;
      FlattenFacts(rest, members, tracked);
      NoDupNotInPrefix(names, |names| - 1);
      NoDupConcat(Flatten(rest, members), members[last]);
      forall n | n in names ensures n in rest || n == last {
        var i :| 0 <= i < |names| && names[i] == n;
        if i < |names| - 1 { assert rest[i] == n; }
      }
    }
  }

  /** The order the status check visits the tracked numbers in: each exactly once. */
  function CheckOrder(s: State): (ks: seq<string>)
    requires Inv(s)
    ensures NoDup(ks)
    ensures forall k :: k in ks <==> k in s.tracked
  {
    var g := Grouping(s.trackedOrder, s.tracked);
    GroupingOk(s.trackedOrder, s.tracked);
    FlattenFacts(g.names, g.members, s.tracked);
    Flatten(g.names, g.members)
  }

  /** Every group named in `names` lists tracked numbers of that class name. */
  predicate GroupedBy(names: seq<string>, members: map<string, seq<string>>, tracked: map<string, Details>)
  {
    forall n :: n in names ==> n in members && forall k :: k in members[n] ==> k in tracked && tracked[k].className == n
  }

  /** The groups the status check builds are sound, and visiting them in turn is the visiting order. */
  lemma GroupingPlan(s: State)
    requires Inv(s)
    ensures var g := Grouping(s.trackedOrder, s.tracked);
      GroupedBy(g.names, g.members, s.tracked) && Flatten(g.names, g.members) == CheckOrder(s)
  {
    GroupingOk(s.trackedOrder, s.tracked);
  }

  /** The visiting order over one more group. */
  lemma FlattenStep(names: seq<string>, members: map<string, seq<string>>, i: nat)
    requires i < |names| && forall n :: n in names ==> n in members
    ensures forall n :: n in names[..i] ==> n in members
    ensures Flatten(names[..i + 1], members) == Flatten(names[..i], members) + members[names[i]]
  {
    assert names[..i + 1][..i] == names[..i];
  }

  // ---------------------------------------------------------------------
  // one group: fresh_details_map and the per-number step

  /** The last entry of `xs` with class number `k`, if any. */
  function LastMatch(xs: seq<Details>, k: string): (r: Option<Details>)
    ensures r.None? <==> forall i :: 0 <= i < |xs| ==> xs[i].classNumber != k
    ensures r.Some? ==> r.value.classNumber == k
    ensures r.Some? ==> exists i :: 0 <= i < |xs| && xs[i] == r.value && forall j :: i < j < |xs| ==> xs[j].classNumber != k
    decreases |xs|
  {
    if xs == [] then None
    else if xs[|xs| - 1].classNumber == k then Some(xs[|xs| - 1])
    else
      var rest := xs[..|xs| - 1];
      var r := LastMatch(rest, k);
      assert forall i :: 0 <= i < |rest| ==> rest[i] == xs[i];
      r
  }

  /** `{d['classNumber']: d for d in xs}`: later entries overwrite earlier ones. */
  function FreshMap(xs: seq<Details>): (m: map<string, Details>)
    decreases |xs|
  {
    if xs == [] then map[] else FreshMap(xs[..|xs| - 1])[xs[|xs| - 1].classNumber := xs[|xs| - 1]]
  }

  /** So the map holds, for each number in `xs`, its last entry there. */
  lemma {:induction false} FreshMapIsLastMatch(xs: seq<Details>, k: string)
    ensures k in FreshMap(xs) <==> LastMatch(xs, k).Some?
    ensures k in FreshMap(xs) ==> FreshMap(xs)[k] == LastMatch(xs, k).value
    decreases |xs|
  {
    if xs != [] {
      FreshMapIsLastMatch(xs[..|xs| - 1], k);
    }
  }

  /** The fresh entry the status check finds for tracked number `k`, if any. */
  function FreshFor(s: State, fetch: (string, string) -> seq<Details>, k: string): (r: Option<Details>)
    requires k in s.tracked
    ensures r.Some? ==> r.value.classNumber == k
  {
    var fm := FreshMap(fetch(s.tracked[k].className, s.term));
    FreshMapIsLastMatch(fetch(s.tracked[k].className, s.term), k);
    if k in fm then Some(fm[k]) else None
  }

  /** The alerts an optional reason turns into. */
  function AlertsOf(topic: string, d: Details, reason: Option<Reason>): seq<Alert>
  {
    match reason
    case None => []
    case Some(r) => Send(topic, d, r)
  }

  /**
   * The status check's step for one number found in the fresh map: store
   * the fresh details, step the tracker as written (a missing tracker is
   * not saved) and post the edge alert.
   */
  function ObserveFresh(s: State, num: string, nd: Details, now: int): State
  {
    var st := ObserveKey(s.trackers, num, nd.status, now);
    s.(tracked := s.tracked[num := nd], trackedOrder := Put(s.trackedOrder, num), trackers := st.trackers,
       outbox := s.outbox + AlertsOf(s.topic, nd, st.alert))
  }

  /** The numbers `ks` visited in turn, starting from `s0`. */
  function CheckFold(s0: State, fetch: (string, string) -> seq<Details>, now: int, ks: seq<string>): State
    requires forall k :: k in ks ==> k in s0.tracked
    decreases |ks|
  {
    if ks == [] then s0
    else
      var k := ks[|ks| - 1];
      var s := CheckFold(s0, fetch, now, ks[..|ks| - 1]);
      match FreshFor(s0, fetch, k)
      case None => s
      case Some(nd) => ObserveFresh(s, k, nd, now)
  }

  /** Visiting one more number `num` of class `className`, whose fetched sections give `freshMap`. */
  lemma CheckFoldSnoc(s0: State, fetch: (string, string) -> seq<Details>, now: int, ks: seq<string>,
                      num: string, className: string, freshMap: map<string, Details>)
    requires forall k :: k in ks ==> k in s0.tracked
    requires num in s0.tracked && s0.tracked[num].className == className
    requires freshMap == FreshMap(fetch(className, s0.term))
    ensures forall k :: k in ks + [num] ==> k in s0.tracked
    ensures CheckFold(s0, fetch, now, ks + [num]) ==
              if num in freshMap then ObserveFresh(CheckFold(s0, fetch, now, ks), num, freshMap[num], now)
              else CheckFold(s0, fetch, now, ks)
  {
    assert (ks + [num])[..|ks + [num]| - 1] == ks;
    FreshMapIsLastMatch(fetch(className, s0.term), num);
  }

  /** One run of the background status check. */
  function StatusCheck(s: State, fetch: (string, string) -> seq<Details>, now: int): State
    requires Inv(s)
  {
    if s.tracked == map[] then s else CheckFold(s, fetch, now, CheckOrder(s))
  }

  // ---------------------------------------------------------------------
  // what the status check does to each class

  /** The details stored for `k` after the check. */
  function Merged(s: State, fetch: (string, string) -> seq<Details>, k: string): Details
    requires k in s.tracked
  {
    match FreshFor(s, fetch, k)
    case None => s.tracked[k]
    case Some(nd) => nd
  }

  /** The tracker of `k` after the check. */
  function Observed(s: State, fetch: (string, string) -> seq<Details>, now: int, k: string): Tracker
    requires k in s.tracked && k in s.trackers
  {
    match FreshFor(s, fetch, k)
    case None => s.trackers[k]
    case Some(nd) => Observe(s.trackers[k], nd.status, now)
  }

  /** The alerts the check posts for `k`, judged on the state before the check. */
  function KeyAlerts(s: State, fetch: (string, string) -> seq<Details>, now: int, k: string): (out: seq<Alert>)
    requires k in s.tracked
    ensures forall a :: a in out ==> a.details.classNumber == k
  {
    match FreshFor(s, fetch, k)
    case None => []
    case Some(nd) => AlertsOf(s.topic, nd, ObserveKey(s.trackers, k, nd.status, now).alert)
  }

  function CheckAlerts(s: State, fetch: (string, string) -> seq<Details>, now: int, ks: seq<string>): seq<Alert>
    requires forall k :: k in ks ==> k in s.tracked
    decreases |ks|
  {
    if ks == [] then []
    else CheckAlerts(s, fetch, now, ks[..|ks| - 1]) + KeyAlerts(s, fetch, now, ks[|ks| - 1])
  }

  /** Every number to visit is tracked and listed in the tracked order. */
  predicate Visitable(s0: State, ks: seq<string>)
  {
    forall x :: x in ks ==> x in s0.tracked && x in s0.trackedOrder
  }

  /** The fold never adds or removes a key and never touches the order lists, the term or the topic. */
  lemma {:induction false} CheckFoldShape(s0: State, fetch: (string, string) -> seq<Details>, now: int, ks: seq<string>)
    requires Visitable(s0, ks)
    ensures var s := CheckFold(s0, fetch, now, ks);
      && s.tracked.Keys == s0.tracked.Keys && s.trackers.Keys == s0.trackers.Keys
      && s.trackedOrder == s0.trackedOrder && s.trackerOrder == s0.trackerOrder
      && s.term == s0.term && s.topic == s0.topic
    decreases |ks|
  {
    if ks != [] {
      var rest := ks[..|ks| - 1];
      assert forall x :: x in rest ==> x in ks;
      CheckFoldShape(s0, fetch, now, rest);
    }
  }

  /** After the fold, a visited class holds its merged details; any other keeps its own. */
  lemma {:induction false} CheckFoldTracked(s0: State, fetch: (string, string) -> seq<Details>, now: int, ks: seq<string>, k: string)
    requires Visitable(s0, ks) && k in s0.tracked
    ensures var s := CheckFold(s0, fetch, now, ks);
      k in s.tracked && s.tracked[k] == if k in ks then Merged(s0, fetch, k) else s0.tracked[k]
    decreases |ks|
  {
    if ks != [] {
      var rest := ks[..|ks| - 1];
      assert forall x :: x in ks <==> x in rest || x == ks[|ks| - 1];
      CheckFoldTracked(s0, fetch, now, rest, k);
    }
  }

  /** After the fold over distinct numbers, a visited tracker holds its observed value; any other keeps its own. */
  lemma {:induction false} CheckFoldTracker(s0: State, fetch: (string, string) -> seq<Details>, now: int, ks: seq<string>, k: string)
    requires Visitable(s0, ks) && NoDup(ks) && k in s0.tracked
    ensures var s := CheckFold(s0, fetch, now, ks);
      && (k in s.trackers <==> k in s0.trackers)
      && (k in s0.trackers ==> s.trackers[k] == if k in ks then Observed(s0, fetch, now, k) else s0.trackers[k])
    decreases |ks|
  {
    if ks != [] {
      var rest := ks[..|ks| - 1];
      NoDupNotInPrefix(ks, |ks| - 1);
      assert forall x :: x in ks <==> x in rest || x == ks[|ks| - 1];
      CheckFoldTracker(s0, fetch, now, rest, k);
    }
  }

  /** The fold over distinct numbers posts, in visiting order, each number's alerts judged on the old state. */
  lemma {:induction false} CheckFoldOutbox(s0: State, fetch: (string, string) -> seq<Details>, now: int, ks: seq<string>)
    requires Visitable(s0, ks) && NoDup(ks)
    ensures CheckFold(s0, fetch, now, ks).outbox == s0.outbox + CheckAlerts(s0, fetch, now, ks)
    decreases |ks|
  {
    if ks != [] {
      var rest := ks[..|ks| - 1];
      var k := ks[|ks| - 1];
      NoDupNotInPrefix(ks, |ks| - 1);
      assert forall x :: x in rest ==> x in ks;
      CheckFoldOutbox(s0, fetch, now, rest);
      CheckFoldShape(s0, fetch, now, rest);
      CheckFoldTracker(s0, fetch, now, rest, k);
      var s := CheckFold(s0, fetch, now, rest);
      assert CheckAlerts(s0, fetch, now, ks) == CheckAlerts(s0, fetch, now, rest) + KeyAlerts(s0, fetch, now, k);
      match FreshFor(s0, fetch, k)
      case None =>
        assert CheckFold(s0, fetch, now, ks) == s;
      case Some(nd) =>
        assert CheckFold(s0, fetch, now, ks) == ObserveFresh(s, k, nd, now);
        assert ObserveKey(s.trackers, k, nd.status, now).alert == ObserveKey(s0.trackers, k, nd.status, now).alert;
        assert ObserveFresh(s, k, nd, now).outbox == s.outbox + KeyAlerts(s0, fetch, now, k);
    }
  }

  /** The visiting order covers the tracked numbers, each once, and all of them are listed in order. */
  lemma CheckOrderVisitable(s: State)
    requires Inv(s)
    ensures Visitable(s, CheckOrder(s)) && NoDup(CheckOrder(s))
  {
  }

  /**
   * One run of the status check, class by class: the class keeps its key
   * and ends with its merged details, and its tracker (if it has one) with
   * its observed value.
   */
  lemma StatusCheckAt(s: State, fetch: (string, string) -> seq<Details>, now: int, k: string)
    requires Inv(s) && k in s.tracked
    ensures var s' := StatusCheck(s, fetch, now);
      && k in s'.tracked && s'.tracked[k] == Merged(s, fetch, k)
      && (k in s'.trackers <==> k in s.trackers)
      && (k in s.trackers ==> s'.trackers[k] == Observed(s, fetch, now, k))
  {
    CheckOrderVisitable(s);
    CheckFoldTracked(s, fetch, now, CheckOrder(s), k);
    CheckFoldTracker(s, fetch, now, CheckOrder(s), k);
  }

  /**
   * One run of the status check as a whole: no dict gains or loses a key,
   * the order lists, term and topic stay, every class and tracker changes
   * as above, and the alerts go out in visiting order.
   */
  lemma StatusCheckEffect(s: State, fetch: (string, string) -> seq<Details>, now: int)
    requires Inv(s)
    ensures var s' := StatusCheck(s, fetch, now);
      && s'.tracked.Keys == s.tracked.Keys
      && (forall k :: k in s.tracked ==> s'.tracked[k] == Merged(s, fetch, k))
      && s'.trackers.Keys == s.trackers.Keys
      && (forall k :: k in s.trackers ==> s'.trackers[k] == Observed(s, fetch, now, k))
      && s'.trackedOrder == s.trackedOrder && s'.trackerOrder == s.trackerOrder
      && s'.term == s.term && s'.topic == s.topic
      && s'.outbox == s.outbox + CheckAlerts(s, fetch, now, CheckOrder(s))
  {
    var s' := StatusCheck(s, fetch, now);
    if s.tracked == map[] {
      assert CheckOrder(s) == [];
    } else {
      CheckOrderVisitable(s);
      CheckFoldShape(s, fetch, now, CheckOrder(s));
      CheckFoldOutbox(s, fetch, now, CheckOrder(s));
      forall k | k in s.tracked ensures s'.tracked[k] == Merged(s, fetch, k) {
        StatusCheckAt(s, fetch, now, k);
      }
      forall k | k in s.trackers ensures s'.trackers[k] == Observed(s, fetch, now, k) {
        StatusCheckAt(s, fetch, now, k);
      }
    }
  }

  lemma StatusCheckInv(s: State, fetch: (string, string) -> seq<Details>, now: int)
    requires Inv(s)
    ensures Inv(StatusCheck(s, fetch, now))
  {
    var s' := StatusCheck(s, fetch, now);
    if s.tracked != map[] {
      CheckOrderVisitable(s);
      CheckFoldShape(s, fetch, now, CheckOrder(s));
      OrderOfSameKeys(s.trackedOrder, s.tracked, s'.tracked);
      OrderOfSameKeys(s.trackerOrder, s.trackers, s'.trackers);
      forall k | k in s'.tracked ensures s'.tracked[k].classNumber == k {
        StatusCheckAt(s, fetch, now, k);
      }
      forall k | k in s'.trackers ensures k in s'.tracked && TrackerOk(s'.trackers[k]) {
        StatusCheckAt(s, fetch, now, k);
        match FreshFor(s, fetch, k)
        case None =>
        case Some(nd) => ObserveKeepsTrackerOk(s.trackers[k], nd.status, now);
      }
    }
  }

  /** A tracked class missing from its group's fresh results keeps its details and tracker, and posts nothing. */
  lemma CheckAbsentUntouched(s: State, fetch: (string, string) -> seq<Details>, now: int, k: string)
    requires Inv(s) && k in s.tracked && FreshFor(s, fetch, k).None?
    ensures var s' := StatusCheck(s, fetch, now);
      && k in s'.tracked && s'.tracked[k] == s.tracked[k]
      && (k in s.trackers <==> k in s'.trackers)
      && (k in s.trackers ==> s'.trackers[k] == s.trackers[k])
      && KeyAlerts(s, fetch, now, k) == []
  {
    StatusCheckAt(s, fetch, now, k);
  }

  /** Seeing the status the tracker already holds posts nothing and leaves the tracker as it was. */
  lemma CheckSameStatusNoAlert(s: State, fetch: (string, string) -> seq<Details>, now: int, k: string)
    requires Inv(s) && k in s.trackers
    requires var f := FreshFor(s, fetch, k); f.Some? && f.value.status == s.trackers[k].lastStatus
    ensures var s' := StatusCheck(s, fetch, now);
      && k in s'.tracked && s'.tracked[k] == FreshFor(s, fetch, k).value
      && k in s'.trackers && s'.trackers[k] == s.trackers[k]
      && KeyAlerts(s, fetch, now, k) == []
  {
    StatusCheckAt(s, fetch, now, k);
  }

  /** A rising edge posts one OPEN alert and restarts the streak at count 1, sent now. */
  lemma CheckRisingEdge(s: State, fetch: (string, string) -> seq<Details>, now: int, k: string)
    requires Inv(s) && k in s.trackers
    requires var f := FreshFor(s, fetch, k); f.Some? && f.value.status == OPEN && s.trackers[k].lastStatus != OPEN
    ensures var s' := StatusCheck(s, fetch, now); var nd := FreshFor(s, fetch, k).value;
      && k in s'.tracked && s'.tracked[k] == nd
      && k in s'.trackers && s'.trackers[k] == Tracker(1, now, OPEN)
      && KeyAlerts(s, fetch, now, k) == Send(s.topic, nd, Open)
  {
    StatusCheckAt(s, fetch, now, k);
  }

  /** A falling edge (FULL after OPEN) posts one FULL alert and clears count and send time. */
  lemma CheckFallingEdge(s: State, fetch: (string, string) -> seq<Details>, now: int, k: string)
    requires Inv(s) && k in s.trackers
    requires var f := FreshFor(s, fetch, k); f.Some? && f.value.status == FULL && s.trackers[k].lastStatus == OPEN
    ensures var s' := StatusCheck(s, fetch, now); var nd := FreshFor(s, fetch, k).value;
      && k in s'.tracked && s'.tracked[k] == nd
      && k in s'.trackers && s'.trackers[k] == Tracker(0, 0, FULL)
      && KeyAlerts(s, fetch, now, k) == Send(s.topic, nd, Full)
  {
    StatusCheckAt(s, fetch, now, k);
  }

  /** Any other change of status only records the new status, without an alert. */
  lemma CheckOtherChange(s: State, fetch: (string, string) -> seq<Details>, now: int, k: string)
    requires Inv(s) && k in s.trackers
    requires var f := FreshFor(s, fetch, k); var prev := s.trackers[k].lastStatus;
      f.Some? && f.value.status != prev && f.value.status != OPEN && !(f.value.status == FULL && prev == OPEN)
    ensures var s' := StatusCheck(s, fetch, now); var nd := FreshFor(s, fetch, k).value;
      && k in s'.trackers && s'.trackers[k] == s.trackers[k].(lastStatus := nd.status)
      && KeyAlerts(s, fetch, now, k) == []
  {
    StatusCheckAt(s, fetch, now, k);
  }

  /**
   * A tracked class without a tracker does not get one; it is judged
   * against the default record, so a fresh OPEN status posts an OPEN alert
   * on every run.
   */
  lemma CheckMissingTracker(s: State, fetch: (string, string) -> seq<Details>, now: int, k: string)
    requires Inv(s) && k in s.tracked && k !in s.trackers
    ensures var s' := StatusCheck(s, fetch, now); var f := FreshFor(s, fetch, k);
      && k !in s'.trackers
      && KeyAlerts(s, fetch, now, k) == (if f.Some? && f.value.status == OPEN then Send(s.topic, f.value, Open) else [])
  {
    StatusCheckAt(s, fetch, now, k);
  }

  /** The alerts in `out` about class number `k`. */
  function AlertsFor(out: seq<Alert>, k: string): seq<Alert>
    decreases |out|
  {
    if out == [] then []
    else AlertsFor(out[..|out| - 1], k) + (if out[|out| - 1].details.classNumber == k then [out[|out| - 1]] else [])
  }

  lemma {:induction false} AlertsForConcat(a: seq<Alert>, b: seq<Alert>, k: string)
    ensures AlertsFor(a + b, k) == AlertsFor(a, k) + AlertsFor(b, k)
    decreases |b|
  {
    if b != [] {
      var b' := b[..|b| - 1];
      assert (a + b)[..|a + b| - 1] == a + b';
      AlertsForConcat(a, b', k);
    } else {
      assert a + b == a;
    }
  }

  lemma {:induction false} AlertsForAll(out: seq<Alert>, k: string)
    ensures (forall a :: a in out ==> a.details.classNumber == k) ==> AlertsFor(out, k) == out
    ensures (forall a :: a in out ==> a.details.classNumber != k) ==> AlertsFor(out, k) == []
    decreases |out|
  {
    if out != [] {
      AlertsForAll(out[..|out| - 1], k);
      assert forall a :: a in out[..|out| - 1] ==> a in out;
    }
  }

  lemma {:induction false} CheckAlertsFor(s: State, fetch: (string, string) -> seq<Details>, now: int, ks: seq<string>, k: string)
    requires NoDup(ks) && forall x :: x in ks ==> x in s.tracked
    requires k in s.tracked
    ensures AlertsFor(CheckAlerts(s, fetch, now, ks), k) == if k in ks then KeyAlerts(s, fetch, now, k) else []
    decreases |ks|
  {
    if ks != [] {
      var rest := ks[..|ks| - 1];
      var last := ks[|ks| - 1];
      NoDupNotInPrefix(ks, |ks| - 1);
      assert forall x :: x in rest ==> x in ks;
      CheckAlertsFor(s, fetch, now, rest, k);
      AlertsForConcat(CheckAlerts(s, fetch, now, rest), KeyAlerts(s, fetch, now, last), k);
      AlertsForAll(KeyAlerts(s, fetch, now, last), k);
      assert k in ks <==> k in rest || k == last;
    }
  }

  /**
   * Per class, the alerts one status check posts are exactly that class's
   * edge alerts: one for a rising or falling edge (with a topic), none
   * otherwise.
   */
  lemma StatusCheckAlertsPerClass(s: State, fetch: (string, string) -> seq<Details>, now: int, k: string)
    requires Inv(s) && k in s.tracked
    ensures var s' := StatusCheck(s, fetch, now);
      && |s.outbox| <= |s'.outbox|
      && AlertsFor(s'.outbox[|s.outbox|..], k) == KeyAlerts(s, fetch, now, k)
      && |KeyAlerts(s, fetch, now, k)| <= 1
  {
    var s' := StatusCheck(s, fetch, now);
    CheckOrderVisitable(s);
    CheckFoldOutbox(s, fetch, now, CheckOrder(s));
    assert s'.outbox[|s.outbox|..] == CheckAlerts(s, fetch, now, CheckOrder(s));
    CheckAlertsFor(s, fetch, now, CheckOrder(s), k);
  }

  // ---------------------------------------------------------------------
  // hourly_reminder_check

  /** `tracked_classes.get(k)`. */
  function StoredDetails(s: State, k: string): Option<Details>
  {
    if k in s.tracked then Some(s.tracked[k]) else None
  }

  /** The count a reminder displays: the tracker's count, 0 without a tracker. */
  function ReminderCount(trackers: map<string, Tracker>, num: string): int
  {
    if num in trackers then trackers[num].count else 0
  }

  /** The reminder step for tracker `k`: when one is due, post it and raise the count. */
  function RemindKey(s: State, k: string, now: int): State
    requires k in s.trackers
  {
    var d := StoredDetails(s, k);
    var t := s.trackers[k];
    if ReminderDue(d, t, now) then
      s.(outbox := s.outbox + Send(s.topic, d.value, Reminder(ReminderCount(s.trackers, d.value.classNumber))),
         trackers := s.trackers[k := Remind(t, now)])
    else s
  }

  /** The trackers `ks` visited in turn, starting from `s0`; only trackers and outbox change. */
  function RemindFold(s0: State, now: int, ks: seq<string>): (s: State)
    requires forall k :: k in ks ==> k in s0.trackers
    ensures s.trackers.Keys == s0.trackers.Keys
    ensures s == s0.(trackers := s.trackers, outbox := s.outbox)
    decreases |ks|
  {
    if ks == [] then s0
    else
      var rest := ks[..|ks| - 1];
      assert forall x :: x in rest ==> x in ks;
      RemindKey(RemindFold(s0, now, rest), ks[|ks| - 1], now)
  }

  /** One run of the hourly job over a snapshot of the tracker keys. */
  function ReminderCheck(s: State, now: int): State
    requires Inv(s)
  {
    RemindFold(s, now, s.trackerOrder)
  }

  /** Whether the job sends `k` a reminder, judged on the state before the run. */
  predicate DueAt(s: State, k: string, now: int)
    requires k in s.trackers
  {
    ReminderDue(StoredDetails(s, k), s.trackers[k], now)
  }

  /** The reminder the run posts for `k`, judged on the state before the run. */
  function KeyReminder(s: State, k: string, now: int): (out: seq<Alert>)
    requires k in s.trackers
    ensures forall a :: a in out ==> k in s.tracked && a.details == s.tracked[k]
  {
    if DueAt(s, k, now) then Send(s.topic, s.tracked[k], Reminder(s.trackers[k].count)) else []
  }

  function RemindAlerts(s: State, now: int, ks: seq<string>): seq<Alert>
    requires forall k :: k in ks ==> k in s.trackers
    decreases |ks|
  {
    if ks == [] then [] else RemindAlerts(s, now, ks[..|ks| - 1]) + KeyReminder(s, ks[|ks| - 1], now)
  }

  /** After the fold over distinct trackers, a visited tracker has had its reminder if one was due. */
  lemma {:induction false} RemindFoldTracker(s0: State, now: int, ks: seq<string>, k: string)
    requires NoDup(ks) && (forall x :: x in ks ==> x in s0.trackers) && k in s0.trackers
    ensures RemindFold(s0, now, ks).trackers[k] ==
              if k in ks && DueAt(s0, k, now) then Remind(s0.trackers[k], now) else s0.trackers[k]
    decreases |ks|
  {
    if ks != [] {
      var rest := ks[..|ks| - 1];
      NoDupNotInPrefix(ks, |ks| - 1);
      assert forall x :: x in ks <==> x in rest || x == ks[|ks| - 1];
      RemindFoldTracker(s0, now, rest, k);
      RemindFoldTracker(s0, now, rest, ks[|ks| - 1]);
    }
  }

  /** The fold over distinct trackers posts each due reminder, in visiting order, with its pre-run count. */
  lemma {:induction false} RemindFoldOutbox(s0: State, now: int, ks: seq<string>)
    requires NoDup(ks) && (forall x :: x in ks ==> x in s0.trackers)
    requires forall x :: x in s0.tracked ==> s0.tracked[x].classNumber == x
    ensures RemindFold(s0, now, ks).outbox == s0.outbox + RemindAlerts(s0, now, ks)
    decreases |ks|
  {
    if ks != [] {
      var rest := ks[..|ks| - 1];
      var k := ks[|ks| - 1];
      NoDupNotInPrefix(ks, |ks| - 1);
      assert forall x :: x in rest ==> x in ks;
      RemindFoldOutbox(s0, now, rest);
      RemindFoldTracker(s0, now, rest, k);
      var s := RemindFold(s0, now, rest);
      assert s.trackers[k] == s0.trackers[k] && s.tracked == s0.tracked && s.topic == s0.topic;
      assert RemindFold(s0, now, ks) == RemindKey(s, k, now);
      if DueAt(s0, k, now) {
        assert ReminderCount(s.trackers, s.tracked[k].classNumber) == s0.trackers[k].count;
      }
    }
  }

  /**
   * One run of the hourly job, tracker by tracker: a due reminder raises
   * the count by one and records the send time; every other tracker stays.
   */
  lemma ReminderCheckAt(s: State, now: int, k: string)
    requires Inv(s) && k in s.trackers
    ensures var s' := ReminderCheck(s, now);
      && k in s'.trackers
      && s'.trackers[k] == if DueAt(s, k, now) then Remind(s.trackers[k], now) else s.trackers[k]
  {
    RemindFoldTracker(s, now, s.trackerOrder, k);
  }

  /**
   * One run of the hourly job as a whole: only trackers and the outbox
   * change, no tracker is added or removed, and the due reminders go out
   * in the trackers' insertion order.
   */
  lemma ReminderCheckEffect(s: State, now: int)
    requires Inv(s)
    ensures var s' := ReminderCheck(s, now);
      && s'.tracked == s.tracked && s'.trackedOrder == s.trackedOrder
      && s'.trackers.Keys == s.trackers.Keys && s'.trackerOrder == s.trackerOrder
      && s'.term == s.term && s'.topic == s.topic
      && (forall k :: k in s.trackers ==> s'.trackers[k] == if DueAt(s, k, now) then Remind(s.trackers[k], now) else s.trackers[k])
      && s'.outbox == s.outbox + RemindAlerts(s, now, s.trackerOrder)
  {
    RemindFoldOutbox(s, now, s.trackerOrder);
    forall k | k in s.trackers
      ensures ReminderCheck(s, now).trackers[k] == if DueAt(s, k, now) then Remind(s.trackers[k], now) else s.trackers[k]
    {
      ReminderCheckAt(s, now, k);
    }
  }

  lemma ReminderCheckInv(s: State, now: int)
    requires Inv(s)
    ensures Inv(ReminderCheck(s, now))
  {
    ReminderCheckEffect(s, now);
    var s' := ReminderCheck(s, now);
    forall k | k in s'.trackers ensures TrackerOk(s'.trackers[k]) {
      if DueAt(s, k, now) {
        RemindKeepsTrackerOk(StoredDetails(s, k), s.trackers[k], now);
      }
    }
  }

  /**
   * Every reminder a run posts is about a stored OPEN class with a tracker
   * in mid-streak: it displays that tracker's count before the raise,
   * between 1 and MAX_NOTIFICATIONS - 1.
   */
  lemma {:induction false} RemindAlertsShape(s: State, now: int, ks: seq<string>)
    requires forall x :: x in ks ==> x in s.trackers
    requires forall x :: x in s.tracked ==> s.tracked[x].classNumber == x
    ensures forall a :: a in RemindAlerts(s, now, ks) ==>
      var k := a.details.classNumber;
      && k in ks && k in s.trackers && k in s.tracked && a.details == s.tracked[k]
      && a.details.status == OPEN
      && a.reason == Reminder(s.trackers[k].count)
      && 1 <= a.reason.count < MAX_NOTIFICATIONS
      && a.title == Title(a.reason, a.details.className) && a.topic == s.topic
    decreases |ks|
  {
    if ks != [] {
      var rest := ks[..|ks| - 1];
      assert forall x :: x in rest ==> x in ks;
      RemindAlertsShape(s, now, rest);
    }
  }

  /** Per tracker, a run posts at most the one reminder computed from the state before the run. */
  lemma {:induction false} RemindAlertsFor(s: State, now: int, ks: seq<string>, k: string)
    requires NoDup(ks) && (forall x :: x in ks ==> x in s.trackers) && k in s.trackers
    requires forall x :: x in s.tracked ==> s.tracked[x].classNumber == x
    ensures AlertsFor(RemindAlerts(s, now, ks), k) == if k in ks then KeyReminder(s, k, now) else []
    decreases |ks|
  {
    if ks != [] {
      var rest := ks[..|ks| - 1];
      var last := ks[|ks| - 1];
      NoDupNotInPrefix(ks, |ks| - 1);
      assert forall x :: x in rest ==> x in ks;
      RemindAlertsFor(s, now, rest, k);
      AlertsForConcat(RemindAlerts(s, now, rest), KeyReminder(s, last, now), k);
      AlertsForAll(KeyReminder(s, last, now), k);
      assert k in ks <==> k in rest || k == last;
    }
  }

  /** Per class, one run posts just the reminder due for it: one with a topic, none without. */
  lemma ReminderCheckAlertsPerClass(s: State, now: int, k: string)
    requires Inv(s) && k in s.trackers
    ensures var s' := ReminderCheck(s, now);
      && |s.outbox| <= |s'.outbox|
      && AlertsFor(s'.outbox[|s.outbox|..], k) == KeyReminder(s, k, now)
      && |KeyReminder(s, k, now)| == if DueAt(s, k, now) && s.topic != "" then 1 else 0
  {
    ReminderCheckEffect(s, now);
    var s' := ReminderCheck(s, now);
    assert s'.outbox[|s.outbox|..] == RemindAlerts(s, now, s.trackerOrder);
    RemindAlertsFor(s, now, s.trackerOrder, k);
  }

  /** The hourly job run at each of `times` in turn, with no status check in between. */
  function Ticks(s: State, times: seq<int>): (r: State)
    requires Inv(s)
    ensures Inv(r) && r.tracked == s.tracked && r.topic == s.topic && r.trackers.Keys == s.trackers.Keys
    ensures |s.outbox| <= |r.outbox| && r.outbox[..|s.outbox|] == s.outbox
    decreases |times|
  {
    if times == [] then s
    else
      ReminderCheckInv(s, times[0]);
      ReminderCheckEffect(s, times[0]);
      var r := Ticks(ReminderCheck(s, times[0]), times[1..]);
      assert r.outbox[..|s.outbox|] == r.outbox[..|ReminderCheck(s, times[0]).outbox|][..|s.outbox|];
      r
  }

  /** The counts the reminders in `out` display. */
  function Shown(out: seq<Alert>): seq<int>
    decreases |out|
  {
    if out == [] then []
    else Shown(out[..|out| - 1]) + [if out[|out| - 1].reason.Reminder? then out[|out| - 1].reason.count else 0]
  }

  function SentCounts(sent: seq<Sent>): seq<int>
    decreases |sent|
  {
    if sent == [] then [] else [sent[0].count] + SentCounts(sent[1..])
  }

  lemma {:induction false} ShownConcat(a: seq<Alert>, b: seq<Alert>)
    ensures Shown(a + b) == Shown(a) + Shown(b)
    decreases |b|
  {
    if b != [] {
      var b' := b[..|b| - 1];
      assert (a + b)[..|a + b| - 1] == a + b';
      ShownConcat(a, b');
    } else {
      assert a + b == a;
    }
  }

  /** Repeated runs of the hourly job leave each tracker where the single-record run RemindRun ends. */
  lemma {:induction false} TicksTracker(s: State, times: seq<int>, k: string)
    requires Inv(s) && k in s.trackers
    ensures Ticks(s, times).trackers[k] == RemindRun(StoredDetails(s, k), s.trackers[k], times).final
    decreases |times|
  {
    if times != [] {
      var s1 := ReminderCheck(s, times[0]);
      ReminderCheckInv(s, times[0]);
      ReminderCheckAt(s, times[0], k);
      ReminderCheckEffect(s, times[0]);
      TicksTracker(s1, times[1..], k);
      assert Ticks(s, times) == Ticks(s1, times[1..]);
      assert StoredDetails(s1, k) == StoredDetails(s, k);
    }
  }

  /** The counts one run shows class `k`: its count before the raise if a reminder was due and a topic is set. */
  lemma OneTickShown(s: State, now: int, k: string)
    requires Inv(s) && k in s.trackers
    ensures var s' := ReminderCheck(s, now);
      && |s.outbox| <= |s'.outbox|
      && (s.topic == "" ==> AlertsFor(s'.outbox[|s.outbox|..], k) == [])
      && Shown(AlertsFor(s'.outbox[|s.outbox|..], k)) ==
           if DueAt(s, k, now) && s.topic != "" then [s.trackers[k].count] else []
  {
    ReminderCheckAlertsPerClass(s, now, k);
    var a := KeyReminder(s, k, now);
    if DueAt(s, k, now) && s.topic != "" {
      assert |a| == 1 && a[0].reason == Reminder(s.trackers[k].count);
      assert Shown(a) == Shown(a[..0]) + [s.trackers[k].count];
    } else {
      assert a == [];
    }
  }

  /** When `b` starts with `a`, the part of `b` past position `i` is `a`'s part past `i`, then the rest of `b`. */
  lemma SplitAfterPrefix(b: seq<Alert>, a: seq<Alert>, i: nat)
    requires i <= |a| <= |b| && b[..|a|] == a
    ensures b[i..] == a[i..] + b[|a|..]
  {
    assert b[i..] == b[i..|a|] + b[|a|..];
    assert b[i..|a|] == b[..|a|][i..];
  }

  /** RemindRun's first tick is one run of the hourly job on the record of `k`. */
  lemma RunStep(s: State, times: seq<int>, k: string)
    requires Inv(s) && k in s.trackers && times != []
    ensures var s1 := ReminderCheck(s, times[0]);
      && k in s1.trackers
      && SentCounts(RemindRun(StoredDetails(s, k), s.trackers[k], times).sent) ==
           (if DueAt(s, k, times[0]) then [s.trackers[k].count] else []) +
           SentCounts(RemindRun(StoredDetails(s1, k), s1.trackers[k], times[1..]).sent)
  {
    var s1 := ReminderCheck(s, times[0]);
    ReminderCheckAt(s, times[0], k);
    assert StoredDetails(s1, k) == StoredDetails(s, k);
    var run := RemindRun(StoredDetails(s, k), s.trackers[k], times);
    var next := RemindRun(StoredDetails(s1, k), s1.trackers[k], times[1..]);
    if DueAt(s, k, times[0]) {
      assert run == Run(next.final, [Sent(times[0], s.trackers[k].count)] + next.sent);
      assert SentCounts(run.sent) == [s.trackers[k].count] + SentCounts(next.sent);
    } else {
      assert run == next;
    }
  }

  /**
   * With a topic, repeated runs of the hourly job send each class exactly
   * RemindRun's reminders, displaying the same counts, so RemindRunBounds
   * applies: at most nine per streak, counts 1 to 9, an hour apart.
   * Without a topic nothing is posted.
   */
  lemma {:induction false} TicksFollowRemindRun(s: State, times: seq<int>, k: string)
    requires Inv(s) && k in s.trackers
    ensures var r := Ticks(s, times); var run := RemindRun(StoredDetails(s, k), s.trackers[k], times);
      && (s.topic == "" ==> AlertsFor(r.outbox[|s.outbox|..], k) == [])
      && (s.topic != "" ==> Shown(AlertsFor(r.outbox[|s.outbox|..], k)) == SentCounts(run.sent))
    decreases |times|
  {
    var r := Ticks(s, times);
    if times == [] {
      assert r.outbox[|s.outbox|..] == [];
    } else {
      var s1 := ReminderCheck(s, times[0]);
      ReminderCheckInv(s, times[0]);
      OneTickShown(s, times[0], k);
      RunStep(s, times, k);
      TicksFollowRemindRun(s1, times[1..], k);
      assert r == Ticks(s1, times[1..]);
      var head := s1.outbox[|s.outbox|..];
      var tail := r.outbox[|s1.outbox|..];
      SplitAfterPrefix(r.outbox, s1.outbox, |s.outbox|);
      AlertsForConcat(head, tail, k);
      ShownConcat(AlertsFor(head, k), AlertsFor(tail, k));
    }
  }
}
