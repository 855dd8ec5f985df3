/** The fraud heuristics of server/services/anti-fraud.ts: three scans of
    the recent hours records that append alerts to one list. Dates are day
    indices and `today` stands for `new Date()`; `users` maps a user id to
    the phone `storage.getUser` would return with it. */
module AntiFraud {
  import opened Wrappers
  import opened Hierarchy
  import opened Storage

  /** `dailyHoursThreshold` */
  const DailyHoursThreshold: real := 16.0
  /** `anomalyMultiplier` */
  const AnomalyMultiplier: real := 4.7
  /** `zeroStreakThreshold` */
  const ZeroStreakThreshold: nat := 7
  /** The window of the high-hours and spike scans. */
  const RecentDays: nat := 7
  /** The number of days the zero-streak scan walks back over. */
  const CheckDays: nat := 14

  datatype AlertKind = HighHours | AnomalySpike | ZeroStreak
  datatype Severity = Low | Medium | High

  /** The `data` payload of an alert. */
  datatype AlertData =
    | HoursData(hours: real, date: Date)
    | SpikeData(hours: real, median: real, ratioPercent: int)
    | StreakData(consecutiveDays: nat)

  datatype FraudAlert = FraudAlert(
    userId: UserId,
    phone: string,
    kind: AlertKind,
    date: Date,
    severity: Severity,
    data: AlertData)

  /** The phone of each user `storage.getUser` finds. */
  type Users = map<UserId, string>

  /** `storage.getHoursRawByDateRange(start, end)`: both ends included. */
  function InRange(rows: seq<HoursRecord>, start: Date, end: Date): (r: seq<HoursRecord>)
    ensures forall h :: h in r <==> h in rows && start <= h.workDate <= end
  {
    if rows == [] then []
    else (if start <= rows[0].workDate <= end then [rows[0]] else []) + InRange(rows[1..], start, end)
  }

  // ---------------------------------------------------------------------
  // checkHighDailyHours

  predicate OverThreshold(h: HoursRecord, users: Users)
  {
    h.hours > DailyHoursThreshold && h.userId in users
  }

  function HighHoursAlert(h: HoursRecord, phone: string): FraudAlert
  {
    FraudAlert(h.userId, phone, HighHours, h.workDate, High, HoursData(h.hours, h.workDate))
  }

  /** The alerts checkHighDailyHours appends for the records `hs`, in order. */
  function HighHoursAlerts(hs: seq<HoursRecord>, users: Users): seq<FraudAlert>
  {
    if hs == [] then []
    else
      var h := hs[|hs| - 1];
      HighHoursAlerts(hs[..|hs| - 1], users)
        + (if OverThreshold(h, users) then [HighHoursAlert(h, users[h.userId])] else [])
  }

  method CheckHighDailyHours(alerts: seq<FraudAlert>, hoursData: seq<HoursRecord>, users: Users)
    returns (out: seq<FraudAlert>)
    ensures out == alerts + HighHoursAlerts(hoursData, users)
  {
    out := alerts;
    for i := 0 to |hoursData|
      invariant out == alerts + HighHoursAlerts(hoursData[..i], users)
    {
      assert hoursData[..i + 1][..i] == hoursData[..i];
      var hours := hoursData[i];
      if hours.hours > DailyHoursThreshold {
        if hours.userId in users {
          out := out + [HighHoursAlert(hours, users[hours.userId])];
        }
      }
    }
    assert hoursData[..|hoursData|] == hoursData;
  }

  /** An alert is a high-hours alert exactly when it is the alert of a record
      over the threshold whose user exists. */
  lemma {:induction false} HighHoursAlertsMembers(hs: seq<HoursRecord>, users: Users, a: FraudAlert)
    ensures a in HighHoursAlerts(hs, users) <==>
      exists h :: h in hs && OverThreshold(h, users) && a == HighHoursAlert(h, users[h.userId])
  {
    if hs != [] {
      var init := hs[..|hs| - 1];
      HighHoursAlertsMembers(init, users, a);
      assert hs == init + [hs[|hs| - 1]];
    }
  }

  /** A record gets a high-hours alert (severity high) if and only if its
      hours exceed 16 and its user exists. */
  lemma HighHoursIff(hs: seq<HoursRecord>, users: Users, h: HoursRecord)
    requires h in hs
    ensures (exists a :: a in HighHoursAlerts(hs, users) && a.userId == h.userId
               && a.data == HoursData(h.hours, h.workDate) && a.severity == High)
        <==> h.hours > 16.0 && h.userId in users
  {
    if h.hours > 16.0 && h.userId in users {
      HighHoursAlertsMembers(hs, users, HighHoursAlert(h, users[h.userId]));
    }
    if exists a :: a in HighHoursAlerts(hs, users) && a.userId == h.userId
                   && a.data == HoursData(h.hours, h.workDate) && a.severity == High {
      var a :| a in HighHoursAlerts(hs, users) && a.userId == h.userId
               && a.data == HoursData(h.hours, h.workDate) && a.severity == High;
      HighHoursAlertsMembers(hs, users, a);
    }
  }

  // ---------------------------------------------------------------------
  // checkAnomalySpikes: the decurion groups

  /** An entry of `decurionGroups`: a decurion and the drivers under it. */
  datatype DecurionGroup = DecurionGroup(decurionId: UserId, driverIds: seq<UserId>)

  /** A driver that has a decurion; a decurion id of zero counts as none,
      as JavaScript treats it as false. */
  predicate InSpikeGroup(a: Assignment)
  {
    a.role == Driver && a.desyatnikId.Some? && a.desyatnikId.value != 0
  }

  /** The position of decurion d's entry, if the map has one. */
  function KeyIndex(groups: seq<DecurionGroup>, d: UserId): (r: Option<nat>)
    ensures r.Some? ==> r.value < |groups| && groups[r.value].decurionId == d
    ensures r.None? ==> forall i :: 0 <= i < |groups| ==> groups[i].decurionId != d
  {
    if groups == [] then None
    else if groups[0].decurionId == d then Some(0)
    else match KeyIndex(groups[1..], d)
      case None => None
      case Some(i) => Some(i + 1)
  }

  /** Append driver `u` to the group of `d`, opening a new group at the end
      when `d` has none yet. */
  function AddDriver(groups: seq<DecurionGroup>, d: UserId, u: UserId): seq<DecurionGroup>
  {
    match KeyIndex(groups, d)
    case None => groups + [DecurionGroup(d, [u])]
    case Some(i) => groups[i := DecurionGroup(d, groups[i].driverIds + [u])]
  }

  /** `decurionGroups` after the loop over the assignments `xs`. */
  function DecurionGroups(xs: seq<Assignment>): seq<DecurionGroup>
  {
    if xs == [] then []
    else
      var a := xs[|xs| - 1];
      var gs := DecurionGroups(xs[..|xs| - 1]);
      if InSpikeGroup(a) then AddDriver(gs, a.desyatnikId.value, a.userId) else gs
  }

  predicate DistinctKeys(gs: seq<DecurionGroup>)
  {
    forall i, j :: 0 <= i < j < |gs| ==> gs[i].decurionId != gs[j].decurionId
  }

  /** The grouping loop of checkAnomalySpikes. */
  method GroupByDecurion(xs: seq<Assignment>) returns (groups: seq<DecurionGroup>)
    ensures groups == DecurionGroups(xs)
  {
    groups := [];
    for i := 0 to |xs|
      invariant groups == DecurionGroups(xs[..i])
    {
      assert xs[..i + 1][..i] == xs[..i];
      var assignment := xs[i];
      if assignment.role == Driver && assignment.desyatnikId.Some? && assignment.desyatnikId.value != 0 {
        groups := AddDriver(groups, assignment.desyatnikId.value, assignment.userId);
      }
    }
    assert xs[..|xs|] == xs;
  }

  lemma AddDriverKeys(gs: seq<DecurionGroup>, d: UserId, u: UserId)
    requires DistinctKeys(gs)
    ensures DistinctKeys(AddDriver(gs, d, u))
  {
  }

  /** Each decurion has one entry. */
  lemma {:induction false} DecurionGroupsKeys(xs: seq<Assignment>)
    ensures DistinctKeys(DecurionGroups(xs))
  {
    if xs != [] {
      DecurionGroupsKeys(xs[..|xs| - 1]);
      var a := xs[|xs| - 1];
      if InSpikeGroup(a) {
        AddDriverKeys(DecurionGroups(xs[..|xs| - 1]), a.desyatnikId.value, a.userId);
      }
    }
  }

  /** Whether the entries put u under d. */
  predicate Grouped(gs: seq<DecurionGroup>, d: UserId, u: UserId)
  {
    exists i :: 0 <= i < |gs| && gs[i].decurionId == d && u in gs[i].driverIds
  }

  lemma AddDriverGrouped(gs: seq<DecurionGroup>, d: UserId, u: UserId, d2: UserId, u2: UserId)
    requires DistinctKeys(gs)
    ensures Grouped(AddDriver(gs, d, u), d2, u2) <==> Grouped(gs, d2, u2) || (d2 == d && u2 == u)
  {
    var gs2 := AddDriver(gs, d, u);
    match KeyIndex(gs, d)
    case None =>
      if Grouped(gs, d2, u2) {
        var i :| 0 <= i < |gs| && gs[i].decurionId == d2 && u2 in gs[i].driverIds;
        assert gs2[i] == gs[i];
      }
      if d2 == d && u2 == u {
        assert gs2[|gs|].decurionId == d && u in gs2[|gs|].driverIds;
      }
    case Some(k) =>
      if Grouped(gs, d2, u2) {
        var i :| 0 <= i < |gs| && gs[i].decurionId == d2 && u2 in gs[i].driverIds;
        assert u2 in gs2[i].driverIds;
      }
      if d2 == d && u2 == u {
        assert u in gs2[k].driverIds;
      }
      if Grouped(gs2, d2, u2) {
        var i :| 0 <= i < |gs2| && gs2[i].decurionId == d2 && u2 in gs2[i].driverIds;
        if i != k {
          assert gs2[i] == gs[i];
        }
      }
  }

  /** A spike group holds a driver exactly when one of the assignments is a
      driver with that `desyatnikId`. */
  lemma {:induction false} DecurionGroupsMembers(xs: seq<Assignment>, d: UserId, u: UserId)
    ensures Grouped(DecurionGroups(xs), d, u) <==>
      exists a :: a in xs && InSpikeGroup(a) && a.desyatnikId == Some(d) && a.userId == u
  {
    if xs != [] {
      var init := xs[..|xs| - 1];
      var a := xs[|xs| - 1];
      assert xs == init + [a];
      DecurionGroupsMembers(init, d, u);
      if InSpikeGroup(a) {
        DecurionGroupsKeys(init);
        AddDriverGrouped(DecurionGroups(init), a.desyatnikId.value, a.userId, d, u);
      }
    }
  }

  // ---------------------------------------------------------------------
  // checkAnomalySpikes: the group median

  predicate SortedAsc(s: seq<real>)
  {
    forall i, j :: 0 <= i < j < |s| ==> s[i] <= s[j]
  }

  function InsertAsc(x: real, s: seq<real>): (r: seq<real>)
    ensures |r| == |s| + 1
  {
    if s == [] then [x]
    else if x <= s[0] then [x] + s
    else [s[0]] + InsertAsc(x, s[1..])
  }

  /** The hour values in ascending numeric order (insertion sort). */
  function SortAsc(s: seq<real>): (r: seq<real>)
    ensures |r| == |s|
  {
    if s == [] then [] else InsertAsc(s[0], SortAsc(s[1..]))
  }

  lemma {:induction false} InsertAscPermutes(x: real, s: seq<real>)
    ensures multiset(InsertAsc(x, s)) == multiset(s) + multiset{x}
  {
    if s != [] && x > s[0] {
      InsertAscPermutes(x, s[1..]);
      assert s == [s[0]] + s[1..];
    }
  }

  lemma {:induction false} InsertAscBound(x: real, s: seq<real>, b: real)
    requires b <= x && forall k :: 0 <= k < |s| ==> b <= s[k]
    ensures forall k :: 0 <= k < |InsertAsc(x, s)| ==> b <= InsertAsc(x, s)[k]
  {
    if s != [] && x > s[0] {
      InsertAscBound(x, s[1..], b);
    }
  }

  lemma {:induction false} InsertAscSorted(x: real, s: seq<real>)
    requires SortedAsc(s)
    ensures SortedAsc(InsertAsc(x, s))
  {
    if s != [] && x > s[0] {
      var t := InsertAsc(x, s[1..]);
      InsertAscSorted(x, s[1..]);
      InsertAscBound(x, s[1..], s[0]);
      var r := [s[0]] + t;
      assert InsertAsc(x, s) == r;
      forall i, j | 0 <= i < j < |r| ensures r[i] <= r[j] {
        assert r[j] == t[j - 1];
        if i > 0 {
          assert r[i] == t[i - 1];
        }
      }
    }
  }

  /** Sorting orders the values ascending and keeps each of them. */
  lemma {:induction false} SortAscSorts(s: seq<real>)
    ensures SortedAsc(SortAsc(s)) && multiset(SortAsc(s)) == multiset(s)
  {
    if s != [] {
      SortAscSorts(s[1..]);
      InsertAscSorted(s[0], SortAsc(s[1..]));
      InsertAscPermutes(s[0], SortAsc(s[1..]));
      assert s == [s[0]] + s[1..];
    }
  }

  /** Two ascending orderings of the same values are the same list. */
  lemma {:induction false} SortedUnique(a: seq<real>, b: seq<real>)
    requires SortedAsc(a) && SortedAsc(b) && multiset(a) == multiset(b)
    ensures a == b
    decreases |a|
  {
    assert |a| == |multiset(a)| == |b|;
    if a != [] {
      HeadIsLeast(a, b[0]);
      HeadIsLeast(b, a[0]);
      assert a[0] == b[0];
      TailMultiset(a);
      TailMultiset(b);
      SortedUnique(a[1..], b[1..]);
    }
  }

  lemma TailMultiset(a: seq<real>)
    requires a != []
    ensures multiset(a[1..]) == multiset(a) - multiset{a[0]}
  {
    assert a == [a[0]] + a[1..];
  }

  /** The head of an ascending list is its least value. */
  lemma HeadIsLeast(a: seq<real>, x: real)
    requires SortedAsc(a) && x in multiset(a)
    ensures a[0] <= x
  {
    assert x in a;
    var i :| 0 <= i < |a| && a[i] == x;
    if i > 0 {
      assert a[0] <= a[i];
    }
  }

  /** The element at index ⌊n/2⌋ of the ascending values (the upper median
      for an even count); a zero there stays zero. */
  function Median(values: seq<real>): real
    requires |values| > 0
  {
    SortAsc(values)[|values| / 2]
  }

  /** The median is the value at position ⌊n/2⌋ of any ascending ordering of
      the values: at least ⌊n/2⌋ values are no larger and the others no smaller. */
  lemma MedianOfAnyOrdering(values: seq<real>, s: seq<real>)
    requires |values| > 0 && SortedAsc(s) && multiset(s) == multiset(values)
    ensures |s| == |values| && Median(values) == s[|values| / 2]
    ensures Median(values) in values
    ensures forall i :: 0 <= i < |values| / 2 ==> s[i] <= Median(values)
    ensures forall i :: |values| / 2 < i < |s| ==> Median(values) <= s[i]
  {
    SortAscSorts(values);
    SortedUnique(s, SortAsc(values));
    assert |s| == |multiset(s)|;
    assert s[|values| / 2] in multiset(values);
  }

  // ---------------------------------------------------------------------
  // checkAnomalySpikes: the alerts

  /** The records of the drivers `ids`, in record order. */
  function GroupHours(hs: seq<HoursRecord>, ids: seq<UserId>): (r: seq<HoursRecord>)
    ensures forall h :: h in r <==> h in hs && h.userId in ids
  {
    if hs == [] then []
    else (if hs[0].userId in ids then [hs[0]] else []) + GroupHours(hs[1..], ids)
  }

  /** The hours of each record, in order. */
  function HoursValues(hs: seq<HoursRecord>): (r: seq<real>)
    ensures |r| == |hs| && forall i :: 0 <= i < |hs| ==> r[i] == hs[i].hours
  {
    seq(|hs|, i requires 0 <= i < |hs| => hs[i].hours)
  }

  /** Rounding to the nearest integer, halves going up as JavaScript's does. */
  function Round(x: real): (r: int)
    ensures x - 0.5 < r as real <= x + 0.5
  {
    (x + 0.5).Floor
  }

  function SpikeAlert(h: HoursRecord, median: real, phone: string): FraudAlert
    requires median != 0.0
  {
    FraudAlert(h.userId, phone, AnomalySpike, h.workDate, Medium,
      SpikeData(h.hours, median, Round(h.hours / median * 100.0)))
  }

  predicate Spikes(h: HoursRecord, median: real, users: Users)
    requires median != 0.0
  {
    h.hours / median > AnomalyMultiplier && h.userId in users
  }

  /** The alerts of the inner loop over one group's records. */
  function SpikesIn(gh: seq<HoursRecord>, median: real, users: Users): seq<FraudAlert>
    requires median != 0.0
  {
    if gh == [] then []
    else
      var h := gh[|gh| - 1];
      SpikesIn(gh[..|gh| - 1], median, users)
        + (if Spikes(h, median, users) then [SpikeAlert(h, median, users[h.userId])] else [])
  }

  /** The alerts for one decurion group: none if the group has no records or
      its median is zero. */
  function GroupSpikeAlerts(g: DecurionGroup, hs: seq<HoursRecord>, users: Users): seq<FraudAlert>
  {
    var gh := GroupHours(hs, g.driverIds);
    if |gh| == 0 then []
    else
      var m := Median(HoursValues(gh));
      if m == 0.0 then [] else SpikesIn(gh, m, users)
  }

  /** The lists `ls`, one after another. */
  function Flatten<T>(ls: seq<seq<T>>): seq<T>
  {
    if ls == [] then [] else Flatten(ls[..|ls| - 1]) + ls[|ls| - 1]
  }

  lemma {:induction false} FlattenMembers<T>(ls: seq<seq<T>>, a: T)
    ensures a in Flatten(ls) <==> exists i :: 0 <= i < |ls| && a in ls[i]
  {
    if ls != [] {
      var init := ls[..|ls| - 1];
      FlattenMembers(init, a);
      if exists i :: 0 <= i < |ls| && a in ls[i] {
        var i :| 0 <= i < |ls| && a in ls[i];
        if i < |init| {
          assert ls[i] == init[i];
        }
      }
      if exists i :: 0 <= i < |init| && a in init[i] {
        var i :| 0 <= i < |init| && a in init[i];
        assert ls[i] == init[i];
      }
    }
  }

  /** Appending list i to the first i lists flattened gives the first i + 1. */
  lemma AppendStep<T>(start: seq<T>, ls: seq<seq<T>>, i: nat, prev: seq<T>, next: seq<T>)
    requires i < |ls| && prev == start + Flatten(ls[..i]) && next == prev + ls[i]
    ensures next == start + Flatten(ls[..i + 1])
  {
    assert ls[..i + 1][..i] == ls[..i];
  }

  /** The alerts of each group. */
  function AlertsPerGroup(groups: seq<DecurionGroup>, hs: seq<HoursRecord>, users: Users): (r: seq<seq<FraudAlert>>)
    ensures |r| == |groups|
  {
    seq(|groups|, i requires 0 <= i < |groups| => GroupSpikeAlerts(groups[i], hs, users))
  }

  /** The alerts checkAnomalySpikes appends, group by group. */
  function SpikeAlerts(groups: seq<DecurionGroup>, hs: seq<HoursRecord>, users: Users): seq<FraudAlert>
  {
    Flatten(AlertsPerGroup(groups, hs, users))
  }

  /** The inner loop over one group's records, against its median. */
  method CheckRatios(alerts: seq<FraudAlert>, groupHours: seq<HoursRecord>, median: real, users: Users)
    returns (out: seq<FraudAlert>)
    requires median != 0.0
    ensures out == alerts + SpikesIn(groupHours, median, users)
  {
    out := alerts;
    for k := 0 to |groupHours|
      invariant out == alerts + SpikesIn(groupHours[..k], median, users)
    {
      assert groupHours[..k + 1][..k] == groupHours[..k];
      var hours := groupHours[k];
      var ratio := hours.hours / median;
      if ratio > AnomalyMultiplier {
        if hours.userId in users {
          out := out + [SpikeAlert(hours, median, users[hours.userId])];
        }
      }
    }
    assert groupHours[..|groupHours|] == groupHours;
  }

  /** The body of the loop over the groups: the median of the group's
      records, then the inner loop over them. */
  method CheckGroup(alerts: seq<FraudAlert>, group: DecurionGroup, hoursData: seq<HoursRecord>, users: Users)
    returns (out: seq<FraudAlert>)
    ensures out == alerts + GroupSpikeAlerts(group, hoursData, users)
  {
    out := alerts;
    var groupHours := GroupHours(hoursData, group.driverIds);
    if |groupHours| == 0 {
      return;
    }
    var hourValues := SortAsc(HoursValues(groupHours));
    var median := hourValues[|hourValues| / 2];
    if median == 0.0 {
      return;
    }
    out := CheckRatios(alerts, groupHours, median, users);
  }

  /** The loop over the decurion groups. */
  method CheckGroups(alerts: seq<FraudAlert>, groups: seq<DecurionGroup>, hoursData: seq<HoursRecord>, users: Users)
    returns (out: seq<FraudAlert>)
    ensures out == alerts + SpikeAlerts(groups, hoursData, users)
  {
    ghost var perGroup := AlertsPerGroup(groups, hoursData, users);
    out := alerts;
    for gi := 0 to |groups|
      invariant out == alerts + Flatten(perGroup[..gi])
    {
      ghost var prev := out;
      out := CheckGroup(out, groups[gi], hoursData, users);
      AppendStep(alerts, perGroup, gi, prev, out);
    }
    assert perGroup[..|groups|] == perGroup;
  }

  method CheckAnomalySpikes(alerts: seq<FraudAlert>, assignments: seq<Assignment>, hoursData: seq<HoursRecord>, users: Users)
    returns (out: seq<FraudAlert>)
    ensures out == alerts + SpikeAlerts(DecurionGroups(assignments), hoursData, users)
  {
    var groups := GroupByDecurion(assignments);
    out := CheckGroups(alerts, groups, hoursData, users);
  }

  lemma {:induction false} SpikesInMembers(gh: seq<HoursRecord>, median: real, users: Users, a: FraudAlert)
    requires median != 0.0
    ensures a in SpikesIn(gh, median, users) <==>
      exists h :: h in gh && Spikes(h, median, users) && a == SpikeAlert(h, median, users[h.userId])
  {
    if gh != [] {
      var init := gh[..|gh| - 1];
      SpikesInMembers(init, median, users, a);
      assert gh == init + [gh[|gh| - 1]];
    }
  }

  /** Record h of group g raises alert a: the group's median is not zero and
      h's hours are more than 4.7 times it. */
  predicate SpikeOf(g: DecurionGroup, hs: seq<HoursRecord>, users: Users, h: HoursRecord, a: FraudAlert)
  {
    var gh := GroupHours(hs, g.driverIds);
    h in gh
      && var m := Median(HoursValues(gh));
      m != 0.0 && Spikes(h, m, users) && a == SpikeAlert(h, m, users[h.userId])
  }

  /** A group raises an alert exactly when one of its records spikes; every
      such alert has severity medium. */
  lemma GroupSpikeAlertsMembers(g: DecurionGroup, hs: seq<HoursRecord>, users: Users, a: FraudAlert)
    ensures a in GroupSpikeAlerts(g, hs, users) <==> exists h :: SpikeOf(g, hs, users, h, a)
    ensures a in GroupSpikeAlerts(g, hs, users) ==> a.kind == AnomalySpike && a.severity == Medium
  {
    var gh := GroupHours(hs, g.driverIds);
    if |gh| > 0 {
      var m := Median(HoursValues(gh));
      if m != 0.0 {
        SpikesInMembers(gh, m, users, a);
        if a in GroupSpikeAlerts(g, hs, users) {
          var h :| h in gh && Spikes(h, m, users) && a == SpikeAlert(h, m, users[h.userId]);
          assert SpikeOf(g, hs, users, h, a);
        }
        if exists h :: SpikeOf(g, hs, users, h, a) {
          var h :| SpikeOf(g, hs, users, h, a);
          assert h in gh && Spikes(h, m, users) && a == SpikeAlert(h, m, users[h.userId]);
        }
      }
    }
  }

  /** An alert is a spike alert exactly when one of the decurion groups
      raises it. */
  lemma SpikeAlertsMembers(groups: seq<DecurionGroup>, hs: seq<HoursRecord>, users: Users, a: FraudAlert)
    ensures a in SpikeAlerts(groups, hs, users) <==>
      exists i :: 0 <= i < |groups| && a in GroupSpikeAlerts(groups[i], hs, users)
  {
    var ls := AlertsPerGroup(groups, hs, users);
    FlattenMembers(ls, a);
    assert forall i :: 0 <= i < |groups| ==> ls[i] == GroupSpikeAlerts(groups[i], hs, users);
  }

  // ---------------------------------------------------------------------
  // checkZeroStreaks

  /** `hoursMap` after the loop over the records: the last record for a
      (user, date) pair wins. */
  function HoursMapOf(hs: seq<HoursRecord>): map<(UserId, Date), real>
  {
    if hs == [] then map[]
    else
      var h := hs[|hs| - 1];
      HoursMapOf(hs[..|hs| - 1])[(h.userId, h.workDate) := h.hours]
  }

  method BuildHoursMap(hs: seq<HoursRecord>) returns (m: map<(UserId, Date), real>)
    ensures m == HoursMapOf(hs)
  {
    m := map[];
    for i := 0 to |hs|
      invariant m == HoursMapOf(hs[..i])
    {
      assert hs[..i + 1][..i] == hs[..i];
      m := m[(hs[i].userId, hs[i].workDate) := hs[i].hours];
    }
    assert hs[..|hs|] == hs;
  }

  /** A key is in the map exactly when a record has it, and its value is the
      hours of the last such record. */
  lemma {:induction false} HoursMapLastWins(hs: seq<HoursRecord>, u: UserId, d: Date)
    ensures (u, d) in HoursMapOf(hs) <==> exists h :: h in hs && h.userId == u && h.workDate == d
    ensures (u, d) in HoursMapOf(hs) ==>
      exists i :: 0 <= i < |hs| && hs[i].userId == u && hs[i].workDate == d
        && HoursMapOf(hs)[(u, d)] == hs[i].hours
        && forall j :: i < j < |hs| ==> (hs[j].userId, hs[j].workDate) != (u, d)
  {
    if hs != [] {
      var init := hs[..|hs| - 1];
      var h := hs[|hs| - 1];
      assert hs == init + [h];
      HoursMapLastWins(init, u, d);
      if (u, d) != (h.userId, h.workDate) && (u, d) in HoursMapOf(init) {
        var i :| 0 <= i < |init| && init[i].userId == u && init[i].workDate == d
          && HoursMapOf(init)[(u, d)] == init[i].hours
          && forall j :: i < j < |init| ==> (init[j].userId, init[j].workDate) != (u, d);
        assert hs[i] == init[i];
      }
    }
  }

  /** The hours of `u` on day `d`; a missing day counts as zero hours. */
  function DayHours(m: map<(UserId, Date), real>, u: UserId, d: Date): real
  {
    if (u, d) in m then m[(u, d)] else 0.0
  }

  /** Day i of the check, today minus i days, had zero hours. */
  function ZeroDays(m: map<(UserId, Date), real>, u: UserId, today: Date): (zs: seq<bool>)
    ensures |zs| == CheckDays
  {
    seq(CheckDays, i requires 0 <= i < CheckDays => DayHours(m, u, today - i) == 0.0)
  }

  /** The counters `(consecutiveZeros, maxConsecutiveZeros)` after the days `zs`. */
  function Streaks(zs: seq<bool>): (nat, nat)
  {
    if zs == [] then (0, 0)
    else
      var (c, b) := Streaks(zs[..|zs| - 1]);
      if zs[|zs| - 1] then (c + 1, if b < c + 1 then c + 1 else b) else (0, b)
  }

  predicate ZeroRun(zs: seq<bool>, lo: int, hi: int)
  {
    0 <= lo <= hi <= |zs| && forall k :: lo <= k < hi ==> zs[k]
  }

  /** The first counter is the length of the run of zero days that ends the
      list, and that run cannot be made longer. */
  lemma {:induction false} StreaksCurrent(zs: seq<bool>)
    ensures Streaks(zs).0 <= Streaks(zs).1
    ensures ZeroRun(zs, |zs| - Streaks(zs).0, |zs|)
    ensures |zs| - Streaks(zs).0 > 0 ==> !zs[|zs| - Streaks(zs).0 - 1]
  {
    if zs != [] {
      var init := zs[..|zs| - 1];
      StreaksCurrent(init);
      assert forall k :: 0 <= k < |init| ==> zs[k] == init[k];
    }
  }

  /** `maxConsecutiveZeros` is the length of the longest run of zero days:
      some run is that long and none is longer. */
  lemma {:induction false} StreaksLongest(zs: seq<bool>)
    ensures exists lo, hi :: ZeroRun(zs, lo, hi) && hi - lo == Streaks(zs).1
    ensures forall lo, hi :: ZeroRun(zs, lo, hi) ==> hi - lo <= Streaks(zs).1
  {
    if zs == [] {
      assert ZeroRun(zs, 0, 0);
    } else {
      var init := zs[..|zs| - 1];
      StreaksLongest(init);
      StreaksCurrent(init);
      StreaksCurrent(zs);
      var (c, b) := Streaks(init);
      var lo0, hi0 :| ZeroRun(init, lo0, hi0) && hi0 - lo0 == b;
      assert ZeroRun(zs, lo0, hi0);
      assert forall k :: 0 <= k < |init| ==> zs[k] == init[k];
      forall lo, hi | ZeroRun(zs, lo, hi) ensures hi - lo <= Streaks(zs).1 {
        if lo == hi {
        } else if hi == |zs| {
          assert zs[|zs| - 1];
        } else {
          assert ZeroRun(init, lo, hi);
        }
      }
    }
  }

  function ZeroStreakAlert(u: UserId, phone: string, today: Date, days: nat): FraudAlert
  {
    FraudAlert(u, phone, ZeroStreak, today, Low, StreakData(days))
  }

  /** The longest zero run of assignment a's user over the checked days. */
  function LongestZeroRun(m: map<(UserId, Date), real>, u: UserId, today: Date): nat
  {
    Streaks(ZeroDays(m, u, today)).1
  }

  predicate ZeroStreakDue(x: Assignment, m: map<(UserId, Date), real>, users: Users, today: Date)
  {
    LongestZeroRun(m, x.userId, today) >= ZeroStreakThreshold && x.userId in users
  }

  /** The alerts checkZeroStreaks appends, one assignment at a time. */
  function ZeroStreakAlerts(xs: seq<Assignment>, m: map<(UserId, Date), real>, users: Users, today: Date): seq<FraudAlert>
  {
    if xs == [] then []
    else
      var x := xs[|xs| - 1];
      ZeroStreakAlerts(xs[..|xs| - 1], m, users, today)
        + (if ZeroStreakDue(x, m, users, today)
           then [ZeroStreakAlert(x.userId, users[x.userId], today, LongestZeroRun(m, x.userId, today))]
           else [])
  }

  method CheckZeroStreaks(alerts: seq<FraudAlert>, assignments: seq<Assignment>, hoursData: seq<HoursRecord>, users: Users, today: Date)
    returns (out: seq<FraudAlert>)
    ensures out == alerts + ZeroStreakAlerts(assignments, HoursMapOf(hoursData), users, today)
  {
    var hoursMap := BuildHoursMap(hoursData);
    out := alerts;
    for n := 0 to |assignments|
      invariant out == alerts + ZeroStreakAlerts(assignments[..n], hoursMap, users, today)
    {
      assert assignments[..n + 1][..n] == assignments[..n];
      var userId := assignments[n].userId;
      ghost var zs := ZeroDays(hoursMap, userId, today);
      var consecutiveZeros := 0;
      var maxConsecutiveZeros := 0;
      for i := 0 to CheckDays
        invariant (consecutiveZeros, maxConsecutiveZeros) == Streaks(zs[..i])
      {
        assert zs[..i + 1][..i] == zs[..i];
        var dayHours := DayHours(hoursMap, userId, today - i);
        if dayHours == 0.0 {
          consecutiveZeros := consecutiveZeros + 1;
          maxConsecutiveZeros := if maxConsecutiveZeros < consecutiveZeros then consecutiveZeros else maxConsecutiveZeros;
        } else {
          consecutiveZeros := 0;
        }
      }
      assert zs[..CheckDays] == zs;
      if maxConsecutiveZeros >= ZeroStreakThreshold {
        if userId in users {
          out := out + [ZeroStreakAlert(userId, users[userId], today, maxConsecutiveZeros)];
        }
      }
    }
    assert assignments[..|assignments|] == assignments;
  }

  /** An alert is a zero-streak alert exactly when it is the alert of an
      assignment whose user exists and had a run of at least 7 zero days. */
  lemma {:induction false} ZeroStreakAlertsMembers(xs: seq<Assignment>, m: map<(UserId, Date), real>, users: Users, today: Date, a: FraudAlert)
    ensures a in ZeroStreakAlerts(xs, m, users, today) <==>
      exists x :: x in xs && ZeroStreakDue(x, m, users, today)
        && a == ZeroStreakAlert(x.userId, users[x.userId], today, LongestZeroRun(m, x.userId, today))
  {
    if xs != [] {
      var init := xs[..|xs| - 1];
      assert xs == init + [xs[|xs| - 1]];
      ZeroStreakAlertsMembers(init, m, users, today, a);
    }
  }

  /** At most one zero-streak alert per assignment: no more alerts than
      assignments, and with one assignment per user no user twice. */
  lemma {:induction false} ZeroStreakAlertsOnePerAssignment(xs: seq<Assignment>, m: map<(UserId, Date), real>, users: Users, today: Date)
    ensures |ZeroStreakAlerts(xs, m, users, today)| <= |xs|
    ensures DistinctUsers(xs) ==> var r := ZeroStreakAlerts(xs, m, users, today);
      forall i, j :: 0 <= i < j < |r| ==> r[i].userId != r[j].userId
  {
    if xs != [] {
      var init := xs[..|xs| - 1];
      var x := xs[|xs| - 1];
      ZeroStreakAlertsOnePerAssignment(init, m, users, today);
      if DistinctUsers(xs) {
        assert DistinctUsers(init);
        var r0 := ZeroStreakAlerts(init, m, users, today);
        var r := ZeroStreakAlerts(xs, m, users, today);
        forall i, j | 0 <= i < j < |r| ensures r[i].userId != r[j].userId {
          if j >= |r0| {
            assert r[i] == r0[i] && r[i] in r0;
            ZeroStreakAlertsMembers(init, m, users, today, r[i]);
            var y :| y in init && r[i].userId == y.userId;
            var k :| 0 <= k < |init| && init[k] == y;
            assert xs[k] == y;
          }
        }
      }
    }
  }

  // ---------------------------------------------------------------------
  // getActiveAlerts

  /** getActiveAlerts with `hoursRaw` the hours table and `assignments` the
      active season's assignments: nothing without an active season, else
      the three scans in turn over their windows. */
  function ActiveAlerts(activeSeason: Option<Season>, assignments: seq<Assignment>, hoursRaw: seq<HoursRecord>, users: Users, today: Date): seq<FraudAlert>
  {
    if activeSeason.None? then []
    else
      var recent := InRange(hoursRaw, today - RecentDays, today);
      HighHoursAlerts(recent, users)
        + SpikeAlerts(DecurionGroups(assignments), recent, users)
        + ZeroStreakAlerts(assignments, HoursMapOf(InRange(hoursRaw, today - CheckDays, today)), users, today)
  }

  method GetActiveAlerts(activeSeason: Option<Season>, assignments: seq<Assignment>, hoursRaw: seq<HoursRecord>, users: Users, today: Date)
    returns (alerts: seq<FraudAlert>)
    ensures alerts == ActiveAlerts(activeSeason, assignments, hoursRaw, users, today)
  {
    alerts := [];
    if activeSeason.None? {
      return;
    }
    var high := CheckHighDailyHours(alerts, InRange(hoursRaw, today - RecentDays, today), users);
    var spikes := CheckAnomalySpikes(high, assignments, InRange(hoursRaw, today - RecentDays, today), users);
    alerts := CheckZeroStreaks(spikes, assignments, InRange(hoursRaw, today - CheckDays, today), users, today);
    ghost var recent := InRange(hoursRaw, today - RecentDays, today);
    AppendThree(high, spikes, alerts, HighHoursAlerts(recent, users),
      SpikeAlerts(DecurionGroups(assignments), recent, users),
      ZeroStreakAlerts(assignments, HoursMapOf(InRange(hoursRaw, today - CheckDays, today)), users, today));
  }

  lemma AppendThree<T>(first: seq<T>, second: seq<T>, third: seq<T>, a: seq<T>, b: seq<T>, c: seq<T>)
    requires first == [] + a && second == first + b && third == second + c
    ensures third == a + b + c
  {
  }

  /** The severity each kind of alert is raised with. */
  function SeverityOf(k: AlertKind): Severity
  {
    match k
    case HighHours => High
    case AnomalySpike => Medium
    case ZeroStreak => Low
  }

  /** Every alert has its kind's severity, and without an active season there
      are none. */
  lemma ActiveAlertsSeverity(activeSeason: Option<Season>, assignments: seq<Assignment>, hoursRaw: seq<HoursRecord>, users: Users, today: Date, a: FraudAlert)
    requires a in ActiveAlerts(activeSeason, assignments, hoursRaw, users, today)
    ensures activeSeason.Some? && a.severity == SeverityOf(a.kind)
  {
    var recent := InRange(hoursRaw, today - RecentDays, today);
    var m := HoursMapOf(InRange(hoursRaw, today - CheckDays, today));
    HighHoursAlertsMembers(recent, users, a);
    var groups := DecurionGroups(assignments);
    SpikeAlertsMembers(groups, recent, users, a);
    if a in SpikeAlerts(groups, recent, users) {
      var i :| 0 <= i < |groups| && a in GroupSpikeAlerts(groups[i], recent, users);
      GroupSpikeAlertsMembers(groups[i], recent, users, a);
    }
    ZeroStreakAlertsMembers(assignments, m, users, today, a);
  }
}
