/** redistributeGroups and shuffle of the season-end service
    (server/services/role-transitions.ts): the decurions are shuffled and
    dealt out to the centurions in contiguous runs, then the drivers to the
    decurions, as evenly as the counts allow. */
module Redistribution {
  import opened Hierarchy

  /** Which parent pointer a group write sets. */
  datatype LinkField = SotnikLink | DesyatnikLink

  /** A write setting the parent link of assignment `id` and its place in the group. */
  datatype GroupWrite = GroupWrite(id: AssignmentId, field: LinkField, parent: UserId, groupIndex: nat)

  // ---------------------------------------------------------------------
  // shuffle

  function Swap<T>(s: seq<T>, i: nat, j: nat): (r: seq<T>)
    requires i < |s| && j < |s|
    ensures |r| == |s| && multiset(r) == multiset(s)
    ensures r[i] == s[j] && r[j] == s[i]
    ensures forall k :: 0 <= k < |s| && k != i && k != j ==> r[k] == s[k]
  {
    s[i := s[j]][j := s[i]]
  }

  /** The partner of index m in the swap loop: an index from 0 to m, drawn
      at random in the code and given here by `picks[m]`. */
  function Partner(picks: seq<nat>, m: nat): (j: nat)
    requires m < |picks|
    ensures j <= m
  {
    picks[m] % (m + 1)
  }

  /** The rest of the swap loop, from index i - 1 down to index 1. */
  function ShuffleFrom<T>(s: seq<T>, picks: seq<nat>, i: nat): seq<T>
    requires i <= |s| == |picks|
    decreases i
  {
    if i <= 1 then s else ShuffleFrom(Swap(s, i - 1, Partner(picks, i - 1)), picks, i - 1)
  }

  /** `shuffle(array)` with the random draws `picks`. */
  function Shuffled<T>(s: seq<T>, picks: seq<nat>): seq<T>
    requires |s| == |picks|
  {
    ShuffleFrom(s, picks, |s|)
  }

  lemma {:induction false} ShuffleFromPermutes<T>(s: seq<T>, picks: seq<nat>, i: nat)
    requires i <= |s| == |picks|
    ensures |ShuffleFrom(s, picks, i)| == |s|
    ensures multiset(ShuffleFrom(s, picks, i)) == multiset(s)
    decreases i
  {
    if i > 1 {
      ShuffleFromPermutes(Swap(s, i - 1, Partner(picks, i - 1)), picks, i - 1);
    }
  }

  /** Whatever the random draws, a shuffle is a permutation. */
  lemma ShuffledIsPermutation<T>(s: seq<T>, picks: seq<nat>)
    requires |s| == |picks|
    ensures |Shuffled(s, picks)| == |s| && multiset(Shuffled(s, picks)) == multiset(s)
  {
    ShuffleFromPermutes(s, picks, |s|);
  }

  /** One turn of the swap loop at index i, then the rest of it. */
  lemma ShuffleFromStep<T>(s: seq<T>, picks: seq<nat>, i: nat)
    requires 1 <= i < |s| == |picks|
    ensures ShuffleFrom(s, picks, i + 1) == ShuffleFrom(Swap(s, i, Partner(picks, i)), picks, i)
  {
  }

  /** The shuffle loop over a copy of the input. */
  method Shuffle<T>(items: seq<T>, picks: seq<nat>) returns (r: seq<T>)
    requires |picks| == |items|
    ensures r == Shuffled(items, picks)
    ensures multiset(r) == multiset(items)
  {
    var shuffled := new T[|items|](k requires 0 <= k < |items| => items[k]);
    assert shuffled[..] == items;
    var i := |items| - 1;
    while i > 0
      invariant -1 <= i < shuffled.Length == |items|
      invariant ShuffleFrom(shuffled[..], picks, i + 1) == Shuffled(items, picks)
      decreases i
    {
      var j := Partner(picks, i);
      ghost var before := shuffled[..];
      ShuffleFromStep(before, picks, i);
      SwapCells(shuffled, i, j);
      i := i - 1;
    }
    r := shuffled[..];
    ShuffledIsPermutation(items, picks);
  }

  /** Exchange the cells i and j of the array in place. */
  method SwapCells<T>(a: array<T>, i: nat, j: nat)
    requires i < a.Length && j < a.Length
    modifies a
    ensures a[..] == Swap(old(a[..]), i, j)
  {
    var t := a[i];
    a[i] := a[j];
    a[j] := t;
  }

  // ---------------------------------------------------------------------
  // Even distribution of n items over k parents

  lemma MulStep(i: nat, q: nat)
    ensures (i + 1) * q == i * q + q
    ensures i * (q + 1) == i * q + i
  {
  }

  /** The quotient and remainder of n by k. */
  datatype Split = Split(perParent: nat, extra: nat)

  /** n items over k parents: k groups of `perParent` and `extra` more,
      found by taking away k at a time. */
  function SplitOf(n: nat, k: nat): (s: Split)
    requires k > 0
    ensures s.extra < k && k * s.perParent + s.extra == n
    decreases n
  {
    if n < k then Split(0, n)
    else
      var r := SplitOf(n - k, k);
      MulStep(k, r.perParent);
      Split(r.perParent + 1, r.extra)
  }

  /** The split is the one of floor division and remainder. */
  lemma SplitOfIsDivision(n: nat, k: nat)
    requires k > 0
    ensures SplitOf(n, k) == Split(n / k, n % k)
  {
    var s := SplitOf(n, k);
    DivisionUnique(n, k, s.perParent, s.extra);
  }

  lemma DivisionUnique(n: nat, k: nat, q: nat, r: nat)
    requires k > 0 && r < k && k * q + r == n
    ensures q == n / k && r == n % k
  {
    var q0, r0 := n / k, n % k;
    assert k * q0 + r0 == n;
    if q < q0 {
      MulMono(k, q + 1, q0);
      MulStep(k, q);
      assert false;
    } else if q0 < q {
      MulMono(k, q0 + 1, q);
      MulStep(k, q0);
      assert false;
    }
  }

  lemma {:induction false} MulMono(k: nat, a: nat, b: nat)
    requires a <= b
    ensures k * a <= k * b
    decreases b - a
  {
    if a < b {
      MulMono(k, a, b - 1);
      MulStep(k, b - 1);
    }
  }

  /** The size of the i-th parent's group: one more than `perParent` for the first `extra` parents. */
  function GroupSize(s: Split, i: nat): nat
  {
    s.perParent + (if i < s.extra then 1 else 0)
  }

  /** The position of the first item of the i-th parent's group: the sizes of
      the groups before it, added up. */
  function GroupStart(s: Split, i: nat): nat
  {
    if i == 0 then 0 else GroupStart(s, i - 1) + GroupSize(s, i - 1)
  }


  /** The closed form `i * perParent + min(i, extra)`. */
  lemma {:induction false} GroupStartClosed(s: Split, i: nat)
    ensures GroupStart(s, i) == i * s.perParent + (if i < s.extra then i else s.extra)
  {
    if i > 0 {
      GroupStartClosed(s, i - 1);
      MulStep(i - 1, s.perParent);
    }
  }

  /** The k groups together hold exactly the n items. */
  lemma GroupsEnd(n: nat, k: nat)
    requires k > 0
    ensures GroupStart(SplitOf(n, k), k) == n
  {
    GroupStartClosed(SplitOf(n, k), k);
  }

  lemma {:induction false} GroupStartMono(s: Split, i: nat, i2: nat)
    requires i <= i2
    ensures GroupStart(s, i) <= GroupStart(s, i2)
    decreases i2 - i
  {
    if i < i2 {
      GroupStartMono(s, i, i2 - 1);
    }
  }

  /** No group reaches past the last item. */
  lemma GroupBounds(n: nat, k: nat, i: nat)
    requires i < k
    ensures GroupStart(SplitOf(n, k), i + 1) <= n
  {
    GroupStartMono(SplitOf(n, k), i + 1, k);
    GroupsEnd(n, k);
  }

  /** The group sizes differ by at most one and the larger groups come first. */
  lemma GroupsBalanced(n: nat, k: nat, i: nat, i2: nat)
    requires i <= i2 < k
    ensures var s := SplitOf(n, k);
      n / k <= GroupSize(s, i) <= n / k + 1 && GroupSize(s, i) >= GroupSize(s, i2)
  {
    SplitOfIsDivision(n, k);
  }

  /** The writes for the i-th parent's group: its run of items, with group indexes 0, 1, … */
  function GroupWrites(items: seq<Assignment>, parents: seq<Assignment>, field: LinkField, s: Split, i: nat): (r: seq<GroupWrite>)
    requires i < |parents| && GroupStart(s, i + 1) <= |items|
    ensures |r| == GroupSize(s, i)
  {
    seq(GroupSize(s, i), j requires 0 <= j < GroupSize(s, i) =>
      GroupWrite(items[GroupStart(s, i) + j].id, field, parents[i].userId, j))
  }

  /** The writes for the groups of the first i parents, in parent order. */
  function WritesUpTo(items: seq<Assignment>, parents: seq<Assignment>, field: LinkField, s: Split, i: nat): (r: seq<GroupWrite>)
    requires i <= |parents| && GroupStart(s, i) <= |items|
    ensures |r| == GroupStart(s, i)
  {
    if i == 0 then [] else WritesUpTo(items, parents, field, s, i - 1) + GroupWrites(items, parents, field, s, i - 1)
  }

  /** The writes of one pass of redistributeGroups over `items` (already
      shuffled) and `parents`; with no parents nothing is written. */
  function Distribution(items: seq<Assignment>, parents: seq<Assignment>, field: LinkField): seq<GroupWrite>
  {
    if |parents| == 0 then []
    else
      GroupsEnd(|items|, |parents|);
      WritesUpTo(items, parents, field, SplitOf(|items|, |parents|), |parents|)
  }

  /** The writes of the first i groups are one per item of those groups, in
      item order, each naming a parent, and group g's writes fill its run. */
  lemma {:induction false} WritesUpToItems(items: seq<Assignment>, parents: seq<Assignment>, field: LinkField, s: Split, i: nat)
    requires i <= |parents| && GroupStart(s, i) <= |items|
    ensures |WritesUpTo(items, parents, field, s, i)| == GroupStart(s, i)
    ensures forall p :: 0 <= p < |WritesUpTo(items, parents, field, s, i)| ==>
      && WritesUpTo(items, parents, field, s, i)[p].id == items[p].id
      && WritesUpTo(items, parents, field, s, i)[p].field == field
      && WritesUpTo(items, parents, field, s, i)[p].parent in UserIds(parents)
  {
    if i > 0 {
      var ws := WritesUpTo(items, parents, field, s, i);
      var prev := WritesUpTo(items, parents, field, s, i - 1);
      var last := GroupWrites(items, parents, field, s, i - 1);
      WritesUpToItems(items, parents, field, s, i - 1);
      assert parents[i - 1] in parents;
      forall p | 0 <= p < |ws| ensures ws[p].id == items[p].id && ws[p].field == field && ws[p].parent in UserIds(parents) {
        if p < |prev| {
          assert ws[p] == prev[p];
        } else {
          assert ws[p] == last[p - |prev|];
        }
      }
    }
  }

  lemma {:induction false} WritesUpToGroups(items: seq<Assignment>, parents: seq<Assignment>, field: LinkField, s: Split, i: nat, g: nat)
    requires g < i <= |parents| && GroupStart(s, i) <= |items|
    ensures GroupStart(s, g + 1) <= GroupStart(s, i)
    ensures WritesUpTo(items, parents, field, s, i)[GroupStart(s, g)..GroupStart(s, g + 1)]
         == GroupWrites(items, parents, field, s, g)
    decreases i
  {
    var prev := WritesUpTo(items, parents, field, s, i - 1);
    var last := GroupWrites(items, parents, field, s, i - 1);
    assert WritesUpTo(items, parents, field, s, i) == prev + last;
    GroupStartMono(s, g + 1, i);
    if g < i - 1 {
      GroupStartMono(s, g + 1, i - 1);
      WritesUpToGroups(items, parents, field, s, i - 1, g);
      SliceOfFront(prev, last, GroupStart(s, g), GroupStart(s, g + 1));
    } else {
      assert g + 1 == i && GroupStart(s, g) == |prev| && GroupStart(s, g + 1) == |prev| + |last|;
      SliceOfBack(prev, last);
    }
  }

  lemma SliceOfFront<T>(a: seq<T>, b: seq<T>, lo: nat, hi: nat)
    requires lo <= hi <= |a|
    ensures (a + b)[lo..hi] == a[lo..hi]
  {
  }

  lemma SliceOfBack<T>(a: seq<T>, b: seq<T>)
    ensures (a + b)[|a|..|a| + |b|] == b
  {
  }

  /** With at least one parent every item is written exactly once, in item
      order, under one of the parents; with no parent nothing is written. */
  lemma DistributionItems(items: seq<Assignment>, parents: seq<Assignment>, field: LinkField)
    ensures |parents| == 0 ==> Distribution(items, parents, field) == []
    ensures |parents| > 0 ==> |Distribution(items, parents, field)| == |items|
    ensures forall p :: 0 <= p < |Distribution(items, parents, field)| ==>
      && p < |items|
      && Distribution(items, parents, field)[p].id == items[p].id
      && Distribution(items, parents, field)[p].field == field
      && Distribution(items, parents, field)[p].parent in UserIds(parents)
  {
    if |parents| > 0 {
      GroupsEnd(|items|, |parents|);
      WritesUpToItems(items, parents, field, SplitOf(|items|, |parents|), |parents|);
    }
  }

  /** Write number j of group g in the first i groups. */
  lemma WritesUpToAt(items: seq<Assignment>, parents: seq<Assignment>, field: LinkField, s: Split, i: nat, g: nat, j: nat)
    requires g < i <= |parents| && GroupStart(s, i) <= |items| && j < GroupSize(s, g)
    ensures GroupStart(s, g) + j < GroupStart(s, i)
    ensures WritesUpTo(items, parents, field, s, i)[GroupStart(s, g) + j]
         == GroupWrite(items[GroupStart(s, g) + j].id, field, parents[g].userId, j)
  {
    WritesUpToGroups(items, parents, field, s, i, g);
    var ws := WritesUpTo(items, parents, field, s, i);
    assert ws[GroupStart(s, g) + j] == ws[GroupStart(s, g)..GroupStart(s, g + 1)][j];
  }

  /** The g-th parent receives the g-th run of items, numbered 0, 1, … in its
      group; the runs have the sizes of `GroupsBalanced`. */
  lemma DistributionGroup(items: seq<Assignment>, parents: seq<Assignment>, field: LinkField, g: nat, j: nat)
    requires g < |parents| && j < GroupSize(SplitOf(|items|, |parents|), g)
    ensures var p := GroupStart(SplitOf(|items|, |parents|), g) + j;
      && p < |items|
      && p < |Distribution(items, parents, field)|
      && Distribution(items, parents, field)[p] == GroupWrite(items[p].id, field, parents[g].userId, j)
  {
    var n, k := |items|, |parents|;
    var s := SplitOf(n, k);
    GroupsEnd(n, k);
    WritesUpToAt(items, parents, field, s, k, g, j);
  }

  /** One pass of redistributeGroups: the outer loop over the parents and the
      inner loop over the run of items each receives. */
  method Distribute(items: seq<Assignment>, parents: seq<Assignment>, field: LinkField) returns (ws: seq<GroupWrite>)
    ensures ws == Distribution(items, parents, field)
  {
    var n, k := |items|, |parents|;
    ws := [];
    if k == 0 {
      // Math.floor(n / 0) and n % 0 are not numbers, but the loop over the
      // parents does not run.
      return;
    }
    var perParent := n / k;
    var extra := n % k;
    ghost var s := SplitOf(n, k);
    SplitOfIsDivision(n, k);
    var index := 0;
    for i := 0 to k
      invariant index == GroupStart(s, i) <= n
      invariant ws == WritesUpTo(items, parents, field, s, i)
    {
      GroupBounds(n, k, i);
      var count := perParent + (if i < extra then 1 else 0);
      ws, index := DealRun(items, parents, field, s, i, count, index, ws);
    }
    GroupsEnd(n, k);
  }

  /** The inner loop: the next `count` items go to `parents[i]`, numbered
      from 0 within the group. */
  method DealRun(items: seq<Assignment>, parents: seq<Assignment>, field: LinkField, ghost s: Split, i: nat, count: nat, index: nat,
                 ws: seq<GroupWrite>)
    returns (ws': seq<GroupWrite>, index': nat)
    requires i < |parents| && GroupStart(s, i + 1) <= |items|
    requires count == GroupSize(s, i) && index == GroupStart(s, i)
    ensures ws' == ws + GroupWrites(items, parents, field, s, i)
    ensures index' == GroupStart(s, i + 1)
  {
    ghost var group := GroupWrites(items, parents, field, s, i);
    ws', index' := ws, index;
    var j := 0;
    while j < count && index' < |items|
      invariant 0 <= j <= count
      invariant index' == GroupStart(s, i) + j
      invariant ws' == ws + group[..j]
    {
      assert group[..j + 1] == group[..j] + [group[j]];
      ws' := ws' + [GroupWrite(items[index'].id, field, parents[i].userId, j)];
      index' := index' + 1;
      j := j + 1;
    }
    assert group[..j] == group;
  }

  // ---------------------------------------------------------------------
  // redistributeGroups

  /** The writes redistributeGroups issues: the shuffled decurions dealt out to
      the centurions, then the shuffled drivers to the decurions before the
      shuffle. */
  function Redistribution(xs: seq<Assignment>, decurionPicks: seq<nat>, driverPicks: seq<nat>): seq<GroupWrite>
    requires |decurionPicks| == |Decurions(xs)| && |driverPicks| == |Drivers(xs)|
  {
    Distribution(Shuffled(Decurions(xs), decurionPicks), Centurions(xs), SotnikLink)
      + Distribution(Shuffled(Drivers(xs), driverPicks), Decurions(xs), DesyatnikLink)
  }

  method RedistributeGroups(xs: seq<Assignment>, decurionPicks: seq<nat>, driverPicks: seq<nat>) returns (ws: seq<GroupWrite>)
    requires |decurionPicks| == |Decurions(xs)| && |driverPicks| == |Drivers(xs)|
    ensures ws == Redistribution(xs, decurionPicks, driverPicks)
  {
    var centurions := Centurions(xs);
    var decurions := Decurions(xs);
    var drivers := Drivers(xs);
    var shuffledDecurions := Shuffle(decurions, decurionPicks);
    var decurionWrites := Distribute(shuffledDecurions, centurions, SotnikLink);
    var shuffledDrivers := Shuffle(drivers, driverPicks);
    var driverWrites := Distribute(shuffledDrivers, decurions, DesyatnikLink);
    ws := decurionWrites + driverWrites;
  }

  /** A pass places every item under one of the parents. */
  lemma DistributionCovers(items: seq<Assignment>, parents: seq<Assignment>, field: LinkField, a: Assignment)
    requires |parents| > 0 && a in items
    ensures exists w :: w in Distribution(items, parents, field) && w.id == a.id && w.field == field && w.parent in UserIds(parents)
  {
    var ws := Distribution(items, parents, field);
    DistributionItems(items, parents, field);
    var p :| 0 <= p < |items| && items[p] == a;
    assert ws[p] in ws;
  }

  /** A pass writes nothing but the placement of an item under a parent. */
  lemma DistributionOnlyItems(items: seq<Assignment>, parents: seq<Assignment>, field: LinkField, w: GroupWrite)
    requires w in Distribution(items, parents, field)
    ensures w.field == field && w.parent in UserIds(parents) && exists a :: a in items && a.id == w.id
  {
    var ws := Distribution(items, parents, field);
    DistributionItems(items, parents, field);
    var p :| 0 <= p < |ws| && ws[p] == w;
    assert items[p] in items;
  }

  lemma ShuffledMembers<T>(s: seq<T>, picks: seq<nat>, x: T)
    requires |s| == |picks|
    ensures x in Shuffled(s, picks) <==> x in s
  {
    ShuffledIsPermutation(s, picks);
    assert x in s <==> x in multiset(s);
    assert x in Shuffled(s, picks) <==> x in multiset(Shuffled(s, picks));
  }

  /** With at least one centurion, redistributeGroups puts every decurion under one. */
  lemma RedistributionPlacesDecurion(xs: seq<Assignment>, decurionPicks: seq<nat>, driverPicks: seq<nat>, d: Assignment)
    requires |decurionPicks| == |Decurions(xs)| && |driverPicks| == |Drivers(xs)|
    requires |Centurions(xs)| > 0 && d in Decurions(xs)
    ensures exists w :: (w in Redistribution(xs, decurionPicks, driverPicks)
      && w.id == d.id && w.field == SotnikLink && w.parent in UserIds(Centurions(xs)))
  {
    var sd := Shuffled(Decurions(xs), decurionPicks);
    ShuffledMembers(Decurions(xs), decurionPicks, d);
    DistributionCovers(sd, Centurions(xs), SotnikLink, d);
    var w :| w in Distribution(sd, Centurions(xs), SotnikLink) && w.id == d.id && w.field == SotnikLink && w.parent in UserIds(Centurions(xs));
    assert w in Redistribution(xs, decurionPicks, driverPicks);
  }

  /** With at least one decurion, redistributeGroups puts every driver under one. */
  lemma RedistributionPlacesDriver(xs: seq<Assignment>, decurionPicks: seq<nat>, driverPicks: seq<nat>, d: Assignment)
    requires |decurionPicks| == |Decurions(xs)| && |driverPicks| == |Drivers(xs)|
    requires |Decurions(xs)| > 0 && d in Drivers(xs)
    ensures exists w :: (w in Redistribution(xs, decurionPicks, driverPicks)
      && w.id == d.id && w.field == DesyatnikLink && w.parent in UserIds(Decurions(xs)))
  {
    var sv := Shuffled(Drivers(xs), driverPicks);
    ShuffledMembers(Drivers(xs), driverPicks, d);
    DistributionCovers(sv, Decurions(xs), DesyatnikLink, d);
    var w :| w in Distribution(sv, Decurions(xs), DesyatnikLink) && w.id == d.id && w.field == DesyatnikLink && w.parent in UserIds(Decurions(xs));
    assert w in Redistribution(xs, decurionPicks, driverPicks);
  }

  /** Every write of redistributeGroups puts a decurion under a centurion or
      a driver under a decurion. */
  lemma RedistributionWrites(xs: seq<Assignment>, decurionPicks: seq<nat>, driverPicks: seq<nat>, w: GroupWrite)
    requires |decurionPicks| == |Decurions(xs)| && |driverPicks| == |Drivers(xs)|
    requires w in Redistribution(xs, decurionPicks, driverPicks)
    ensures w.field == SotnikLink ==> w.parent in UserIds(Centurions(xs)) && exists d :: d in Decurions(xs) && d.id == w.id
    ensures w.field == DesyatnikLink ==> w.parent in UserIds(Decurions(xs)) && exists d :: d in Drivers(xs) && d.id == w.id
  {
    var sd := Shuffled(Decurions(xs), decurionPicks);
    var sv := Shuffled(Drivers(xs), driverPicks);
    var w1 := Distribution(sd, Centurions(xs), SotnikLink);
    if w in w1 {
      DistributionOnlyItems(sd, Centurions(xs), SotnikLink, w);
      var d :| d in sd && d.id == w.id;
      ShuffledMembers(Decurions(xs), decurionPicks, d);
    } else {
      assert w in Distribution(sv, Decurions(xs), DesyatnikLink);
      DistributionOnlyItems(sv, Decurions(xs), DesyatnikLink, w);
      var d :| d in sv && d.id == w.id;
      ShuffledMembers(Drivers(xs), driverPicks, d);
    }
  }
}
