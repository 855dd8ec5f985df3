/** Season-end role transitions (server/services/role-transitions.ts): the
    bootstrap assignment of the first season and the promotion/demotion
    cascade of every later season. Role writes to the assignments are returned in the order they are issued, next to the
    result record the service reports. */
module RoleTransitions {
  import opened Wrappers
  import opened Hierarchy
  import opened Results
  import opened Storage

  datatype Transition = Transition(userId: UserId, fromRole: Role, toRole: Role)
  datatype Kept = Kept(userId: UserId, role: Role)

  /** RoleTransitionResult */
  datatype TransitionResult = TransitionResult(promotions: seq<Transition>, demotions: seq<Transition>, maintained: seq<Kept>)

  /** A write setting the role of assignment `id`. */
  datatype RoleWrite = RoleWrite(id: AssignmentId, role: Role)

  /** What a transition run reports and what it writes. */
  datatype Outcome = Outcome(result: TransitionResult, writes: seq<RoleWrite>)

  const NoChange := Outcome(TransitionResult([], [], []), [])

  /** The largest structure: 1 tsar, 10 centurions, 100 decurions, 1000 drivers. */
  const MaxStructure := 1111

  function Min(a: int, b: int): int { if a < b then a else b }

  function AddPromotion(o: Outcome, u: UserId, id: AssignmentId, from: Role, to: Role): Outcome
  {
    Outcome(o.result.(promotions := o.result.promotions + [Transition(u, from, to)]), o.writes + [RoleWrite(id, to)])
  }

  function AddDemotion(o: Outcome, u: UserId, id: AssignmentId, from: Role, to: Role): Outcome
  {
    Outcome(o.result.(demotions := o.result.demotions + [Transition(u, from, to)]), o.writes + [RoleWrite(id, to)])
  }

  function AddKept(o: Outcome, u: UserId, role: Role): Outcome
  {
    o.(result := o.result.(maintained := o.result.maintained + [Kept(u, role)]))
  }

  // ---------------------------------------------------------------------
  // Entry point

  predicate AllDrivers(xs: seq<Assignment>)
  {
    forall a :: a in xs ==> a.role == Driver
  }

  /** applySeasonEndTransitions: an error for a season without assignments;
      the bootstrap when everybody is a driver, the cascade otherwise. */
  method ApplySeasonEndTransitions(xs: seq<Assignment>, aggs: seq<SeasonAggregate>) returns (r: Result<Outcome, string>)
    ensures |xs| == 0 <==> r.Failure?
    ensures |xs| > 0 && AllDrivers(xs) ==> r == Success(FirstSeason(xs, aggs))
    ensures |xs| > 0 && !AllDrivers(xs) ==> r == Success(RegularSeason(xs, aggs))
  {
    if |xs| == 0 {
      return Failure("No assignments found for season");
    }
    var isFirstSeason := true;
    for i := 0 to |xs|
      invariant isFirstSeason <==> forall k :: 0 <= k < i ==> xs[k].role == Driver
    {
      if xs[i].role != Driver {
        isFirstSeason := false;
      }
    }
    if isFirstSeason {
      var o := ApplyFirstSeasonTransitions(xs, aggs);
      r := Success(o);
    } else {
      var o := ApplyRegularSeasonTransitions(xs, aggs);
      r := Success(o);
    }
  }

  // ---------------------------------------------------------------------
  // First season

  function CenturionSlots(n: nat): nat { Min(10, n / 100) }
  function DecurionSlots(n: nat): nat { Min(100, n / 10) }

  /** The pool: every season row, best first, cut at the largest structure. */
  function Pool(aggs: seq<SeasonAggregate>): seq<SeasonAggregate>
  {
    var sorted := SortDesc(aggs, Self, ByResults);
    sorted[..Min(MaxStructure, |sorted|)]
  }

  /** The role position p of a pool of n is given: the first goes to the
      tsar, the next CenturionSlots(n) to centurions, the next
      DecurionSlots(n) to decurions, and the rest stay drivers. */
  function SlotRole(n: nat, p: nat): Role
  {
    if p == 0 then Tsar
    else if p <= CenturionSlots(n) then Sotnik
    else if p <= CenturionSlots(n) + DecurionSlots(n) then Desyatnik
    else Driver
  }

  /** The outcome after the first p positions of the pool: a promotion is
      written and reported only for a user with an assignment, a driver is
      reported as maintained in any case. */
  function FirstSeasonUpTo(xs: seq<Assignment>, pool: seq<SeasonAggregate>, p: nat): Outcome
    requires p <= |pool|
  {
    if p == 0 then NoChange
    else
      var o := FirstSeasonUpTo(xs, pool, p - 1);
      var u := pool[p - 1].userId;
      var role := SlotRole(|pool|, p - 1);
      if role == Driver then AddKept(o, u, Driver)
      else match FindByUser(xs, u)
        case None => o
        case Some(a) => AddPromotion(o, u, a.id, Driver, role)
  }

  function FirstSeason(xs: seq<Assignment>, aggs: seq<SeasonAggregate>): Outcome
  {
    FirstSeasonUpTo(xs, Pool(aggs), |Pool(aggs)|)
  }

  /** The three slot sizes fit in any non-empty pool, so the promotion loops
      never stop for want of participants. */
  lemma SlotsFit(n: nat)
    requires n >= 1
    ensures 1 + CenturionSlots(n) + DecurionSlots(n) <= n
  {
    if n >= 10 {
      assert n / 100 <= n / 10;
      assert (n / 10) * 10 <= n;
    }
  }

  /** The promotion of one pool position when its role is not Driver. */
  method PromoteAt(xs: seq<Assignment>, u: UserId, role: Role, o: Outcome) returns (out: Outcome)
    ensures out == match FindByUser(xs, u) case None => o case Some(a) => AddPromotion(o, u, a.id, Driver, role)
  {
    var assignment := FindByUser(xs, u);
    out := o;
    if assignment.Some? {
      out := AddPromotion(o, u, assignment.value.id, Driver, role);
    }
  }

  /** Which role each stretch of positions gets. */
  lemma SlotRoles(n: nat)
    ensures forall p :: 1 <= p < 1 + CenturionSlots(n) ==> SlotRole(n, p) == Sotnik
    ensures forall p :: 1 + CenturionSlots(n) <= p < 1 + CenturionSlots(n) + DecurionSlots(n) ==> SlotRole(n, p) == Desyatnik
    ensures forall p :: 1 + CenturionSlots(n) + DecurionSlots(n) <= p ==> SlotRole(n, p) == Driver
  {
  }

  /** One of the two promotion loops of applyFirstSeasonTransitions: it
      stops after `count` turns or at the end of the pool. */
  method FillSlots(xs: seq<Assignment>, pool: seq<SeasonAggregate>, start: nat, count: nat, role: Role, o: Outcome)
    returns (out: Outcome, position: nat)
    requires start <= |pool| && o == FirstSeasonUpTo(xs, pool, start) && role != Driver
    requires forall p :: start <= p < start + count ==> SlotRole(|pool|, p) == role
    ensures position == Min(|pool|, start + count)
    ensures out == FirstSeasonUpTo(xs, pool, position)
  {
    out := o;
    position := start;
    var i := 0;
    while i < count && position < |pool|
      invariant 0 <= i <= count && position == start + i && position <= |pool|
      invariant out == FirstSeasonUpTo(xs, pool, position)
    {
      out := PromoteAt(xs, pool[position].userId, role, out);
      position := position + 1;
      i := i + 1;
    }
  }

  /** The closing loop: everybody left is reported as a maintained driver. */
  method KeepDrivers(xs: seq<Assignment>, pool: seq<SeasonAggregate>, start: nat, o: Outcome) returns (out: Outcome)
    requires start <= |pool| && o == FirstSeasonUpTo(xs, pool, start)
    requires forall p :: start <= p ==> SlotRole(|pool|, p) == Driver
    ensures out == FirstSeasonUpTo(xs, pool, |pool|)
  {
    out := o;
    var position := start;
    while position < |pool|
      invariant start <= position <= |pool|
      invariant out == FirstSeasonUpTo(xs, pool, position)
    {
      out := AddKept(out, pool[position].userId, Driver);
      position := position + 1;
    }
  }

  /** applyFirstSeasonTransitions */
  method ApplyFirstSeasonTransitions(xs: seq<Assignment>, aggs: seq<SeasonAggregate>) returns (out: Outcome)
    ensures out == FirstSeason(xs, aggs)
  {
    var sorted := SortDesc(aggs, Self, ByResults);
    var pool := sorted[..Min(MaxStructure, |sorted|)];
    var n := |pool|;
    var centurionCount := CenturionSlots(n);
    var decurionCount := DecurionSlots(n);
    out := NoChange;
    if n == 0 {
      return;
    }
    SlotsFit(n);
    SlotRoles(n);
    out := PromoteAt(xs, pool[0].userId, Tsar, out);
    var position;
    out, position := FillSlots(xs, pool, 1, centurionCount, Sotnik, out);
    out, position := FillSlots(xs, pool, position, decurionCount, Desyatnik, out);
    out := KeepDrivers(xs, pool, position, out);
  }

  /** How many of the first p positions of a pool of n get `role`. */
  function Positions(n: nat, p: nat, role: Role): nat
  {
    if p == 0 then 0 else Positions(n, p - 1, role) + (if SlotRole(n, p - 1) == role then 1 else 0)
  }

  /** The part of [lo, hi) below p. */
  function Clip(p: nat, lo: nat, hi: nat): nat
    requires lo <= hi
  {
    if p <= lo then 0 else if p <= hi then p - lo else hi - lo
  }

  lemma {:induction false} PositionsByRole(n: nat, p: nat)
    ensures Positions(n, p, Tsar) == Clip(p, 0, 1)
    ensures Positions(n, p, Sotnik) == Clip(p, 1, 1 + CenturionSlots(n))
    ensures Positions(n, p, Desyatnik) == Clip(p, 1 + CenturionSlots(n), 1 + CenturionSlots(n) + DecurionSlots(n))
    ensures Positions(n, p, Driver) == if p <= 1 + CenturionSlots(n) + DecurionSlots(n) then 0 else p - (1 + CenturionSlots(n) + DecurionSlots(n))
    ensures Positions(n, p, Other) == 0
  {
    if p > 0 {
      PositionsByRole(n, p - 1);
    }
  }

  /** The promotions to `role`. */
  function CountTo(ps: seq<Transition>, role: Role): nat
  {
    if ps == [] then 0 else CountTo(ps[..|ps| - 1], role) + (if ps[|ps| - 1].toRole == role then 1 else 0)
  }

  lemma {:induction false} CountToSnoc(ps: seq<Transition>, t: Transition, role: Role)
    ensures CountTo(ps + [t], role) == CountTo(ps, role) + (if t.toRole == role then 1 else 0)
  {
    assert (ps + [t])[..|ps|] == ps;
  }

  /** Every user of the pool has an assignment. */
  predicate AllAssigned(xs: seq<Assignment>, pool: seq<SeasonAggregate>)
  {
    forall i :: 0 <= i < |pool| ==> pool[i].userId in UserIds(xs)
  }

  /** The first p positions produce only promotions of drivers, each with
      its role write, and maintained drivers; nothing is demoted. */
  predicate ShapeOk(o: Outcome)
  {
    && o.result.demotions == []
    && |o.writes| == |o.result.promotions|
    && (forall i :: 0 <= i < |o.writes| ==> o.writes[i].role == o.result.promotions[i].toRole)
    && (forall t :: t in o.result.promotions ==> t.fromRole == Driver && t.toRole != Driver)
    && (forall k :: k in o.result.maintained ==> k.role == Driver)
  }

  lemma {:induction false} FirstSeasonShape(xs: seq<Assignment>, pool: seq<SeasonAggregate>, p: nat)
    requires p <= |pool|
    ensures ShapeOk(FirstSeasonUpTo(xs, pool, p))
  {
    if p > 0 {
      FirstSeasonShape(xs, pool, p - 1);
    }
  }

  /** Every promotion gives its user the role of a position that user holds. */
  lemma {:induction false} FirstSeasonJustified(xs: seq<Assignment>, pool: seq<SeasonAggregate>, p: nat)
    requires p <= |pool|
    ensures forall t :: t in FirstSeasonUpTo(xs, pool, p).result.promotions ==>
              exists q :: 0 <= q < p && pool[q].userId == t.userId && SlotRole(|pool|, q) == t.toRole
  {
    if p > 0 {
      FirstSeasonJustified(xs, pool, p - 1);
      var o := FirstSeasonUpTo(xs, pool, p - 1);
      forall t | t in FirstSeasonUpTo(xs, pool, p).result.promotions
        ensures exists q :: 0 <= q < p && pool[q].userId == t.userId && SlotRole(|pool|, q) == t.toRole
      {
        if t !in o.result.promotions {
          assert pool[p - 1].userId == t.userId && SlotRole(|pool|, p - 1) == t.toRole;
        }
      }
    }
  }

  /** No more promotions to a role than positions for it, exactly as many
      when every pooled user has an assignment, and one maintained driver
      per driver position. */
  lemma {:induction false} FirstSeasonCounts(xs: seq<Assignment>, pool: seq<SeasonAggregate>, p: nat)
    requires p <= |pool|
    ensures var o := FirstSeasonUpTo(xs, pool, p);
      && |o.result.maintained| == Positions(|pool|, p, Driver)
      && |o.result.promotions| + |o.result.maintained| <= p
      && (forall role :: CountTo(o.result.promotions, role) <= Positions(|pool|, p, role))
      && (AllAssigned(xs, pool) ==>
            forall role :: role != Driver ==> CountTo(o.result.promotions, role) == Positions(|pool|, p, role))
  {
    if p > 0 {
      FirstSeasonCounts(xs, pool, p - 1);
      var o := FirstSeasonUpTo(xs, pool, p - 1);
      var u := pool[p - 1].userId;
      var role := SlotRole(|pool|, p - 1);
      if role != Driver {
        match FindByUser(xs, u)
        case None =>
          assert !AllAssigned(xs, pool);
        case Some(a) =>
          var t := Transition(u, Driver, role);
          forall r ensures CountTo(o.result.promotions + [t], r) == CountTo(o.result.promotions, r) + (if r == role then 1 else 0) {
            CountToSnoc(o.result.promotions, t, r);
          }
      } else {
        assert FirstSeasonUpTo(xs, pool, p).result.promotions == o.result.promotions;
      }
    }
  }

  lemma CountToOfAll(ps: seq<Transition>)
    ensures |ps| == CountTo(ps, Tsar) + CountTo(ps, Sotnik) + CountTo(ps, Desyatnik) + CountTo(ps, Driver) + CountTo(ps, Other)
  {
    if ps != [] {
      CountToOfAll(ps[..|ps| - 1]);
    }
  }

  /** The pool is the season rows best first, cut at 1111; with fewer rows it
      holds all of them, and its head is at least as good as any row. */
  lemma PoolIsBestFirst(aggs: seq<SeasonAggregate>)
    ensures |Pool(aggs)| == Min(MaxStructure, |aggs|)
    ensures SortedDesc(Pool(aggs), Self, ByResults)
    ensures multiset(Pool(aggs)) <= multiset(aggs)
    ensures |aggs| <= MaxStructure ==> multiset(Pool(aggs)) == multiset(aggs)
    ensures forall s :: s in aggs ==> Compare(ByResults, Pool(aggs)[0], s) >= 0.0
  {
    var sorted := SortDesc(aggs, Self, ByResults);
    var m := Min(MaxStructure, |sorted|);
    assert sorted == Pool(aggs) + sorted[m..];
    assert multiset(sorted) == multiset(Pool(aggs)) + multiset(sorted[m..]);
    if |aggs| <= MaxStructure {
      assert Pool(aggs) == sorted;
    }
    forall s | s in aggs ensures Compare(ByResults, Pool(aggs)[0], s) >= 0.0 {
      SortDescHeadIsBest(aggs, Self, ByResults, s);
    }
  }

  /** applyFirstSeasonTransitions, counted over the pool of n: only
      drivers are promoted, at most one to tsar, at most CenturionSlots(n)
      to centurion and DecurionSlots(n) to decurion, and everybody else in
      the pool is reported as maintained. When every pooled user has an
      assignment the slots are filled exactly. */
  lemma FirstSeasonSlots(xs: seq<Assignment>, aggs: seq<SeasonAggregate>)
    ensures var o := FirstSeason(xs, aggs);
      var n := |Pool(aggs)|;
      && ShapeOk(o)
      && CountTo(o.result.promotions, Tsar) <= 1
      && CountTo(o.result.promotions, Sotnik) <= CenturionSlots(n)
      && CountTo(o.result.promotions, Desyatnik) <= DecurionSlots(n)
      && |o.result.maintained| == (if n == 0 then 0 else n - 1 - CenturionSlots(n) - DecurionSlots(n))
      && |o.result.promotions| + |o.result.maintained| <= n
      && (n > 0 && AllAssigned(xs, Pool(aggs)) ==> |o.result.promotions| == 1 + CenturionSlots(n) + DecurionSlots(n))
  {
    var pool := Pool(aggs);
    var n := |pool|;
    FirstSeasonShape(xs, pool, n);
    FirstSeasonCounts(xs, pool, n);
    PositionsByRole(n, n);
    if n > 0 {
      SlotsFit(n);
    }
    var ps := FirstSeason(xs, aggs).result.promotions;
    CountToOfAll(ps);
    CountToAbsent(ps, Driver);
  }

  lemma {:induction false} CountToAbsent(ps: seq<Transition>, role: Role)
    requires forall t :: t in ps ==> t.toRole != role
    ensures CountTo(ps, role) == 0
  {
    if ps != [] {
      assert forall t :: t in ps[..|ps| - 1] ==> t in ps;
      CountToAbsent(ps[..|ps| - 1], role);
    }
  }

  /** The only tsar of the first season is the owner of the best row. */
  lemma FirstSeasonTsarIsBest(xs: seq<Assignment>, aggs: seq<SeasonAggregate>, t: Transition)
    requires t in FirstSeason(xs, aggs).result.promotions && t.toRole == Tsar
    ensures |aggs| > 0 && t.userId == Pool(aggs)[0].userId
    ensures forall s :: s in aggs ==> Compare(ByResults, Pool(aggs)[0], s) >= 0.0
  {
    var pool := Pool(aggs);
    FirstSeasonJustified(xs, pool, |pool|);
    var q :| 0 <= q < |pool| && pool[q].userId == t.userId && SlotRole(|pool|, q) == t.toRole;
    PoolIsBestFirst(aggs);
  }

  // ---------------------------------------------------------------------
  // Regular season

  /** An assignment with its season row: `{ assignment, aggregate }`. */
  datatype Ranked = Ranked(assignment: Assignment, aggregate: SeasonAggregate)

  function Score(r: Ranked): SeasonAggregate { r.aggregate }

  predicate DistinctRanked(rs: seq<Ranked>)
  {
    forall i, j :: 0 <= i < j < |rs| ==> rs[i].assignment.userId != rs[j].assignment.userId
  }

  /** The members of `group` that have a season row, each with that row, in group order. */
  function WithAggregates(group: seq<Assignment>, aggs: seq<SeasonAggregate>): (r: seq<Ranked>)
    ensures forall x :: x in r <==> x.assignment in group && Find(aggs, SeasonKey, x.assignment.userId) == Some(x.aggregate)
    ensures DistinctUsers(group) ==> DistinctRanked(r)
  {
    if group == [] then []
    else
      var rest := WithAggregates(group[1..], aggs);
      assert forall a :: a in group <==> a == group[0] || a in group[1..];
      assert DistinctUsers(group) ==> DistinctUsers(group[1..]) && forall a :: a in group[1..] ==> a.userId != group[0].userId by {
        if DistinctUsers(group) {
          forall a | a in group[1..] ensures a.userId != group[0].userId {
            var k :| 0 <= k < |group[1..]| && group[1..][k] == a;
            assert group[k + 1] == a;
          }
          forall i, j | 0 <= i < j < |group[1..]| ensures group[1..][i].userId != group[1..][j].userId {
            assert group[1..][i] == group[i + 1] && group[1..][j] == group[j + 1];
          }
        }
      }
      match Find(aggs, SeasonKey, group[0].userId)
      case None => rest
      case Some(agg) =>
        var r := [Ranked(group[0], agg)] + rest;
        assert forall i :: 0 < i < |r| ==> r[i] == rest[i - 1];
        r
  }

  /** The centurions that have a season row, best first. */
  function CenturionResults(xs: seq<Assignment>, aggs: seq<SeasonAggregate>): seq<Ranked>
  {
    SortDesc(WithAggregates(Centurions(xs), aggs), Score, ByResults)
  }

  /** The best member with a season row of the group `sel` picks, if any. */
  function GroupWinner(xs: seq<Assignment>, aggs: seq<SeasonAggregate>, sel: Selector): Option<Ranked>
  {
    var sorted := SortDesc(WithAggregates(Filter(xs, sel), aggs), Score, ByResults);
    if |sorted| > 0 then Some(sorted[0]) else None
  }

  /** The winners that `winner` picks for the first k parents, in parent order. */
  function Collect(winner: Assignment -> Option<Ranked>, parents: seq<Assignment>, k: nat): seq<Ranked>
    requires k <= |parents|
  {
    if k == 0 then [] else Collect(winner, parents, k - 1) + OptionSeq(winner(parents[k - 1]))
  }

  /** The winner of the group of `role` under a parent. */
  function WinnerUnder(xs: seq<Assignment>, aggs: seq<SeasonAggregate>, role: Role): Assignment -> Option<Ranked>
  {
    (p: Assignment) => GroupWinner(xs, aggs, Under(role, {p.userId}))
  }

  /** The winners of the groups of `role` under the first k parents, in parent order. */
  function WinnersUpTo(xs: seq<Assignment>, aggs: seq<SeasonAggregate>, parents: seq<Assignment>, role: Role, k: nat): seq<Ranked>
    requires k <= |parents|
  {
    Collect(WinnerUnder(xs, aggs, role), parents, k)
  }

  /** getFirstPlaceDecurions / getFirstPlaceDrivers: the group winners, best first. */
  function FirstPlace(xs: seq<Assignment>, aggs: seq<SeasonAggregate>, parents: seq<Assignment>, role: Role): seq<Ranked>
  {
    SortDesc(WinnersUpTo(xs, aggs, parents, role, |parents|), Score, ByResults)
  }

  function FirstPlaceDecurions(xs: seq<Assignment>, aggs: seq<SeasonAggregate>): seq<Ranked>
  {
    FirstPlace(xs, aggs, Centurions(xs), Desyatnik)
  }

  function FirstPlaceDrivers(xs: seq<Assignment>, aggs: seq<SeasonAggregate>): seq<Ranked>
  {
    FirstPlace(xs, aggs, Decurions(xs), Driver)
  }

  function RankedUsers(rs: seq<Ranked>): set<UserId>
  {
    set r | r in rs :: r.assignment.userId
  }

  /** Promote each of `rs` in turn. */
  function PromoteAll(o: Outcome, rs: seq<Ranked>, from: Role, to: Role): Outcome
  {
    if rs == [] then o
    else
      var last := rs[|rs| - 1].assignment;
      AddPromotion(PromoteAll(o, rs[..|rs| - 1], from, to), last.userId, last.id, from, to)
  }

  /** Demote each of `rs` in turn. */
  function DemoteAll(o: Outcome, rs: seq<Ranked>, from: Role, to: Role): Outcome
  {
    if rs == [] then o
    else
      var last := rs[|rs| - 1].assignment;
      AddDemotion(DemoteAll(o, rs[..|rs| - 1], from, to), last.userId, last.id, from, to)
  }

  /** Report each of `rs` as keeping `role`. */
  function KeepAll(o: Outcome, rs: seq<Ranked>, role: Role): Outcome
  {
    if rs == [] then o
    else AddKept(KeepAll(o, rs[..|rs| - 1], role), rs[|rs| - 1].assignment.userId, role)
  }

  /** Demote to driver each decurion of `ds` whose user is not a winner. */
  function DemoteNonWinners(o: Outcome, ds: seq<Assignment>, winners: set<UserId>): Outcome
  {
    if ds == [] then o
    else
      var rest := DemoteNonWinners(o, ds[..|ds| - 1], winners);
      var d := ds[|ds| - 1];
      if d.userId in winners then rest else AddDemotion(rest, d.userId, d.id, Desyatnik, Driver)
  }

  /** Steps 1 and 2: the best centurion becomes tsar, the tsar a centurion. */
  function TsarSteps(cr: seq<Ranked>, current: Option<Assignment>): Outcome
  {
    var o := if |cr| > 0 then AddPromotion(NoChange, cr[0].assignment.userId, cr[0].assignment.id, Sotnik, Tsar) else NoChange;
    match current
    case None => o
    case Some(t) => AddDemotion(o, t.userId, t.id, Tsar, Sotnik)
  }

  /** The centurion results after the first. */
  function Remaining(cr: seq<Ranked>): seq<Ranked>
  {
    if |cr| > 0 then cr[1..] else []
  }

  /** Step 3: the next four centurions keep their role, the others become decurions. */
  function CenturionSteps(o: Outcome, cr: seq<Ranked>): Outcome
  {
    var rest := Remaining(cr);
    var m := Min(4, |rest|);
    DemoteAll(KeepAll(o, rest[..m], Sotnik), rest[m..], Sotnik, Desyatnik)
  }

  /** Step 4: the best five first-place decurions become centurions. */
  function DecurionPromotions(o: Outcome, xs: seq<Assignment>, aggs: seq<SeasonAggregate>): Outcome
  {
    var fp := FirstPlaceDecurions(xs, aggs);
    PromoteAll(o, fp[..Min(5, |fp|)], Desyatnik, Sotnik)
  }

  /** Step 5, handleDecurionTransitions. */
  function DecurionDemotions(o: Outcome, xs: seq<Assignment>, aggs: seq<SeasonAggregate>): Outcome
  {
    DemoteNonWinners(o, Decurions(xs), RankedUsers(FirstPlaceDecurions(xs, aggs)))
  }

  /** Step 6, handleDriverPromotions: the best ninety first-place drivers become decurions. */
  function DriverPromotions(o: Outcome, xs: seq<Assignment>, aggs: seq<SeasonAggregate>): Outcome
  {
    var fd := FirstPlaceDrivers(xs, aggs);
    PromoteAll(o, fd[..Min(90, |fd|)], Driver, Desyatnik)
  }

  function RegularSeason(xs: seq<Assignment>, aggs: seq<SeasonAggregate>): Outcome
  {
    var cr := CenturionResults(xs, aggs);
    var o := CenturionSteps(TsarSteps(cr, FindByRole(xs, Tsar)), cr);
    DriverPromotions(DecurionDemotions(DecurionPromotions(o, xs, aggs), xs, aggs), xs, aggs)
  }

  /** The loop shared by getFirstPlaceDecurions and getFirstPlaceDrivers. */
  method GetFirstPlace(xs: seq<Assignment>, aggs: seq<SeasonAggregate>, parents: seq<Assignment>, role: Role)
    returns (r: seq<Ranked>)
    ensures r == FirstPlace(xs, aggs, parents, role)
  {
    var winners := [];
    for k := 0 to |parents|
      invariant winners == WinnersUpTo(xs, aggs, parents, role, k)
    {
      winners := AddWinner(xs, aggs, parents, role, k, winners);
    }
    r := SortDesc(winners, Score, ByResults);
  }

  /** One turn of the loop: the winner of the group under `parents[k]`, if
      any, joins the list. */
  method AddWinner(xs: seq<Assignment>, aggs: seq<SeasonAggregate>, parents: seq<Assignment>, role: Role, k: nat, winners: seq<Ranked>)
    returns (out: seq<Ranked>)
    requires k < |parents| && winners == WinnersUpTo(xs, aggs, parents, role, k)
    ensures out == WinnersUpTo(xs, aggs, parents, role, k + 1)
  {
    var sel := Under(role, {parents[k].userId});
    var winner := FindWinner(xs, aggs, sel);
    WinnersStep(xs, aggs, parents, role, k);
    out := winners;
    if winner.Some? {
      out := winners + [winner.value];
    }
  }

  lemma WinnersStep(xs: seq<Assignment>, aggs: seq<SeasonAggregate>, parents: seq<Assignment>, role: Role, k: nat)
    requires k < |parents|
    ensures WinnersUpTo(xs, aggs, parents, role, k + 1)
         == WinnersUpTo(xs, aggs, parents, role, k) + OptionSeq(GroupWinner(xs, aggs, Under(role, {parents[k].userId})))
  {
  }

  function OptionSeq<T>(w: Option<T>): seq<T>
  {
    match w
    case None => []
    case Some(v) => [v]
  }

  /** The body of the loop over parents: sort the group's members that have
      a season row and take the first. */
  method FindWinner(xs: seq<Assignment>, aggs: seq<SeasonAggregate>, sel: Selector) returns (w: Option<Ranked>)
    ensures w == GroupWinner(xs, aggs, sel)
  {
    var group := Filter(xs, sel);
    w := None;
    if |group| > 0 {
      var sorted := SortDesc(WithAggregates(group, aggs), Score, ByResults);
      if |sorted| > 0 {
        w := Some(sorted[0]);
      }
    } else {
      assert WithAggregates(group, aggs) == [];
    }
  }

  /** getFirstPlaceDecurions */
  method GetFirstPlaceDecurions(xs: seq<Assignment>, aggs: seq<SeasonAggregate>) returns (r: seq<Ranked>)
    ensures r == FirstPlaceDecurions(xs, aggs)
  {
    r := GetFirstPlace(xs, aggs, Centurions(xs), Desyatnik);
  }

  /** getFirstPlaceDrivers */
  method GetFirstPlaceDrivers(xs: seq<Assignment>, aggs: seq<SeasonAggregate>) returns (r: seq<Ranked>)
    ensures r == FirstPlaceDrivers(xs, aggs)
  {
    r := GetFirstPlace(xs, aggs, Decurions(xs), Driver);
  }

  /** Whether user `u` is among the winners `rs`. */
  method IsListed(rs: seq<Ranked>, u: UserId) returns (b: bool)
    ensures b <==> u in RankedUsers(rs)
  {
    b := false;
    for i := 0 to |rs|
      invariant b <==> exists k :: 0 <= k < i && rs[k].assignment.userId == u
    {
      if rs[i].assignment.userId == u {
        b := true;
      }
    }
  }

  /** handleDecurionTransitions */
  method HandleDecurionTransitions(xs: seq<Assignment>, aggs: seq<SeasonAggregate>, o: Outcome) returns (out: Outcome)
    ensures out == DecurionDemotions(o, xs, aggs)
  {
    var currentDecurions := Decurions(xs);
    var firstPlaceDecurions := GetFirstPlaceDecurions(xs, aggs);
    out := DemoteUnlisted(o, currentDecurions, firstPlaceDecurions);
  }

  /** The loop of handleDecurionTransitions: demote every decurion not listed among the winners. */
  method DemoteUnlisted(o: Outcome, ds: seq<Assignment>, winners: seq<Ranked>) returns (out: Outcome)
    ensures out == DemoteNonWinners(o, ds, RankedUsers(winners))
  {
    out := o;
    for i := 0 to |ds|
      invariant out == DemoteNonWinners(o, ds[..i], RankedUsers(winners))
    {
      assert ds[..i + 1][..i] == ds[..i];
      var decurion := ds[i];
      var isFirstPlace := IsListed(winners, decurion.userId);
      if !isFirstPlace {
        out := AddDemotion(out, decurion.userId, decurion.id, Desyatnik, Driver);
      }
    }
    assert ds[..|ds|] == ds;
  }

  /** Promote the first `count` of `rs` (all of them when there are fewer). */
  method PromoteFirst(o: Outcome, rs: seq<Ranked>, count: nat, from: Role, to: Role) returns (out: Outcome)
    ensures out == PromoteAll(o, rs[..Min(count, |rs|)], from, to)
  {
    var m := Min(count, |rs|);
    out := o;
    for i := 0 to m
      invariant out == PromoteAll(o, rs[..i], from, to)
    {
      assert rs[..i + 1][..i] == rs[..i];
      out := AddPromotion(out, rs[i].assignment.userId, rs[i].assignment.id, from, to);
    }
  }

  /** handleDriverPromotions */
  method HandleDriverPromotions(xs: seq<Assignment>, aggs: seq<SeasonAggregate>, o: Outcome) returns (out: Outcome)
    ensures out == DriverPromotions(o, xs, aggs)
  {
    var firstPlaceDrivers := GetFirstPlaceDrivers(xs, aggs);
    out := PromoteFirst(o, firstPlaceDrivers, 90, Driver, Desyatnik);
  }

  /** Steps 3: keep the first four remaining centurions, demote the rest. */
  method HandleCenturions(o: Outcome, cr: seq<Ranked>) returns (out: Outcome)
    ensures out == CenturionSteps(o, cr)
  {
    var remaining := if |cr| > 0 then cr[1..] else [];
    var m := Min(4, |remaining|);
    out := o;
    for i := 0 to m
      invariant out == KeepAll(o, remaining[..i], Sotnik)
    {
      assert remaining[..i + 1][..i] == remaining[..i];
      out := AddKept(out, remaining[i].assignment.userId, Sotnik);
    }
    ghost var kept := out;
    var i := 4;
    while i < |remaining|
      invariant 4 <= i && (|remaining| >= 4 ==> i <= |remaining|)
      invariant out == DemoteAll(kept, remaining[m..Min(i, |remaining|)], Sotnik, Desyatnik)
    {
      assert remaining[m..i + 1][..i - m] == remaining[m..i];
      var centurion := remaining[i].assignment;
      out := AddDemotion(out, centurion.userId, centurion.id, Sotnik, Desyatnik);
      i := i + 1;
    }
    assert remaining == Remaining(cr);
    assert remaining[m..Min(i, |remaining|)] == remaining[m..];
  }

  /** applyRegularSeasonTransitions */
  method ApplyRegularSeasonTransitions(xs: seq<Assignment>, aggs: seq<SeasonAggregate>) returns (out: Outcome)
    ensures out == RegularSeason(xs, aggs)
  {
    var currentTsar := FindByRole(xs, Tsar);
    var centurionResults := SortDesc(WithAggregates(Centurions(xs), aggs), Score, ByResults);
    out := NoChange;
    if |centurionResults| > 0 {
      var newTsar := centurionResults[0].assignment;
      out := AddPromotion(out, newTsar.userId, newTsar.id, Sotnik, Tsar);
    }
    if currentTsar.Some? {
      out := AddDemotion(out, currentTsar.value.userId, currentTsar.value.id, Tsar, Sotnik);
    }
    out := HandleCenturions(out, centurionResults);
    var firstPlaceDecurions := GetFirstPlaceDecurions(xs, aggs);
    out := PromoteFirst(out, firstPlaceDecurions, 5, Desyatnik, Sotnik);
    out := HandleDecurionTransitions(xs, aggs, out);
    out := HandleDriverPromotions(xs, aggs, out);
  }

  // ---------------------------------------------------------------------
  // What the cascade reports and writes

  /** The reports of moving each of `rs` from `from` to `to`, in order. */
  function PromotionsOf(rs: seq<Ranked>, from: Role, to: Role): seq<Transition>
  {
    seq(|rs|, i requires 0 <= i < |rs| => Transition(rs[i].assignment.userId, from, to))
  }

  /** The role writes that give each of `rs` the role `to`, in order. */
  function WritesOf(rs: seq<Ranked>, to: Role): seq<RoleWrite>
  {
    seq(|rs|, i requires 0 <= i < |rs| => RoleWrite(rs[i].assignment.id, to))
  }

  function KeptOf(rs: seq<Ranked>, role: Role): seq<Kept>
  {
    seq(|rs|, i requires 0 <= i < |rs| => Kept(rs[i].assignment.userId, role))
  }

  /** The decurions of `ds` that are not winners, in order. */
  function NonWinners(ds: seq<Assignment>, winners: set<UserId>): (r: seq<Assignment>)
    ensures forall d :: d in r <==> d in ds && d.userId !in winners
    ensures DistinctUsers(ds) ==> DistinctUsers(r)
  {
    if ds == [] then []
    else
      var init, d := ds[..|ds| - 1], ds[|ds| - 1];
      var rest := NonWinners(init, winners);
      assert ds == init + [d];
      assert DistinctUsers(ds) ==> DistinctUsers(init) && forall e :: e in init ==> e.userId != d.userId by {
        if DistinctUsers(ds) {
          forall e | e in init ensures e.userId != d.userId {
            var k :| 0 <= k < |init| && init[k] == e;
            assert ds[k] == e;
          }
        }
      }
      if d.userId in winners then rest else rest + [d]
  }

  function DemotionsOf(ds: seq<Assignment>, from: Role, to: Role): seq<Transition>
  {
    seq(|ds|, i requires 0 <= i < |ds| => Transition(ds[i].userId, from, to))
  }

  function AssignmentWrites(ds: seq<Assignment>, to: Role): seq<RoleWrite>
  {
    seq(|ds|, i requires 0 <= i < |ds| => RoleWrite(ds[i].id, to))
  }

  lemma {:induction false} PromoteAllAppends(o: Outcome, rs: seq<Ranked>, from: Role, to: Role)
    ensures PromoteAll(o, rs, from, to)
         == Outcome(o.result.(promotions := o.result.promotions + PromotionsOf(rs, from, to)), o.writes + WritesOf(rs, to))
  {
    if rs != [] {
      PromoteAllAppends(o, rs[..|rs| - 1], from, to);
      assert PromotionsOf(rs, from, to) == PromotionsOf(rs[..|rs| - 1], from, to) + [Transition(rs[|rs| - 1].assignment.userId, from, to)];
      assert WritesOf(rs, to) == WritesOf(rs[..|rs| - 1], to) + [RoleWrite(rs[|rs| - 1].assignment.id, to)];
      assert o.result.promotions + PromotionsOf(rs, from, to)
          == o.result.promotions + PromotionsOf(rs[..|rs| - 1], from, to) + [Transition(rs[|rs| - 1].assignment.userId, from, to)];
      assert o.writes + WritesOf(rs, to) == o.writes + WritesOf(rs[..|rs| - 1], to) + [RoleWrite(rs[|rs| - 1].assignment.id, to)];
    }
  }

  lemma {:induction false} DemoteAllAppends(o: Outcome, rs: seq<Ranked>, from: Role, to: Role)
    ensures DemoteAll(o, rs, from, to)
         == Outcome(o.result.(demotions := o.result.demotions + PromotionsOf(rs, from, to)), o.writes + WritesOf(rs, to))
  {
    if rs != [] {
      DemoteAllAppends(o, rs[..|rs| - 1], from, to);
      assert PromotionsOf(rs, from, to) == PromotionsOf(rs[..|rs| - 1], from, to) + [Transition(rs[|rs| - 1].assignment.userId, from, to)];
      assert WritesOf(rs, to) == WritesOf(rs[..|rs| - 1], to) + [RoleWrite(rs[|rs| - 1].assignment.id, to)];
      assert o.result.demotions + PromotionsOf(rs, from, to)
          == o.result.demotions + PromotionsOf(rs[..|rs| - 1], from, to) + [Transition(rs[|rs| - 1].assignment.userId, from, to)];
      assert o.writes + WritesOf(rs, to) == o.writes + WritesOf(rs[..|rs| - 1], to) + [RoleWrite(rs[|rs| - 1].assignment.id, to)];
    }
  }

  lemma {:induction false} KeepAllAppends(o: Outcome, rs: seq<Ranked>, role: Role)
    ensures KeepAll(o, rs, role) == o.(result := o.result.(maintained := o.result.maintained + KeptOf(rs, role)))
  {
    if rs != [] {
      KeepAllAppends(o, rs[..|rs| - 1], role);
      assert KeptOf(rs, role) == KeptOf(rs[..|rs| - 1], role) + [Kept(rs[|rs| - 1].assignment.userId, role)];
      assert o.result.maintained + KeptOf(rs, role)
          == o.result.maintained + KeptOf(rs[..|rs| - 1], role) + [Kept(rs[|rs| - 1].assignment.userId, role)];
    }
  }

  lemma {:induction false} DemoteNonWinnersAppends(o: Outcome, ds: seq<Assignment>, winners: set<UserId>)
    ensures var nw := NonWinners(ds, winners);
      DemoteNonWinners(o, ds, winners)
      == Outcome(o.result.(demotions := o.result.demotions + DemotionsOf(nw, Desyatnik, Driver)),
                 o.writes + AssignmentWrites(nw, Driver))
  {
    if ds != [] {
      DemoteNonWinnersAppends(o, ds[..|ds| - 1], winners);
      var nw := NonWinners(ds[..|ds| - 1], winners);
      var d := ds[|ds| - 1];
      if d.userId !in winners {
        assert DemotionsOf(nw + [d], Desyatnik, Driver) == DemotionsOf(nw, Desyatnik, Driver) + [Transition(d.userId, Desyatnik, Driver)];
        assert AssignmentWrites(nw + [d], Driver) == AssignmentWrites(nw, Driver) + [RoleWrite(d.id, Driver)];
        assert o.result.demotions + DemotionsOf(nw + [d], Desyatnik, Driver)
            == o.result.demotions + DemotionsOf(nw, Desyatnik, Driver) + [Transition(d.userId, Desyatnik, Driver)];
        assert o.writes + AssignmentWrites(nw + [d], Driver) == o.writes + AssignmentWrites(nw, Driver) + [RoleWrite(d.id, Driver)];
      }
    }
  }

  function TsarPromotion(cr: seq<Ranked>): seq<Ranked>
  {
    if |cr| > 0 then [cr[0]] else []
  }

  function TsarDemotion(current: Option<Assignment>): seq<Assignment>
  {
    match current
    case None => []
    case Some(t) => [t]
  }

  lemma TsarStepsLists(cr: seq<Ranked>, current: Option<Assignment>)
    ensures var o := TsarSteps(cr, current);
      && o.result.promotions == PromotionsOf(TsarPromotion(cr), Sotnik, Tsar)
      && o.result.demotions == DemotionsOf(TsarDemotion(current), Tsar, Sotnik)
      && o.result.maintained == []
      && o.writes == WritesOf(TsarPromotion(cr), Tsar) + AssignmentWrites(TsarDemotion(current), Sotnik)
  {
    var tp := TsarPromotion(cr);
    if |cr| > 0 {
      assert PromotionsOf(tp, Sotnik, Tsar) == [Transition(cr[0].assignment.userId, Sotnik, Tsar)];
      assert WritesOf(tp, Tsar) == [RoleWrite(cr[0].assignment.id, Tsar)];
    }
    match current
    case None =>
    case Some(t) =>
      assert AssignmentWrites([t], Sotnik) == [RoleWrite(t.id, Sotnik)];
      assert DemotionsOf([t], Tsar, Sotnik) == [Transition(t.userId, Tsar, Sotnik)];
  }

  lemma CenturionStepsLists(o: Outcome, cr: seq<Ranked>)
    ensures var rest := Remaining(cr);
      var m := Min(4, |rest|);
      CenturionSteps(o, cr)
      == Outcome(TransitionResult(o.result.promotions,
                                  o.result.demotions + PromotionsOf(rest[m..], Sotnik, Desyatnik),
                                  o.result.maintained + KeptOf(rest[..m], Sotnik)),
                 o.writes + WritesOf(rest[m..], Desyatnik))
  {
    var rest := Remaining(cr);
    var m := Min(4, |rest|);
    KeepAllAppends(o, rest[..m], Sotnik);
    DemoteAllAppends(KeepAll(o, rest[..m], Sotnik), rest[m..], Sotnik, Desyatnik);
  }

  lemma LaterStepsLists(o: Outcome, xs: seq<Assignment>, aggs: seq<SeasonAggregate>)
    ensures var fp := FirstPlaceDecurions(xs, aggs);
      var fd := FirstPlaceDrivers(xs, aggs);
      var nw := NonWinners(Decurions(xs), RankedUsers(fp));
      DriverPromotions(DecurionDemotions(DecurionPromotions(o, xs, aggs), xs, aggs), xs, aggs)
      == Outcome(TransitionResult(o.result.promotions + PromotionsOf(fp[..Min(5, |fp|)], Desyatnik, Sotnik)
                                                      + PromotionsOf(fd[..Min(90, |fd|)], Driver, Desyatnik),
                                  o.result.demotions + DemotionsOf(nw, Desyatnik, Driver),
                                  o.result.maintained),
                 o.writes + WritesOf(fp[..Min(5, |fp|)], Sotnik) + AssignmentWrites(nw, Driver)
                          + WritesOf(fd[..Min(90, |fd|)], Desyatnik))
  {
    var fp := FirstPlaceDecurions(xs, aggs);
    var fd := FirstPlaceDrivers(xs, aggs);
    var o5 := DecurionPromotions(o, xs, aggs);
    PromoteAllAppends(o, fp[..Min(5, |fp|)], Desyatnik, Sotnik);
    var o6 := DecurionDemotions(o5, xs, aggs);
    DemoteNonWinnersAppends(o5, Decurions(xs), RankedUsers(fp));
    PromoteAllAppends(o6, fd[..Min(90, |fd|)], Driver, Desyatnik);
  }

  /** applyRegularSeasonTransitions as lists: the promotions are the best
      centurion to tsar, then the best five first-place decurions to
      centurion, then the best ninety first-place drivers to decurion; the
      demotions are the old tsar to centurion, the centurions from the
      sixth place on to decurion, then every decurion that was not first in
      its group to driver; the maintained are the centurions in places two
      to five; and every report comes with its role write, in the same order. */
  lemma RegularSeasonLists(xs: seq<Assignment>, aggs: seq<SeasonAggregate>)
    ensures var o := RegularSeason(xs, aggs);
      var cr := CenturionResults(xs, aggs);
      var rest := Remaining(cr);
      var m := Min(4, |rest|);
      var fp := FirstPlaceDecurions(xs, aggs);
      var fd := FirstPlaceDrivers(xs, aggs);
      var nw := NonWinners(Decurions(xs), RankedUsers(fp));
      && o.result.promotions
         == PromotionsOf(TsarPromotion(cr), Sotnik, Tsar)
          + PromotionsOf(fp[..Min(5, |fp|)], Desyatnik, Sotnik)
          + PromotionsOf(fd[..Min(90, |fd|)], Driver, Desyatnik)
      && o.result.demotions
         == DemotionsOf(TsarDemotion(FindByRole(xs, Tsar)), Tsar, Sotnik)
          + PromotionsOf(rest[m..], Sotnik, Desyatnik)
          + DemotionsOf(nw, Desyatnik, Driver)
      && o.result.maintained == KeptOf(rest[..m], Sotnik)
      && o.writes
         == WritesOf(TsarPromotion(cr), Tsar)
          + AssignmentWrites(TsarDemotion(FindByRole(xs, Tsar)), Sotnik)
          + WritesOf(rest[m..], Desyatnik)
          + WritesOf(fp[..Min(5, |fp|)], Sotnik)
          + AssignmentWrites(nw, Driver)
          + WritesOf(fd[..Min(90, |fd|)], Desyatnik)
  {
    var cr := CenturionResults(xs, aggs);
    var current := FindByRole(xs, Tsar);
    TsarStepsLists(cr, current);
    CenturionStepsLists(TsarSteps(cr, current), cr);
    LaterStepsLists(CenturionSteps(TsarSteps(cr, current), cr), xs, aggs);
  }

  lemma RegularSeasonPromotionList(xs: seq<Assignment>, aggs: seq<SeasonAggregate>)
    ensures var cr := CenturionResults(xs, aggs);
      var fp := FirstPlaceDecurions(xs, aggs);
      var fd := FirstPlaceDrivers(xs, aggs);
      RegularSeason(xs, aggs).result.promotions
      == PromotionsOf(TsarPromotion(cr), Sotnik, Tsar)
       + PromotionsOf(fp[..Min(5, |fp|)], Desyatnik, Sotnik)
       + PromotionsOf(fd[..Min(90, |fd|)], Driver, Desyatnik)
  {
    RegularSeasonLists(xs, aggs);
  }

  lemma RegularSeasonDemotionList(xs: seq<Assignment>, aggs: seq<SeasonAggregate>)
    ensures var rest := Remaining(CenturionResults(xs, aggs));
      var nw := NonWinners(Decurions(xs), RankedUsers(FirstPlaceDecurions(xs, aggs)));
      RegularSeason(xs, aggs).result.demotions
      == DemotionsOf(TsarDemotion(FindByRole(xs, Tsar)), Tsar, Sotnik)
       + PromotionsOf(rest[Min(4, |rest|)..], Sotnik, Desyatnik)
       + DemotionsOf(nw, Desyatnik, Driver)
  {
    RegularSeasonLists(xs, aggs);
  }

  lemma RegularSeasonMaintainedList(xs: seq<Assignment>, aggs: seq<SeasonAggregate>)
    ensures var rest := Remaining(CenturionResults(xs, aggs));
      RegularSeason(xs, aggs).result.maintained == KeptOf(rest[..Min(4, |rest|)], Sotnik)
  {
    RegularSeasonLists(xs, aggs);
  }

  // ---------------------------------------------------------------------
  // Properties of the regular season

  /** The winner of a group is one of its members with a season row and is
      at least as good as each of them; there is none only when no member
      has a row. */
  lemma GroupWinnerIsBest(xs: seq<Assignment>, aggs: seq<SeasonAggregate>, sel: Selector)
    ensures var ranked := WithAggregates(Filter(xs, sel), aggs);
      && (GroupWinner(xs, aggs, sel).None? <==> ranked == [])
      && (GroupWinner(xs, aggs, sel).Some? ==>
            && GroupWinner(xs, aggs, sel).value in ranked
            && forall c :: c in ranked ==> Compare(ByResults, GroupWinner(xs, aggs, sel).value.aggregate, c.aggregate) >= 0.0)
  {
    var ranked := WithAggregates(Filter(xs, sel), aggs);
    var sorted := SortDesc(ranked, Score, ByResults);
    if |sorted| > 0 {
      assert sorted[0] in multiset(ranked);
      forall c | c in ranked ensures Compare(ByResults, sorted[0].aggregate, c.aggregate) >= 0.0 {
        SortDescHeadIsBest(ranked, Score, ByResults, c);
      }
    }
  }

  lemma {:induction false} CollectMembers(winner: Assignment -> Option<Ranked>, parents: seq<Assignment>, k: nat, r: Ranked)
    requires k <= |parents|
    ensures r in Collect(winner, parents, k) <==> exists j :: 0 <= j < k && winner(parents[j]) == Some(r)
  {
    if k > 0 {
      CollectMembers(winner, parents, k - 1, r);
      assert r in OptionSeq(winner(parents[k - 1])) <==> winner(parents[k - 1]) == Some(r);
      if exists j :: 0 <= j < k && winner(parents[j]) == Some(r) {
        var j :| 0 <= j < k && winner(parents[j]) == Some(r);
        assert j == k - 1 || (0 <= j < k - 1 && winner(parents[j]) == Some(r));
      }
    }
  }

  /** The first places are exactly the winners of the groups under the parents. */
  lemma FirstPlaceMembers(xs: seq<Assignment>, aggs: seq<SeasonAggregate>, parents: seq<Assignment>, role: Role, r: Ranked)
    ensures r in FirstPlace(xs, aggs, parents, role) <==>
      exists j :: 0 <= j < |parents| && GroupWinner(xs, aggs, Under(role, {parents[j].userId})) == Some(r)
  {
    var ws := WinnersUpTo(xs, aggs, parents, role, |parents|);
    var winner := WinnerUnder(xs, aggs, role);
    CollectMembers(winner, parents, |parents|, r);
    assert r in FirstPlace(xs, aggs, parents, role) <==> r in multiset(ws);
    assert forall j :: 0 <= j < |parents| ==> winner(parents[j]) == GroupWinner(xs, aggs, Under(role, {parents[j].userId}));
  }

  lemma PromotionSegments(ps: seq<Transition>, tp: seq<Ranked>, up5: seq<Ranked>, up90: seq<Ranked>)
    requires ps == PromotionsOf(tp, Sotnik, Tsar) + PromotionsOf(up5, Desyatnik, Sotnik) + PromotionsOf(up90, Driver, Desyatnik)
    ensures |ps| == |tp| + |up5| + |up90|
    ensures forall i :: 0 <= i < |ps| ==>
      || (ps[i].fromRole == Sotnik && ps[i].toRole == Tsar && i < |tp|)
      || (ps[i].fromRole == Desyatnik && ps[i].toRole == Sotnik)
      || (ps[i].fromRole == Driver && ps[i].toRole == Desyatnik)
  {
    var p1 := PromotionsOf(tp, Sotnik, Tsar);
    var p2 := PromotionsOf(up5, Desyatnik, Sotnik);
    var p3 := PromotionsOf(up90, Driver, Desyatnik);
    forall i | 0 <= i < |ps| ensures
      || (ps[i].fromRole == Sotnik && ps[i].toRole == Tsar && i < |tp|)
      || (ps[i].fromRole == Desyatnik && ps[i].toRole == Sotnik)
      || (ps[i].fromRole == Driver && ps[i].toRole == Desyatnik)
    {
      if i < |p1| {
        assert ps[i] == p1[i];
      } else if i < |p1| + |p2| {
        assert ps[i] == p2[i - |p1|];
      } else {
        assert ps[i] == p3[i - |p1| - |p2|];
      }
    }
  }

  lemma NonWinnerSegment(ds: seq<Transition>, td: seq<Assignment>, low: seq<Ranked>, nw: seq<Assignment>, d: Assignment)
    requires ds == DemotionsOf(td, Tsar, Sotnik) + PromotionsOf(low, Sotnik, Desyatnik) + DemotionsOf(nw, Desyatnik, Driver)
    ensures Transition(d.userId, Desyatnik, Driver) in ds <==> exists e :: e in nw && e.userId == d.userId
  {
    var d1 := DemotionsOf(td, Tsar, Sotnik);
    var d2 := PromotionsOf(low, Sotnik, Desyatnik);
    var d3 := DemotionsOf(nw, Desyatnik, Driver);
    var t := Transition(d.userId, Desyatnik, Driver);
    if t in ds {
      var i :| 0 <= i < |ds| && ds[i] == t;
      if i >= |d1| + |d2| {
        assert ds[i] == d3[i - |d1| - |d2|];
        assert nw[i - |d1| - |d2|] in nw;
      }
    }
    if exists e :: e in nw && e.userId == d.userId {
      var e :| e in nw && e.userId == d.userId;
      var i :| 0 <= i < |nw| && nw[i] == e;
      assert ds[|d1| + |d2| + i] == d3[i];
    }
  }

  lemma LowCenturionSegment(ds: seq<Transition>, td: seq<Assignment>, cr: seq<Ranked>, nw: seq<Assignment>, i: nat)
    requires ds == DemotionsOf(td, Tsar, Sotnik)
                 + PromotionsOf(Remaining(cr)[Min(4, |Remaining(cr)|)..], Sotnik, Desyatnik)
                 + DemotionsOf(nw, Desyatnik, Driver)
    requires 5 <= i < |cr|
    ensures Transition(cr[i].assignment.userId, Sotnik, Desyatnik) in ds
  {
    var low := Remaining(cr)[Min(4, |Remaining(cr)|)..];
    assert low[i - 5] == cr[i];
    assert ds[|DemotionsOf(td, Tsar, Sotnik)| + i - 5] == PromotionsOf(low, Sotnik, Desyatnik)[i - 5];
  }

  lemma TsarSegment(ps: seq<Transition>, cr: seq<Ranked>, up5: seq<Ranked>, up90: seq<Ranked>)
    requires ps == PromotionsOf(TsarPromotion(cr), Sotnik, Tsar) + PromotionsOf(up5, Desyatnik, Sotnik) + PromotionsOf(up90, Driver, Desyatnik)
    ensures (exists t :: t in ps && t.toRole == Tsar) <==> |cr| > 0
    ensures forall t :: t in ps && t.toRole == Tsar ==> |cr| > 0 && t == Transition(cr[0].assignment.userId, Sotnik, Tsar)
  {
    PromotionSegments(ps, TsarPromotion(cr), up5, up90);
    if |cr| > 0 {
      assert ps[0] == PromotionsOf(TsarPromotion(cr), Sotnik, Tsar)[0];
    }
    forall t | t in ps && t.toRole == Tsar ensures |cr| > 0 && t == Transition(cr[0].assignment.userId, Sotnik, Tsar) {
      var i :| 0 <= i < |ps| && ps[i] == t;
      assert ps[i] == PromotionsOf(TsarPromotion(cr), Sotnik, Tsar)[i];
    }
  }

  /** The first of the centurion results is the best centurion row. */
  lemma CenturionResultsHeadIsBest(xs: seq<Assignment>, aggs: seq<SeasonAggregate>)
    ensures var ranked := WithAggregates(Centurions(xs), aggs);
      var cr := CenturionResults(xs, aggs);
      && (|cr| > 0 <==> ranked != [])
      && (|cr| > 0 ==> cr[0] in ranked && forall c :: c in ranked ==> Compare(ByResults, cr[0].aggregate, c.aggregate) >= 0.0)
  {
    var ranked := WithAggregates(Centurions(xs), aggs);
    var cr := CenturionResults(xs, aggs);
    if |cr| > 0 {
      assert cr[0] in multiset(ranked);
      forall c | c in ranked ensures Compare(ByResults, cr[0].aggregate, c.aggregate) >= 0.0 {
        SortDescHeadIsBest(ranked, Score, ByResults, c);
      }
    }
  }

  /** A tsar is promoted exactly when some centurion has a season row. */
  lemma RegularSeasonTsarPromoted(xs: seq<Assignment>, aggs: seq<SeasonAggregate>)
    ensures (exists t :: t in RegularSeason(xs, aggs).result.promotions && t.toRole == Tsar)
        <==> WithAggregates(Centurions(xs), aggs) != []
  {
    RegularSeasonPromotionList(xs, aggs);
    var fp := FirstPlaceDecurions(xs, aggs);
    var fd := FirstPlaceDrivers(xs, aggs);
    TsarSegment(RegularSeason(xs, aggs).result.promotions, CenturionResults(xs, aggs), fp[..Min(5, |fp|)], fd[..Min(90, |fd|)]);
    CenturionResultsHeadIsBest(xs, aggs);
  }

  /** The new tsar is the owner of the best centurion row, and was a centurion. */
  lemma RegularSeasonNewTsar(xs: seq<Assignment>, aggs: seq<SeasonAggregate>, t: Transition)
    requires t in RegularSeason(xs, aggs).result.promotions && t.toRole == Tsar
    ensures var cr := CenturionResults(xs, aggs);
      && |cr| > 0 && t == Transition(cr[0].assignment.userId, Sotnik, Tsar)
      && cr[0] in WithAggregates(Centurions(xs), aggs)
      && forall c :: c in WithAggregates(Centurions(xs), aggs) ==> Compare(ByResults, cr[0].aggregate, c.aggregate) >= 0.0
  {
    RegularSeasonPromotionList(xs, aggs);
    var fp := FirstPlaceDecurions(xs, aggs);
    var fd := FirstPlaceDrivers(xs, aggs);
    TsarSegment(RegularSeason(xs, aggs).result.promotions, CenturionResults(xs, aggs), fp[..Min(5, |fp|)], fd[..Min(90, |fd|)]);
    CenturionResultsHeadIsBest(xs, aggs);
  }

  /** Every promotion is one step up the hierarchy, and there are as many as
      there are tsar, centurion and decurion places to fill: one tsar when any
      centurion has a row, up to five centurions and up to ninety decurions. */
  lemma RegularSeasonPromotions(xs: seq<Assignment>, aggs: seq<SeasonAggregate>)
    ensures var ps := RegularSeason(xs, aggs).result.promotions;
      forall t :: t in ps ==>
        || (t.fromRole == Sotnik && t.toRole == Tsar)
        || (t.fromRole == Desyatnik && t.toRole == Sotnik)
        || (t.fromRole == Driver && t.toRole == Desyatnik)
    ensures |RegularSeason(xs, aggs).result.promotions|
      == (if WithAggregates(Centurions(xs), aggs) != [] then 1 else 0)
       + Min(5, |FirstPlaceDecurions(xs, aggs)|) + Min(90, |FirstPlaceDrivers(xs, aggs)|)
  {
    RegularSeasonPromotionList(xs, aggs);
    var cr := CenturionResults(xs, aggs);
    var fp := FirstPlaceDecurions(xs, aggs);
    var fd := FirstPlaceDrivers(xs, aggs);
    PromotionSegments(RegularSeason(xs, aggs).result.promotions, TsarPromotion(cr), fp[..Min(5, |fp|)], fd[..Min(90, |fd|)]);
  }

  lemma UpperSegments(ps: seq<Transition>, tp: seq<Ranked>, up5: seq<Ranked>, up90: seq<Ranked>, t: Transition)
    requires ps == PromotionsOf(tp, Sotnik, Tsar) + PromotionsOf(up5, Desyatnik, Sotnik) + PromotionsOf(up90, Driver, Desyatnik)
    requires t in ps
    ensures t.toRole == Sotnik ==> exists i :: 0 <= i < |up5| && t.userId == up5[i].assignment.userId
    ensures t.toRole == Desyatnik ==> exists i :: 0 <= i < |up90| && t.userId == up90[i].assignment.userId
  {
    var p1 := PromotionsOf(tp, Sotnik, Tsar);
    var p2 := PromotionsOf(up5, Desyatnik, Sotnik);
    var k :| 0 <= k < |ps| && ps[k] == t;
    if |p1| <= k < |p1| + |p2| {
      assert ps[k] == p2[k - |p1|];
    } else if |p1| + |p2| <= k {
      assert ps[k] == PromotionsOf(up90, Driver, Desyatnik)[k - |p1| - |p2|];
    }
  }

  /** Each new centurion owns one of the five best first places among
      decurions, and each new decurion one of the ninety best first places
      among drivers. */
  lemma RegularSeasonPromotedWon(xs: seq<Assignment>, aggs: seq<SeasonAggregate>, t: Transition)
    requires t in RegularSeason(xs, aggs).result.promotions
    ensures var fp := FirstPlaceDecurions(xs, aggs);
      t.toRole == Sotnik ==> exists i :: 0 <= i < Min(5, |fp|) && t.userId == fp[i].assignment.userId
    ensures var fd := FirstPlaceDrivers(xs, aggs);
      t.toRole == Desyatnik ==> exists i :: 0 <= i < Min(90, |fd|) && t.userId == fd[i].assignment.userId
  {
    RegularSeasonPromotionList(xs, aggs);
    var fp := FirstPlaceDecurions(xs, aggs);
    var fd := FirstPlaceDrivers(xs, aggs);
    UpperSegments(RegularSeason(xs, aggs).result.promotions, TsarPromotion(CenturionResults(xs, aggs)), fp[..Min(5, |fp|)], fd[..Min(90, |fd|)], t);
    if t.toRole == Sotnik {
      var i :| 0 <= i < Min(5, |fp|) && t.userId == fp[..Min(5, |fp|)][i].assignment.userId;
      assert fp[..Min(5, |fp|)][i] == fp[i];
    }
    if t.toRole == Desyatnik {
      var i :| 0 <= i < Min(90, |fd|) && t.userId == fd[..Min(90, |fd|)][i].assignment.userId;
      assert fd[..Min(90, |fd|)][i] == fd[i];
    }
  }

  lemma MaintainedSegment(ks: seq<Kept>, cr: seq<Ranked>)
    requires ks == KeptOf(Remaining(cr)[..Min(4, |Remaining(cr)|)], Sotnik)
    ensures |ks| == (if |cr| > 0 then Min(4, |cr| - 1) else 0)
    ensures forall i :: 0 <= i < |ks| ==> ks[i] == Kept(cr[i + 1].assignment.userId, Sotnik)
  {
    var rest := Remaining(cr);
    assert forall i :: 0 <= i < Min(4, |rest|) ==> rest[..Min(4, |rest|)][i] == cr[i + 1];
  }

  /** The centurions in places two to five keep their role, and they are
      the only ones reported as maintained. */
  lemma RegularSeasonMaintained(xs: seq<Assignment>, aggs: seq<SeasonAggregate>)
    ensures var ks := RegularSeason(xs, aggs).result.maintained;
      var cr := CenturionResults(xs, aggs);
      && |ks| == (if |cr| > 0 then Min(4, |cr| - 1) else 0)
      && forall i :: 0 <= i < |ks| ==> ks[i] == Kept(cr[i + 1].assignment.userId, Sotnik)
  {
    RegularSeasonMaintainedList(xs, aggs);
    MaintainedSegment(RegularSeason(xs, aggs).result.maintained, CenturionResults(xs, aggs));
  }

  /** The centurions from place six on become decurions. */
  lemma RegularSeasonLowCenturions(xs: seq<Assignment>, aggs: seq<SeasonAggregate>, i: nat)
    requires 5 <= i < |CenturionResults(xs, aggs)|
    ensures Transition(CenturionResults(xs, aggs)[i].assignment.userId, Sotnik, Desyatnik)
         in RegularSeason(xs, aggs).result.demotions
  {
    RegularSeasonDemotionList(xs, aggs);
    var nw := NonWinners(Decurions(xs), RankedUsers(FirstPlaceDecurions(xs, aggs)));
    LowCenturionSegment(RegularSeason(xs, aggs).result.demotions, TsarDemotion(FindByRole(xs, Tsar)), CenturionResults(xs, aggs), nw, i);
  }

  /** A decurion is demoted to driver exactly when no first place is theirs. */
  lemma RegularSeasonDecurionDemoted(xs: seq<Assignment>, aggs: seq<SeasonAggregate>, d: Assignment)
    requires d in Decurions(xs)
    ensures Transition(d.userId, Desyatnik, Driver) in RegularSeason(xs, aggs).result.demotions
        <==> d.userId !in RankedUsers(FirstPlaceDecurions(xs, aggs))
  {
    RegularSeasonDemotionList(xs, aggs);
    var cr := CenturionResults(xs, aggs);
    var rest := Remaining(cr);
    var m := Min(4, |rest|);
    var winners := RankedUsers(FirstPlaceDecurions(xs, aggs));
    var nw := NonWinners(Decurions(xs), winners);
    NonWinnerSegment(RegularSeason(xs, aggs).result.demotions, TsarDemotion(FindByRole(xs, Tsar)), rest[m..], nw, d);
    if d.userId !in winners {
      assert d in nw;
    }
  }

  // ---------------------------------------------------------------------
  // Every role write comes from the snapshot, once per assignment

  /** The assignments a list of members stands for, in order. */
  function Owners(rs: seq<Ranked>): seq<Assignment>
  {
    seq(|rs|, i requires 0 <= i < |rs| => rs[i].assignment)
  }

  /** Each of `rs` stands for an assignment of the snapshot with role `role`. */
  predicate HeldAs(rs: seq<Ranked>, xs: seq<Assignment>, role: Role)
  {
    forall i :: 0 <= i < |rs| ==> rs[i].assignment in xs && rs[i].assignment.role == role
  }

  /** Each of `ds` is an assignment of the snapshot with role `role`. */
  predicate Holds(ds: seq<Assignment>, xs: seq<Assignment>, role: Role)
  {
    forall d :: d in ds ==> d in xs && d.role == role
  }

  /** No user is in both lists. */
  predicate Apart(a: seq<Assignment>, b: seq<Assignment>)
  {
    forall x, y :: x in a && y in b ==> x.userId != y.userId
  }

  /** The i-th write is to the i-th assignment. */
  predicate Tracks(ws: seq<RoleWrite>, ds: seq<Assignment>)
  {
    |ws| == |ds| && forall i :: 0 <= i < |ws| ==> ws[i].id == ds[i].id
  }

  /** The report names, for each transition, a user holding `fromRole` in the snapshot. */
  predicate FromHeld(ts: seq<Transition>, xs: seq<Assignment>)
  {
    forall t :: t in ts ==> exists a :: a in xs && a.userId == t.userId && a.role == t.fromRole
  }

  lemma HeldOwners(rs: seq<Ranked>, xs: seq<Assignment>, role: Role)
    requires HeldAs(rs, xs, role)
    ensures Holds(Owners(rs), xs, role)
  {
    forall d | d in Owners(rs) ensures d in xs && d.role == role {
      var i :| 0 <= i < |Owners(rs)| && Owners(rs)[i] == d;
    }
  }

  lemma RolesApart(xs: seq<Assignment>, a: seq<Assignment>, b: seq<Assignment>, ra: Role, rb: Role)
    requires DistinctUsers(xs) && Holds(a, xs, ra) && Holds(b, xs, rb) && ra != rb
    ensures Apart(a, b)
  {
    forall x, y | x in a && y in b ensures x.userId != y.userId {
      if x.userId == y.userId {
        SameUser(xs, x, y);
      }
    }
  }

  lemma DistinctConcat(a: seq<Assignment>, b: seq<Assignment>)
    requires DistinctUsers(a) && DistinctUsers(b) && Apart(a, b)
    ensures DistinctUsers(a + b)
  {
    forall i, j | 0 <= i < j < |a + b| ensures (a + b)[i].userId != (a + b)[j].userId {
      if i < |a| && |a| <= j {
        assert (a + b)[i] == a[i] && (a + b)[j] == b[j - |a|];
      }
    }
  }

  lemma TracksConcat(w1: seq<RoleWrite>, d1: seq<Assignment>, w2: seq<RoleWrite>, d2: seq<Assignment>)
    requires Tracks(w1, d1) && Tracks(w2, d2)
    ensures Tracks(w1 + w2, d1 + d2)
  {
    forall i | 0 <= i < |w1 + w2| ensures (w1 + w2)[i].id == (d1 + d2)[i].id {
      if i >= |w1| {
        assert (w1 + w2)[i] == w2[i - |w1|] && (d1 + d2)[i] == d2[i - |w1|];
      }
    }
  }

  lemma PromotionsHeld(rs: seq<Ranked>, xs: seq<Assignment>, from: Role, to: Role)
    requires HeldAs(rs, xs, from)
    ensures FromHeld(PromotionsOf(rs, from, to), xs)
  {
    forall t | t in PromotionsOf(rs, from, to) ensures exists a :: a in xs && a.userId == t.userId && a.role == t.fromRole {
      var i :| 0 <= i < |rs| && PromotionsOf(rs, from, to)[i] == t;
      assert rs[i].assignment in xs;
    }
  }

  lemma DemotionsHeld(ds: seq<Assignment>, xs: seq<Assignment>, from: Role, to: Role)
    requires Holds(ds, xs, from)
    ensures FromHeld(DemotionsOf(ds, from, to), xs)
  {
    forall t | t in DemotionsOf(ds, from, to) ensures exists a :: a in xs && a.userId == t.userId && a.role == t.fromRole {
      var i :| 0 <= i < |ds| && DemotionsOf(ds, from, to)[i] == t;
      assert ds[i] in ds;
    }
  }

  /** Sorting members keeps one per user. */
  lemma SortKeepsDistinct(rs: seq<Ranked>)
    requires DistinctRanked(rs)
    ensures DistinctRanked(SortDesc(rs, Score, ByResults))
  {
    var out := SortDesc(rs, Score, ByResults);
    assert NoRepeats(rs) by {
      forall i, j | 0 <= i < j < |rs| ensures rs[i] != rs[j] {
        assert rs[i].assignment.userId != rs[j].assignment.userId;
      }
    }
    PermutationNoRepeats(rs, out);
    forall i, j | 0 <= i < j < |out| ensures out[i].assignment.userId != out[j].assignment.userId {
      assert out[i] in multiset(rs) && out[j] in multiset(rs);
      var p :| 0 <= p < |rs| && rs[p] == out[i];
      var q :| 0 <= q < |rs| && rs[q] == out[j];
      assert p != q;
    }
  }

  /** The centurion results are the snapshot's centurions, one per user. */
  lemma CenturionResultsHeld(xs: seq<Assignment>, aggs: seq<SeasonAggregate>)
    requires DistinctUsers(xs)
    ensures HeldAs(CenturionResults(xs, aggs), xs, Sotnik)
    ensures DistinctRanked(CenturionResults(xs, aggs))
  {
    var ranked := WithAggregates(Centurions(xs), aggs);
    var cr := CenturionResults(xs, aggs);
    forall i | 0 <= i < |cr| ensures cr[i].assignment in xs && cr[i].assignment.role == Sotnik {
      assert cr[i] in multiset(ranked);
    }
    SortKeepsDistinct(ranked);
  }

  lemma RankedSnoc(prev: seq<Ranked>, r: Ranked)
    requires DistinctRanked(prev)
    requires forall e :: e in prev ==> e.assignment.userId != r.assignment.userId
    ensures DistinctRanked(prev + [r])
  {
    var all := prev + [r];
    forall i, j | 0 <= i < j < |all| ensures all[i].assignment.userId != all[j].assignment.userId {
      if j == |prev| {
        assert all[i] == prev[i];
      } else {
        assert all[i] == prev[i] && all[j] == prev[j];
      }
    }
  }

  /** The winners of the groups under two distinct parents are different users. */
  lemma WinnersApart(xs: seq<Assignment>, aggs: seq<SeasonAggregate>, role: Role, p: Assignment, q: Assignment, e: Ranked, r: Ranked)
    requires DistinctUsers(xs) && p.userId != q.userId
    requires GroupWinner(xs, aggs, Under(role, {p.userId})) == Some(e)
    requires GroupWinner(xs, aggs, Under(role, {q.userId})) == Some(r)
    ensures e.assignment.userId != r.assignment.userId
  {
    GroupWinnerIsBest(xs, aggs, Under(role, {p.userId}));
    GroupWinnerIsBest(xs, aggs, Under(role, {q.userId}));
    assert e.assignment in xs && Link(e.assignment) == Some(p.userId);
    assert r.assignment in xs && Link(r.assignment) == Some(q.userId);
    if e.assignment.userId == r.assignment.userId {
      SameUser(xs, e.assignment, r.assignment);
      assert false;
    }
  }

  /** The winners of the groups under distinct parents belong to distinct users. */
  lemma {:induction false} WinnersDistinct(xs: seq<Assignment>, aggs: seq<SeasonAggregate>, parents: seq<Assignment>, role: Role, k: nat)
    requires DistinctUsers(xs) && DistinctUsers(parents) && k <= |parents|
    ensures DistinctRanked(WinnersUpTo(xs, aggs, parents, role, k))
  {
    if k > 0 {
      WinnersDistinct(xs, aggs, parents, role, k - 1);
      var winner := WinnerUnder(xs, aggs, role);
      var prev := WinnersUpTo(xs, aggs, parents, role, k - 1);
      var p := parents[k - 1];
      var w := winner(p);
      assert WinnersUpTo(xs, aggs, parents, role, k) == prev + OptionSeq(w);
      if w.Some? {
        forall e | e in prev ensures e.assignment.userId != w.value.assignment.userId {
          CollectMembers(winner, parents, k - 1, e);
          var j :| 0 <= j < k - 1 && winner(parents[j]) == Some(e);
          WinnersApart(xs, aggs, role, parents[j], p, e, w.value);
        }
        RankedSnoc(prev, w.value);
      }
    }
  }

  /** The first places are members of the snapshot with the role of the
      groups, one per user. */
  lemma FirstPlaceHeld(xs: seq<Assignment>, aggs: seq<SeasonAggregate>, parents: seq<Assignment>, role: Role)
    requires DistinctUsers(xs) && DistinctUsers(parents)
    ensures HeldAs(FirstPlace(xs, aggs, parents, role), xs, role)
    ensures DistinctRanked(FirstPlace(xs, aggs, parents, role))
  {
    var fp := FirstPlace(xs, aggs, parents, role);
    forall i | 0 <= i < |fp| ensures fp[i].assignment in xs && fp[i].assignment.role == role {
      FirstPlaceMembers(xs, aggs, parents, role, fp[i]);
      var j :| 0 <= j < |parents| && GroupWinner(xs, aggs, Under(role, {parents[j].userId})) == Some(fp[i]);
      GroupWinnerIsBest(xs, aggs, Under(role, {parents[j].userId}));
    }
    WinnersDistinct(xs, aggs, parents, role, |parents|);
    SortKeepsDistinct(WinnersUpTo(xs, aggs, parents, role, |parents|));
  }

  lemma HeldSlice(rs: seq<Ranked>, xs: seq<Assignment>, role: Role, lo: nat, hi: nat)
    requires HeldAs(rs, xs, role) && DistinctRanked(rs) && lo <= hi <= |rs|
    ensures HeldAs(rs[lo..hi], xs, role) && DistinctRanked(rs[lo..hi])
    ensures DistinctUsers(Owners(rs[lo..hi]))
  {
    var s := rs[lo..hi];
    assert forall i :: 0 <= i < |s| ==> s[i] == rs[lo + i];
  }

  /** The tsar promotion and the demoted centurions are different users. */
  lemma TsarApartFromRest(cr: seq<Ranked>, m: nat)
    requires DistinctRanked(cr) && m <= |Remaining(cr)|
    ensures Apart(Owners(TsarPromotion(cr)), Owners(Remaining(cr)[m..]))
  {
    var low := Remaining(cr)[m..];
    forall x, y | x in Owners(TsarPromotion(cr)) && y in Owners(low) ensures x.userId != y.userId {
      var k :| 0 <= k < |Owners(low)| && Owners(low)[k] == y;
      assert y == cr[1 + m + k].assignment;
      assert x == cr[0].assignment;
    }
  }

  /** The promoted first places and the demoted non-winners are different users. */
  lemma WinnersApartFromLosers(fp: seq<Ranked>, n: nat, ds: seq<Assignment>)
    requires n <= |fp|
    ensures Apart(Owners(fp[..n]), NonWinners(ds, RankedUsers(fp)))
  {
    forall x, y | x in Owners(fp[..n]) && y in NonWinners(ds, RankedUsers(fp)) ensures x.userId != y.userId {
      var k :| 0 <= k < n && Owners(fp[..n])[k] == x;
      assert fp[k] in fp;
    }
  }

  /** The tsar promotion and the demoted centurions: snapshot centurions,
      one per user, none in both. */
  lemma CenturionSegmentsHeld(xs: seq<Assignment>, aggs: seq<SeasonAggregate>)
    requires DistinctUsers(xs)
    ensures var cr := CenturionResults(xs, aggs);
      var low := Remaining(cr)[Min(4, |Remaining(cr)|)..];
      && HeldAs(TsarPromotion(cr), xs, Sotnik) && DistinctUsers(Owners(TsarPromotion(cr)))
      && HeldAs(low, xs, Sotnik) && DistinctUsers(Owners(low))
      && Apart(Owners(TsarPromotion(cr)), Owners(low))
  {
    var cr := CenturionResults(xs, aggs);
    var rest := Remaining(cr);
    var m := Min(4, |rest|);
    CenturionResultsHeld(xs, aggs);
    HeldSlice(cr, xs, Sotnik, 0, Min(1, |cr|));
    assert TsarPromotion(cr) == cr[0..Min(1, |cr|)];
    if |cr| > 0 {
      HeldSlice(cr, xs, Sotnik, 1 + m, |cr|);
      assert rest[m..] == cr[1 + m..|cr|];
    }
    TsarApartFromRest(cr, m);
  }

  /** The old tsar: a snapshot tsar. */
  lemma TsarDemotionHeld(xs: seq<Assignment>)
    ensures Holds(TsarDemotion(FindByRole(xs, Tsar)), xs, Tsar) && DistinctUsers(TsarDemotion(FindByRole(xs, Tsar)))
  {
  }

  /** The promoted first places: snapshot members of the groups' role, one per user. */
  lemma FirstPlaceSegmentHeld(xs: seq<Assignment>, aggs: seq<SeasonAggregate>, parents: seq<Assignment>, role: Role, n: nat)
    requires DistinctUsers(xs) && DistinctUsers(parents)
    ensures var fp := FirstPlace(xs, aggs, parents, role);
      HeldAs(fp[..Min(n, |fp|)], xs, role) && DistinctUsers(Owners(fp[..Min(n, |fp|)]))
  {
    var fp := FirstPlace(xs, aggs, parents, role);
    FirstPlaceHeld(xs, aggs, parents, role);
    HeldSlice(fp, xs, role, 0, Min(n, |fp|));
  }

  /** The demoted decurions: snapshot decurions, one per user. */
  lemma NonWinnersHeld(xs: seq<Assignment>, winners: set<UserId>)
    requires DistinctUsers(xs)
    ensures Holds(NonWinners(Decurions(xs), winners), xs, Desyatnik)
    ensures DistinctUsers(NonWinners(Decurions(xs), winners))
  {
  }

  /** The write log of applyRegularSeasonTransitions, segment by segment. */
  lemma RegularSeasonWriteList(xs: seq<Assignment>, aggs: seq<SeasonAggregate>)
    ensures var cr := CenturionResults(xs, aggs);
      var rest := Remaining(cr);
      var fp := FirstPlaceDecurions(xs, aggs);
      var fd := FirstPlaceDrivers(xs, aggs);
      RegularSeason(xs, aggs).writes
      == WritesOf(TsarPromotion(cr), Tsar)
       + AssignmentWrites(TsarDemotion(FindByRole(xs, Tsar)), Sotnik)
       + WritesOf(rest[Min(4, |rest|)..], Desyatnik)
       + WritesOf(fp[..Min(5, |fp|)], Sotnik)
       + AssignmentWrites(NonWinners(Decurions(xs), RankedUsers(fp)), Driver)
       + WritesOf(fd[..Min(90, |fd|)], Desyatnik)
  {
    RegularSeasonLists(xs, aggs);
  }

  /** Six lists of snapshot members, one per user within each, with roles
      centurion, tsar, centurion, decurion, decurion, driver, and the two
      lists of each shared role apart, name distinct users all together. */
  lemma SegmentUsersDistinct(xs: seq<Assignment>, s1: seq<Assignment>, s2: seq<Assignment>, s3: seq<Assignment>,
                             s4: seq<Assignment>, s5: seq<Assignment>, s6: seq<Assignment>)
    requires DistinctUsers(xs)
    requires Holds(s1, xs, Sotnik) && Holds(s2, xs, Tsar) && Holds(s3, xs, Sotnik)
    requires Holds(s4, xs, Desyatnik) && Holds(s5, xs, Desyatnik) && Holds(s6, xs, Driver)
    requires DistinctUsers(s1) && DistinctUsers(s2) && DistinctUsers(s3)
    requires DistinctUsers(s4) && DistinctUsers(s5) && DistinctUsers(s6)
    requires Apart(s1, s3) && Apart(s4, s5)
    ensures DistinctUsers(s1 + s2 + s3 + s4 + s5 + s6)
    ensures forall a :: a in s1 + s2 + s3 + s4 + s5 + s6 ==> a in xs
  {
    RolesApart(xs, s1, s2, Sotnik, Tsar);
    DistinctConcat(s1, s2);
    RolesApart(xs, s2, s3, Tsar, Sotnik);
    ApartJoin(s1, s2, s3);
    DistinctConcat(s1 + s2, s3);
    RolesApart(xs, s1, s4, Sotnik, Desyatnik);
    RolesApart(xs, s2, s4, Tsar, Desyatnik);
    RolesApart(xs, s3, s4, Sotnik, Desyatnik);
    ApartJoin(s1, s2, s4);
    ApartJoin(s1 + s2, s3, s4);
    DistinctConcat(s1 + s2 + s3, s4);
    RolesApart(xs, s1, s5, Sotnik, Desyatnik);
    RolesApart(xs, s2, s5, Tsar, Desyatnik);
    RolesApart(xs, s3, s5, Sotnik, Desyatnik);
    ApartJoin(s1, s2, s5);
    ApartJoin(s1 + s2, s3, s5);
    ApartJoin(s1 + s2 + s3, s4, s5);
    DistinctConcat(s1 + s2 + s3 + s4, s5);
    RolesApart(xs, s1, s6, Sotnik, Driver);
    RolesApart(xs, s2, s6, Tsar, Driver);
    RolesApart(xs, s3, s6, Sotnik, Driver);
    RolesApart(xs, s4, s6, Desyatnik, Driver);
    RolesApart(xs, s5, s6, Desyatnik, Driver);
    ApartJoin(s1, s2, s6);
    ApartJoin(s1 + s2, s3, s6);
    ApartJoin(s1 + s2 + s3, s4, s6);
    ApartJoin(s1 + s2 + s3 + s4, s5, s6);
    DistinctConcat(s1 + s2 + s3 + s4 + s5, s6);
  }

  lemma ApartJoin(p: seq<Assignment>, q: seq<Assignment>, b: seq<Assignment>)
    requires Apart(p, b) && Apart(q, b)
    ensures Apart(p + q, b)
  {
  }

  /** The write log of six segments, each tracking its list of assignments,
      tracks the six lists joined. */
  lemma SegmentsTrack(w1: seq<RoleWrite>, w2: seq<RoleWrite>, w3: seq<RoleWrite>, w4: seq<RoleWrite>, w5: seq<RoleWrite>, w6: seq<RoleWrite>,
                      s1: seq<Assignment>, s2: seq<Assignment>, s3: seq<Assignment>, s4: seq<Assignment>, s5: seq<Assignment>, s6: seq<Assignment>)
    requires Tracks(w1, s1) && Tracks(w2, s2) && Tracks(w3, s3) && Tracks(w4, s4) && Tracks(w5, s5) && Tracks(w6, s6)
    ensures Tracks(w1 + w2 + w3 + w4 + w5 + w6, s1 + s2 + s3 + s4 + s5 + s6)
  {
    TracksConcat(w1, s1, w2, s2);
    TracksConcat(w1 + w2, s1 + s2, w3, s3);
    TracksConcat(w1 + w2 + w3, s1 + s2 + s3, w4, s4);
    TracksConcat(w1 + w2 + w3 + w4, s1 + s2 + s3 + s4, w5, s5);
    TracksConcat(w1 + w2 + w3 + w4 + w5, s1 + s2 + s3 + s4 + s5, w6, s6);
  }

  lemma WritesOfTracks(rs: seq<Ranked>, to: Role)
    ensures Tracks(WritesOf(rs, to), Owners(rs))
  {
  }

  lemma AssignmentWritesTrack(ds: seq<Assignment>, to: Role)
    ensures Tracks(AssignmentWrites(ds, to), ds)
  {
  }

  /** A log whose i-th write is to the i-th of a list of distinct users'
      snapshot assignments writes each id once, and only ids of the snapshot. */
  lemma TrackedOnce(xs: seq<Assignment>, ws: seq<RoleWrite>, all: seq<Assignment>)
    requires DistinctIds(xs) && DistinctUsers(all) && Tracks(ws, all)
    requires forall a :: a in all ==> a in xs
    ensures forall i, j :: 0 <= i < j < |ws| ==> ws[i].id != ws[j].id
    ensures forall w :: w in ws ==> exists a :: a in xs && a.id == w.id
  {
    forall i, j | 0 <= i < j < |ws| ensures ws[i].id != ws[j].id {
      if ws[i].id == ws[j].id {
        SameId(xs, all[i], all[j]);
        assert false;
      }
    }
    forall w | w in ws ensures exists a :: a in xs && a.id == w.id {
      var i :| 0 <= i < |ws| && ws[i] == w;
      assert all[i] in all;
    }
  }

  /** applyRegularSeasonTransitions picks every user it moves from the
      assignment list it read at the start, and never writes one assignment
      twice: the tsar's successor, the old tsar, the demoted centurions, the
      promoted and the demoted decurions and the promoted drivers are all
      different assignments of the snapshot. */
  lemma RegularSeasonWritesOnce(xs: seq<Assignment>, aggs: seq<SeasonAggregate>)
    requires DistinctUsers(xs) && DistinctIds(xs)
    ensures var ws := RegularSeason(xs, aggs).writes;
      forall i, j :: 0 <= i < j < |ws| ==> ws[i].id != ws[j].id
    ensures forall w :: w in RegularSeason(xs, aggs).writes ==> exists a :: a in xs && a.id == w.id
  {
    var cr := CenturionResults(xs, aggs);
    var rest := Remaining(cr);
    var fp := FirstPlaceDecurions(xs, aggs);
    var fd := FirstPlaceDrivers(xs, aggs);
    var r1, r3, r4, r6 := TsarPromotion(cr), rest[Min(4, |rest|)..], fp[..Min(5, |fp|)], fd[..Min(90, |fd|)];
    var s2 := TsarDemotion(FindByRole(xs, Tsar));
    var s5 := NonWinners(Decurions(xs), RankedUsers(fp));
    RegularSeasonWriteList(xs, aggs);
    CenturionSegmentsHeld(xs, aggs);
    TsarDemotionHeld(xs);
    FirstPlaceSegmentHeld(xs, aggs, Centurions(xs), Desyatnik, 5);
    NonWinnersHeld(xs, RankedUsers(fp));
    FirstPlaceSegmentHeld(xs, aggs, Decurions(xs), Driver, 90);
    WinnersApartFromLosers(fp, Min(5, |fp|), Decurions(xs));
    HeldOwners(r1, xs, Sotnik);
    HeldOwners(r3, xs, Sotnik);
    HeldOwners(r4, xs, Desyatnik);
    HeldOwners(r6, xs, Driver);
    SegmentUsersDistinct(xs, Owners(r1), s2, Owners(r3), Owners(r4), s5, Owners(r6));
    WritesOfTracks(r1, Tsar);
    AssignmentWritesTrack(s2, Sotnik);
    WritesOfTracks(r3, Desyatnik);
    WritesOfTracks(r4, Sotnik);
    AssignmentWritesTrack(s5, Driver);
    WritesOfTracks(r6, Desyatnik);
    SegmentsTrack(WritesOf(r1, Tsar), AssignmentWrites(s2, Sotnik), WritesOf(r3, Desyatnik),
                  WritesOf(r4, Sotnik), AssignmentWrites(s5, Driver), WritesOf(r6, Desyatnik),
                  Owners(r1), s2, Owners(r3), Owners(r4), s5, Owners(r6));
    TrackedOnce(xs, RegularSeason(xs, aggs).writes, Owners(r1) + s2 + Owners(r3) + Owners(r4) + s5 + Owners(r6));
  }

  lemma FromHeldJoin(a: seq<Transition>, b: seq<Transition>, xs: seq<Assignment>)
    requires FromHeld(a, xs) && FromHeld(b, xs)
    ensures FromHeld(a + b, xs)
  {
  }

  /** Under the (season, user) key, a transition from a held role starts
      from the role of the user's one assignment. */
  lemma FromHeldFind(ts: seq<Transition>, xs: seq<Assignment>)
    requires DistinctUsers(xs) && FromHeld(ts, xs)
    ensures forall t :: t in ts ==> FindByUser(xs, t.userId).Some? && FindByUser(xs, t.userId).value.role == t.fromRole
  {
    forall t | t in ts ensures FindByUser(xs, t.userId).Some? && FindByUser(xs, t.userId).value.role == t.fromRole {
      var a :| a in xs && a.userId == t.userId && a.role == t.fromRole;
      FindByUserUnique(xs, a);
    }
  }

  /** Every transition the cascade reports starts from the role the user
      holds in the assignment list read at the start. */
  lemma RegularSeasonFromRoles(xs: seq<Assignment>, aggs: seq<SeasonAggregate>)
    requires DistinctUsers(xs)
    ensures forall t :: t in RegularSeason(xs, aggs).result.promotions ==>
      FindByUser(xs, t.userId).Some? && FindByUser(xs, t.userId).value.role == t.fromRole
    ensures forall t :: t in RegularSeason(xs, aggs).result.demotions ==>
      FindByUser(xs, t.userId).Some? && FindByUser(xs, t.userId).value.role == t.fromRole
  {
    var cr := CenturionResults(xs, aggs);
    var rest := Remaining(cr);
    var fp := FirstPlaceDecurions(xs, aggs);
    var fd := FirstPlaceDrivers(xs, aggs);
    var r1, r3, r4, r6 := TsarPromotion(cr), rest[Min(4, |rest|)..], fp[..Min(5, |fp|)], fd[..Min(90, |fd|)];
    var s2 := TsarDemotion(FindByRole(xs, Tsar));
    var s5 := NonWinners(Decurions(xs), RankedUsers(fp));
    CenturionSegmentsHeld(xs, aggs);
    TsarDemotionHeld(xs);
    FirstPlaceSegmentHeld(xs, aggs, Centurions(xs), Desyatnik, 5);
    NonWinnersHeld(xs, RankedUsers(fp));
    FirstPlaceSegmentHeld(xs, aggs, Decurions(xs), Driver, 90);
    PromotionsHeld(r1, xs, Sotnik, Tsar);
    PromotionsHeld(r4, xs, Desyatnik, Sotnik);
    PromotionsHeld(r6, xs, Driver, Desyatnik);
    FromHeldJoin(PromotionsOf(r1, Sotnik, Tsar), PromotionsOf(r4, Desyatnik, Sotnik), xs);
    FromHeldJoin(PromotionsOf(r1, Sotnik, Tsar) + PromotionsOf(r4, Desyatnik, Sotnik), PromotionsOf(r6, Driver, Desyatnik), xs);
    RegularSeasonPromotionList(xs, aggs);
    FromHeldFind(RegularSeason(xs, aggs).result.promotions, xs);
    DemotionsHeld(s2, xs, Tsar, Sotnik);
    PromotionsHeld(r3, xs, Sotnik, Desyatnik);
    DemotionsHeld(s5, xs, Desyatnik, Driver);
    FromHeldJoin(DemotionsOf(s2, Tsar, Sotnik), PromotionsOf(r3, Sotnik, Desyatnik), xs);
    FromHeldJoin(DemotionsOf(s2, Tsar, Sotnik) + PromotionsOf(r3, Sotnik, Desyatnik), DemotionsOf(s5, Desyatnik, Driver), xs);
    RegularSeasonDemotionList(xs, aggs);
    FromHeldFind(RegularSeason(xs, aggs).result.demotions, xs);
  }
}
