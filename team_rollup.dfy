/** How the aggregation rolls a quantity up the four-level tree
    (server/services/calculations.ts): a decurion sums its drivers, a
    centurion sums its decurions, the tsar sums every centurion. The same
    roll-up is used for one day's hours and, with every member weighing one
    unit, for the headcount a target is built from. */
module TeamRollup {
  import opened Wrappers
  import opened Hierarchy

  /** What each member contributes. */
  datatype Weighting =
    | Hours(daily: map<UserId, real>)   // the day's hours, 0 for a user without a record
    | Heads                              // every member counts as one unit

  function Weight(w: Weighting, u: UserId): real
  {
    match w
    case Hours(h) => if u in h then h[u] else 0.0
    case Heads => 1.0
  }

  /** Sum of the members' own weights, folded left to right. */
  function SumW(w: Weighting, xs: seq<Assignment>): real
  {
    if xs == [] then 0.0 else SumW(w, xs[..|xs| - 1]) + Weight(w, xs[|xs| - 1].userId)
  }

  /** calculateDecurionTeamHours */
  function DecurionTeam(w: Weighting, xs: seq<Assignment>, d: UserId): real
  {
    SumW(w, DriversOf(xs, d))
  }

  /** Sum over `ds` of (decurion's own weight + its team). */
  function DecurionTotals(w: Weighting, xs: seq<Assignment>, ds: seq<Assignment>): real
  {
    if ds == [] then 0.0
    else
      var d := ds[|ds| - 1];
      DecurionTotals(w, xs, ds[..|ds| - 1]) + (Weight(w, d.userId) + DecurionTeam(w, xs, d.userId))
  }

  /** calculateCenturionTeamHours */
  function CenturionTeam(w: Weighting, xs: seq<Assignment>, c: UserId): real
  {
    DecurionTotals(w, xs, DecurionsOf(xs, c))
  }

  /** Sum over `cs` of (centurion's own weight + its team). */
  function CenturionTotals(w: Weighting, xs: seq<Assignment>, cs: seq<Assignment>): real
  {
    if cs == [] then 0.0
    else
      var c := cs[|cs| - 1];
      CenturionTotals(w, xs, cs[..|cs| - 1]) + (Weight(w, c.userId) + CenturionTeam(w, xs, c.userId))
  }

  /** calculateTsarTeamHours */
  function TsarTeam(w: Weighting, xs: seq<Assignment>): real
  {
    CenturionTotals(w, xs, Centurions(xs))
  }

  /** The role switch of calculateDailyAggregatesForDate: drivers and unknown
      roles have no team. */
  function TeamOf(w: Weighting, xs: seq<Assignment>, a: Assignment): real
  {
    match a.role
    case Tsar => TsarTeam(w, xs)
    case Sotnik => CenturionTeam(w, xs, a.userId)
    case Desyatnik => DecurionTeam(w, xs, a.userId)
    case Driver => 0.0
    case Other => 0.0
  }

  // ---------------------------------------------------------------------
  // The team is the subtree: sums over the tree equal sums over the layers

  lemma SumWSnoc(w: Weighting, xs: seq<Assignment>, a: Assignment)
    ensures SumW(w, xs + [a]) == SumW(w, xs) + Weight(w, a.userId)
  {
    assert (xs + [a])[..|xs|] == xs;
  }

  lemma DecurionTotalsSnoc(w: Weighting, xs: seq<Assignment>, ds: seq<Assignment>, i: nat)
    requires i < |ds|
    ensures DecurionTotals(w, xs, ds[..i + 1])
         == DecurionTotals(w, xs, ds[..i]) + (Weight(w, ds[i].userId) + DecurionTeam(w, xs, ds[i].userId))
  {
    assert ds[..i + 1][..i] == ds[..i];
  }

  lemma CenturionTotalsSnoc(w: Weighting, xs: seq<Assignment>, cs: seq<Assignment>, i: nat)
    requires i < |cs|
    ensures CenturionTotals(w, xs, cs[..i + 1])
         == CenturionTotals(w, xs, cs[..i]) + (Weight(w, cs[i].userId) + CenturionTeam(w, xs, cs[i].userId))
  {
    assert cs[..i + 1][..i] == cs[..i];
  }

  lemma {:induction false} SumWHeads(xs: seq<Assignment>)
    ensures SumW(Heads, xs) == |xs| as real
  {
    if xs != [] {
      SumWHeads(xs[..|xs| - 1]);
    }
  }

  lemma SumWEmptyFilter(w: Weighting, xs: seq<Assignment>, role: Role)
    ensures SumW(w, Filter(xs, Under(role, {}))) == 0.0
  {
    FilterEmpty(xs, Under(role, {}));
  }

  lemma {:induction false} FilterEmpty(xs: seq<Assignment>, s: Selector)
    requires forall a :: a in xs ==> !Selects(s, a)
    ensures Filter(xs, s) == []
  {
    if xs != [] {
      FilterEmpty(xs[..|xs| - 1], s);
    }
  }

  lemma FilterSnoc(xs: seq<Assignment>, s: Selector)
    requires xs != []
    ensures Filter(xs, s) == Filter(xs[..|xs| - 1], s) + (if Selects(s, xs[|xs| - 1]) then [xs[|xs| - 1]] else [])
  {
  }

  /** Splitting the parent set splits the sum of the members under it. */
  lemma {:induction false} SumUnderSplit(w: Weighting, xs: seq<Assignment>, role: Role, s: set<UserId>, t: set<UserId>)
    requires s !! t
    ensures SumW(w, Filter(xs, Under(role, s + t)))
         == SumW(w, Filter(xs, Under(role, s))) + SumW(w, Filter(xs, Under(role, t)))
  {
    if xs != [] {
      var init, last := xs[..|xs| - 1], xs[|xs| - 1];
      SumUnderSplit(w, init, role, s, t);
      var st, ss, tt := Under(role, s + t), Under(role, s), Under(role, t);
      FilterSnoc(xs, st);
      FilterSnoc(xs, ss);
      FilterSnoc(xs, tt);
      if Selects(st, last) {
        SumWSnoc(w, Filter(init, st), last);
        if Link(last).value in s {
          assert !Selects(tt, last);
          assert Filter(xs, tt) == Filter(init, tt);
          SumWSnoc(w, Filter(init, ss), last);
        } else {
          assert !Selects(ss, last);
          assert Filter(xs, ss) == Filter(init, ss);
          SumWSnoc(w, Filter(init, tt), last);
        }
      } else {
        assert !Selects(ss, last) && !Selects(tt, last);
        assert Filter(xs, st) == Filter(init, st);
        assert Filter(xs, ss) == Filter(init, ss);
        assert Filter(xs, tt) == Filter(init, tt);
      }
    }
  }

  /** The user ids of the members under s + t are those under s and those under t. */
  lemma IdsUnderSplit(xs: seq<Assignment>, role: Role, s: set<UserId>, t: set<UserId>)
    ensures UserIds(Filter(xs, Under(role, s + t)))
         == UserIds(Filter(xs, Under(role, s))) + UserIds(Filter(xs, Under(role, t)))
  {
    var a, b, c := Filter(xs, Under(role, s + t)), Filter(xs, Under(role, s)), Filter(xs, Under(role, t));
    forall u | u in UserIds(a) ensures u in UserIds(b) + UserIds(c) {
      var m :| m in a && m.userId == u;
      if Link(m).value in s { assert m in b; } else { assert m in c; }
    }
    forall u | u in UserIds(b) + UserIds(c) ensures u in UserIds(a) {
      if u in UserIds(b) {
        var m :| m in b && m.userId == u;
        assert m in a;
      } else {
        var m :| m in c && m.userId == u;
        assert m in a;
      }
    }
  }

  /** With unique user ids, members under disjoint parent sets have disjoint ids. */
  lemma IdsUnderDisjoint(xs: seq<Assignment>, role: Role, s: set<UserId>, t: set<UserId>)
    requires DistinctUsers(xs)
    requires s !! t
    ensures UserIds(Filter(xs, Under(role, s))) !! UserIds(Filter(xs, Under(role, t)))
  {
    var b, c := Filter(xs, Under(role, s)), Filter(xs, Under(role, t));
    forall m1, m2 | m1 in b && m2 in c ensures m1.userId != m2.userId {
      var i :| 0 <= i < |xs| && xs[i] == m1;
      var j :| 0 <= j < |xs| && xs[j] == m2;
      assert Link(m1).value in s && Link(m2).value in t;
      assert i != j;
    }
  }

  lemma UserIdsSnoc(ds: seq<Assignment>)
    requires ds != []
    ensures UserIds(ds) == UserIds(ds[..|ds| - 1]) + {ds[|ds| - 1].userId}
  {
    assert ds == ds[..|ds| - 1] + [ds[|ds| - 1]];
  }

  lemma LastIdIsNew(ds: seq<Assignment>)
    requires ds != [] && DistinctUsers(ds)
    ensures ds[|ds| - 1].userId !in UserIds(ds[..|ds| - 1])
  {
    var init := ds[..|ds| - 1];
    forall a | a in init ensures a.userId != ds[|ds| - 1].userId {
      var k :| 0 <= k < |init| && init[k] == a;
      assert ds[k] == a;
    }
  }

  /** A list of decurions with distinct ids, together with their teams, weighs
      as much as the decurions plus every driver under one of them. */
  lemma {:induction false} DecurionTotalsIsLayers(w: Weighting, xs: seq<Assignment>, ds: seq<Assignment>)
    requires DistinctUsers(ds)
    ensures DecurionTotals(w, xs, ds)
         == SumW(w, ds) + SumW(w, Filter(xs, Under(Driver, UserIds(ds))))
  {
    if ds == [] {
      assert UserIds(ds) == {};
      SumWEmptyFilter(w, xs, Driver);
    } else {
      var init, d := ds[..|ds| - 1], ds[|ds| - 1];
      assert DistinctUsers(init);
      DecurionTotalsIsLayers(w, xs, init);
      UserIdsSnoc(ds);
      LastIdIsNew(ds);
      SumUnderSplit(w, xs, Driver, UserIds(init), {d.userId});
    }
  }

  /** A centurion's team is its decurions plus the drivers under them. */
  lemma CenturionTeamIsSubtree(w: Weighting, xs: seq<Assignment>, c: UserId)
    requires DistinctUsers(xs)
    ensures CenturionTeam(w, xs, c)
         == SumW(w, DecurionsOf(xs, c)) + SumW(w, Filter(xs, Under(Driver, UserIds(DecurionsOf(xs, c)))))
  {
    DecurionTotalsIsLayers(w, xs, DecurionsOf(xs, c));
  }

  /** The three layers below a list of centurions. */
  function DecurionsUnder(xs: seq<Assignment>, cs: seq<Assignment>): seq<Assignment>
  {
    Filter(xs, Under(Desyatnik, UserIds(cs)))
  }

  function DriversUnder(xs: seq<Assignment>, ds: seq<Assignment>): seq<Assignment>
  {
    Filter(xs, Under(Driver, UserIds(ds)))
  }

  lemma {:induction false} CenturionTotalsIsLayers(w: Weighting, xs: seq<Assignment>, cs: seq<Assignment>)
    requires DistinctUsers(xs) && DistinctUsers(cs)
    ensures CenturionTotals(w, xs, cs)
         == SumW(w, cs) + SumW(w, DecurionsUnder(xs, cs)) + SumW(w, DriversUnder(xs, DecurionsUnder(xs, cs)))
  {
    if cs == [] {
      assert UserIds(cs) == {};
      SumWEmptyFilter(w, xs, Desyatnik);
      FilterEmpty(xs, Under(Desyatnik, {}));
      assert UserIds(DecurionsUnder(xs, cs)) == {};
      SumWEmptyFilter(w, xs, Driver);
    } else {
      var init, c := cs[..|cs| - 1], cs[|cs| - 1];
      assert DistinctUsers(init);
      CenturionTotalsIsLayers(w, xs, init);
      CenturionTeamIsSubtree(w, xs, c.userId);
      UserIdsSnoc(cs);
      LastIdIsNew(cs);
      var s, t := UserIds(init), {c.userId};
      SumUnderSplit(w, xs, Desyatnik, s, t);
      IdsUnderSplit(xs, Desyatnik, s, t);
      IdsUnderDisjoint(xs, Desyatnik, s, t);
      SumUnderSplit(w, xs, Driver, UserIds(Filter(xs, Under(Desyatnik, s))), UserIds(Filter(xs, Under(Desyatnik, t))));
    }
  }

  /** The tsar's team is every centurion, every decurion under a centurion and
      every driver under one of those decurions: each counted exactly once. */
  lemma TsarTeamIsSubtree(w: Weighting, xs: seq<Assignment>)
    requires DistinctUsers(xs)
    ensures TsarTeam(w, xs)
         == SumW(w, Centurions(xs)) + SumW(w, DecurionsUnder(xs, Centurions(xs)))
          + SumW(w, DriversUnder(xs, DecurionsUnder(xs, Centurions(xs))))
  {
    CenturionTotalsIsLayers(w, xs, Centurions(xs));
  }
}
