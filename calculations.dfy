/** CalculationsService (server/services/calculations.ts): one day's raw hours
    rolled up the tree into aggregates_daily, the daily rows folded into
    aggregates_season with a target built from the shape of the subtree, and
    the three rank passes over the season rows. The database is a pair of
    value tables (module Storage); each service method takes the old table
    and returns the new one. */
module Calculations {
  import opened Wrappers
  import opened Hierarchy
  import opened TeamRollup
  import opened Results
  import opened Storage

  // ---------------------------------------------------------------------
  // Team hours of one day

  /** calculateDecurionTeamHours: the hours of the drivers whose
      `desyatnikId` is `d`. */
  method CalculateDecurionTeamHours(d: UserId, xs: seq<Assignment>, daily: map<UserId, real>) returns (teamTotal: real)
    ensures teamTotal == DecurionTeam(Hours(daily), xs, d)
  {
    var drivers := DriversOf(xs, d);
    teamTotal := 0.0;
    var i := 0;
    while i < |drivers|
      invariant 0 <= i <= |drivers|
      invariant teamTotal == SumW(Hours(daily), drivers[..i])
    {
      assert drivers[..i + 1][..i] == drivers[..i];
      teamTotal := teamTotal + Weight(Hours(daily), drivers[i].userId);
      i := i + 1;
    }
    assert drivers[..i] == drivers;
  }

  /** calculateCenturionTeamHours: over the decurions whose `sotnikId` is
      `c`, their own hours plus their team's. */
  method CalculateCenturionTeamHours(c: UserId, xs: seq<Assignment>, daily: map<UserId, real>) returns (teamTotal: real)
    ensures teamTotal == CenturionTeam(Hours(daily), xs, c)
  {
    var decurions := DecurionsOf(xs, c);
    teamTotal := 0.0;
    var i := 0;
    while i < |decurions|
      invariant 0 <= i <= |decurions|
      invariant teamTotal == DecurionTotals(Hours(daily), xs, decurions[..i])
    {
      DecurionTotalsSnoc(Hours(daily), xs, decurions, i);
      var personal := Weight(Hours(daily), decurions[i].userId);
      var team := CalculateDecurionTeamHours(decurions[i].userId, xs, daily);
      teamTotal := teamTotal + (personal + team);
      i := i + 1;
    }
    assert decurions[..i] == decurions;
  }

  /** calculateTsarTeamHours: over every centurion, its own hours plus its
      team's. */
  method CalculateTsarTeamHours(xs: seq<Assignment>, daily: map<UserId, real>) returns (teamTotal: real)
    ensures teamTotal == TsarTeam(Hours(daily), xs)
  {
    var centurions := Centurions(xs);
    teamTotal := 0.0;
    var i := 0;
    while i < |centurions|
      invariant 0 <= i <= |centurions|
      invariant teamTotal == CenturionTotals(Hours(daily), xs, centurions[..i])
    {
      CenturionTotalsSnoc(Hours(daily), xs, centurions, i);
      var personal := Weight(Hours(daily), centurions[i].userId);
      var team := CalculateCenturionTeamHours(centurions[i].userId, xs, daily);
      teamTotal := teamTotal + (personal + team);
      i := i + 1;
    }
    assert centurions[..i] == centurions;
  }

  /** The role switch of calculateDailyAggregatesForDate. */
  method TeamHours(a: Assignment, xs: seq<Assignment>, daily: map<UserId, real>) returns (teamHours: real)
    ensures teamHours == TeamOf(Hours(daily), xs, a)
  {
    teamHours := 0.0;
    if a.role == Tsar {
      teamHours := CalculateTsarTeamHours(xs, daily);
    } else if a.role == Sotnik {
      teamHours := CalculateCenturionTeamHours(a.userId, xs, daily);
    } else if a.role == Desyatnik {
      teamHours := CalculateDecurionTeamHours(a.userId, xs, daily);
    }
  }

  /** Every member of a team is counted once: a decurion's team is its
      drivers, a centurion's its decurions and their drivers, the tsar's
      every centurion, decurion and driver below them. */
  lemma TeamHoursAreSubtreeHours(daily: map<UserId, real>, xs: seq<Assignment>, a: Assignment)
    requires DistinctUsers(xs)
    ensures a.role == Driver || a.role == Other ==> TeamOf(Hours(daily), xs, a) == 0.0
    ensures a.role == Desyatnik ==> TeamOf(Hours(daily), xs, a) == SumW(Hours(daily), DriversOf(xs, a.userId))
    ensures a.role == Sotnik ==>
              TeamOf(Hours(daily), xs, a)
              == SumW(Hours(daily), DecurionsOf(xs, a.userId))
               + SumW(Hours(daily), DriversUnder(xs, DecurionsOf(xs, a.userId)))
    ensures a.role == Tsar ==>
              TeamOf(Hours(daily), xs, a)
              == SumW(Hours(daily), Centurions(xs))
               + SumW(Hours(daily), DecurionsUnder(xs, Centurions(xs)))
               + SumW(Hours(daily), DriversUnder(xs, DecurionsUnder(xs, Centurions(xs))))
  {
    if a.role == Sotnik {
      CenturionTeamIsSubtree(Hours(daily), xs, a.userId);
    } else if a.role == Tsar {
      TsarTeamIsSubtree(Hours(daily), xs);
    }
  }

  // ---------------------------------------------------------------------
  // Targets

  /** dailyTargetHours × daysCount: the target of one member. */
  function UnitTarget(season: Season): real
  {
    season.dailyTargetHours * season.daysCount as real
  }

  /** How many units a member's target counts: itself and everybody in its
      team (the same roll-up as the hours, with every member weighing one). */
  function Units(xs: seq<Assignment>, a: Assignment): real
  {
    1.0 + TeamOf(Heads, xs, a)
  }

  /** The units under a list of decurions: each decurion and its drivers
      (`totalUnits += 1 + driversCount` in calculateUserTarget). */
  method DecurionUnits(decurions: seq<Assignment>, xs: seq<Assignment>) returns (units: int)
    ensures units as real == DecurionTotals(Heads, xs, decurions)
  {
    units := 0;
    var j := 0;
    while j < |decurions|
      invariant 0 <= j <= |decurions|
      invariant units as real == DecurionTotals(Heads, xs, decurions[..j])
    {
      DecurionTotalsSnoc(Heads, xs, decurions, j);
      var driversCount := |DriversOf(xs, decurions[j].userId)|;
      SumWHeads(DriversOf(xs, decurions[j].userId));
      units := units + 1 + driversCount;
      j := j + 1;
    }
    assert decurions[..j] == decurions;
  }

  /** The units under a list of centurions: each centurion, its decurions
      and their drivers (the tsar case of calculateUserTarget). */
  method CenturionUnits(centurions: seq<Assignment>, xs: seq<Assignment>) returns (units: int)
    ensures units as real == CenturionTotals(Heads, xs, centurions)
  {
    units := 0;
    var i := 0;
    while i < |centurions|
      invariant 0 <= i <= |centurions|
      invariant units as real == CenturionTotals(Heads, xs, centurions[..i])
    {
      CenturionTotalsSnoc(Heads, xs, centurions, i);
      units := units + 1;
      var decurionUnits := DecurionUnits(DecurionsOf(xs, centurions[i].userId), xs);
      units := units + decurionUnits;
      i := i + 1;
    }
    assert centurions[..i] == centurions;
  }

  /** calculateUserTarget: the unit target times the units of the member's
      role (the switch on `assignment.role`, in UserUnits). */
  method CalculateUserTarget(a: Assignment, xs: seq<Assignment>, season: Season) returns (target: real)
    ensures target == UnitTarget(season) * Units(xs, a)
  {
    var unitTarget := season.dailyTargetHours * season.daysCount as real;
    var totalUnits := UserUnits(a, xs);
    target := unitTarget * totalUnits as real;
  }

  /** The number of units the switch of calculateUserTarget multiplies the
      unit target by: 1 for a driver or an unknown role, 1 + drivers for a
      decurion, and the loops over decurions and centurions otherwise. */
  method UserUnits(a: Assignment, xs: seq<Assignment>) returns (totalUnits: int)
    ensures totalUnits as real == Units(xs, a)
  {
    match a.role {
      case Driver =>
        totalUnits := 1;
      case Desyatnik =>
        var driversCount := |DriversOf(xs, a.userId)|;
        SumWHeads(DriversOf(xs, a.userId));
        totalUnits := 1 + driversCount;
      case Sotnik =>
        var decurionUnits := DecurionUnits(DecurionsOf(xs, a.userId), xs);
        totalUnits := 1 + decurionUnits;
      case Tsar =>
        var centurionUnits := CenturionUnits(Centurions(xs), xs);
        totalUnits := 1 + centurionUnits;
      case Other =>
        totalUnits := 1;
    }
  }

  /** The four target formulas as head counts: a driver (or any unknown role)
      counts one unit; a decurion one plus its drivers; a centurion one plus
      its decurions plus their drivers; the tsar one plus every centurion,
      every decurion under one and every driver under those. */
  lemma UnitsAreHeadcount(xs: seq<Assignment>, a: Assignment)
    requires DistinctUsers(xs)
    ensures a.role == Driver || a.role == Other ==> Units(xs, a) == 1.0
    ensures a.role == Desyatnik ==> Units(xs, a) == (1 + |DriversOf(xs, a.userId)|) as real
    ensures a.role == Sotnik ==>
              Units(xs, a)
              == (1 + |DecurionsOf(xs, a.userId)| + |DriversUnder(xs, DecurionsOf(xs, a.userId))|) as real
    ensures a.role == Tsar ==>
              Units(xs, a)
              == (1 + |Centurions(xs)| + |DecurionsUnder(xs, Centurions(xs))|
                    + |DriversUnder(xs, DecurionsUnder(xs, Centurions(xs)))|) as real
  {
    match a.role {
      case Desyatnik =>
        SumWHeads(DriversOf(xs, a.userId));
      case Sotnik =>
        CenturionTeamIsSubtree(Heads, xs, a.userId);
        SumWHeads(DecurionsOf(xs, a.userId));
        SumWHeads(DriversUnder(xs, DecurionsOf(xs, a.userId)));
      case Tsar =>
        TsarTeamIsSubtree(Heads, xs);
        SumWHeads(Centurions(xs));
        SumWHeads(DecurionsUnder(xs, Centurions(xs)));
        SumWHeads(DriversUnder(xs, DecurionsUnder(xs, Centurions(xs))));
      case _ =>
    }
  }

  // ---------------------------------------------------------------------
  // Daily aggregates

  /** The hours of day `d` by user after reading `hs` in order: a later
      record of the same user and day overwrites an earlier one. */
  function DayHours(hs: seq<HoursRecord>, d: Date): map<UserId, real>
  {
    if hs == [] then map[]
    else
      var h, m := hs[|hs| - 1], DayHours(hs[..|hs| - 1], d);
      if h.workDate == d then m[h.userId := h.hours] else m
  }

  /** A user has hours on day `d` iff some record says so, and the value kept
      is the one of the last such record. */
  lemma {:induction false} DayHoursLastWins(hs: seq<HoursRecord>, d: Date, i: nat)
    requires i < |hs| && hs[i].workDate == d
    requires forall j :: i < j < |hs| ==> hs[j].userId != hs[i].userId || hs[j].workDate != d
    ensures hs[i].userId in DayHours(hs, d) && DayHours(hs, d)[hs[i].userId] == hs[i].hours
  {
    var init := hs[..|hs| - 1];
    if i < |hs| - 1 {
      assert init[i] == hs[i];
      DayHoursLastWins(init, d, i);
    }
  }

  lemma {:induction false} DayHoursDomain(hs: seq<HoursRecord>, d: Date, u: UserId)
    ensures u in DayHours(hs, d) <==> exists i :: 0 <= i < |hs| && hs[i].userId == u && hs[i].workDate == d
  {
    if hs != [] {
      var init := hs[..|hs| - 1];
      DayHoursDomain(init, d, u);
      if u in DayHours(init, d) {
        var i :| 0 <= i < |init| && init[i].userId == u && init[i].workDate == d;
        assert hs[i] == init[i];
      }
      if exists i :: 0 <= i < |hs| && hs[i].userId == u && hs[i].workDate == d {
        var i :| 0 <= i < |hs| && hs[i].userId == u && hs[i].workDate == d;
        if i < |hs| - 1 { assert init[i] == hs[i]; }
      }
    }
  }

  /** Some record falls on day `d`. */
  predicate HasDate(hs: seq<HoursRecord>, d: Date)
  {
    exists i :: 0 <= i < |hs| && hs[i].workDate == d
  }

  /** One more record: its day now has a record, and its user's hours on
      that day are its own. */
  lemma HoursSnoc(hs: seq<HoursRecord>, k: nat)
    requires k < |hs|
    ensures forall d :: HasDate(hs[..k + 1], d) <==> HasDate(hs[..k], d) || d == hs[k].workDate
    ensures forall d :: DayHours(hs[..k + 1], d)
                     == if d == hs[k].workDate then DayHours(hs[..k], d)[hs[k].userId := hs[k].hours] else DayHours(hs[..k], d)
  {
    assert hs[..k + 1][..k] == hs[..k];
    assert hs[..k + 1][k] == hs[k];
    forall d ensures HasDate(hs[..k + 1], d) <==> HasDate(hs[..k], d) || d == hs[k].workDate {
      if HasDate(hs[..k + 1], d) {
        var i :| 0 <= i < k + 1 && hs[..k + 1][i].workDate == d;
        if i < k { assert hs[..k][i].workDate == d; }
      }
      if HasDate(hs[..k], d) {
        var i :| 0 <= i < k && hs[..k][i].workDate == d;
        assert hs[..k + 1][i].workDate == d;
      }
    }
  }

  /** The grouping loop of recalculateDailyAggregates: the map of maps
      `hoursByDate` and, as a JavaScript Map iterates, its dates in the order
      they first occur. */
  method GroupHoursByDate(hs: seq<HoursRecord>) returns (byDate: map<Date, map<UserId, real>>, dates: seq<Date>)
    ensures forall d :: d in byDate <==> d in dates
    ensures forall d :: d in dates <==> HasDate(hs, d)
    ensures forall i, j :: 0 <= i < j < |dates| ==> dates[i] != dates[j]
    ensures forall d :: d in byDate ==> byDate[d] == DayHours(hs, d)
  {
    byDate, dates := map[], [];
    var k := 0;
    while k < |hs|
      invariant 0 <= k <= |hs|
      invariant forall d :: d in byDate <==> d in dates
      invariant forall d :: d in dates <==> HasDate(hs[..k], d)
      invariant forall i, j :: 0 <= i < j < |dates| ==> dates[i] != dates[j]
      invariant forall d :: d in byDate ==> byDate[d] == DayHours(hs[..k], d)
      invariant forall d :: d !in byDate ==> DayHours(hs[..k], d) == map[]
    {
      var h := hs[k];
      HoursSnoc(hs, k);
      if h.workDate !in byDate {
        byDate := byDate[h.workDate := map[]];
        dates := dates + [h.workDate];
      }
      var day: map<UserId, real> := byDate[h.workDate];
      day := day[h.userId := h.hours];
      byDate := byDate[h.workDate := day];
      k := k + 1;
    }
    assert hs[..k] == hs;
  }

  /** The last assignment of user `u`, as a Map built from the assignments
      keeps it; the upserts keyed by user keep the last as well. */
  function LastByUser(xs: seq<Assignment>, u: UserId): (r: Option<Assignment>)
    ensures r.Some? ==> r.value in xs && r.value.userId == u
    ensures r.None? <==> u !in UserIds(xs)
  {
    if xs == [] then None
    else if xs[|xs| - 1].userId == u then Some(xs[|xs| - 1])
    else
      var r := LastByUser(xs[..|xs| - 1], u);
      UserIdsSnoc(xs);
      r
  }

  /** With one assignment per user (the unique (season, user) key), the last
      assignment of a user is its only one. */
  lemma {:induction false} LastByUserOfDistinct(xs: seq<Assignment>, a: Assignment)
    requires DistinctUsers(xs) && a in xs
    ensures LastByUser(xs, a.userId) == Some(a)
  {
    var init := xs[..|xs| - 1];
    if xs[|xs| - 1] != a {
      assert a in init by { assert xs == init + [xs[|xs| - 1]]; }
      assert DistinctUsers(init);
      var k :| 0 <= k < |init| && init[k] == a;
      assert xs[k] == a;
      LastByUserOfDistinct(init, a);
    }
  }

  /** The row calculateDailyAggregatesForDate writes for assignment `a`. */
  function DailyRow(daily: map<UserId, real>, xs: seq<Assignment>, a: Assignment, d: Date): DailyAggregate
  {
    var personal := Weight(Hours(daily), a.userId);
    var team := TeamOf(Hours(daily), xs, a);
    DailyAggregate(a.userId, d, a.role, personal, team, personal + team)
  }

  /** What a daily row holds: the user's own hours (0 without a record),
      the team's hours by role, and their sum. */
  lemma DailyRowIsRollUp(daily: map<UserId, real>, xs: seq<Assignment>, a: Assignment, d: Date)
    requires DistinctUsers(xs)
    ensures DailyRow(daily, xs, a, d).userId == a.userId && DailyRow(daily, xs, a, d).workDate == d
    ensures DailyRow(daily, xs, a, d).role == a.role
    ensures DailyRow(daily, xs, a, d).personalHours == if a.userId in daily then daily[a.userId] else 0.0
    ensures DailyRow(daily, xs, a, d).totalHours
         == DailyRow(daily, xs, a, d).personalHours + DailyRow(daily, xs, a, d).teamHours
    ensures a.role == Driver || a.role == Other ==> DailyRow(daily, xs, a, d).teamHours == 0.0
    ensures a.role == Desyatnik ==>
              DailyRow(daily, xs, a, d).teamHours == SumW(Hours(daily), DriversOf(xs, a.userId))
    ensures a.role == Sotnik ==>
              DailyRow(daily, xs, a, d).teamHours
              == SumW(Hours(daily), DecurionsOf(xs, a.userId))
               + SumW(Hours(daily), DriversUnder(xs, DecurionsOf(xs, a.userId)))
    ensures a.role == Tsar ==>
              DailyRow(daily, xs, a, d).teamHours
              == SumW(Hours(daily), Centurions(xs))
               + SumW(Hours(daily), DecurionsUnder(xs, Centurions(xs)))
               + SumW(Hours(daily), DriversUnder(xs, DecurionsUnder(xs, Centurions(xs))))
  {
    TeamHoursAreSubtreeHours(daily, xs, a);
  }

  /** The daily row of key `k` once the assignments `done` have been written
      for day `d`. */
  function DailyLookup(table: seq<DailyAggregate>, d: Date, daily: map<UserId, real>,
                       done: seq<Assignment>, xs: seq<Assignment>, k: (UserId, Date)): Option<DailyAggregate>
  {
    var last := LastByUser(done, k.0);
    if k.1 == d && last.Some? then Some(DailyRow(daily, xs, last.value, d)) else Find(table, DailyKey, k)
  }

  /** calculateDailyAggregatesForDate: one row per assignment for day `d`;
      rows of other days and of users without an assignment are kept. */
  method CalculateDailyAggregatesForDate(table: seq<DailyAggregate>, d: Date, daily: map<UserId, real>, xs: seq<Assignment>)
    returns (out: seq<DailyAggregate>)
    ensures forall k :: Find(out, DailyKey, k) == DailyLookup(table, d, daily, xs, xs, k)
  {
    out := table;
    var i := 0;
    while i < |xs|
      invariant 0 <= i <= |xs|
      invariant forall k :: Find(out, DailyKey, k) == DailyLookup(table, d, daily, xs[..i], xs, k)
    {
      assert xs[..i + 1] == xs[..i] + [xs[i]];
      ghost var before := out;
      out := UpsertDailyRow(out, d, daily, xs, xs[i]);
      DailyLookupStep(table, d, daily, xs[..i], xs[i], xs, before, out);
      i := i + 1;
    }
    assert xs[..i] == xs;
  }

  /** The loop body of calculateDailyAggregatesForDate for assignment `a`. */
  method UpsertDailyRow(table: seq<DailyAggregate>, d: Date, daily: map<UserId, real>, xs: seq<Assignment>, a: Assignment)
    returns (out: seq<DailyAggregate>)
    ensures out == Upsert(table, DailyKey, DailyRow(daily, xs, a, d))
  {
    var personalHours := if a.userId in daily then daily[a.userId] else 0.0;
    var teamHours := TeamHours(a, xs, daily);
    var totalHours := personalHours + teamHours;
    var row := DailyAggregate(a.userId, d, a.role, personalHours, teamHours, totalHours);
    DailyRowOf(daily, xs, a, d, personalHours, teamHours);
    assert row == DailyRow(daily, xs, a, d);
    out := Upsert(table, DailyKey, row);
  }

  lemma DailyRowOf(daily: map<UserId, real>, xs: seq<Assignment>, a: Assignment, d: Date, personal: real, team: real)
    requires personal == (if a.userId in daily then daily[a.userId] else 0.0)
    requires team == TeamOf(Hours(daily), xs, a)
    ensures DailyAggregate(a.userId, d, a.role, personal, team, personal + team) == DailyRow(daily, xs, a, d)
  {
  }

  /** One pass of the loop of calculateDailyAggregatesForDate. */
  lemma DailyLookupStep(table: seq<DailyAggregate>, d: Date, daily: map<UserId, real>, done: seq<Assignment>, a: Assignment,
                        xs: seq<Assignment>, before: seq<DailyAggregate>, after: seq<DailyAggregate>)
    requires forall k :: Find(before, DailyKey, k) == DailyLookup(table, d, daily, done, xs, k)
    requires after == Upsert(before, DailyKey, DailyRow(daily, xs, a, d))
    ensures forall k :: Find(after, DailyKey, k) == DailyLookup(table, d, daily, done + [a], xs, k)
  {
    var all := done + [a];
    assert all[|all| - 1] == a && all[..|all| - 1] == done;
  }

  /** getHoursRawByDateRange(startDate, endDate): both ends included. */
  function HoursInRange(raw: seq<HoursRecord>, season: Season): (r: seq<HoursRecord>)
    ensures forall h :: h in r <==> h in raw && season.startDate <= h.workDate <= season.endDate
  {
    if raw == [] then []
    else
      var h := raw[|raw| - 1];
      assert raw == raw[..|raw| - 1] + [h];
      HoursInRange(raw[..|raw| - 1], season) + (if season.startDate <= h.workDate <= season.endDate then [h] else [])
  }

  /** The daily row of key `k` after recalculateDailyAggregates over `hs`. */
  function RecalculatedDaily(table: seq<DailyAggregate>, hs: seq<HoursRecord>, xs: seq<Assignment>, k: (UserId, Date)): Option<DailyAggregate>
  {
    var last := LastByUser(xs, k.0);
    if HasDate(hs, k.1) && last.Some? then Some(DailyRow(DayHours(hs, k.1), xs, last.value, k.1))
    else Find(table, DailyKey, k)
  }

  /** recalculateDailyAggregates: every day that occurs in the season's raw
      hours is aggregated, with that day's hours; no other day is written. */
  method RecalculateDailyAggregates(table: seq<DailyAggregate>, season: Season, raw: seq<HoursRecord>, xs: seq<Assignment>)
    returns (out: seq<DailyAggregate>)
    ensures forall k :: Find(out, DailyKey, k) == RecalculatedDaily(table, HoursInRange(raw, season), xs, k)
  {
    var hoursData := HoursInRange(raw, season);
    var byDate, dates := GroupHoursByDate(hoursData);
    out := table;
    var i := 0;
    while i < |dates|
      invariant 0 <= i <= |dates|
      invariant forall k :: Find(out, DailyKey, k)
                         == if k.1 in dates[..i] then RecalculatedDaily(table, hoursData, xs, k) else Find(table, DailyKey, k)
    {
      var d := dates[i];
      assert dates[..i + 1] == dates[..i] + [d];
      assert d !in dates[..i];
      ghost var before := out;
      out := CalculateDailyAggregatesForDate(out, d, byDate[d], xs);
      forall k ensures Find(out, DailyKey, k)
                    == if k.1 in dates[..i + 1] then RecalculatedDaily(table, hoursData, xs, k) else Find(table, DailyKey, k)
      {
        assert Find(out, DailyKey, k) == DailyLookup(before, d, byDate[d], xs, xs, k);
      }
      i := i + 1;
    }
    forall k ensures Find(out, DailyKey, k) == RecalculatedDaily(table, hoursData, xs, k) {
      assert dates[..i] == dates;
    }
  }

  // ---------------------------------------------------------------------
  // Season aggregates

  /** The daily rows of user `u`, in table order. */
  function RowsOf(rows: seq<DailyAggregate>, u: UserId): seq<DailyAggregate>
  {
    if rows == [] then []
    else
      var r := rows[|rows| - 1];
      RowsOf(rows[..|rows| - 1], u) + (if r.userId == u then [r] else [])
  }

  /** A user has rows iff some row carries its id. */
  predicate HasRows(rows: seq<DailyAggregate>, u: UserId)
  {
    exists i :: 0 <= i < |rows| && rows[i].userId == u
  }

  /** The grouping loop of recalculateSeasonAggregates (`aggregatesByUser`). */
  method GroupByUser(rows: seq<DailyAggregate>) returns (byUser: map<UserId, seq<DailyAggregate>>)
    ensures forall u :: u in byUser <==> HasRows(rows, u)
    ensures forall u :: u in byUser ==> byUser[u] == RowsOf(rows, u)
    ensures forall u :: u !in byUser ==> RowsOf(rows, u) == []
  {
    byUser := map[];
    var k := 0;
    while k < |rows|
      invariant 0 <= k <= |rows|
      invariant forall u :: u in byUser <==> HasRows(rows[..k], u)
      invariant forall u :: u in byUser ==> byUser[u] == RowsOf(rows[..k], u)
      invariant forall u :: u !in byUser ==> RowsOf(rows[..k], u) == []
    {
      var r := rows[k];
      assert rows[..k + 1] == rows[..k] + [r];
      ghost var before := byUser;
      if r.userId !in byUser {
        byUser := byUser[r.userId := []];
      }
      byUser := byUser[r.userId := byUser[r.userId] + [r]];
      GroupStep(rows[..k], r, before, byUser);
      k := k + 1;
    }
    assert rows[..k] == rows;
  }

  /** One pass of the grouping loop keeps its three invariants. */
  lemma GroupStep(done: seq<DailyAggregate>, r: DailyAggregate, before: map<UserId, seq<DailyAggregate>>, after: map<UserId, seq<DailyAggregate>>)
    requires forall u :: u in before <==> HasRows(done, u)
    requires forall u :: u in before ==> before[u] == RowsOf(done, u)
    requires forall u :: u !in before ==> RowsOf(done, u) == []
    requires after == before[r.userId := (if r.userId in before then before[r.userId] else []) + [r]]
    ensures forall u :: u in after <==> HasRows(done + [r], u)
    ensures forall u :: u in after ==> after[u] == RowsOf(done + [r], u)
    ensures forall u :: u !in after ==> RowsOf(done + [r], u) == []
  {
    var all := done + [r];
    assert all[..|all| - 1] == done;
    forall u ensures u in after <==> HasRows(all, u) {
      HasRowsSnoc(done, r, u);
    }
  }

  lemma HasRowsSnoc(done: seq<DailyAggregate>, r: DailyAggregate, u: UserId)
    ensures HasRows(done + [r], u) <==> HasRows(done, u) || r.userId == u
  {
    var all := done + [r];
    if HasRows(all, u) && r.userId != u {
      var i :| 0 <= i < |all| && all[i].userId == u;
      assert done[i].userId == u;
    }
    if HasRows(done, u) {
      var i :| 0 <= i < |done| && done[i].userId == u;
      assert all[i].userId == u;
    }
    if r.userId == u {
      assert all[|done|].userId == u;
    }
  }

  /** Which column of aggregates_daily a sum adds up. */
  datatype DailyColumn = Personal | Team | Total

  function Column(r: DailyAggregate, c: DailyColumn): real
  {
    match c
    case Personal => r.personalHours
    case Team => r.teamHours
    case Total => r.totalHours
  }

  /** The sum of column `c` over `rows`. */
  function SumColumn(rows: seq<DailyAggregate>, c: DailyColumn): real
  {
    if rows == [] then 0.0 else SumColumn(rows[..|rows| - 1], c) + Column(rows[|rows| - 1], c)
  }

  /** The daily rows are consistent: each total is personal plus team, as
      calculateDailyAggregatesForDate writes them. */
  predicate TotalsConsistent(rows: seq<DailyAggregate>)
  {
    forall i :: 0 <= i < |rows| ==> rows[i].totalHours == rows[i].personalHours + rows[i].teamHours
  }

  /** Adding up personal and team sums gives the sum of the daily totals. */
  lemma {:induction false} SumOfTotals(rows: seq<DailyAggregate>)
    requires TotalsConsistent(rows)
    ensures SumColumn(rows, Total) == SumColumn(rows, Personal) + SumColumn(rows, Team)
  {
    if rows != [] {
      var init := rows[..|rows| - 1];
      assert TotalsConsistent(init) by {
        forall i | 0 <= i < |init| ensures init[i].totalHours == init[i].personalHours + init[i].teamHours {
          assert init[i] == rows[i];
        }
      }
      SumOfTotals(init);
      assert rows[|rows| - 1].totalHours == rows[|rows| - 1].personalHours + rows[|rows| - 1].teamHours;
    }
  }

  lemma {:induction false} RowsOfConsistent(rows: seq<DailyAggregate>, u: UserId)
    requires TotalsConsistent(rows)
    ensures TotalsConsistent(RowsOf(rows, u))
    ensures forall r :: r in RowsOf(rows, u) ==> r in rows && r.userId == u
  {
    if rows != [] {
      var init := rows[..|rows| - 1];
      assert TotalsConsistent(init) by {
        forall i | 0 <= i < |init| ensures init[i].totalHours == init[i].personalHours + init[i].teamHours {
          assert init[i] == rows[i];
        }
      }
      RowsOfConsistent(init, u);
      var r := rows[|rows| - 1];
      var rs := RowsOf(rows, u);
      forall i | 0 <= i < |rs| ensures rs[i].totalHours == rs[i].personalHours + rs[i].teamHours {
        if i < |RowsOf(init, u)| {
          assert rs[i] == RowsOf(init, u)[i];
        } else {
          assert rs[i] == r;
        }
      }
    }
  }

  /** The share of the target reached, in percent; 0 when the target is not positive. */
  function TargetPercent(total: real, target: real): real
  {
    if target > 0.0 then total / target * 100.0 else 0.0
  }

  /** The row recalculateSeasonAggregates writes for assignment `a`. */
  function SeasonRow(daily: seq<DailyAggregate>, xs: seq<Assignment>, a: Assignment, season: Season): SeasonAggregate
  {
    SeasonRowOf(RowsOf(daily, a.userId), xs, a, season)
  }

  /** The season row of `a` from its daily rows `rows`. */
  function SeasonRowOf(rows: seq<DailyAggregate>, xs: seq<Assignment>, a: Assignment, season: Season): SeasonAggregate
  {
    SeasonRowWith(rows, a, UnitTarget(season) * Units(xs, a))
  }

  /** The season row of `a` from its daily rows and its target. */
  function SeasonRowWith(rows: seq<DailyAggregate>, a: Assignment, target: real): SeasonAggregate
  {
    var personalTotal := SumColumn(rows, Personal);
    var teamTotal := SumColumn(rows, Team);
    var total := personalTotal + teamTotal;
    SeasonAggregate(a.userId, a.role, personalTotal, teamTotal, total, target, TargetPercent(total, target), None, None)
  }

  /** What a season row holds: sums over the user's own daily rows, a total
      that is also the sum of the daily totals, a target that is positive
      exactly when dailyTargetHours × daysCount is, the share of the target
      reached, and no ranks yet. */
  lemma SeasonRowIsSumOfDays(daily: seq<DailyAggregate>, xs: seq<Assignment>, a: Assignment, season: Season)
    requires TotalsConsistent(daily)
    ensures var r := SeasonRow(daily, xs, a, season);
      && r.userId == a.userId && r.role == a.role
      && r.personalTotal == SumColumn(RowsOf(daily, a.userId), Personal)
      && r.teamTotal == SumColumn(RowsOf(daily, a.userId), Team)
      && r.total == SumColumn(RowsOf(daily, a.userId), Total)
      && r.total == r.personalTotal + r.teamTotal
      && r.rankInGroup.None? && r.sotnikRank.None?
  {
    RowsOfConsistent(daily, a.userId);
    SumOfTotals(RowsOf(daily, a.userId));
  }

  /** The target is the unit target times the headcount of the member's
      team, so it is positive exactly when dailyTargetHours × daysCount is,
      and the percentage is of that target. */
  lemma SeasonRowTargetShare(daily: seq<DailyAggregate>, xs: seq<Assignment>, a: Assignment, season: Season)
    requires DistinctUsers(xs)
    ensures var r := SeasonRow(daily, xs, a, season);
      && r.target == UnitTarget(season) * Units(xs, a)
      && (r.target > 0.0 <==> UnitTarget(season) > 0.0)
      && r.targetPercent == (if UnitTarget(season) > 0.0 then r.total / r.target * 100.0 else 0.0)
  {
    var rows := RowsOf(daily, a.userId);
    var unitTarget, units := UnitTarget(season), Units(xs, a);
    assert SeasonRow(daily, xs, a, season) == SeasonRowWith(rows, a, unitTarget * units);
    UnitsAtLeastOne(xs, a);
    SeasonRowTarget(rows, a, unitTarget, units);
  }

  lemma SeasonRowTarget(rows: seq<DailyAggregate>, a: Assignment, unitTarget: real, units: real)
    requires units >= 1.0
    ensures var r := SeasonRowWith(rows, a, unitTarget * units);
      && (r.target > 0.0 <==> unitTarget > 0.0)
      && r.targetPercent == (if unitTarget > 0.0 then r.total / r.target * 100.0 else 0.0)
  {
    var r := SeasonRowWith(rows, a, unitTarget * units);
    PercentShape(unitTarget, units, r.total, r.target, r.targetPercent);
  }

  lemma PercentShape(unitTarget: real, units: real, total: real, target: real, percent: real)
    requires units >= 1.0 && target == unitTarget * units && percent == TargetPercent(total, target)
    ensures target > 0.0 <==> unitTarget > 0.0
    ensures percent == if unitTarget > 0.0 then total / target * 100.0 else 0.0
  {
    TargetSign(unitTarget, units);
  }

  lemma UnitsAtLeastOne(xs: seq<Assignment>, a: Assignment)
    requires DistinctUsers(xs)
    ensures Units(xs, a) >= 1.0
  {
    UnitsAreHeadcount(xs, a);
  }

  lemma TargetSign(unitTarget: real, units: real)
    requires units >= 1.0
    ensures unitTarget * units > 0.0 <==> unitTarget > 0.0
  {
    if unitTarget > 0.0 {
      assert unitTarget * units >= unitTarget * 1.0;
    } else {
      assert unitTarget * units <= 0.0;
    }
  }

  /** The body of the assignment loop of recalculateSeasonAggregates. */
  method UserSeasonRow(a: Assignment, userAggregates: seq<DailyAggregate>, xs: seq<Assignment>, season: Season)
    returns (row: SeasonAggregate)
    ensures row == SeasonRowOf(userAggregates, xs, a, season)
  {
    var personalTotal := SumColumn(userAggregates, Personal);
    var teamTotal := SumColumn(userAggregates, Team);
    var total := personalTotal + teamTotal;
    var target := CalculateUserTarget(a, xs, season);
    var targetPercent := if target > 0.0 then total / target * 100.0 else 0.0;
    PercentOf(total, target, targetPercent);
    SeasonRowIs(userAggregates, xs, a, season, personalTotal, teamTotal, target, targetPercent);
    row := SeasonAggregate(a.userId, a.role, personalTotal, teamTotal, total, target, targetPercent, None, None);
  }

  lemma PercentOf(total: real, target: real, percent: real)
    requires percent == if target > 0.0 then total / target * 100.0 else 0.0
    ensures percent == TargetPercent(total, target)
  {
  }

  lemma SeasonRowIs(rows: seq<DailyAggregate>, xs: seq<Assignment>, a: Assignment, season: Season,
                    personal: real, team: real, target: real, percent: real)
    requires personal == SumColumn(rows, Personal) && team == SumColumn(rows, Team)
    requires target == UnitTarget(season) * Units(xs, a)
    requires percent == TargetPercent(personal + team, target)
    ensures SeasonAggregate(a.userId, a.role, personal, team, personal + team, target, percent, None, None)
         == SeasonRowOf(rows, xs, a, season)
  {
    assert SeasonRowOf(rows, xs, a, season) == SeasonRowWith(rows, a, target);
    SeasonRowWithIs(rows, a, personal, team, target, percent);
  }

  lemma SeasonRowWithIs(rows: seq<DailyAggregate>, a: Assignment, personal: real, team: real, target: real, percent: real)
    requires personal == SumColumn(rows, Personal) && team == SumColumn(rows, Team)
    requires percent == TargetPercent(personal + team, target)
    ensures SeasonAggregate(a.userId, a.role, personal, team, personal + team, target, percent, None, None)
         == SeasonRowWith(rows, a, target)
  {
  }

  /** The season row of user `u` once the assignments `done` are written. */
  function SeasonLookup(table: seq<SeasonAggregate>, daily: seq<DailyAggregate>, done: seq<Assignment>,
                        xs: seq<Assignment>, season: Season, u: UserId): Option<SeasonAggregate>
  {
    var last := LastByUser(done, u);
    if last.Some? then Some(SeasonRow(daily, xs, last.value, season)) else Find(table, SeasonKey, u)
  }

  /** recalculateSeasonAggregates: one season row per assignment, built
      from the daily rows (`daily`) of the season. */
  method RecalculateSeasonAggregates(table: seq<SeasonAggregate>, daily: seq<DailyAggregate>, xs: seq<Assignment>, season: Season)
    returns (out: seq<SeasonAggregate>)
    ensures forall u :: Find(out, SeasonKey, u) == SeasonLookup(table, daily, xs, xs, season, u)
  {
    var byUser := GroupByUser(daily);
    out := table;
    var i := 0;
    while i < |xs|
      invariant 0 <= i <= |xs|
      invariant forall u :: Find(out, SeasonKey, u) == SeasonLookup(table, daily, xs[..i], xs, season, u)
    {
      assert xs[..i + 1] == xs[..i] + [xs[i]];
      ghost var before := out;
      out := UpsertSeasonRow(out, byUser, daily, xs, xs[i], season);
      SeasonLookupStep(table, daily, xs[..i], xs[i], xs, season, before, out);
      i := i + 1;
    }
    assert xs[..i] == xs;
  }

  /** The loop body of recalculateSeasonAggregates for assignment `a`. */
  method UpsertSeasonRow(table: seq<SeasonAggregate>, byUser: map<UserId, seq<DailyAggregate>>, daily: seq<DailyAggregate>,
                         xs: seq<Assignment>, a: Assignment, season: Season) returns (out: seq<SeasonAggregate>)
    requires forall u :: u in byUser ==> byUser[u] == RowsOf(daily, u)
    requires forall u :: u !in byUser ==> RowsOf(daily, u) == []
    ensures out == Upsert(table, SeasonKey, SeasonRow(daily, xs, a, season))
  {
    var userAggregates := if a.userId in byUser then byUser[a.userId] else [];
    assert userAggregates == RowsOf(daily, a.userId);
    var row := UserSeasonRow(a, userAggregates, xs, season);
    out := Upsert(table, SeasonKey, row);
  }

  /** One pass of the loop of recalculateSeasonAggregates. */
  lemma SeasonLookupStep(table: seq<SeasonAggregate>, daily: seq<DailyAggregate>, done: seq<Assignment>, a: Assignment,
                         xs: seq<Assignment>, season: Season, before: seq<SeasonAggregate>, after: seq<SeasonAggregate>)
    requires forall u :: Find(before, SeasonKey, u) == SeasonLookup(table, daily, done, xs, season, u)
    requires after == Upsert(before, SeasonKey, SeasonRow(daily, xs, a, season))
    ensures forall u :: Find(after, SeasonKey, u) == SeasonLookup(table, daily, done + [a], xs, season, u)
  {
    var all := done + [a];
    assert all[|all| - 1] == a && all[..|all| - 1] == done;
  }

  // ---------------------------------------------------------------------
  // Rankings

  /** The user ids of a list of season rows. */
  function RowUsers(stats: seq<SeasonAggregate>): set<UserId>
  {
    set s | s in stats :: s.userId
  }

  /** No two rows of `stats` belong to the same user. */
  predicate DistinctRowUsers(stats: seq<SeasonAggregate>)
  {
    forall i, j :: 0 <= i < j < |stats| ==> stats[i].userId != stats[j].userId
  }

  /** The season rows of the members that have one, in the group's order. */
  function Present(rows: seq<SeasonAggregate>, group: seq<Assignment>): (r: seq<SeasonAggregate>)
    ensures forall s :: s in r ==> s.userId in UserIds(group) && Find(rows, SeasonKey, s.userId) == Some(s)
    ensures forall m :: m in group && Find(rows, SeasonKey, m.userId).Some? ==> Find(rows, SeasonKey, m.userId).value in r
  {
    if group == [] then []
    else
      var init, m := group[..|group| - 1], group[|group| - 1];
      UserIdsSnoc(group);
      var found := Find(rows, SeasonKey, m.userId);
      Present(rows, init) + (if found.Some? then [found.value] else [])
  }

  /** With one assignment per user, the rows found are of distinct users. */
  lemma {:induction false} PresentDistinct(rows: seq<SeasonAggregate>, group: seq<Assignment>)
    requires DistinctUsers(group)
    ensures DistinctRowUsers(Present(rows, group))
  {
    if group != [] {
      var init, m := group[..|group| - 1], group[|group| - 1];
      LastIdIsNew(group);
      PresentDistinct(rows, init);
      var found := Find(rows, SeasonKey, m.userId);
      var prev := Present(rows, init);
      var r := prev + (if found.Some? then [found.value] else []);
      assert Present(rows, group) == r;
      if found.Some? {
        forall i | 0 <= i < |prev| ensures prev[i].userId != found.value.userId {
          assert prev[i] in prev;
        }
      }
    }
  }

  /** Each row of `stats` is the table's row of its user. */
  predicate Keyed(rows: seq<SeasonAggregate>, stats: seq<SeasonAggregate>)
  {
    forall s :: s in stats ==> Find(rows, SeasonKey, s.userId) == Some(s)
  }

  /** Reordering the rows of a keyed list keeps one row per user. */
  lemma PermutationKeepsDistinct(rows: seq<SeasonAggregate>, a: seq<SeasonAggregate>, b: seq<SeasonAggregate>)
    requires multiset(a) == multiset(b) && DistinctRowUsers(a) && Keyed(rows, a)
    ensures DistinctRowUsers(b) && Keyed(rows, b)
  {
    forall s | s in b ensures Find(rows, SeasonKey, s.userId) == Some(s) {
      assert s in multiset(b);
    }
    forall i, j | 0 <= i < j < |b| ensures b[i].userId != b[j].userId {
      if b[i].userId == b[j].userId {
        assert b[i] in multiset(b) && b[j] in multiset(b);
        assert b[i] == b[j];
        assert NoRepeats(a) by {
          forall p, q | 0 <= p < q < |a| ensures a[p] != a[q] {
            assert a[p].userId != a[q].userId;
          }
        }
        PermutationNoRepeats(a, b);
        assert false;
      }
    }
  }

  /** The table after `stats[i]` has been given rank i + 1, for each i < n
      in turn, as the rank loop writes them. */
  function RankPrefix(rows: seq<SeasonAggregate>, stats: seq<SeasonAggregate>, field: RankField, n: nat): seq<SeasonAggregate>
    requires n <= |stats|
  {
    if n == 0 then rows else SetRank(RankPrefix(rows, stats, field, n - 1), stats[n - 1].userId, field, n)
  }

  /** Ranking a list with one row per user gives the row at position i the
      rank i + 1 and leaves every other user's row alone. */
  lemma {:induction false} RankPrefixLookup(rows: seq<SeasonAggregate>, stats: seq<SeasonAggregate>, field: RankField, n: nat)
    requires n <= |stats| && DistinctRowUsers(stats)
    ensures forall i :: 0 <= i < n ==>
              Find(RankPrefix(rows, stats, field, n), SeasonKey, stats[i].userId)
              == RankedLookup(rows, stats[i].userId, field, i + 1, stats[i].userId)
    ensures forall v :: v !in RowUsers(stats[..n]) ==>
              Find(RankPrefix(rows, stats, field, n), SeasonKey, v) == Find(rows, SeasonKey, v)
  {
    forall i | 0 <= i < n
      ensures Find(RankPrefix(rows, stats, field, n), SeasonKey, stats[i].userId)
           == RankedLookup(rows, stats[i].userId, field, i + 1, stats[i].userId)
    {
      RankPrefixHit(rows, stats, field, n, i);
    }
    forall v | v !in RowUsers(stats[..n])
      ensures Find(RankPrefix(rows, stats, field, n), SeasonKey, v) == Find(rows, SeasonKey, v)
    {
      RankPrefixMiss(rows, stats, field, n, v);
    }
  }

  lemma RankPrefixHit(rows: seq<SeasonAggregate>, stats: seq<SeasonAggregate>, field: RankField, n: nat, i: nat)
    requires i < n <= |stats| && DistinctRowUsers(stats)
    ensures Find(RankPrefix(rows, stats, field, n), SeasonKey, stats[i].userId)
         == RankedLookup(rows, stats[i].userId, field, i + 1, stats[i].userId)
  {
    var u := stats[i].userId;
    forall j | 0 <= j < i ensures stats[j].userId != u {
      assert 0 <= j < i < |stats|;
    }
    forall j | i + 1 <= j < n ensures stats[j].userId != u {
      assert 0 <= i < j < |stats|;
    }
    var before, after := RankPrefix(rows, stats, field, i), RankPrefix(rows, stats, field, i + 1);
    RankPrefixFrom(rows, stats, field, 0, i, u);
    RankPrefixFrom(rows, stats, field, i + 1, n, u);
    RankPrefixUnfold(rows, stats, field, i + 1);
    SetRankHit(before, after, u, field, i + 1);
    RankedLookupSame(before, rows, u, field, i + 1);
    assert Find(after, SeasonKey, u) == RankedLookup(rows, u, field, i + 1, u);
  }

  lemma SetRankHit(rows: seq<SeasonAggregate>, out: seq<SeasonAggregate>, u: UserId, field: RankField, rank: nat)
    requires out == SetRank(rows, u, field, rank)
    ensures Find(out, SeasonKey, u) == RankedLookup(rows, u, field, rank, u)
  {
    SetRankLookup(rows, u, field, rank, u);
  }

  lemma RankPrefixMiss(rows: seq<SeasonAggregate>, stats: seq<SeasonAggregate>, field: RankField, n: nat, v: UserId)
    requires n <= |stats| && v !in RowUsers(stats[..n])
    ensures Find(RankPrefix(rows, stats, field, n), SeasonKey, v) == Find(rows, SeasonKey, v)
  {
    forall j | 0 <= j < n ensures stats[j].userId != v {
      assert stats[..n][j] == stats[j];
    }
    RankPrefixFrom(rows, stats, field, 0, n, v);
  }

  /** Ranks written for other users leave the row of `v` alone. */
  lemma {:induction false} RankPrefixFrom(rows: seq<SeasonAggregate>, stats: seq<SeasonAggregate>, field: RankField, i: nat, n: nat, v: UserId)
    requires i <= n <= |stats|
    requires forall j :: i <= j < n ==> stats[j].userId != v
    ensures Find(RankPrefix(rows, stats, field, n), SeasonKey, v) == Find(RankPrefix(rows, stats, field, i), SeasonKey, v)
    decreases n - i
  {
    if n > i {
      var before, after := RankPrefix(rows, stats, field, n - 1), RankPrefix(rows, stats, field, n);
      RankPrefixFrom(rows, stats, field, i, n - 1, v);
      RankPrefixUnfold(rows, stats, field, n);
      SetRankOther(before, after, stats[n - 1].userId, field, n, v);
      assert Find(after, SeasonKey, v) == Find(before, SeasonKey, v);
    }
  }

  lemma SetRankOther(rows: seq<SeasonAggregate>, out: seq<SeasonAggregate>, u: UserId, field: RankField, rank: nat, v: UserId)
    requires out == SetRank(rows, u, field, rank) && u != v
    ensures Find(out, SeasonKey, v) == Find(rows, SeasonKey, v)
  {
    SetRankLookup(rows, u, field, rank, v);
  }

  lemma RankPrefixUnfold(rows: seq<SeasonAggregate>, stats: seq<SeasonAggregate>, field: RankField, n: nat)
    requires 0 < n <= |stats|
    ensures RankPrefix(rows, stats, field, n) == SetRank(RankPrefix(rows, stats, field, n - 1), stats[n - 1].userId, field, n)
  {
  }

  lemma RankedLookupSame(t: seq<SeasonAggregate>, rows: seq<SeasonAggregate>, u: UserId, field: RankField, rank: nat)
    requires Find(t, SeasonKey, u) == Find(rows, SeasonKey, u)
    ensures RankedLookup(t, u, field, rank, u) == RankedLookup(rows, u, field, rank, u)
  {
  }

  /** The table after every group of `groups[..g]` has been ranked in turn. */
  function RankGroups(rows: seq<SeasonAggregate>, groups: seq<seq<SeasonAggregate>>, field: RankField, g: nat): seq<SeasonAggregate>
    requires g <= |groups|
  {
    if g == 0 then rows
    else RankPrefix(RankGroups(rows, groups, field, g - 1), groups[g - 1], field, |groups[g - 1]|)
  }

  /** The users of the first `g` groups. */
  function GroupUsers(groups: seq<seq<SeasonAggregate>>, g: nat): set<UserId>
    requires g <= |groups|
  {
    if g == 0 then {} else GroupUsers(groups, g - 1) + RowUsers(groups[g - 1])
  }

  /** Every group has one row per user and no user is in two groups. */
  predicate GroupsDisjoint(groups: seq<seq<SeasonAggregate>>)
  {
    && (forall k :: 0 <= k < |groups| ==> DistinctRowUsers(groups[k]))
    && (forall k1, k2, s :: 0 <= k1 < k2 < |groups| && s in groups[k1] ==> s.userId !in RowUsers(groups[k2]))
  }

  lemma {:induction false} GroupUsersMembers(groups: seq<seq<SeasonAggregate>>, g: nat, v: UserId)
    requires g <= |groups|
    ensures v in GroupUsers(groups, g) <==> exists k :: 0 <= k < g && v in RowUsers(groups[k])
  {
    if g > 0 {
      GroupUsersMembers(groups, g - 1, v);
    }
  }

  /** Ranking one group leaves the rows of users outside it alone. */
  lemma RankPrefixKeeps(prev: seq<SeasonAggregate>, last: seq<SeasonAggregate>, field: RankField, v: UserId)
    requires DistinctRowUsers(last) && v !in RowUsers(last)
    ensures Find(RankPrefix(prev, last, field, |last|), SeasonKey, v) == Find(prev, SeasonKey, v)
  {
    RankPrefixLookup(prev, last, field, |last|);
    assert last[..|last|] == last;
  }

  /** Ranking one group gives its i-th member the rank i + 1. */
  lemma RankPrefixAt(prev: seq<SeasonAggregate>, last: seq<SeasonAggregate>, field: RankField, i: nat)
    requires DistinctRowUsers(last) && i < |last|
    ensures Find(RankPrefix(prev, last, field, |last|), SeasonKey, last[i].userId)
         == RankedLookup(prev, last[i].userId, field, i + 1, last[i].userId)
  {
    RankPrefixLookup(prev, last, field, |last|);
  }

  /** Ranking one group on top of a table that agrees with `rows` on the
      i-th member gives that member the rank i + 1 of its row in `rows`. */
  lemma RankPrefixOver(rows: seq<SeasonAggregate>, prev: seq<SeasonAggregate>, last: seq<SeasonAggregate>, field: RankField, i: nat)
    requires DistinctRowUsers(last) && i < |last|
    requires Find(prev, SeasonKey, last[i].userId) == Find(rows, SeasonKey, last[i].userId)
    ensures Find(RankPrefix(prev, last, field, |last|), SeasonKey, last[i].userId)
         == RankedLookup(rows, last[i].userId, field, i + 1, last[i].userId)
  {
    RankPrefixAt(prev, last, field, i);
  }

  /** Ranking groups leaves the rows of users outside them alone. */
  lemma {:induction false} RankGroupsOutside(rows: seq<SeasonAggregate>, groups: seq<seq<SeasonAggregate>>, field: RankField, g: nat, v: UserId)
    requires g <= |groups| && GroupsDisjoint(groups) && v !in GroupUsers(groups, g)
    ensures Find(RankGroups(rows, groups, field, g), SeasonKey, v) == Find(rows, SeasonKey, v)
  {
    if g > 0 {
      RankGroupsOutside(rows, groups, field, g - 1, v);
      RankPrefixKeeps(RankGroups(rows, groups, field, g - 1), groups[g - 1], field, v);
    }
  }

  /** A member of group k is in no later group. */
  lemma LaterGroupMisses(groups: seq<seq<SeasonAggregate>>, k: nat, k2: nat, i: nat)
    requires GroupsDisjoint(groups) && k < k2 < |groups| && i < |groups[k]|
    ensures groups[k][i].userId !in RowUsers(groups[k2])
  {
    assert groups[k][i] in groups[k];
  }

  /** A member of group g is in none of the groups before it. */
  lemma EarlierGroupsMiss(groups: seq<seq<SeasonAggregate>>, g: nat, i: nat)
    requires GroupsDisjoint(groups) && g < |groups| && i < |groups[g]|
    ensures groups[g][i].userId !in GroupUsers(groups, g)
  {
    var v := groups[g][i].userId;
    assert groups[g][i] in groups[g];
    GroupUsersMembers(groups, g, v);
    forall k', s | 0 <= k' < g && s in groups[k'] ensures s.userId != v {
      assert s.userId !in RowUsers(groups[g]);
    }
  }

  /** Ranking disjoint groups one after the other gives each member the rank
      of its position in its own group. */
  lemma {:induction false} RankGroupsMember(rows: seq<SeasonAggregate>, groups: seq<seq<SeasonAggregate>>, field: RankField,
                                            g: nat, k: nat, i: nat)
    requires g <= |groups| && GroupsDisjoint(groups) && k < g && i < |groups[k]|
    ensures Find(RankGroups(rows, groups, field, g), SeasonKey, groups[k][i].userId)
         == RankedLookup(rows, groups[k][i].userId, field, i + 1, groups[k][i].userId)
  {
    if k < g - 1 {
      RankGroupsMember(rows, groups, field, g - 1, k, i);
      LaterGroupMisses(groups, k, g - 1, i);
      RankPrefixKeeps(RankGroups(rows, groups, field, g - 1), groups[g - 1], field, groups[k][i].userId);
    } else {
      RankLastGroupMember(rows, groups, field, g, i);
    }
  }

  lemma RankLastGroupMember(rows: seq<SeasonAggregate>, groups: seq<seq<SeasonAggregate>>, field: RankField, g: nat, i: nat)
    requires 0 < g <= |groups| && GroupsDisjoint(groups) && i < |groups[g - 1]|
    ensures Find(RankGroups(rows, groups, field, g), SeasonKey, groups[g - 1][i].userId)
         == RankedLookup(rows, groups[g - 1][i].userId, field, i + 1, groups[g - 1][i].userId)
  {
    EarlierGroupsMiss(groups, g - 1, i);
    RankGroupsOutside(rows, groups, field, g - 1, groups[g - 1][i].userId);
    RankPrefixOver(rows, RankGroups(rows, groups, field, g - 1), groups[g - 1], field, i);
  }

  /** The members of one ranking group, best first: the season rows of the
      assignments `sel` picks, sorted by the comparator `key`. */
  function Stats(snapshot: seq<SeasonAggregate>, xs: seq<Assignment>, sel: Selector, key: SortKey): seq<SeasonAggregate>
  {
    SortDesc(Present(snapshot, Filter(xs, sel)), Self, key)
  }

  /** A sorted group has one row per user, each the table's row of its user,
      and it holds the row of every selected assignment that has one. */
  lemma StatsAreKeyed(snapshot: seq<SeasonAggregate>, xs: seq<Assignment>, sel: Selector, key: SortKey)
    requires DistinctUsers(xs)
    ensures DistinctRowUsers(Stats(snapshot, xs, sel, key)) && Keyed(snapshot, Stats(snapshot, xs, sel, key))
    ensures forall a :: a in xs && Selects(sel, a) && Find(snapshot, SeasonKey, a.userId).Some? ==>
              Find(snapshot, SeasonKey, a.userId).value in Stats(snapshot, xs, sel, key)
    ensures forall s :: s in Stats(snapshot, xs, sel, key) ==> s.userId in UserIds(Filter(xs, sel))
  {
    var present := Present(snapshot, Filter(xs, sel));
    var sorted := Stats(snapshot, xs, sel, key);
    PresentDistinct(snapshot, Filter(xs, sel));
    PermutationKeepsDistinct(snapshot, present, sorted);
    forall a | a in xs && Selects(sel, a) && Find(snapshot, SeasonKey, a.userId).Some?
      ensures Find(snapshot, SeasonKey, a.userId).value in sorted
    {
      assert Find(snapshot, SeasonKey, a.userId).value in multiset(present);
    }
    forall s | s in sorted ensures s.userId in UserIds(Filter(xs, sel)) {
      assert s in multiset(sorted);
    }
  }

  /** An assignment that `sel` does not pick has no row in its group. */
  lemma NotInStats(snapshot: seq<SeasonAggregate>, xs: seq<Assignment>, sel: Selector, key: SortKey, a: Assignment)
    requires DistinctUsers(xs) && a in xs && !Selects(sel, a)
    ensures a.userId !in RowUsers(Stats(snapshot, xs, sel, key))
  {
    StatsAreKeyed(snapshot, xs, sel, key);
    forall s | s in Stats(snapshot, xs, sel, key) ensures s.userId != a.userId {
      var m :| m in Filter(xs, sel) && m.userId == s.userId;
      var i :| 0 <= i < |xs| && xs[i] == m;
      var j :| 0 <= j < |xs| && xs[j] == a;
      assert i != j;
    }
  }

  /** The groups of a rank pass: for each parent, its children of `role`,
      best first by compareResults. */
  function SortedGroups(snapshot: seq<SeasonAggregate>, xs: seq<Assignment>, parents: seq<Assignment>, role: Role)
    : seq<seq<SeasonAggregate>>
  {
    seq(|parents|, k requires 0 <= k < |parents| => Stats(snapshot, xs, Under(role, {parents[k].userId}), ByResults))
  }

  /** With one assignment per user, the groups of distinct parents are disjoint. */
  lemma SortedGroupsDisjoint(snapshot: seq<SeasonAggregate>, xs: seq<Assignment>, parents: seq<Assignment>, role: Role)
    requires DistinctUsers(xs) && DistinctUsers(parents)
    ensures GroupsDisjoint(SortedGroups(snapshot, xs, parents, role))
  {
    var groups: seq<seq<SeasonAggregate>> := SortedGroups(snapshot, xs, parents, role);
    forall k | 0 <= k < |groups| ensures DistinctRowUsers(groups[k]) {
      StatsAreKeyed(snapshot, xs, Under(role, {parents[k].userId}), ByResults);
    }
    forall k1, k2, s: SeasonAggregate | 0 <= k1 < k2 < |groups| && s in groups[k1] ensures s.userId !in RowUsers(groups[k2]) {
      forall s2: SeasonAggregate | s2 in groups[k2] ensures s2.userId != s.userId {
        ChildrenApart(snapshot, xs, role, parents[k1].userId, parents[k2].userId, s, s2);
      }
    }
  }

  /** Rows in the groups of two different parents belong to different users. */
  lemma ChildrenApart(snapshot: seq<SeasonAggregate>, xs: seq<Assignment>, role: Role, p1: UserId, p2: UserId,
                      s1: SeasonAggregate, s2: SeasonAggregate)
    requires DistinctUsers(xs) && p1 != p2
    requires s1 in Stats(snapshot, xs, Under(role, {p1}), ByResults)
    requires s2 in Stats(snapshot, xs, Under(role, {p2}), ByResults)
    ensures s1.userId != s2.userId
  {
    StatsAreKeyed(snapshot, xs, Under(role, {p1}), ByResults);
    StatsAreKeyed(snapshot, xs, Under(role, {p2}), ByResults);
    var m1 :| m1 in Filter(xs, Under(role, {p1})) && m1.userId == s1.userId;
    var m2 :| m2 in Filter(xs, Under(role, {p2})) && m2.userId == s2.userId;
    ParentsApart(xs, role, p1, p2, m1, m2);
  }

  /** Children of two different parents are different users. */
  lemma ParentsApart(xs: seq<Assignment>, role: Role, p1: UserId, p2: UserId, m1: Assignment, m2: Assignment)
    requires DistinctUsers(xs) && p1 != p2
    requires m1 in Filter(xs, Under(role, {p1})) && m2 in Filter(xs, Under(role, {p2}))
    ensures m1.userId != m2.userId
  {
    assert m1 in xs && Selects(Under(role, {p1}), m1);
    assert m2 in xs && Selects(Under(role, {p2}), m2);
    assert Link(m1) == Some(p1) && Link(m2) == Some(p2);
    var i :| 0 <= i < |xs| && xs[i] == m1;
    var j :| 0 <= j < |xs| && xs[j] == m2;
    if i != j {
      assert xs[i].userId != xs[j].userId;
    }
  }

  /** An assignment that is not a child of `role` under one of `parents` is
      in none of the groups. */
  lemma NotInSortedGroups(snapshot: seq<SeasonAggregate>, xs: seq<Assignment>, parents: seq<Assignment>, role: Role, a: Assignment)
    requires DistinctUsers(xs) && a in xs && !Selects(Under(role, UserIds(parents)), a)
    ensures a.userId !in GroupUsers(SortedGroups(snapshot, xs, parents, role), |parents|)
  {
    var groups: seq<seq<SeasonAggregate>> := SortedGroups(snapshot, xs, parents, role);
    GroupUsersMembers(groups, |parents|, a.userId);
    forall k | 0 <= k < |parents| ensures a.userId !in RowUsers(groups[k]) {
      assert parents[k] in parents;
      NotInStats(snapshot, xs, Under(role, {parents[k].userId}), ByResults, a);
    }
  }

  /** The rank loop: the i-th row of `stats` gets rank i + 1 in `field`. */
  method RankStats(table: seq<SeasonAggregate>, stats: seq<SeasonAggregate>, field: RankField) returns (out: seq<SeasonAggregate>)
    ensures out == RankPrefix(table, stats, field, |stats|)
  {
    out := table;
    for i := 0 to |stats|
      invariant out == RankPrefix(table, stats, field, i)
    {
      out := SetRank(out, stats[i].userId, field, i + 1);
    }
  }

  /** One group of a rank pass: sort the members' rows and write their ranks. */
  method RankGroup(table: seq<SeasonAggregate>, snapshot: seq<SeasonAggregate>, xs: seq<Assignment>, sel: Selector)
    returns (out: seq<SeasonAggregate>)
    ensures out == RankPrefix(table, Stats(snapshot, xs, sel, ByResults), RankInGroup, |Stats(snapshot, xs, sel, ByResults)|)
  {
    var members := Filter(xs, sel);
    var stats := SortDesc(Present(snapshot, members), Self, ByResults);
    out := RankStats(table, stats, RankInGroup);
  }

  /** The table after the groups of the first `k` parents have been ranked. */
  function RankChildrenUpTo(table: seq<SeasonAggregate>, snapshot: seq<SeasonAggregate>, xs: seq<Assignment>,
                            parents: seq<Assignment>, role: Role, k: nat): seq<SeasonAggregate>
    requires k <= |parents|
  {
    RankGroups(table, SortedGroups(snapshot, xs, parents, role), RankInGroup, k)
  }

  /** Ranking one more parent's group: the rows of its children, sorted. */
  lemma RankChildrenStep(table: seq<SeasonAggregate>, snapshot: seq<SeasonAggregate>, xs: seq<Assignment>,
                         parents: seq<Assignment>, role: Role, k: nat)
    requires k < |parents|
    ensures var stats := Stats(snapshot, xs, Under(role, {parents[k].userId}), ByResults);
      RankChildrenUpTo(table, snapshot, xs, parents, role, k + 1)
      == RankPrefix(RankChildrenUpTo(table, snapshot, xs, parents, role, k), stats, RankInGroup, |stats|)
  {
    var groups: seq<seq<SeasonAggregate>> := SortedGroups(snapshot, xs, parents, role);
    assert groups[k] == Stats(snapshot, xs, Under(role, {parents[k].userId}), ByResults);
  }

  /** The loop shared by the two group rank passes: for each parent, rank its
      children of `role` that have a season row, with rows looked up in the
      `snapshot` taken before any rank was written. */
  method RankChildren(table: seq<SeasonAggregate>, snapshot: seq<SeasonAggregate>, xs: seq<Assignment>,
                      parents: seq<Assignment>, role: Role) returns (out: seq<SeasonAggregate>)
    ensures out == RankChildrenUpTo(table, snapshot, xs, parents, role, |parents|)
  {
    out := table;
    for k := 0 to |parents|
      invariant out == RankChildrenUpTo(table, snapshot, xs, parents, role, k)
    {
      RankChildrenStep(table, snapshot, xs, parents, role, k);
      out := RankGroup(out, snapshot, xs, Under(role, {parents[k].userId}));
    }
  }

  /** updateDriverRankingsInDecurionGroups */
  method UpdateDriverRankingsInDecurionGroups(table: seq<SeasonAggregate>, snapshot: seq<SeasonAggregate>, xs: seq<Assignment>)
    returns (out: seq<SeasonAggregate>)
    ensures out == RankChildrenUpTo(table, snapshot, xs, Decurions(xs), Driver, |Decurions(xs)|)
  {
    out := RankChildren(table, snapshot, xs, Decurions(xs), Driver);
  }

  /** updateDecurionRankingsInCenturionGroups */
  method UpdateDecurionRankingsInCenturionGroups(table: seq<SeasonAggregate>, snapshot: seq<SeasonAggregate>, xs: seq<Assignment>)
    returns (out: seq<SeasonAggregate>)
    ensures out == RankChildrenUpTo(table, snapshot, xs, Centurions(xs), Desyatnik, |Centurions(xs)|)
  {
    out := RankChildren(table, snapshot, xs, Centurions(xs), Desyatnik);
  }

  /** The centurions that have a season row, by total alone. */
  function CenturionStats(snapshot: seq<SeasonAggregate>, xs: seq<Assignment>): seq<SeasonAggregate>
  {
    Stats(snapshot, xs, HasRole(Sotnik), ByTotal)
  }

  /** The table after the three passes of updateRankings. */
  function RankedTable(table: seq<SeasonAggregate>, xs: seq<Assignment>): seq<SeasonAggregate>
  {
    var cs := CenturionStats(table, xs);
    var t1 := RankPrefix(table, cs, SotnikRank, |cs|);
    var t2 := RankChildrenUpTo(t1, table, xs, Decurions(xs), Driver, |Decurions(xs)|);
    RankChildrenUpTo(t2, table, xs, Centurions(xs), Desyatnik, |Centurions(xs)|)
  }

  /** updateRankings */
  method UpdateRankings(table: seq<SeasonAggregate>, xs: seq<Assignment>) returns (out: seq<SeasonAggregate>)
    ensures out == RankedTable(table, xs)
  {
    var centurionStats := SortDesc(Present(table, Centurions(xs)), Self, ByTotal);
    out := RankStats(table, centurionStats, SotnikRank);
    out := UpdateDriverRankingsInDecurionGroups(out, table, xs);
    out := UpdateDecurionRankingsInCenturionGroups(out, table, xs);
  }

  // ---------------------------------------------------------------------
  // What the three rank passes leave in each row

  /** The row of `u` in `out` carries, in `field`, the 1-based position of
      its row in `stats`; a user without a row still has none. */
  predicate RankedAt(out: seq<SeasonAggregate>, table: seq<SeasonAggregate>, stats: seq<SeasonAggregate>, field: RankField, u: UserId)
  {
    match Find(table, SeasonKey, u)
    case None => Find(out, SeasonKey, u).None?
    case Some(row) => exists i :: 0 <= i < |stats| && stats[i] == row && Find(out, SeasonKey, u) == Some(WithRank(row, field, i + 1))
  }

  /** A user without a season row is in no group. */
  lemma NoRowNoGroup(table: seq<SeasonAggregate>, xs: seq<Assignment>, parents: seq<Assignment>, role: Role, v: UserId)
    requires DistinctUsers(xs) && Find(table, SeasonKey, v).None?
    ensures v !in GroupUsers(SortedGroups(table, xs, parents, role), |parents|)
  {
    var groups: seq<seq<SeasonAggregate>> := SortedGroups(table, xs, parents, role);
    GroupUsersMembers(groups, |parents|, v);
    forall k | 0 <= k < |parents| ensures v !in RowUsers(groups[k]) {
      StatsAreKeyed(table, xs, Under(role, {parents[k].userId}), ByResults);
      forall s | s in groups[k] ensures s.userId != v {
        assert Find(table, SeasonKey, s.userId) == Some(s);
      }
    }
  }

  /** A rank pass over groups that do not hold `a` leaves its row alone. */
  lemma PassSkips(t: seq<SeasonAggregate>, table: seq<SeasonAggregate>, xs: seq<Assignment>, parents: seq<Assignment>, role: Role, a: Assignment)
    requires DistinctUsers(xs) && a in xs && !Selects(Under(role, UserIds(parents)), a)
    requires DistinctUsers(parents)
    ensures Find(RankChildrenUpTo(t, table, xs, parents, role, |parents|), SeasonKey, a.userId) == Find(t, SeasonKey, a.userId)
  {
    NotInSortedGroups(table, xs, parents, role, a);
    SortedGroupsDisjoint(table, xs, parents, role);
    RankGroupsOutside(t, SortedGroups(table, xs, parents, role), RankInGroup, |parents|, a.userId);
  }

  /** A rank pass over the groups of `parents` gives a child of `parents[k]`
      the rank of its position in that group. */
  lemma PassRanks(t: seq<SeasonAggregate>, table: seq<SeasonAggregate>, xs: seq<Assignment>, parents: seq<Assignment>, role: Role,
                  a: Assignment, k: nat)
    requires DistinctUsers(xs) && a in xs && k < |parents| && Selects(Under(role, {parents[k].userId}), a)
    requires DistinctUsers(parents)
    requires Find(t, SeasonKey, a.userId) == Find(table, SeasonKey, a.userId)
    ensures RankedAt(RankChildrenUpTo(t, table, xs, parents, role, |parents|), table,
                     Stats(table, xs, Under(role, {parents[k].userId}), ByResults), RankInGroup, a.userId)
  {
    SortedGroupsDisjoint(table, xs, parents, role);
    if Find(table, SeasonKey, a.userId).None? {
      NoRowNoGroup(table, xs, parents, role, a.userId);
      RankGroupsOutside(t, SortedGroups(table, xs, parents, role), RankInGroup, |parents|, a.userId);
    } else {
      PassRanksRow(t, table, xs, parents, role, a, k);
    }
  }

  lemma PassRanksRow(t: seq<SeasonAggregate>, table: seq<SeasonAggregate>, xs: seq<Assignment>, parents: seq<Assignment>, role: Role,
                     a: Assignment, k: nat)
    requires DistinctUsers(xs) && a in xs && k < |parents| && Selects(Under(role, {parents[k].userId}), a)
    requires GroupsDisjoint(SortedGroups(table, xs, parents, role))
    requires Find(t, SeasonKey, a.userId) == Find(table, SeasonKey, a.userId) && Find(table, SeasonKey, a.userId).Some?
    ensures var row := Find(table, SeasonKey, a.userId).value;
      exists i :: 0 <= i < |SortedGroups(table, xs, parents, role)[k]| && SortedGroups(table, xs, parents, role)[k][i] == row
        && Find(RankGroups(t, SortedGroups(table, xs, parents, role), RankInGroup, |parents|), SeasonKey, a.userId)
           == Some(WithRank(row, RankInGroup, i + 1))
  {
    var groups: seq<seq<SeasonAggregate>> := SortedGroups(table, xs, parents, role);
    var row := Find(table, SeasonKey, a.userId).value;
    StatsAreKeyed(table, xs, Under(role, {parents[k].userId}), ByResults);
    assert row in groups[k];
    var i :| 0 <= i < |groups[k]| && groups[k][i] == row;
    RankGroupsMember(t, groups, RankInGroup, |parents|, k, i);
  }

  /** The centurion pass gives every centurion with a season row its
      position among all centurions by total. */
  lemma CenturionPassRanks(table: seq<SeasonAggregate>, xs: seq<Assignment>, a: Assignment)
    requires DistinctUsers(xs) && a in xs && a.role == Sotnik
    ensures var cs := CenturionStats(table, xs);
      RankedAt(RankPrefix(table, cs, SotnikRank, |cs|), table, cs, SotnikRank, a.userId)
  {
    var cs := CenturionStats(table, xs);
    StatsAreKeyed(table, xs, HasRole(Sotnik), ByTotal);
    RankPrefixLookup(table, cs, SotnikRank, |cs|);
    assert cs[..|cs|] == cs;
    match Find(table, SeasonKey, a.userId) {
      case None =>
        forall s | s in cs ensures s.userId != a.userId {
          assert Find(table, SeasonKey, s.userId) == Some(s);
        }
      case Some(row) =>
        assert row in cs;
        var i :| 0 <= i < |cs| && cs[i] == row;
    }
  }

  /** The centurion pass leaves everybody but centurions alone. */
  lemma CenturionPassSkips(table: seq<SeasonAggregate>, xs: seq<Assignment>, a: Assignment)
    requires DistinctUsers(xs) && a in xs && a.role != Sotnik
    ensures var cs := CenturionStats(table, xs);
      Find(RankPrefix(table, cs, SotnikRank, |cs|), SeasonKey, a.userId) == Find(table, SeasonKey, a.userId)
  {
    var cs := CenturionStats(table, xs);
    NotInStats(table, xs, HasRole(Sotnik), ByTotal, a);
    StatsAreKeyed(table, xs, HasRole(Sotnik), ByTotal);
    RankPrefixLookup(table, cs, SotnikRank, |cs|);
    assert cs[..|cs|] == cs;
  }

  /** updateRankings, centurions: `sotnikRank` is the position among all
      centurions that have a season row, ordered by total. */
  lemma CenturionRankIsPosition(table: seq<SeasonAggregate>, xs: seq<Assignment>, a: Assignment)
    requires DistinctUsers(xs) && a in xs && a.role == Sotnik
    ensures RankedAt(RankedTable(table, xs), table, CenturionStats(table, xs), SotnikRank, a.userId)
  {
    var cs := CenturionStats(table, xs);
    var t1 := RankPrefix(table, cs, SotnikRank, |cs|);
    var t2 := RankChildrenUpTo(t1, table, xs, Decurions(xs), Driver, |Decurions(xs)|);
    CenturionPassRanks(table, xs, a);
    PassSkips(t1, table, xs, Decurions(xs), Driver, a);
    PassSkips(t2, table, xs, Centurions(xs), Desyatnik, a);
  }

  /** updateRankings, drivers: `rankInGroup` is the position among the
      drivers of the same decurion that have a season row, best first. */
  lemma DriverRankIsPosition(table: seq<SeasonAggregate>, xs: seq<Assignment>, a: Assignment, k: nat)
    requires DistinctUsers(xs) && a in xs && a.role == Driver
    requires k < |Decurions(xs)| && a.desyatnikId == Some(Decurions(xs)[k].userId)
    ensures RankedAt(RankedTable(table, xs), table, Stats(table, xs, Under(Driver, {Decurions(xs)[k].userId}), ByResults),
                     RankInGroup, a.userId)
  {
    var cs := CenturionStats(table, xs);
    var t1 := RankPrefix(table, cs, SotnikRank, |cs|);
    var t2 := RankChildrenUpTo(t1, table, xs, Decurions(xs), Driver, |Decurions(xs)|);
    CenturionPassSkips(table, xs, a);
    DriverPassRanks(t1, table, xs, a, k);
    DecurionPassSkipsDriver(t2, table, xs, a);
  }

  lemma DriverPassRanks(t1: seq<SeasonAggregate>, table: seq<SeasonAggregate>, xs: seq<Assignment>, a: Assignment, k: nat)
    requires DistinctUsers(xs) && a in xs && a.role == Driver
    requires k < |Decurions(xs)| && a.desyatnikId == Some(Decurions(xs)[k].userId)
    requires Find(t1, SeasonKey, a.userId) == Find(table, SeasonKey, a.userId)
    ensures RankedAt(RankChildrenUpTo(t1, table, xs, Decurions(xs), Driver, |Decurions(xs)|), table,
                     Stats(table, xs, Under(Driver, {Decurions(xs)[k].userId}), ByResults), RankInGroup, a.userId)
  {
    var ds := Decurions(xs);
    SelectsChild(a, Driver, ds[k].userId);
    PassRanks(t1, table, xs, ds, Driver, a, k);
  }

  lemma DecurionPassSkipsDriver(t2: seq<SeasonAggregate>, table: seq<SeasonAggregate>, xs: seq<Assignment>, a: Assignment)
    requires DistinctUsers(xs) && a in xs && a.role == Driver
    ensures Find(RankChildrenUpTo(t2, table, xs, Centurions(xs), Desyatnik, |Centurions(xs)|), SeasonKey, a.userId)
      == Find(t2, SeasonKey, a.userId)
  {
    assert !Selects(Under(Desyatnik, UserIds(Centurions(xs))), a);
    PassSkips(t2, table, xs, Centurions(xs), Desyatnik, a);
  }

  /** updateRankings, decurions: `rankInGroup` is the position among the
      decurions of the same centurion that have a season row, best first. */
  lemma DecurionRankIsPosition(table: seq<SeasonAggregate>, xs: seq<Assignment>, a: Assignment, k: nat)
    requires DistinctUsers(xs) && a in xs && a.role == Desyatnik
    requires k < |Centurions(xs)| && a.sotnikId == Some(Centurions(xs)[k].userId)
    ensures RankedAt(RankedTable(table, xs), table, Stats(table, xs, Under(Desyatnik, {Centurions(xs)[k].userId}), ByResults),
                     RankInGroup, a.userId)
  {
    var cs := CenturionStats(table, xs);
    var t1 := RankPrefix(table, cs, SotnikRank, |cs|);
    var t2 := RankChildrenUpTo(t1, table, xs, Decurions(xs), Driver, |Decurions(xs)|);
    FirstPassesSkip(table, xs, a);
    DecurionPassRanks(t2, table, xs, a, k);
  }

  lemma DecurionPassRanks(t2: seq<SeasonAggregate>, table: seq<SeasonAggregate>, xs: seq<Assignment>, a: Assignment, k: nat)
    requires DistinctUsers(xs) && a in xs && a.role == Desyatnik
    requires k < |Centurions(xs)| && a.sotnikId == Some(Centurions(xs)[k].userId)
    requires Find(t2, SeasonKey, a.userId) == Find(table, SeasonKey, a.userId)
    ensures RankedAt(RankChildrenUpTo(t2, table, xs, Centurions(xs), Desyatnik, |Centurions(xs)|), table,
                     Stats(table, xs, Under(Desyatnik, {Centurions(xs)[k].userId}), ByResults), RankInGroup, a.userId)
  {
    var cs := Centurions(xs);
    SelectsChild(a, Desyatnik, cs[k].userId);
    PassRanks(t2, table, xs, cs, Desyatnik, a, k);
  }

  lemma SelectsChild(a: Assignment, role: Role, p: UserId)
    requires a.role == role && Link(a) == Some(p)
    ensures Selects(Under(role, {p}), a)
  {
  }

  /** The centurion and driver passes leave a decurion's row alone. */
  lemma FirstPassesSkip(table: seq<SeasonAggregate>, xs: seq<Assignment>, a: Assignment)
    requires DistinctUsers(xs) && a in xs && a.role == Desyatnik
    ensures var cs := CenturionStats(table, xs);
      var t1 := RankPrefix(table, cs, SotnikRank, |cs|);
      Find(RankChildrenUpTo(t1, table, xs, Decurions(xs), Driver, |Decurions(xs)|), SeasonKey, a.userId)
      == Find(table, SeasonKey, a.userId)
  {
    var cs := CenturionStats(table, xs);
    var t1 := RankPrefix(table, cs, SotnikRank, |cs|);
    CenturionPassSkips(table, xs, a);
    DriverPassSkipsDecurion(t1, table, xs, a);
  }

  lemma DriverPassSkipsDecurion(t1: seq<SeasonAggregate>, table: seq<SeasonAggregate>, xs: seq<Assignment>, a: Assignment)
    requires DistinctUsers(xs) && a in xs && a.role == Desyatnik
    ensures Find(RankChildrenUpTo(t1, table, xs, Decurions(xs), Driver, |Decurions(xs)|), SeasonKey, a.userId)
      == Find(t1, SeasonKey, a.userId)
  {
    assert DistinctUsers(Decurions(xs));
    assert !Selects(Under(Driver, UserIds(Decurions(xs))), a);
    PassSkips(t1, table, xs, Decurions(xs), Driver, a);
  }

  /** updateRankings leaves the row of the tsar, of an unknown role, of a
      driver outside every decurion's group and of a decurion outside every
      centurion's group as it was. */
  lemma UnrankedRowsUnchanged(table: seq<SeasonAggregate>, xs: seq<Assignment>, a: Assignment)
    requires DistinctUsers(xs) && a in xs && a.role != Sotnik
    requires !Selects(Under(Driver, UserIds(Decurions(xs))), a)
    requires !Selects(Under(Desyatnik, UserIds(Centurions(xs))), a)
    ensures Find(RankedTable(table, xs), SeasonKey, a.userId) == Find(table, SeasonKey, a.userId)
  {
    var cs := CenturionStats(table, xs);
    var t1 := RankPrefix(table, cs, SotnikRank, |cs|);
    var t2 := RankChildrenUpTo(t1, table, xs, Decurions(xs), Driver, |Decurions(xs)|);
    CenturionPassSkips(table, xs, a);
    PassSkips(t1, table, xs, Decurions(xs), Driver, a);
    PassSkips(t2, table, xs, Centurions(xs), Desyatnik, a);
  }
}
