/** The tables the services read and write, as ordered lists of rows (the
    order a query returns them in). A write is an update of the row with the
    same natural key: (user, date) for aggregates_daily, user for
    aggregates_season within one season (shared/schema.ts). */
module Storage {
  import opened Wrappers
  import opened Hierarchy
  import opened Results

  datatype Season = Season(
    startDate: Date,
    endDate: Date,
    dailyTargetHours: real,
    daysCount: int)

  /** A row of hours_raw. */
  datatype HoursRecord = HoursRecord(userId: UserId, workDate: Date, hours: real)

  /** A row of aggregates_daily. */
  datatype DailyAggregate = DailyAggregate(
    userId: UserId,
    workDate: Date,
    role: Role,
    personalHours: real,
    teamHours: real,
    totalHours: real)

  function DailyKey(r: DailyAggregate): (UserId, Date) { (r.userId, r.workDate) }

  function SeasonKey(r: SeasonAggregate): UserId { r.userId }

  /** The first row with key `k`. */
  function Find<K(==), V>(rows: seq<V>, key: V -> K, k: K): (r: Option<V>)
    ensures r.Some? ==> r.value in rows && key(r.value) == k
    ensures r.None? <==> forall i :: 0 <= i < |rows| ==> key(rows[i]) != k
  {
    if rows == [] then None
    else if key(rows[0]) == k then Some(rows[0])
    else
      var r := Find(rows[1..], key, k);
      assert forall i :: 1 <= i < |rows| ==> rows[i] == rows[1..][i - 1];
      r
  }

  /** Replace the row with the key of `r`, or append `r` when there is none. */
  function Upsert<K(==,!new), V>(rows: seq<V>, key: V -> K, r: V): (out: seq<V>)
    ensures forall k :: Find(out, key, k) == if k == key(r) then Some(r) else Find(rows, key, k)
  {
    if rows == [] then [r]
    else if key(rows[0]) == key(r) then [r] + rows[1..]
    else
      var rest := Upsert(rows[1..], key, r);
      assert ([rows[0]] + rest)[1..] == rest;
      [rows[0]] + rest
  }

  /** Which rank column a ranking writes. */
  datatype RankField = RankInGroup | SotnikRank

  function WithRank(r: SeasonAggregate, field: RankField, rank: nat): SeasonAggregate
  {
    match field
    case RankInGroup => r.(rankInGroup := Some(rank))
    case SotnikRank => r.(sotnikRank := Some(rank))
  }

  /** The row of `v` after the rank of `u` is set. */
  function RankedLookup(rows: seq<SeasonAggregate>, u: UserId, field: RankField, rank: nat, v: UserId): Option<SeasonAggregate>
  {
    var old_ := Find(rows, SeasonKey, v);
    if v == u && old_.Some? then Some(WithRank(old_.value, field, rank)) else old_
  }

  /** updateAggregateSeason(row.id, { field: rank }) on the row of user `u`. */
  function SetRank(rows: seq<SeasonAggregate>, u: UserId, field: RankField, rank: nat): seq<SeasonAggregate>
  {
    if rows == [] then []
    else if rows[0].userId == u then [WithRank(rows[0], field, rank)] + rows[1..]
    else [rows[0]] + SetRank(rows[1..], u, field, rank)
  }

  /** Setting the rank of `u` changes the row of `u`, if there is one, in
      that column only, and leaves every other user's row as it was. */
  lemma {:induction false} SetRankLookup(rows: seq<SeasonAggregate>, u: UserId, field: RankField, rank: nat, v: UserId)
    ensures Find(SetRank(rows, u, field, rank), SeasonKey, v) == RankedLookup(rows, u, field, rank, v)
  {
    if rows != [] {
      if rows[0].userId == u {
        assert ([WithRank(rows[0], field, rank)] + rows[1..])[1..] == rows[1..];
      } else {
        var rest := SetRank(rows[1..], u, field, rank);
        SetRankLookup(rows[1..], u, field, rank, v);
        assert ([rows[0]] + rest)[1..] == rest;
      }
    }
  }
}
