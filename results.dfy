/** Season results (the aggregates_season record of shared/schema.ts), the
    comparator every ranking uses (compareResults in
    server/services/role-transitions.ts and the inline comparators of
    server/services/calculations.ts) and the descending sort the services
    call on it. */
module Results {
  import opened Wrappers
  import opened Hierarchy

  datatype SeasonAggregate = SeasonAggregate(
    userId: UserId,
    role: Role,
    personalTotal: real,
    teamTotal: real,
    total: real,
    target: real,
    targetPercent: real,
    rankInGroup: Option<nat>,
    sotnikRank: Option<nat>)

  /** compareResults(a, b): the first of total, personalTotal, targetPercent
      that differs decides; positive when `a` ranks above `b`. */
  function CompareResults(a: SeasonAggregate, b: SeasonAggregate): real
  {
    if a.total != b.total then a.total - b.total
    else if a.personalTotal != b.personalTotal then a.personalTotal - b.personalTotal
    else a.targetPercent - b.targetPercent
  }

  /** Lexicographic "strictly better" on (total, personalTotal, targetPercent),
      stated independently of the subtraction trick. */
  predicate LexBetter(a: SeasonAggregate, b: SeasonAggregate)
  {
    || a.total > b.total
    || (a.total == b.total && a.personalTotal > b.personalTotal)
    || (a.total == b.total && a.personalTotal == b.personalTotal && a.targetPercent > b.targetPercent)
  }

  lemma CompareResultsIsLexicographic(a: SeasonAggregate, b: SeasonAggregate)
    ensures CompareResults(a, b) > 0.0 <==> LexBetter(a, b)
    ensures CompareResults(a, b) == -CompareResults(b, a)
    ensures CompareResults(a, b) == 0.0 <==>
      (a.total == b.total && a.personalTotal == b.personalTotal && a.targetPercent == b.targetPercent)
  {
  }

  /** Which comparator a sort uses: total hours alone for the
      global centurion ranking, compareResults everywhere else. */
  datatype SortKey = ByTotal | ByResults

  function Compare(key: SortKey, a: SeasonAggregate, b: SeasonAggregate): real
  {
    match key
    case ByTotal => a.total - b.total
    case ByResults => CompareResults(a, b)
  }

  lemma CompareTotalPreorder(key: SortKey, a: SeasonAggregate, b: SeasonAggregate, c: SeasonAggregate)
    ensures Compare(key, a, b) >= 0.0 || Compare(key, b, a) >= 0.0
    ensures Compare(key, a, b) > 0.0 ==> Compare(key, b, a) < 0.0
    ensures Compare(key, a, b) >= 0.0 && Compare(key, b, c) >= 0.0 ==> Compare(key, a, c) >= 0.0
  {
  }

  /** `s` is ordered best first: no element is beaten by a later one. */
  ghost predicate SortedDesc<T>(s: seq<T>, score: T -> SeasonAggregate, key: SortKey)
  {
    forall i, j :: 0 <= i < j < |s| ==> Compare(key, score(s[i]), score(s[j])) >= 0.0
  }

  /** Insert `x` after every element it does not strictly beat. */
  function InsertDesc<T(==)>(x: T, s: seq<T>, score: T -> SeasonAggregate, key: SortKey): (r: seq<T>)
    requires SortedDesc(s, score, key)
    ensures |r| == |s| + 1
    ensures multiset(r) == multiset(s) + multiset{x}
    ensures SortedDesc(r, score, key)
  {
    if s == [] then [x]
    else if Compare(key, score(x), score(s[0])) > 0.0 then
      BeatsHeadBeatsAll(x, s, score, key);
      ConsSorted(x, s, score, key);
      [x] + s
    else
      var rest := InsertDesc(x, s[1..], score, key);
      HeadBeatsInserted(s, x, rest, score, key);
      ConsSorted(s[0], rest, score, key);
      assert s == [s[0]] + s[1..];
      [s[0]] + rest
  }

  lemma BeatsHeadBeatsAll<T>(x: T, s: seq<T>, score: T -> SeasonAggregate, key: SortKey)
    requires SortedDesc(s, score, key) && s != []
    requires Compare(key, score(x), score(s[0])) > 0.0
    ensures forall j :: 0 <= j < |s| ==> Compare(key, score(x), score(s[j])) >= 0.0
  {
    forall j | 0 <= j < |s| ensures Compare(key, score(x), score(s[j])) >= 0.0 {
      if j > 0 {
        CompareTotalPreorder(key, score(x), score(s[0]), score(s[j]));
      }
    }
  }

  lemma HeadBeatsInserted<T>(s: seq<T>, x: T, rest: seq<T>, score: T -> SeasonAggregate, key: SortKey)
    requires SortedDesc(s, score, key) && s != []
    requires Compare(key, score(x), score(s[0])) <= 0.0
    requires multiset(rest) == multiset(s[1..]) + multiset{x}
    ensures forall i :: 0 <= i < |rest| ==> Compare(key, score(s[0]), score(rest[i])) >= 0.0
  {
    forall i | 0 <= i < |rest| ensures Compare(key, score(s[0]), score(rest[i])) >= 0.0 {
      assert rest[i] in multiset(rest);
      if rest[i] == x {
        CompareTotalPreorder(key, score(x), score(s[0]), score(x));
      } else {
        assert rest[i] in multiset(s[1..]);
        var j :| 0 <= j < |s[1..]| && s[1..][j] == rest[i];
        assert s[j + 1] == rest[i];
      }
    }
  }

  lemma ConsSorted<T>(h: T, s: seq<T>, score: T -> SeasonAggregate, key: SortKey)
    requires SortedDesc(s, score, key)
    requires forall j :: 0 <= j < |s| ==> Compare(key, score(h), score(s[j])) >= 0.0
    ensures SortedDesc([h] + s, score, key)
  {
    var r := [h] + s;
    forall i, j | 0 <= i < j < |r| ensures Compare(key, score(r[i]), score(r[j])) >= 0.0 {
      assert r[j] == s[j - 1];
      if i > 0 {
        assert r[i] == s[i - 1];
      }
    }
  }

  /** A stable insertion sort, best first: each element goes after the
      elements it ties with. */
  function SortDesc<T(==)>(xs: seq<T>, score: T -> SeasonAggregate, key: SortKey): (r: seq<T>)
    ensures |r| == |xs|
    ensures multiset(r) == multiset(xs)
    ensures SortedDesc(r, score, key)
  {
    if xs == [] then []
    else
      assert xs == xs[..|xs| - 1] + [xs[|xs| - 1]];
      InsertDesc(xs[|xs| - 1], SortDesc(xs[..|xs| - 1], score, key), score, key)
  }

  /** The head of a sorted list is at least as good as every element of the input. */
  lemma SortDescHeadIsBest<T>(xs: seq<T>, score: T -> SeasonAggregate, key: SortKey, x: T)
    requires x in xs
    ensures |SortDesc(xs, score, key)| > 0
    ensures Compare(key, score(SortDesc(xs, score, key)[0]), score(x)) >= 0.0
  {
    var r := SortDesc(xs, score, key);
    assert x in multiset(r);
    var k :| 0 <= k < |r| && r[k] == x;
    if k > 0 {
      assert Compare(key, score(r[0]), score(r[k])) >= 0.0;
    } else {
      CompareTotalPreorder(key, score(x), score(x), score(x));
    }
  }

  /** No element occurs twice. */
  predicate NoRepeats<T(==)>(s: seq<T>)
  {
    forall i, j :: 0 <= i < j < |s| ==> s[i] != s[j]
  }

  lemma {:induction false} NoRepeatsCountsOne<T>(a: seq<T>, x: T)
    requires NoRepeats(a)
    ensures multiset(a)[x] <= 1
  {
    if a != [] {
      var init, last := a[..|a| - 1], a[|a| - 1];
      assert a == init + [last];
      assert NoRepeats(init);
      NoRepeatsCountsOne(init, x);
      if last == x {
        assert x !in init by {
          forall k | 0 <= k < |init| ensures init[k] != x {
            assert a[k] == init[k];
          }
        }
      }
    }
  }

  lemma RepeatCountsTwo<T>(b: seq<T>, i: nat, j: nat)
    requires i < j < |b| && b[i] == b[j]
    ensures multiset(b)[b[i]] >= 2
  {
    assert b == b[..j] + b[j..];
    assert b[i] == b[..j][i];
    assert b[j] == b[j..][0];
  }

  /** A reordering of a list without repeats has none either; in particular
      a sorted list has none when its input had none. */
  lemma PermutationNoRepeats<T>(a: seq<T>, b: seq<T>)
    requires multiset(a) == multiset(b) && NoRepeats(a)
    ensures NoRepeats(b)
  {
    forall i, j | 0 <= i < j < |b| ensures b[i] != b[j] {
      if b[i] == b[j] {
        RepeatCountsTwo(b, i, j);
        NoRepeatsCountsOne(a, b[i]);
      }
    }
  }

  function Self(a: SeasonAggregate): SeasonAggregate { a }
}
