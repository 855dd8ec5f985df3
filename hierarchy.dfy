/** The records of the role_assignments table (shared/schema.ts) and the
    queries the services run over a season's list of assignments. */
module Hierarchy {
  import opened Wrappers

  type UserId = nat
  type AssignmentId = nat
  /** A calendar day, as a day index. */
  type Date = int

  /** The role strings 'tsar', 'sotnik', 'desyatnik', 'driver'; `Other` stands
      for any other string the varchar column may hold. */
  datatype Role = Tsar | Sotnik | Desyatnik | Driver | Other

  datatype Assignment = Assignment(
    id: AssignmentId,
    userId: UserId,
    role: Role,
    sotnikId: Option<UserId>,
    desyatnikId: Option<UserId>,
    groupIndex: Option<int>)

  /** The parent pointer the services follow for an assignment: a decurion's
      `sotnikId`, a driver's `desyatnikId`. */
  function Link(a: Assignment): Option<UserId>
  {
    match a.role
    case Desyatnik => a.sotnikId
    case Driver => a.desyatnikId
    case _ => None
  }

  /** The predicates the services pass to `assignments.filter`. */
  datatype Selector =
    | HasRole(role: Role)
      /** An assignment of `role` whose parent is one of `parents`. */
    | Under(role: Role, parents: set<UserId>)

  predicate Selects(s: Selector, a: Assignment)
  {
    match s
    case HasRole(r) => a.role == r
    case Under(r, ps) => a.role == r && Link(a).Some? && Link(a).value in ps
  }

  /** Unique (season, user) key of role_assignments. */
  predicate DistinctUsers(xs: seq<Assignment>)
  {
    forall i, j :: 0 <= i < j < |xs| ==> xs[i].userId != xs[j].userId
  }

  /** Primary key of role_assignments. */
  predicate DistinctIds(xs: seq<Assignment>)
  {
    forall i, j :: 0 <= i < j < |xs| ==> xs[i].id != xs[j].id
  }

  /** Under the (season, user) key, a user has one assignment. */
  lemma SameUser(xs: seq<Assignment>, a: Assignment, b: Assignment)
    requires DistinctUsers(xs) && a in xs && b in xs && a.userId == b.userId
    ensures a == b
  {
    var i :| 0 <= i < |xs| && xs[i] == a;
    var j :| 0 <= j < |xs| && xs[j] == b;
    assert !(i < j) && !(j < i);
  }

  /** Under the primary key, an id names one assignment. */
  lemma SameId(xs: seq<Assignment>, a: Assignment, b: Assignment)
    requires DistinctIds(xs) && a in xs && b in xs && a.id == b.id
    ensures a == b
  {
    var i :| 0 <= i < |xs| && xs[i] == a;
    var j :| 0 <= j < |xs| && xs[j] == b;
    assert !(i < j) && !(j < i);
  }

  function UserIds(xs: seq<Assignment>): set<UserId>
  {
    set a | a in xs :: a.userId
  }

  /** The assignments `s` picks, order kept. */
  function Filter(xs: seq<Assignment>, s: Selector): (r: seq<Assignment>)
    ensures forall a :: a in r <==> a in xs && Selects(s, a)
    ensures |r| <= |xs|
    ensures DistinctUsers(xs) ==> DistinctUsers(r)
  {
    if xs == [] then []
    else
      var init, last := xs[..|xs| - 1], xs[|xs| - 1];
      assert xs == init + [last];
      var r := Filter(init, s) + (if Selects(s, last) then [last] else []);
      assert DistinctUsers(xs) ==> forall a :: a in init ==> a.userId != last.userId by {
        if DistinctUsers(xs) {
          forall a | a in init ensures a.userId != last.userId {
            var k :| 0 <= k < |init| && init[k] == a;
            assert xs[k] == a;
          }
        }
      }
      r
  }

  function Centurions(xs: seq<Assignment>): seq<Assignment> { Filter(xs, HasRole(Sotnik)) }
  function Decurions(xs: seq<Assignment>): seq<Assignment> { Filter(xs, HasRole(Desyatnik)) }
  function Drivers(xs: seq<Assignment>): seq<Assignment> { Filter(xs, HasRole(Driver)) }

  /** The decurions under centurion `c`. */
  function DecurionsOf(xs: seq<Assignment>, c: UserId): seq<Assignment> { Filter(xs, Under(Desyatnik, {c})) }

  /** The drivers under decurion `d`. */
  function DriversOf(xs: seq<Assignment>, d: UserId): seq<Assignment> { Filter(xs, Under(Driver, {d})) }

  /** The first assignment of user `u`. */
  function FindByUser(xs: seq<Assignment>, u: UserId): (r: Option<Assignment>)
    ensures r.Some? ==> r.value in xs && r.value.userId == u
    ensures r.None? <==> u !in UserIds(xs)
  {
    if xs == [] then None
    else if xs[0].userId == u then Some(xs[0])
    else
      var r := FindByUser(xs[1..], u);
      assert UserIds(xs) == {xs[0].userId} + UserIds(xs[1..]) by {
        assert xs == [xs[0]] + xs[1..];
      }
      r
  }

  /** Under the (season, user) key, `find` by user returns the user's one assignment. */
  lemma FindByUserUnique(xs: seq<Assignment>, a: Assignment)
    requires DistinctUsers(xs) && a in xs
    ensures FindByUser(xs, a.userId) == Some(a)
  {
    assert a.userId in UserIds(xs);
    SameUser(xs, FindByUser(xs, a.userId).value, a);
  }

  /** The first assignment with role `role`. */
  function FindByRole(xs: seq<Assignment>, role: Role): (r: Option<Assignment>)
    ensures r.Some? ==> r.value in xs && r.value.role == role
    ensures r.None? <==> forall a :: a in xs ==> a.role != role
  {
    if xs == [] then None
    else if xs[0].role == role then Some(xs[0])
    else FindByRole(xs[1..], role)
  }
}
