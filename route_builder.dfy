/** Route construction: the validation chain of a route request, the stop list
    (depot, one stop per student in school order, school) and the saved Route record. */
module RouteBuilder {
  import opened Models
  import opened SchoolOrder

  /** The body of a route-creation request. */
  datatype RouteRequest = RouteRequest(agency_id: Id, van_id: Id, trip_type: string, student_ids: seq<Id>)

  datatype RouteError =
    | VanNotFound
    | VanNotApproved
    | NoDriverAssigned
    | NoStudentsSelected
    | OverCapacity(count: nat, capacity: int)

  /** The first check the van and the resolved students fail, in the order the handler
      makes them; None when all pass. */
  function FirstFailure(van: Option<Van>, students: seq<Student>): (e: Option<RouteError>)
    ensures e == Some(VanNotFound) <==> van.None?
    ensures e == Some(VanNotApproved) <==> van.Some? && van.value.status != "approved"
    ensures e == Some(NoDriverAssigned) <==>
      van.Some? && van.value.status == "approved" && !Truthy(van.value.assigned_driver_id)
    ensures e == Some(NoStudentsSelected) <==>
      van.Some? && van.value.status == "approved" && Truthy(van.value.assigned_driver_id) && students == []
    ensures e.Some? && e.value.OverCapacity? <==>
      van.Some? && van.value.status == "approved" && Truthy(van.value.assigned_driver_id) &&
      students != [] && |students| > van.value.capacity
    ensures e.Some? && e.value.OverCapacity? ==> e.value == OverCapacity(|students|, van.value.capacity)
    ensures e.None? ==> van.Some? && 0 < |students| <= van.value.capacity
  {
    if van.None? then Some(VanNotFound)
    else if van.value.status != "approved" then Some(VanNotApproved)
    else if !Truthy(van.value.assigned_driver_id) then Some(NoDriverAssigned)
    else if students == [] then Some(NoStudentsSelected)
    else if |students| > van.value.capacity then Some(OverCapacity(|students|, van.value.capacity))
    else None
  }

  function DepotStop(van: Van): Stop {
    Stop(Depot, "START (DEPOT)", van.start_lat, van.start_lng, None)
  }

  function StopFor(s: Student): Stop {
    Stop(StudentStop, s.name, s.home_lat, s.home_lng, Some(s.agency_id))
  }

  function SchoolStop(s: Student): Stop {
    Stop(School, "SCHOOL", s.school_lat, s.school_lng, None)
  }

  /** One student stop per student, in the given order. */
  function StudentStops(ordered: seq<Student>): seq<Stop> {
    seq(|ordered|, i requires 0 <= i < |ordered| => StopFor(ordered[i]))
  }

  /** The stop list of a route: the depot, the students in `ordered`, and the school of `first`. */
  function RouteStops(van: Van, ordered: seq<Student>, first: Student): seq<Stop> {
    [DepotStop(van)] + StudentStops(ordered) + [SchoolStop(first)]
  }

  /** What a successful route creation saves, for a van and a non-empty resolved student list
      in query-result order. */
  ghost predicate SavedRoute(r: Route, id: Id, van: Van, req: RouteRequest, students: seq<Student>)
    requires students != []
  {
    && r.id == id
    && r.agency_id == req.agency_id
    && r.van_id == req.van_id
    && r.trip_type == req.trip_type
    && r.student_ids == req.student_ids
    && r.driver_id == van.assigned_driver_id && Truthy(r.driver_id)
    && |students| <= van.capacity
    && |r.stops| == |students| + 2
    // exactly one depot stop, first, at the van's start position
    && r.stops[0] == DepotStop(van)
    // exactly one school stop, last, at the school of the first student in query order
    && r.stops[|r.stops| - 1] == SchoolStop(students[0])
    // in between, one student stop per student, in stable school order
    && (forall k :: 0 <= k < |students| ==> r.stops[k + 1] == StopFor(SortBySchool(students)[k]))
  }

  /** The outcome of the route-creation handler: the first failed check, or the Route it saves. */
  function PlanRoute(id: Id, van: Option<Van>, req: RouteRequest, students: seq<Student>): (r: Result<Route, RouteError>)
    ensures r.Err? <==> FirstFailure(van, students).Some?
    ensures r.Err? ==> r.error == FirstFailure(van, students).value
    ensures r.Ok? ==> students != [] && SavedRoute(r.value, id, van.value, req, students)
  {
    match FirstFailure(van, students)
    case Some(e) => Err(e)
    case None =>
      var stops := RouteStops(van.value, SortBySchool(students), students[0]);
      Ok(Route(id, req.agency_id, req.van_id, van.value.assigned_driver_id, req.trip_type, stops, req.student_ids))
  }

  lemma StudentStopsAppend(a: seq<Student>, b: seq<Student>)
    ensures StudentStops(a + b) == StudentStops(a) + StudentStops(b)
  {
    assert |StudentStops(a + b)| == |StudentStops(a) + StudentStops(b)|;
    forall i | 0 <= i < |a + b|
      ensures StudentStops(a + b)[i] == (StudentStops(a) + StudentStops(b))[i]
    {
      if i < |a| { assert (a + b)[i] == a[i]; } else { assert (a + b)[i] == b[i - |a|]; }
    }
  }

  /** Two orderings of the same students give the same stops, each as often. */
  lemma {:induction false} StudentStopsPermute(a: seq<Student>, b: seq<Student>)
    requires multiset(a) == multiset(b)
    ensures multiset(StudentStops(a)) == multiset(StudentStops(b))
    decreases |a|
  {
    if a != [] {
      var x := a[0];
      assert x in multiset(b);
      var j :| 0 <= j < |b| && b[j] == x;
      var b' := b[..j] + b[j + 1..];
      assert b == b[..j] + [x] + b[j + 1..];
      assert a == [x] + a[1..];
      assert multiset(b) == multiset(b[..j]) + multiset{x} + multiset(b[j + 1..]);
      assert multiset(b') == multiset(b[..j]) + multiset(b[j + 1..]);
      assert multiset(b') == multiset(b) - multiset{x};
      assert multiset(a) == multiset{x} + multiset(a[1..]);
      assert multiset(a[1..]) == multiset(a) - multiset{x};
      StudentStopsPermute(a[1..], b');
      StudentStopsAppend([x], a[1..]);
      StudentStopsAppend(b[..j] + [x], b[j + 1..]);
      StudentStopsAppend(b[..j], [x]);
      StudentStopsAppend(b[..j], b[j + 1..]);
    }
  }

  /** The stop list, built by appending as the handler does. */
  method BuildStops(van: Van, ordered: seq<Student>, first: Student) returns (stops: seq<Stop>)
    ensures stops == RouteStops(van, ordered, first)
  {
    stops := [DepotStop(van)];
    for i := 0 to |ordered|
      invariant |stops| == i + 1
      invariant stops[0] == DepotStop(van)
      invariant forall j :: 0 <= j < i ==> stops[j + 1] == StopFor(ordered[j])
    {
      stops := stops + [StopFor(ordered[i])];
    }
    stops := stops + [SchoolStop(first)];
  }

  /** A saved route has exactly one student stop per resolved student. */
  lemma EachStudentOneStop(id: Id, van: Option<Van>, req: RouteRequest, students: seq<Student>, r: Route)
    requires PlanRoute(id, van, req, students) == Ok(r)
    ensures multiset(r.stops[1..|r.stops| - 1]) == multiset(StudentStops(students))
  {
    var order := SortBySchool(students);
    assert r.stops[1..|r.stops| - 1] == StudentStops(order);
    StudentStopsPermute(order, students);
  }

  /** A failed check saves nothing: there is a Route only when every check passes. */
  lemma NoRouteOnError(id: Id, van: Option<Van>, req: RouteRequest, students: seq<Student>)
    requires van.None? || van.value.status != "approved" || !Truthy(van.value.assigned_driver_id)
          || students == [] || |students| > van.value.capacity
    ensures PlanRoute(id, van, req, students).Err?
  {
  }

  /** A freshly added van is pending, so no route can be built for it; once approved it
      still has no driver. */
  lemma NewVanCannotBeRouted(id: Id, number: string, capacity: int, agency: Id, req: RouteRequest, students: seq<Student>)
    ensures PlanRoute(id, Some(NewVan(id, number, capacity, agency)), req, students) == Err(VanNotApproved)
    ensures PlanRoute(id, Some(NewVan(id, number, capacity, agency).(status := "approved")), req, students)
      == Err(NoDriverAssigned)
  {
  }

  /** The depot stop of a van that kept its default start position is at 18.5204, 73.8567. */
  lemma DefaultDepot(id: Id, number: string, capacity: int, agency: Id, driver: Id, req: RouteRequest, students: seq<Student>)
    requires driver != "" && 0 < |students| <= capacity
    ensures var van := NewVan(id, number, capacity, agency).(status := "approved", assigned_driver_id := Some(driver));
      PlanRoute(id, Some(van), req, students).Ok? &&
      PlanRoute(id, Some(van), req, students).value.stops[0] == Stop(Depot, "START (DEPOT)", DefaultLat, DefaultLng, None)
  {
  }

  /** What the student query returns for a list of requested ids: each matching stored row
      once, in an order the database chooses. */
  ghost predicate Resolves(resolved: seq<Student>, students: map<Id, Student>, ids: seq<Id>) {
    && (forall i :: 0 <= i < |resolved| ==>
          resolved[i].id in ids && resolved[i].id in students && students[resolved[i].id] == resolved[i])
    && (forall i, j :: 0 <= i < j < |resolved| ==> resolved[i].id != resolved[j].id)
    && (forall k :: k in ids && k in students ==> exists i :: 0 <= i < |resolved| && resolved[i].id == k)
  }

  /** Read as sets, the query result is exactly the stored rows whose id was requested,
      and no row comes twice. */
  lemma ResolvedRowsAreRequested(resolved: seq<Student>, students: map<Id, Student>, ids: seq<Id>)
    requires Resolves(resolved, students, ids)
    ensures (set i | 0 <= i < |resolved| :: resolved[i]) == (set k | k in ids && k in students :: students[k])
    ensures forall i, j :: 0 <= i < j < |resolved| ==> resolved[i] != resolved[j]
  {
    var got, want := set i | 0 <= i < |resolved| :: resolved[i], set k | k in ids && k in students :: students[k];
    forall s | s in want ensures s in got {
      var k :| k in ids && k in students && students[k] == s;
      var i :| 0 <= i < |resolved| && resolved[i].id == k;
    }
  }

  /** The capacity check counts the resolved students, not the requested ids: a request
      naming one student twice and one unknown id fits a van of capacity one. */
  lemma CapacityCountsResolvedStudents(a: Student, van: Van)
    requires van.status == "approved" && Truthy(van.assigned_driver_id) && van.capacity == 1
    requires a.id != "unknown"
    ensures Resolves([a], map[a.id := a], [a.id, a.id, "unknown"])
    ensures var req := RouteRequest("agency", van.id, "pickup", [a.id, a.id, "unknown"]);
      && |req.student_ids| > van.capacity
      && PlanRoute("r", Some(van), req, [a]).Ok?
      && PlanRoute("r", Some(van), req, [a]).value.student_ids == [a.id, a.id, "unknown"]
  {
    assert [a][0].id == a.id;
  }

  /** School keys in units of 0.0001 degree: (10.0, 10.0), (5.0, 5.0) and (5.0, 8.0). */
  lemma ThreeStudentOrder(s1: Student, s2: Student, s3: Student)
    requires Key(s1) == (100000, 100000) && Key(s2) == (50000, 50000) && Key(s3) == (50000, 80000)
    ensures SortBySchool([s1, s2, s3]) == [s2, s3, s1]
  {
    assert [s1, s2, s3][1..] == [s2, s3] && [s2, s3][1..] == [s3];
    assert SortBySchool([s3]) == [s3];
    assert SortBySchool([s2, s3]) == Insert(s2, [s3]) == [s2, s3];
    assert Insert(s1, [s3]) == [s3, s1];
    assert Insert(s1, [s2, s3]) == [s2, s3, s1];
  }

  /** The route saved when every check passes, written out. */
  lemma PlanRouteSaves(id: Id, van: Van, req: RouteRequest, students: seq<Student>)
    requires FirstFailure(Some(van), students).None?
    ensures PlanRoute(id, Some(van), req, students) == Ok(Route(id, req.agency_id, req.van_id,
      van.assigned_driver_id, req.trip_type, RouteStops(van, SortBySchool(students), students[0]), req.student_ids))
  {
  }

  /** Three students to two schools: S2 (5.0, 5.0), S3 (5.0, 8.0) and S1 (10.0, 10.0) are visited in that
      order, and the school stop is at S1's school because S1 came first from the query. */
  lemma ThreeStudentExample(van: Van, s1: Student, s2: Student, s3: Student)
    requires van.status == "approved" && Truthy(van.assigned_driver_id) && van.capacity == 3
    requires Key(s1) == (100000, 100000) && Key(s2) == (50000, 50000) && Key(s3) == (50000, 80000)
    ensures var r := PlanRoute("r", Some(van), RouteRequest("a", van.id, "pickup", [s1.id, s2.id, s3.id]), [s1, s2, s3]);
      && r.Ok?
      && r.value.stops == [DepotStop(van), StopFor(s2), StopFor(s3), StopFor(s1), SchoolStop(s1)]
      && r.value.stops[4].home_lat == 100000 && r.value.stops[4].home_lng == 100000
  {
    var students := [s1, s2, s3];
    var req := RouteRequest("a", van.id, "pickup", [s1.id, s2.id, s3.id]);
    assert FirstFailure(Some(van), students).None?;
    PlanRouteSaves("r", van, req, students);
    ThreeStudentOrder(s1, s2, s3);
    ThreeStudentStops(van, s1, s2, s3);
  }

  lemma ThreeStudentStops(van: Van, s1: Student, s2: Student, s3: Student)
    ensures RouteStops(van, [s2, s3, s1], s1) == [DepotStop(van), StopFor(s2), StopFor(s3), StopFor(s1), SchoolStop(s1)]
  {
    assert StudentStops([s2, s3, s1]) == [StopFor(s2), StopFor(s3), StopFor(s1)];
  }

  /** When all students go to one school, the school stop is that school, whichever
      student it is taken from. */
  lemma SingleSchoolStop(id: Id, van: Option<Van>, req: RouteRequest, students: seq<Student>)
    requires PlanRoute(id, van, req, students).Ok?
    requires forall i :: 0 <= i < |students| ==> Key(students[i]) == Key(students[0])
    ensures var stops := PlanRoute(id, van, req, students).value.stops;
      && (stops[|stops| - 1].home_lat, stops[|stops| - 1].home_lng) == Key(SortBySchool(students)[0])
  {
    var order := SortBySchool(students);
    assert order[0] in multiset(students);
  }

  /** The query's row order is not fixed, and it decides the visiting order among students
      with one school: the same two students in the two orders give different stop lists. */
  lemma QueryOrderDecidesTies(van: Van, req: RouteRequest, a: Student, b: Student)
    requires van.status == "approved" && Truthy(van.assigned_driver_id) && van.capacity >= 2
    requires Key(a) == Key(b) && a.name != b.name
    ensures PlanRoute("r", Some(van), req, [a, b]).Ok? && PlanRoute("r", Some(van), req, [b, a]).Ok?
    ensures PlanRoute("r", Some(van), req, [a, b]).value.stops != PlanRoute("r", Some(van), req, [b, a]).value.stops
  {
    assert FirstFailure(Some(van), [a, b]).None? && FirstFailure(Some(van), [b, a]).None?;
    PlanRouteSaves("r", van, req, [a, b]);
    PlanRouteSaves("r", van, req, [b, a]);
    assert SortBySchool([a, b]) == [a, b] by { assert [a, b][1..] == [b]; }
    assert SortBySchool([b, a]) == [b, a] by { assert [b, a][1..] == [a]; }
    assert PlanRoute("r", Some(van), req, [a, b]).value.stops[1] == StopFor(a);
    assert PlanRoute("r", Some(van), req, [b, a]).value.stops[1] == StopFor(b);
  }

  /** The school stop comes from whichever student the query returned first: the same two
      students at different schools in the two orders give different school stops. */
  lemma QueryOrderDecidesSchoolStop(van: Van, req: RouteRequest, a: Student, b: Student)
    requires van.status == "approved" && Truthy(van.assigned_driver_id) && van.capacity >= 2
    requires Key(a) != Key(b)
    ensures PlanRoute("r", Some(van), req, [a, b]).Ok? && PlanRoute("r", Some(van), req, [b, a]).Ok?
    ensures var s1, s2 := PlanRoute("r", Some(van), req, [a, b]).value.stops, PlanRoute("r", Some(van), req, [b, a]).value.stops;
      s1[|s1| - 1] != s2[|s2| - 1]
  {
    assert FirstFailure(Some(van), [a, b]).None? && FirstFailure(Some(van), [b, a]).None?;
    PlanRouteSaves("r", van, req, [a, b]);
    PlanRouteSaves("r", van, req, [b, a]);
  }
}
