/** The request handlers that change van and driver rows, create routes and report
    locations, over an in-memory store whose tables map primary keys to rows. A commit is
    the state change itself. */
module Handlers {
  import opened Models
  import opened SchoolOrder
  import opened RouteBuilder
  import opened Connections

  /** An HTTPException: a status code and a detail message. */
  datatype HttpError = HttpError(status_code: int, detail: string)

  /** The body of a location report. */
  datatype LocationUpdate = LocationUpdate(van_id: Id, lat: Coord, lng: Coord, status: string)

  /** The body of an add-driver request. */
  datatype DriverForm = DriverForm(name: string, email: string, password: string, agency_id: Id, assigned_van_id: Option<Id>)

  function DigitChar(d: nat): char
    requires d < 10
  {
    "0123456789"[d]
  }

  function NatToString(n: nat): string {
    if n < 10 then [DigitChar(n)] else NatToString(n / 10) + [DigitChar(n % 10)]
  }

  function IntToString(i: int): string {
    if i < 0 then "-" + NatToString(-i) else NatToString(i)
  }

  /** The HTTPException each failed route check raises: only a missing van is a 404. */
  function RouteErrorResponse(e: RouteError): (h: HttpError)
    ensures h.status_code == (if e == VanNotFound then 404 else 400)
    ensures e.OverCapacity? ==>
      h.detail == "Over Capacity! (" + IntToString(e.count) + " > " + IntToString(e.capacity) + ")"
  {
    match e
    case VanNotFound => HttpError(404, "Van not found")
    case VanNotApproved => HttpError(400, "Van must be approved")
    case NoDriverAssigned => HttpError(400, "No Driver Assigned")
    case NoStudentsSelected => HttpError(400, "No students selected")
    case OverCapacity(count, capacity) =>
      HttpError(400, "Over Capacity! (" + IntToString(count) + " > " + IntToString(capacity) + ")")
  }

  /** A van row after `toggle_tracking`: only track_always changes, to its negation. */
  function Toggled(v: Van): (w: Van)
    ensures w.track_always == !v.track_always
    ensures w.(track_always := v.track_always) == v
  {
    v.(track_always := !v.track_always)
  }

  lemma ToggledTwice(v: Van)
    ensures Toggled(Toggled(v)) == v
  {
  }

  /** A van row after a location report: only the current position changes. */
  function Relocated(v: Van, lat: Coord, lng: Coord): (w: Van)
    ensures w.current_lat == lat && w.current_lng == lng
    ensures w.(current_lat := v.current_lat, current_lng := v.current_lng) == v
  {
    v.(current_lat := lat, current_lng := lng)
  }

  /** The message a location report broadcasts. */
  function PayloadOf(data: LocationUpdate): (p: Payload)
    ensures p.van_id == data.van_id && p.lat == data.lat && p.lng == data.lng && p.status == data.status
  {
    Payload(data.van_id, data.lat, data.lng, data.status)
  }

  class Database {
    var users: map<Id, User>
    var vans: map<Id, Van>
    var drivers: map<Id, Driver>
    var students: map<Id, Student>
    var routes: seq<Route>

    /** Every row is stored under its own primary key. */
    ghost predicate Valid()
      reads this
    {
      && (forall k :: k in users ==> users[k].id == k)
      && (forall k :: k in vans ==> vans[k].id == k)
      && (forall k :: k in drivers ==> drivers[k].id == k)
      && (forall k :: k in students ==> students[k].id == k)
    }

    constructor ()
      ensures Valid()
      ensures users == map[] && vans == map[] && drivers == map[] && students == map[] && routes == []
    {
      users, vans, drivers, students, routes := map[], map[], map[], map[], [];
    }

    /** `toggle_tracking`: 404 for an unknown van; otherwise negates its track_always and
        returns the new value. */
    method ToggleTracking(van_id: Id) returns (r: Result<bool, HttpError>)
      requires Valid()
      modifies this`vans
      ensures Valid()
      ensures van_id !in old(vans) ==> r == Err(HttpError(404, "Van not found")) && vans == old(vans)
      ensures van_id in old(vans) ==>
        && vans == old(vans)[van_id := Toggled(old(vans)[van_id])]
        && r == Ok(!old(vans)[van_id].track_always)
    {
      if van_id !in vans {
        return Err(HttpError(404, "Van not found"));
      }
      var van := vans[van_id];
      van := van.(track_always := !van.track_always);
      vans := vans[van_id := van];
      r := Ok(van.track_always);
    }

    /** `assign_driver`: 404 unless both rows exist; otherwise links the van to the driver and
        the driver to the van, without unlinking either one's previous partner. */
    method AssignDriver(van_id: Id, driver_id: Id) returns (r: Result<string, HttpError>)
      requires Valid()
      modifies this`vans, this`drivers
      ensures Valid()
      ensures van_id !in old(vans) || driver_id !in old(drivers) ==>
        r == Err(HttpError(404, "Not found")) && vans == old(vans) && drivers == old(drivers)
      ensures van_id in old(vans) && driver_id in old(drivers) ==>
        && r == Ok("Assigned")
        && vans == old(vans)[van_id := old(vans)[van_id].(assigned_driver_id := Some(driver_id))]
        && drivers == old(drivers)[driver_id := old(drivers)[driver_id].(assigned_van_id := Some(van_id))]
    {
      if van_id !in vans || driver_id !in drivers {
        return Err(HttpError(404, "Not found"));
      }
      var van, driver := vans[van_id], drivers[driver_id];
      vans := vans[van_id := van.(assigned_driver_id := Some(driver.id))];
      drivers := drivers[driver_id := driver.(assigned_van_id := Some(van.id))];
      r := Ok("Assigned");
    }

    /** `delete_driver`: clears the link of the first van (in an order the database chooses)
        that names the driver, then deletes the driver row if there is one. */
    method DeleteDriver(driver_id: Id) returns (reply: string)
      requires Valid()
      modifies this`vans, this`drivers
      ensures Valid()
      ensures reply == "Driver deleted"
      ensures drivers == old(drivers) - {driver_id}
      ensures (forall k :: k in old(vans) ==> old(vans)[k].assigned_driver_id != Some(driver_id)) ==>
        vans == old(vans)
      ensures (exists k :: k in old(vans) && old(vans)[k].assigned_driver_id == Some(driver_id)) ==>
        exists k :: k in old(vans) && old(vans)[k].assigned_driver_id == Some(driver_id) &&
          vans == old(vans)[k := old(vans)[k].(assigned_driver_id := None)]
    {
      if exists k :: k in vans && vans[k].assigned_driver_id == Some(driver_id) {
        var k :| k in vans && vans[k].assigned_driver_id == Some(driver_id);
        vans := vans[k := vans[k].(assigned_driver_id := None)];
      }
      drivers := drivers - {driver_id};
      reply := "Driver deleted";
    }

    /** `approve_entity`: sets the status of a van, driver or user row to "approved". */
    method ApproveEntity(entity_type: string, id: Id) returns (r: Result<string, HttpError>)
      requires Valid()
      modifies this`vans, this`drivers, this`users
      ensures Valid()
      ensures entity_type !in {"van", "driver", "users", "user"} ==>
        r == Err(HttpError(400, "Invalid entity type")) &&
        vans == old(vans) && drivers == old(drivers) && users == old(users)
      ensures entity_type == "van" ==>
        && drivers == old(drivers) && users == old(users)
        && (id !in old(vans) ==> r == Err(HttpError(404, "Item not found")) && vans == old(vans))
        && (id in old(vans) ==> r == Ok("Approved") && vans == old(vans)[id := old(vans)[id].(status := "approved")])
      ensures entity_type == "driver" ==>
        && vans == old(vans) && users == old(users)
        && (id !in old(drivers) ==> r == Err(HttpError(404, "Item not found")) && drivers == old(drivers))
        && (id in old(drivers) ==>
              r == Ok("Approved") && drivers == old(drivers)[id := old(drivers)[id].(status := "approved")])
      ensures entity_type == "users" || entity_type == "user" ==>
        && vans == old(vans) && drivers == old(drivers)
        && (id !in old(users) ==> r == Err(HttpError(404, "Item not found")) && users == old(users))
        && (id in old(users) ==> r == Ok("Approved") && users == old(users)[id := old(users)[id].(status := "approved")])
    {
      if entity_type == "van" {
        if id !in vans { return Err(HttpError(404, "Item not found")); }
        vans := vans[id := vans[id].(status := "approved")];
      } else if entity_type == "driver" {
        if id !in drivers { return Err(HttpError(404, "Item not found")); }
        drivers := drivers[id := drivers[id].(status := "approved")];
      } else if entity_type == "users" || entity_type == "user" {
        if id !in users { return Err(HttpError(404, "Item not found")); }
        users := users[id := users[id].(status := "approved")];
      } else {
        return Err(HttpError(400, "Invalid entity type"));
      }
      r := Ok("Approved");
    }

    /** `add_driver`: stores a pending driver under the fresh id `new_id`; when the form names
        a van (a non-empty id) that exists, that van's driver becomes the new driver. */
    method AddDriver(new_id: Id, form: DriverForm) returns (reply: string)
      requires Valid()
      requires new_id !in drivers
      modifies this`vans, this`drivers
      ensures Valid()
      ensures reply == "Driver added"
      ensures drivers == old(drivers)[new_id :=
        Driver(new_id, form.name, form.email, form.password, form.agency_id, form.assigned_van_id, "pending")]
      ensures Truthy(form.assigned_van_id) && form.assigned_van_id.value in old(vans) ==>
        vans == old(vans)[form.assigned_van_id.value :=
          old(vans)[form.assigned_van_id.value].(assigned_driver_id := Some(new_id))]
      ensures !(Truthy(form.assigned_van_id) && form.assigned_van_id.value in old(vans)) ==> vans == old(vans)
    {
      var driver := Driver(new_id, form.name, form.email, form.password, form.agency_id, form.assigned_van_id, "pending");
      drivers := drivers[new_id := driver];
      if Truthy(driver.assigned_van_id) {
        var van_id := driver.assigned_van_id.value;
        if van_id in vans {
          vans := vans[van_id := vans[van_id].(assigned_driver_id := Some(driver.id))];
        }
      }
      reply := "Driver added";
    }

    /** `create_optimized_route`: makes the checks in order and, when all pass, saves the
        route PlanRoute describes under the fresh id `route_id`; `resolved` is what the
        student query returned. */
    method CreateOptimizedRoute(route_id: Id, req: RouteRequest, resolved: seq<Student>)
      returns (r: Result<string, HttpError>)
      requires Valid()
      requires Resolves(resolved, students, req.student_ids)
      modifies this`routes
      ensures PlanRoute(route_id, Find(vans, req.van_id), req, resolved).Ok? ==>
        && routes == old(routes) + [PlanRoute(route_id, Find(vans, req.van_id), req, resolved).value]
        && r == Ok("Route Created Successfully")
      ensures PlanRoute(route_id, Find(vans, req.van_id), req, resolved).Err? ==>
        && routes == old(routes)
        && r == Err(RouteErrorResponse(PlanRoute(route_id, Find(vans, req.van_id), req, resolved).error))
      ensures Valid()
    {
      if req.van_id !in vans { return Err(RouteErrorResponse(VanNotFound)); }
      var van := vans[req.van_id];
      if van.status != "approved" { return Err(RouteErrorResponse(VanNotApproved)); }
      if !Truthy(van.assigned_driver_id) { return Err(RouteErrorResponse(NoDriverAssigned)); }
      if resolved == [] { return Err(RouteErrorResponse(NoStudentsSelected)); }
      if |resolved| > van.capacity {
        return Err(RouteErrorResponse(OverCapacity(|resolved|, van.capacity)));
      }
      var ordered := SortBySchool(resolved);
      var stops := BuildStops(van, ordered, resolved[0]);
      routes := routes + [Route(route_id, req.agency_id, req.van_id, van.assigned_driver_id,
                                req.trip_type, stops, req.student_ids)];
      r := Ok("Route Created Successfully");
    }
  }

  /** `assign_driver` does not unlink a driver's previous van and `delete_driver` unlinks only
      one van, so a driver assigned to two vans and then deleted is still named by a van. */
  method DeleteDriverCanLeaveDanglingLink(db: Database, first_van: Id, second_van: Id, driver_id: Id)
    requires db.Valid()
    requires first_van in db.vans && second_van in db.vans && first_van != second_van
    requires driver_id in db.drivers
    modifies db`vans, db`drivers
    ensures driver_id !in db.drivers
    ensures exists k :: k in db.vans && db.vans[k].assigned_driver_id == Some(driver_id)
  {
    var _ := db.AssignDriver(first_van, driver_id);
    var _ := db.AssignDriver(second_van, driver_id);
    assert db.vans[first_van].assigned_driver_id == Some(driver_id);
    assert db.vans[second_van].assigned_driver_id == Some(driver_id);
    var _ := db.DeleteDriver(driver_id);
    assert db.vans[first_van].assigned_driver_id == Some(driver_id)
        || db.vans[second_van].assigned_driver_id == Some(driver_id);
  }

  /** `update_location`: stores the reported position on the van when there is one (the
      reported status is never stored), then broadcasts the report to every open socket and
      answers success either way. */
  method UpdateLocation(db: Database, manager: ConnectionManager, data: LocationUpdate, sendOk: Handle -> bool)
    returns (reply: string)
    requires db.Valid()
    modifies db`vans, manager`sent
    ensures db.Valid()
    ensures reply == "Location updated"
    ensures data.van_id in old(db.vans) ==>
      db.vans == old(db.vans)[data.van_id := Relocated(old(db.vans)[data.van_id], data.lat, data.lng)]
    ensures data.van_id !in old(db.vans) ==> db.vans == old(db.vans)
    ensures manager.sent == old(manager.sent) + Attempts(manager.active_connections, PayloadOf(data), sendOk)
  {
    if data.van_id in db.vans {
      var van := db.vans[data.van_id];
      db.vans := db.vans[data.van_id := van.(current_lat := data.lat, current_lng := data.lng)];
    }
    var msg := Payload(data.van_id, data.lat, data.lng, data.status);
    manager.Broadcast(msg, sendOk);
    reply := "Location updated";
  }
}
