# School-van tracking backend: route builder, live-tracking hub, van/driver state

This Dafny project models the logic of a school-transport backend in which agencies run
vans, drivers and students. The backend is a FastAPI service over SQLAlchemy. The model
covers three parts of it:

- **Route builder** (`create_optimized_route`). The handler checks the van and the
  students the request resolved to, in a fixed order, and each check has its own error.
  It orders the students with Python's stable `sorted` on the key
  `(school_lat, school_lng)`. It builds the stop list: one depot stop, one stop per
  student, one school stop. It then saves a `Route` whose driver is a snapshot of the van's
  `assigned_driver_id`. `RouteBuilder.PlanRoute` is the pure description of the outcome.
  `RouteBuilder.BuildStops` builds the stop list by appending in a loop, as the handler
  does. `Handlers.Database.CreateOptimizedRoute` is the handler over the store. It makes
  the same checks with early returns and is proved to save exactly what `PlanRoute`
  describes, and nothing on an error.
- **Connection registry** (`ConnectionManager`). The class `Connections.ConnectionManager`
  holds the ordered list of open sockets. `Connect` appends. `Disconnect` has
  `list.remove` semantics: it drops the first occurrence, and it fails when the socket is
  absent. `Broadcast` tries every socket once, in list order, and swallows failures. Send
  outcomes come from an oracle `sendOk`. The ghost field `sent` records every attempt.
- **Van/driver state operations** over an in-memory store (`Handlers.Database`). Each
  table is a map from primary key to row, and a commit is the state change itself. The
  store's methods are `ToggleTracking`, `AssignDriver`, `DeleteDriver` (its van unlink),
  `ApproveEntity` and `AddDriver` (its van link). `Handlers.UpdateLocation` takes both the
  store and the registry.

Record shapes and column defaults come from `backend/models.py` (module `Models`).
Coordinates are only copied and compared, never computed with. They are modelled as
integers in fixed point with four decimals, so the default 18.5204, 73.8567 is
185204, 738567.

Behaviour of the code that is easy to misread:

- The school stop takes its coordinates from `students[0]`, the first student in the order
  the query returned them (backend/main.py:376). It does not take them from the first
  student after sorting. `RouteBuilder.ThreeStudentExample` shows a case where the two differ.
  `RouteBuilder.SingleSchoolStop` shows that they agree when all students share one school.
- `disconnect` is `list.remove`. It is not idempotent: removing an absent socket raises
  `ValueError` (`Disconnect` returns `false` and changes nothing).
- `broadcast` does not prune sockets whose send failed. The list is left as it is.
- The student query (backend/main.py:346) returns rows in an order SQL does not fix. The
  model takes the returned list as a parameter `resolved`, constrained by
  `RouteBuilder.Resolves`: each stored row whose id was requested appears once, and nothing
  else appears. The capacity check counts this list, not the requested ids.
- Because that order is not fixed, the same request over the same rows can give different
  routes. Students with equal school coordinates keep the query's order
  (`RouteBuilder.QueryOrderDecidesTies`), and the school stop comes from whichever student
  the query returned first (`RouteBuilder.QueryOrderDecidesSchoolStop`). Only the multiset
  of student stops is the same for every order (`RouteBuilder.StudentStopsPermute`).

Python truthiness is modelled explicitly. `not van.assigned_driver_id` holds for both
`None` and `""`, and so does the `if new_driver.assigned_van_id:` test in `add_driver`
(`Models.Truthy`).

## Model

| member | source | states |
|---|---|---|
| `Models.NewUser` | backend/models.py:8-21 | a user row left to its defaults has status "pending" |
| `Models.NewVan` | backend/models.py:23-35 | a new van is "pending", not tracked, has no driver, and its current and start positions are both (18.5204, 73.8567) |
| `Models.NewDriver` | backend/models.py:37-45 | a new driver is "pending" and is linked to no van |
| `Models.NewStudent` | backend/models.py:47-58 | a new student's school is at (0.0, 0.0), its status is "approved" and it is linked to no van |
| `SchoolOrder.Insert` | backend/main.py:354 | inserting a student into a list sorted by (school_lat, school_lng) keeps it sorted and adds exactly that student |
| `SchoolOrder.SortBySchool` | backend/main.py:354 | the visiting order is non-decreasing in (school_lat, school_lng), compared lexicographically, and is a permutation of the resolved students |
| `SchoolOrder.InsertWithKey` | backend/main.py:354 | insertion puts a student before every student with an equal key, and the others with that key keep their order |
| `SchoolOrder.SortIsStable` | backend/main.py:354 | for every key, the students with that key keep their input order (Python's `sorted` is stable) |
| `SchoolOrder.SortedIsUnchanged` | backend/main.py:354 | a list already in school order is left as it is |
| `SchoolOrder.SortIsIdempotent` | backend/main.py:354 | sorting an already sorted list changes nothing |
| `SchoolOrder.DefaultSchoolsKeepOrder` | backend/models.py:53-54 | students who all kept the default school (0.0, 0.0) are visited in query order |
| `RouteBuilder.FirstFailure` | backend/main.py:340-351 | the checks run in this order: van missing, van not "approved", no driver (None or ""), no resolved students, more resolved students than capacity; each error arises exactly when all earlier checks pass, and the capacity error carries both counts |
| `RouteBuilder.PlanRoute` | backend/main.py:337-389 | fails exactly on the first failed check; otherwise it saves a route with the request's agency, van, trip type and `student_ids` verbatim and the van's driver as a snapshot; resolved count is at most capacity; the stops are one depot stop first at the van's start position, one student stop per resolved student at its home in stable school order, and one school stop last at `students[0]`'s school |
| `RouteBuilder.BuildStops` | backend/main.py:357-377 | appending the depot, each student in order, then the school gives exactly the stop list `PlanRoute` describes |
| `RouteBuilder.StudentStopsPermute` | backend/main.py:366-371 | two orderings of the same students give the same student stops, each as often |
| `RouteBuilder.EachStudentOneStop` | backend/main.py:366-371 | the student stops of a saved route are one stop per resolved student, as a multiset |
| `RouteBuilder.NoRouteOnError` | backend/main.py:340-351 | a missing, unapproved or driverless van, no resolved students, or too many of them, gives an error and no route |
| `RouteBuilder.NewVanCannotBeRouted` | backend/models.py:29-30 | a van left to its defaults is rejected as not approved; once approved it is still rejected for having no driver |
| `RouteBuilder.DefaultDepot` | backend/models.py:34-35 | a van that kept its default start position starts its route at (18.5204, 73.8567) |
| `RouteBuilder.Resolves` | backend/main.py:346 | the query result: every row is a stored student whose id was requested, no id comes twice, and every requested id that is stored appears; the order is left open |
| `RouteBuilder.ResolvedRowsAreRequested` | backend/main.py:346 | the rows the student query returns (`RouteBuilder.Resolves`) are exactly the stored rows whose id was requested, each once, in any order |
| `RouteBuilder.CapacityCountsResolvedStudents` | backend/main.py:346-351 | a request listing one student twice and an unknown id resolves to that one student, fits a van of capacity 1, and the route keeps the request's id list verbatim |
| `RouteBuilder.ThreeStudentOrder` | backend/main.py:354 | students at schools (10.0, 10.0), (5.0, 5.0) and (5.0, 8.0) are ordered (5.0, 5.0), (5.0, 8.0), (10.0, 10.0) |
| `RouteBuilder.ThreeStudentExample` | backend/main.py:354-377 | for those three students the stops are depot, S2, S3, S1, school, and the school stop is at S1's (10.0, 10.0) because S1 came first from the query |
| `RouteBuilder.SingleSchoolStop` | backend/main.py:373-377 | when all students share one school, the school stop is at the school of the first student in visiting order as well |
| `RouteBuilder.QueryOrderDecidesTies` | backend/main.py:346-371 | two students with one school key but different names, returned by the query in the two possible orders, give routes whose stop lists differ |
| `RouteBuilder.QueryOrderDecidesSchoolStop` | backend/main.py:346-377 | two students at different schools, returned in the two possible orders, give routes whose school stops differ |
| `Connections.IndexOf` | backend/main.py:110-111 | the first position at which a socket occurs |
| `Connections.RemoveFirst` | backend/main.py:110-111 | removing a present socket shortens the list by one |
| `Connections.RemoveFirstSplice` | backend/main.py:110-111 | removal cuts out exactly the first occurrence and keeps the others in order |
| `Connections.RemoveFirstMultiset` | backend/main.py:110-111 | removal takes away one copy of the socket and nothing else |
| `Connections.ConnectThenDisconnect` | backend/main.py:106-111 | connecting a new socket and then disconnecting it restores the list |
| `Connections.SecondDisconnectFails` | backend/main.py:110-111 | a socket registered once is absent after one disconnect, so a second disconnect raises: disconnect is not idempotent |
| `Connections.Attempts` | backend/main.py:113-118 | a broadcast makes exactly one attempt per list entry, in list order, whatever the outcome of the others |
| `Connections.FanOutAfterDisconnect` | backend/main.py:110-118 | after a socket registered once disconnects, a broadcast makes one attempt fewer and none to it |
| `Connections.ConnectionManager.constructor` | backend/main.py:103-104 | the registry starts empty |
| `Connections.ConnectionManager.Connect` | backend/main.py:106-108 | appends exactly the socket at the end |
| `Connections.ConnectionManager.Disconnect` | backend/main.py:110-111 | succeeds exactly when the socket is present and then removes its first occurrence; otherwise fails (ValueError) and changes nothing |
| `Connections.ConnectionManager.Broadcast` | backend/main.py:113-118 | records one attempt per entry in order; the list is unchanged and no failure propagates |
| `Handlers.RouteErrorResponse` | backend/main.py:341-351 | only a missing van is a 404, every other route error a 400; the capacity error's detail quotes both counts |
| `Handlers.Toggled` | backend/main.py:432 | toggling negates track_always and changes no other field |
| `Handlers.ToggledTwice` | backend/main.py:432 | toggling twice restores the van row |
| `Handlers.Relocated` | backend/main.py:411-413 | a location report sets current_lat and current_lng and changes no other field |
| `Handlers.PayloadOf` | backend/main.py:417-422 | the broadcast message carries the report's van_id, lat, lng and status |
| `Handlers.Database.ToggleTracking` | backend/main.py:427-434 | an unknown van gives 404 and no change; otherwise only that van's track_always is negated and the new value is returned |
| `Handlers.Database.AssignDriver` | backend/main.py:325-335 | 404 and no change unless both rows exist; otherwise the van names the driver and the driver names the van, and nothing else changes |
| `Handlers.Database.DeleteDriver` | backend/main.py:264-273 | the driver row is gone; if some van names the driver, exactly one such van is unlinked, otherwise the vans are unchanged |
| `Handlers.Database.ApproveEntity` | backend/main.py:309-323 | "van", "driver", "user" and "users" select a table; an unknown type is a 400 and an unknown id a 404, both with no change; otherwise only that row's status becomes "approved" |
| `Handlers.Database.AddDriver` | backend/main.py:232-245 | stores a "pending" driver under the new id; a non-empty van id naming an existing van makes that van's driver the new driver, and otherwise no van changes |
| `Handlers.Database.CreateOptimizedRoute` | backend/main.py:337-390 | saves exactly the route `PlanRoute` describes when every check passes; on an error it saves nothing and raises that check's HTTP error |
| `Handlers.DeleteDriverCanLeaveDanglingLink` | backend/main.py:264-273 | after one driver is assigned to two vans and then deleted, some van still names the deleted driver |
| `Handlers.UpdateLocation` | backend/main.py:407-425 | a known van's current position is set; an unknown van changes nothing; the status is never stored; the report is broadcast to every socket either way and the answer is always success |

## Left out

- Database and web plumbing: the SQLAlchemy engine, sessions and commits (backend/database.py), FastAPI routing, CORS and the pydantic schemas. Tables are maps and a commit is the state change.
- The websocket endpoint's accept and keep-alive loop (backend/main.py:436-443), and the `async`/`await` of `connect` and `broadcast`. These are I/O. The registry is modelled sequentially, and concurrent changes to the list during a broadcast are not modelled. A send's outcome is the parameter `sendOk`.
- `seed_admin` and backend/create_admin.py are one-shot scripts. `register` and `login` depend on `auth.get_password_hash`/`verify_password`, which are not part of this model. `driver_login` (backend/main.py:171-198) is a chain of lookups with a plain-text password check, and it is left out as lookup plumbing.
- Thin endpoints with no logic beyond a query or a field copy: `add_van`, `get_vans`, `update_van`, `delete_van`, `get_drivers`, `update_driver`, `add_student`, `get_students`, `update_student`, `delete_student`, `get_all_agencies`, `get_routes`, `delete_route`.
- `json.dumps` is replaced by the payload record `Payload`. `uuid.uuid4` ids are parameters (`new_id`, `route_id`). `AddDriver` requires the new id to be unused, as a primary key must be.
- Floating point: coordinates are integers, so NaN and the exact float ordering are not modelled. Database NULLs in the coordinate and capacity columns are not modelled either; Python would raise a TypeError when comparing them.
- Database constraints: the unique `email` columns (an IntegrityError on a duplicate) are not modelled.
- Handlers.Database.DeleteDriver: which van `.first()` returns depends on the database's row order; the model leaves the choice open among the vans that name the driver.
- Handlers.Database.CreateOptimizedRoute: the student query's result is a parameter constrained by `Resolves`, not computed from the table, because SQL does not fix its order.
- The success bodies of the handlers are modelled as their message strings, or as the new flag for `toggle_tracking`. The `Route` returned by the ORM is not part of any response.
- mobile_app/android/app/build.gradle.kts is build configuration.
