/** Record shapes of the van-tracking backend's tables and their column defaults. */
module Models {

  datatype Option<T> = None | Some(value: T)

  datatype Result<T, E> = Ok(value: T) | Err(error: E)

  /** Look a primary key up in a table. */
  function Find<K, V>(table: map<K, V>, key: K): (r: Option<V>)
    ensures r.Some? <==> key in table
    ensures r.Some? ==> r.value == table[key]
  {
    if key in table then Some(table[key]) else None
  }

  type Id = string

  /** A coordinate in degrees, as a fixed-point number with four decimals (18.5204 is 185204). */
  type Coord = int

  /** The default position of a van: 18.5204, 73.8567. */
  const DefaultLat: Coord := 185204
  const DefaultLng: Coord := 738567

  /** Python truthiness of a nullable string column: both None and "" are false. */
  predicate Truthy(s: Option<string>) {
    s.Some? && s.value != ""
  }

  datatype User = User(
    id: Id,
    email: string,
    hashed_password: string,
    role: string,
    agency_name: Option<string>,
    status: string)

  datatype Van = Van(
    id: Id,
    van_number: string,
    capacity: int,
    agency_id: Id,
    assigned_driver_id: Option<Id>,
    status: string,
    track_always: bool,
    current_lat: Coord,
    current_lng: Coord,
    start_lat: Coord,
    start_lng: Coord)

  datatype Driver = Driver(
    id: Id,
    name: string,
    email: string,
    password: string,
    agency_id: Id,
    assigned_van_id: Option<Id>,
    status: string)

  datatype Student = Student(
    id: Id,
    name: string,
    home_lat: Coord,
    home_lng: Coord,
    school_lat: Coord,
    school_lng: Coord,
    agency_id: Id,
    assigned_van_id: Option<Id>,
    schedule: string,
    status: string)

  /** The "type" key of a stop in a route's JSON stop list. */
  datatype StopKind = Depot | StudentStop | School

  /** One element of a route's JSON stop list; only student stops carry an agency id. */
  datatype Stop = Stop(
    kind: StopKind,
    name: string,
    home_lat: Coord,
    home_lng: Coord,
    agency_id: Option<Id>)

  /** A route owns its ordered stop list and the student id list it was requested with. */
  datatype Route = Route(
    id: Id,
    agency_id: Id,
    van_id: Id,
    driver_id: Option<Id>,
    trip_type: string,
    stops: seq<Stop>,
    student_ids: seq<Id>)

  /** A user row whose status column was left to its default. */
  function NewUser(id: Id, email: string, hashed_password: string, role: string, agency_name: Option<string>): (u: User)
    ensures u.status == "pending"
    ensures u.id == id && u.email == email && u.role == role && u.agency_name == agency_name
  {
    User(id, email, hashed_password, role, agency_name, "pending")
  }

  /** A van row whose defaulted columns were left to their defaults. */
  function NewVan(id: Id, van_number: string, capacity: int, agency_id: Id): (v: Van)
    ensures v.status == "pending" && !v.track_always && v.assigned_driver_id == None
    ensures v.current_lat == v.start_lat == DefaultLat && v.current_lng == v.start_lng == DefaultLng
    ensures v.id == id && v.capacity == capacity && v.agency_id == agency_id
  {
    Van(id, van_number, capacity, agency_id, None, "pending", false,
        DefaultLat, DefaultLng, DefaultLat, DefaultLng)
  }

  /** A driver row whose defaulted columns were left to their defaults. */
  function NewDriver(id: Id, name: string, email: string, password: string, agency_id: Id): (d: Driver)
    ensures d.status == "pending" && d.assigned_van_id == None
    ensures d.id == id && d.agency_id == agency_id
  {
    Driver(id, name, email, password, agency_id, None, "pending")
  }

  /** A student row whose defaulted columns were left to their defaults. */
  function NewStudent(id: Id, name: string, home_lat: Coord, home_lng: Coord, agency_id: Id, schedule: string): (s: Student)
    ensures s.school_lat == 0 && s.school_lng == 0
    ensures s.status == "approved" && s.assigned_van_id == None
    ensures s.id == id && s.home_lat == home_lat && s.home_lng == home_lng
  {
    Student(id, name, home_lat, home_lng, 0, 0, agency_id, None, schedule, "approved")
  }
}
