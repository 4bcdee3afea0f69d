/** The records and enumerations of the Python taxi platform (taxi_platform/models.py), and the
    JSON values its routes read from request bodies. */
module PlatformModels {
  import opened Wrappers

  datatype Role = Admin | DriverRole | Rider

  function RoleName(r: Role): string
  {
    match r
    case Admin => "admin"
    case DriverRole => "driver"
    case Rider => "rider"
  }

  /** Enum lookup by value: `Role(value)`; any other value is a `ValueError`. */
  function ParseRole(name: string): (r: Option<Role>)
    ensures r.Some? <==> name in {"admin", "driver", "rider"}
    ensures r.Some? ==> RoleName(r.value) == name
  {
    if name == "admin" then Some(Admin)
    else if name == "driver" then Some(DriverRole)
    else if name == "rider" then Some(Rider)
    else None
  }

  lemma ParseRoleName(r: Role)
    ensures ParseRole(RoleName(r)) == Some(r)
  {
  }

  datatype DriverStatus = Pending | Active | Inactive | OnTrip

  function DriverStatusName(s: DriverStatus): string
  {
    match s
    case Pending => "pending"
    case Active => "active"
    case Inactive => "inactive"
    case OnTrip => "on_trip"
  }

  function ParseDriverStatus(name: string): (r: Option<DriverStatus>)
    ensures r.Some? <==> name in {"pending", "active", "inactive", "on_trip"}
    ensures r.Some? ==> DriverStatusName(r.value) == name
  {
    if name == "pending" then Some(Pending)
    else if name == "active" then Some(Active)
    else if name == "inactive" then Some(Inactive)
    else if name == "on_trip" then Some(OnTrip)
    else None
  }

  lemma ParseDriverStatusName(s: DriverStatus)
    ensures ParseDriverStatus(DriverStatusName(s)) == Some(s)
  {
  }

  datatype RideStatus = Requested | Accepted | Completed | Cancelled

  function RideStatusName(s: RideStatus): string
  {
    match s
    case Requested => "requested"
    case Accepted => "accepted"
    case Completed => "completed"
    case Cancelled => "cancelled"
  }

  /** A value decoded from a JSON request body. Fields the routes store without converting
      (names, vehicles, addresses) keep whatever JSON value the client sent. */
  datatype JsonValue =
    | JNull
    | JBool(b: bool)
    | JInt(i: int)
    | JReal(r: real)
    | JString(s: string)
    | JArray(items: seq<JsonValue>)
    | JObject(fields: map<string, JsonValue>)

  /** A request body that decoded to a JSON object. */
  type Payload = map<string, JsonValue>

  /** `Role(payload[...])`: only the three strings name a role; every other JSON value is a
      `ValueError`. */
  function RoleOf(v: JsonValue): (r: Option<Role>)
    ensures r.Some? <==> v.JString? && v.s in {"admin", "driver", "rider"}
  {
    if v.JString? then ParseRole(v.s) else None
  }

  function DriverStatusOf(v: JsonValue): (r: Option<DriverStatus>)
    ensures r.Some? <==> v.JString? && v.s in {"pending", "active", "inactive", "on_trip"}
  {
    if v.JString? then ParseDriverStatus(v.s) else None
  }

  /** `User`: the id is the store's counter at creation. */
  datatype User = User(id: int, name: JsonValue, role: Role)

  /** `DriverProfile`: new profiles start `pending`. */
  datatype DriverProfile = DriverProfile(id: int, userId: int, vehicle: JsonValue, licenseNumber: JsonValue, status: DriverStatus)

  /** `RideRequest`: new requests start `requested` with no driver; `requestedAt` is the clock
      reading at creation. */
  datatype RideRequest = RideRequest(
    id: int, riderId: int, pickup: JsonValue, dropoff: JsonValue, status: RideStatus,
    driverId: Option<int>, requestedAt: int)
}
