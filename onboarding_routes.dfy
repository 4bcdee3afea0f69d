/** The onboarding routes (taxi_platform/routes/onboarding.py): creating a driver profile for a
    user with the driver role, setting a profile's status, and listing profiles. */
module OnboardingRoutes {
  import opened Wrappers
  import opened PlatformModels
  import opened PlatformHttp
  import S = PlatformStore
  import Decimal
  import DriverRoutes

  /** What `int(value)` does with a JSON value: a number, a conversion `ValueError`, or a
      `TypeError` (null, arrays and objects), which no route catches. */
  datatype IntConversion = Converted(value: int) | ConversionValueError | ConversionTypeError

  /** `int()` of a real truncates toward zero. */
  function Truncate(r: real): (i: int)
    ensures r >= 0.0 ==> i as real <= r < i as real + 1.0
    ensures r < 0.0 ==> i as real - 1.0 < r <= i as real
  {
    if r >= 0.0 then r.Floor else -((-r).Floor)
  }

  function IntOf(v: JsonValue): (c: IntConversion)
    ensures v.JNull? || v.JArray? || v.JObject? <==> c == ConversionTypeError
    ensures v.JInt? ==> c == Converted(v.i)
    ensures v.JString? ==> (c.Converted? <==> Decimal.ParseInt(v.s).Some?)
  {
    match v
    case JInt(i) => Converted(i)
    case JBool(b) => Converted(if b then 1 else 0)
    case JReal(r) => Converted(Truncate(r))
    case JString(s) =>
      var parsed := Decimal.ParseInt(s);
      if parsed.Some? then Converted(parsed.value) else ConversionValueError
    case _ => ConversionTypeError
  }

  /** A user id sent as decimal text is read as that id. */
  lemma UserIdAsText(i: int)
    ensures IntOf(JString(Decimal.IntToDecimal(i))) == Converted(i)
  {
    Decimal.ParseIntOfDecimal(i);
  }

  const NotADriver := Reply(400, Error("User must exist and have driver role"))

  /** The conditions under which `POST /onboarding/driver` creates a profile. */
  predicate Onboardable(st: S.StoreState, payload: Payload)
  {
    && "user_id" in payload && IntOf(payload["user_id"]).Converted?
    && "vehicle" in payload && "license_number" in payload
    && IntOf(payload["user_id"]).value in st.users
    && st.users[IntOf(payload["user_id"]).value].role == DriverRole
  }

  /** `POST /onboarding/driver`: the fields are read in order `user_id`, `vehicle`,
      `license_number`; a user id that is null, an array or an object raises an uncaught
      `TypeError` (500), while text that does not parse raises the caught `ValueError` (400). A
      user may be onboarded any number of times. */
  function CreateDriverProfile(st: S.StoreState, payload: Payload): (o: Response)
    ensures o.reply.code in {201, 400, 500}
    ensures o.reply.code != 201 ==> o.next == st
    ensures o.reply.code == 201 <==> Onboardable(st, payload)
    ensures o.reply.code == 500 <==> "user_id" in payload && IntOf(payload["user_id"]).ConversionTypeError?
    ensures o.reply.code == 201 ==>
      o.reply.body == ProfileBody(DriverProfile(st.driverCounter + 1, IntOf(payload["user_id"]).value,
                                                payload["vehicle"], payload["license_number"], Pending))
  {
    if "user_id" !in payload then Response(Reply(400, InvalidPayload("user_id")), st)
    else
      var userId := IntOf(payload["user_id"]);
      if userId.ConversionTypeError? then Response(Reply(500, InternalError), st)
      else if userId.ConversionValueError? then Response(Reply(400, InvalidPayload("user_id")), st)
      else if "vehicle" !in payload then Response(Reply(400, InvalidPayload("vehicle")), st)
      else if "license_number" !in payload then Response(Reply(400, InvalidPayload("license_number")), st)
      else if userId.value !in st.users || st.users[userId.value].role != DriverRole then Response(NotADriver, st)
      else
        var c := S.AddDriverProfile(st, userId.value, payload["vehicle"], payload["license_number"]);
        Response(Reply(201, ProfileBody(c.outcome.value)), c.next)
  }

  method HandleCreateDriverProfile(store: S.DataStore, payload: Payload) returns (reply: Reply)
    modifies store
    ensures Response(reply, store.Snapshot()) == CreateDriverProfile(old(store.Snapshot()), payload)
  {
    if "user_id" !in payload {
      return Reply(400, InvalidPayload("user_id"));
    }
    var userId := IntOf(payload["user_id"]);
    if userId.ConversionTypeError? {
      return Reply(500, InternalError);
    }
    if userId.ConversionValueError? {
      return Reply(400, InvalidPayload("user_id"));
    }
    if "vehicle" !in payload {
      return Reply(400, InvalidPayload("vehicle"));
    }
    var vehicle := payload["vehicle"];
    if "license_number" !in payload {
      return Reply(400, InvalidPayload("license_number"));
    }
    var licenseNumber := payload["license_number"];
    if userId.value !in store.users || store.users[userId.value].role != DriverRole {
      return NotADriver;
    }
    var profile := store.CreateDriverProfile(userId.value, vehicle, licenseNumber);
    reply := Reply(201, ProfileBody(profile));
  }

  /** Onboarding the same user twice gives two profiles with distinct ids. */
  lemma OnboardingTwiceGivesTwoProfiles(st: S.StoreState, payload: Payload)
    requires S.Valid(st) && Onboardable(st, payload)
    ensures var o1 := CreateDriverProfile(st, payload);
      var o2 := CreateDriverProfile(o1.next, payload);
      && o2.reply.code == 201
      && o1.reply.body.profile.userId == o2.reply.body.profile.userId
      && o1.reply.body.profile.id != o2.reply.body.profile.id
      && |S.DriverProfiles(o2.next)| == |S.DriverProfiles(st)| + 2
  {
  }

  /** `PATCH /onboarding/driver/<driver_id>/status`: the status is validated, but the profile's
      existence is not, so an unknown driver id surfaces as the store's `KeyError`: 500. */
  function UpdateDriverStatus(st: S.StoreState, driverId: nat, payload: Payload): (o: Response)
    ensures o.reply.code in {200, 400, 500}
    ensures o.reply.code != 200 ==> o.next == st
    ensures o.reply.code == 400 <==> "status" !in payload || DriverStatusOf(payload["status"]).None?
    ensures o.reply.code == 500 <==>
      "status" in payload && DriverStatusOf(payload["status"]).Some? && driverId !in st.drivers
    ensures o.reply.code == 200 ==>
      o.next == st.(drivers := st.drivers[driverId := st.drivers[driverId].(status := DriverStatusOf(payload["status"]).value)])
  {
    if "status" !in payload || DriverStatusOf(payload["status"]).None? then
      Response(Reply(400, InvalidPayload("status")), st)
    else
      var c := S.SetDriverStatus(st, driverId, DriverStatusOf(payload["status"]).value);
      if c.outcome.KeyError? then Response(Reply(500, InternalError), st)
      else Response(Reply(200, ProfileBody(c.outcome.value)), c.next)
  }

  method HandleUpdateDriverStatus(store: S.DataStore, driverId: nat, payload: Payload) returns (reply: Reply)
    modifies store
    ensures Response(reply, store.Snapshot()) == UpdateDriverStatus(old(store.Snapshot()), driverId, payload)
  {
    if "status" !in payload {
      return Reply(400, InvalidPayload("status"));
    }
    var status := DriverStatusOf(payload["status"]);
    if status.None? {
      return Reply(400, InvalidPayload("status"));
    }
    var result := store.UpdateDriverStatus(driverId, status.value);
    if result.KeyError? {
      return Reply(500, InternalError);
    }
    reply := Reply(200, ProfileBody(result.value));
  }

  /** For a valid status and an existing profile the two status routes agree; for an unknown
      profile the driver route answers 404 and this one 500. */
  lemma StatusRoutesCompared(st: S.StoreState, driverId: nat, payload: Payload)
    requires "status" in payload && DriverStatusOf(payload["status"]).Some?
    ensures driverId in st.drivers ==> UpdateDriverStatus(st, driverId, payload) == DriverRoutes.UpdateStatus(st, driverId, payload)
    ensures driverId !in st.drivers ==>
      UpdateDriverStatus(st, driverId, payload).reply.code == 500 && DriverRoutes.UpdateStatus(st, driverId, payload).reply.code == 404
  {
  }

  /** `GET /onboarding/drivers`. */
  function ListDriverProfiles(st: S.StoreState): Reply
  {
    Reply(200, ProfileList(S.DriverProfiles(st)))
  }

  /** The listing holds every profile once, in creation order. */
  lemma ListDriverProfilesInCreationOrder(st: S.StoreState)
    requires S.Valid(st)
    ensures var r := ListDriverProfiles(st).body.profiles;
      |r| == st.driverCounter && forall i :: 0 <= i < |r| ==> r[i] == st.drivers[i + 1] && r[i].id == i + 1
  {
    S.ValuesAt(st.drivers, st.driverCounter);
  }
}
