/** The end-to-end flow of tests/test_app.py, replayed on the model from an empty store. */
module PlatformFlow {
  import opened Wrappers
  import opened PlatformModels
  import opened PlatformHttp
  import S = PlatformStore
  import AdminRoutes
  import OnboardingRoutes
  import DriverRoutes
  import RiderRoutes

  const AliceRequest: Payload := map["name" := JString("Alice"), "role" := JString("admin")]
  const BobRequest: Payload := map["name" := JString("Bob"), "role" := JString("driver")]
  const CarolRequest: Payload := map["name" := JString("Carol"), "role" := JString("rider")]
  const OnboardRequest: Payload := map["user_id" := JInt(2), "vehicle" := JString("Toyota Prius"), "license_number" := JString("XYZ123")]
  const ActivateRequest: Payload := map["status" := JString("active")]
  const RideRequestBody: Payload := map["pickup" := JString("Downtown"), "dropoff" := JString("Airport")]

  const Users := map[1 := User(1, JString("Alice"), Admin), 2 := User(2, JString("Bob"), DriverRole),
                     3 := User(3, JString("Carol"), Rider)]
  const Profile := DriverProfile(1, 2, JString("Toyota Prius"), JString("XYZ123"), Pending)

  function Requested(now: int): RideRequest
  {
    RideRequest(1, 3, JString("Downtown"), JString("Airport"), PlatformModels.Requested, None, now)
  }

  /** The three users get ids 1, 2 and 3. */
  lemma UsersCreated()
    ensures var a := AdminRoutes.CreateUser(S.Empty, AliceRequest);
      var b := AdminRoutes.CreateUser(a.next, BobRequest);
      var c := AdminRoutes.CreateUser(b.next, CarolRequest);
      && a.reply.code == 201 && b.reply.code == 201 && c.reply.code == 201
      && b.reply.body.user.id == 2 && c.reply.body.user.id == 3
      && c.next == S.StoreState(Users, map[], map[], 3, 0, 0)
  {
  }

  /** User 2 becomes driver profile 1, then active. */
  lemma DriverOnboarded()
    ensures var st := S.StoreState(Users, map[], map[], 3, 0, 0);
      var onboard := OnboardingRoutes.CreateDriverProfile(st, OnboardRequest);
      var activate := OnboardingRoutes.UpdateDriverStatus(onboard.next, 1, ActivateRequest);
      && onboard.reply.code == 201 && activate.reply.code == 200
      && activate.next == S.StoreState(Users, map[1 := Profile.(status := Active)], map[], 3, 1, 0)
  {
    var st := S.StoreState(Users, map[], map[], 3, 0, 0);
    assert OnboardingRoutes.IntOf(JInt(2)) == OnboardingRoutes.Converted(2);
    assert OnboardingRoutes.Onboardable(st, OnboardRequest);
  }

  /** Rider 3's request becomes ride 1, the one open request driver 1 sees. */
  lemma RideRequested(now: int)
    ensures var st := S.StoreState(Users, map[1 := Profile.(status := Active)], map[], 3, 1, 0);
      var request := RiderRoutes.RequestRide(st, 3, RideRequestBody, now);
      var available := DriverRoutes.AvailableRides(request.next, 1);
      && request.reply == Reply(201, RideBody(Requested(now)))
      && request.next == st.(rides := map[1 := Requested(now)], rideCounter := 1)
      && available == Reply(200, RideList([Requested(now)]))
  {
    var st := S.StoreState(Users, map[1 := Profile.(status := Active)], map[], 3, 1, 0);
    var next := st.(rides := map[1 := Requested(now)], rideCounter := 1);
    assert S.Values(next.rides, 1) == [Requested(now)];
    assert S.Filter([Requested(now)], None, None) == [Requested(now)];
    assert S.Filter([Requested(now)], None, Some(PlatformModels.Requested)) == [Requested(now)];
    assert S.AvailableRides(next) == [Requested(now)];
  }

  /** Driver 1 accepts ride 1, and the rider's listing shows it accepted. */
  lemma RideAccepted(now: int)
    ensures var st := S.StoreState(Users, map[1 := Profile.(status := Active)], map[1 := Requested(now)], 3, 1, 1);
      var accept := DriverRoutes.AcceptRide(st, 1, 1);
      var history := RiderRoutes.ListRides(accept.next, 3);
      && accept.reply.code == 200 && accept.reply.body.ride.driverId == Some(1)
      && history.code == 200 && |history.body.rides| > 0 && history.body.rides[0].status == Accepted
  {
    var st := S.StoreState(Users, map[1 := Profile.(status := Active)], map[1 := Requested(now)], 3, 1, 1);
    var taken := Requested(now).(driverId := Some(1), status := Accepted);
    var next := DriverRoutes.AcceptRide(st, 1, 1).next;
    assert next.rides == map[1 := taken] && next.rideCounter == 1;
    assert S.Values(next.rides, 1) == [taken];
    assert S.Filter([taken], Some(3), None) == [taken];
  }

  /** The whole flow, as the end-to-end scenario runs it. */
  lemma FullFlow(now: int)
    ensures
      var a := AdminRoutes.CreateUser(S.Empty, AliceRequest);
      var b := AdminRoutes.CreateUser(a.next, BobRequest);
      var c := AdminRoutes.CreateUser(b.next, CarolRequest);
      var onboard := OnboardingRoutes.CreateDriverProfile(c.next, OnboardRequest);
      var activate := OnboardingRoutes.UpdateDriverStatus(onboard.next, 1, ActivateRequest);
      var request := RiderRoutes.RequestRide(activate.next, 3, RideRequestBody, now);
      var available := DriverRoutes.AvailableRides(request.next, 1);
      var accept := DriverRoutes.AcceptRide(request.next, 1, request.reply.body.ride.id);
      var history := RiderRoutes.ListRides(accept.next, 3);
      && a.reply.code == 201 && b.reply.code == 201 && c.reply.code == 201
      && onboard.reply.code == 201 && activate.reply.code == 200
      && request.reply.code == 201 && request.reply.body.ride.id == 1
      && available.code == 200 && |available.body.rides| == 1
      && accept.reply.code == 200 && accept.reply.body.ride.driverId == Some(1)
      && history.code == 200 && |history.body.rides| > 0 && history.body.rides[0].status == Accepted
  {
    UsersCreated();
    DriverOnboarded();
    RideRequested(now);
    RideAccepted(now);
  }
}
