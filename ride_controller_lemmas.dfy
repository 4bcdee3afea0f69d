/** Properties of the ride controller: what each handler guarantees, the invariants it keeps, and
    the behaviours the code admits because it does not guard against them. */
module RideControllerLemmas {
  import opened Wrappers
  import opened RideSchema
  import opened DriverSchema
  import opened DispatchState
  import opened RideController

  // ---------------------------------------------------------------------------------------------
  // Fare

  lemma FareOfTenKilometresBySedan()
    ensures CalculateFare(10000, "sedan") == Fare(300, 150, 10.0, 0, 1800)
  {
  }

  lemma FareUnknownClassIsSedan(meters: nat, name: string)
    requires ParseVehicleType(name).None?
    ensures CalculateFare(meters, name) == CalculateFare(meters, "sedan")
  {
  }

  /** A longer trip never costs less. */
  lemma FareMonotone(m1: nat, m2: nat, name: string)
    requires m1 <= m2
    ensures CalculateFare(m1, name).total <= CalculateFare(m2, name).total
  {
    var v := FareClass(name);
    var e1 := BaseFare(v) * 1000 + m1 * PerKmRate(v);
    var e2 := BaseFare(v) * 1000 + m2 * PerKmRate(v);
    assert e1 <= e2 by {
      assert PerKmRate(v) > 0;
      assert m1 * PerKmRate(v) <= m2 * PerKmRate(v);
    }
    DivMonotone(e1 + 500, e2 + 500, 1000);
  }

  lemma DivMonotone(a: int, b: int, d: int)
    requires a <= b && d > 0
    ensures a / d <= b / d
  {
    var qa, qb := a / d, b / d;
    assert qa * d <= a && b < (qb + 1) * d;
    MulCancel(qa, qb + 1, d);
  }

  lemma MulCancel(x: int, y: int, d: int)
    requires d > 0 && x * d < y * d
    ensures x < y
  {
    assert (y - x) * d > 0;
  }

  /** Every fare is at least the class's base fare. */
  lemma FareAtLeastBase(meters: nat, name: string)
    ensures CalculateFare(meters, name).total >= CalculateFare(meters, name).baseFare
  {
    var f := CalculateFare(meters, name);
    assert f.distance * f.perKmRate as real >= 0.0;
  }

  // ---------------------------------------------------------------------------------------------
  // Dispatch candidates

  /** A freshly registered driver is not offered rides: it is neither verified nor available. */
  lemma NewDriverNotEligible(name: string, phone: string, info: VehicleInfo, v: VehicleType)
    ensures !Eligible(NewDriver(name, phone, info), v)
  {
  }

  // ---------------------------------------------------------------------------------------------
  // requestRide

  /** A well-formed request creates exactly one ride, under the fresh id, in `requested` with no
      driver and the computed fare, and leaves every other ride, driver and user alone. */
  lemma RequestRideCreatesOneRide(s: State, caller: Caller, pickup: Place, dropoff: Place, vehicleType: string,
                                  dist: Distance, index: seq<Id>, queryFails: bool)
    requires FreshIds(s)
    requires ParseVehicleType(RequestedClass(vehicleType)).Some?
    requires pickup.address != "" && dropoff.address != ""
    ensures var o := RequestRide(s, caller, Some(pickup), Some(dropoff), vehicleType, dist, index, queryFails);
      && o.reply.code == 201
      && o.reply.body.rideId == s.nextRideId && s.nextRideId !in s.rides
      && o.next.rides.Keys == s.rides.Keys + {s.nextRideId}
      && |o.next.rides| == |s.rides| + 1
      && (forall id :: id in s.rides ==> o.next.rides[id] == s.rides[id])
      && o.next.rides[s.nextRideId] == o.reply.body.ride
      && o.reply.body.ride.status == Requested && o.reply.body.ride.driver.None?
      && o.reply.body.ride.rider == caller.id
      && o.reply.body.ride.fare == CalculateFare(dist(pickup.coordinates, dropoff.coordinates), vehicleType)
      && (vehicleType == "" ==> o.reply.body.ride.vehicleType == Sedan)
      && o.next.drivers == s.drivers && o.next.users == s.users
      && FreshIds(o.next)
  {
    var v := ParseVehicleType(RequestedClass(vehicleType)).value;
    var fare := CalculateFare(dist(pickup.coordinates, dropoff.coordinates), RequestedClass(vehicleType));
    var ride := NewRide(caller.id, pickup, dropoff, v, fare);
    var nearby := FindNearbyDrivers(s.drivers, index, pickup.coordinates, v, DispatchRadius, dist, queryFails);
    var next := s.(rides := s.rides[s.nextRideId := ride], nextRideId := s.nextRideId + 1,
                   outbox := s.outbox + Offers(nearby, s.nextRideId, fare));
    assert RequestRide(s, caller, Some(pickup), Some(dropoff), vehicleType, dist, index, queryFails)
        == Step(Reply(201, RideCreated(s.nextRideId, ride, |nearby|)), next);
    if vehicleType == "" {
      assert FareClass("") == Sedan == FareClass("sedan");
    }
    assert s.nextRideId !in s.rides;
  }

  /** The drivers a request notifies are exactly those it counts: at most ten, each an eligible
      candidate within the dispatch radius of the pickup. */
  lemma RequestRideNotifiesCandidates(s: State, caller: Caller, pickup: Place, dropoff: Place, vehicleType: string,
                                      dist: Distance, index: seq<Id>, queryFails: bool)
    requires RequestRide(s, caller, Some(pickup), Some(dropoff), vehicleType, dist, index, queryFails).reply.code == 201
    ensures var o := RequestRide(s, caller, Some(pickup), Some(dropoff), vehicleType, dist, index, queryFails);
      && |o.next.outbox| == |s.outbox| + o.reply.body.nearbyDriversCount
      && o.reply.body.nearbyDriversCount <= MaxCandidates
      && o.next.outbox[..|s.outbox|] == s.outbox
      && (queryFails ==> o.reply.body.nearbyDriversCount == 0)
      && (forall i :: |s.outbox| <= i < |o.next.outbox| ==>
            o.next.outbox[i].to.DriverChannel?
            && Candidate(s.drivers, o.next.outbox[i].to.id, pickup.coordinates, o.reply.body.ride.vehicleType, DispatchRadius, dist))
  {
    var o := RequestRide(s, caller, Some(pickup), Some(dropoff), vehicleType, dist, index, queryFails);
    var v := ParseVehicleType(RequestedClass(vehicleType)).value;
    var fare := CalculateFare(dist(pickup.coordinates, dropoff.coordinates), RequestedClass(vehicleType));
    var nearby := FindNearbyDrivers(s.drivers, index, pickup.coordinates, v, DispatchRadius, dist, queryFails);
    var offers := Offers(nearby, s.nextRideId, fare);
    assert o.next.outbox == s.outbox + offers;
    assert o.reply.body.nearbyDriversCount == |nearby| && o.reply.body.ride.vehicleType == v;
    forall i | |s.outbox| <= i < |o.next.outbox|
      ensures o.next.outbox[i].to.DriverChannel?
      ensures Candidate(s.drivers, o.next.outbox[i].to.id, pickup.coordinates, v, DispatchRadius, dist)
    {
      assert o.next.outbox[i] == offers[i - |s.outbox|];
    }
  }

  /** When the drivers are visited in the order a `$near` query promises, no driver gets the same
      offer twice, and a candidate that gets none is passed over only because ten nearer-or-equal
      drivers were offered the ride. */
  lemma RequestRideOffersNearest(s: State, caller: Caller, pickup: Place, dropoff: Place, vehicleType: string,
                                 dist: Distance, index: seq<Id>)
    requires VisitOrder(s.drivers, index, pickup.coordinates, dist)
    requires RequestRide(s, caller, Some(pickup), Some(dropoff), vehicleType, dist, index, false).reply.code == 201
    ensures var o := RequestRide(s, caller, Some(pickup), Some(dropoff), vehicleType, dist, index, false);
      var sent := o.next.outbox[|s.outbox|..];
      && (forall i, j :: 0 <= i < j < |sent| ==> sent[i].to != sent[j].to)
      && forall id :: Candidate(s.drivers, id, pickup.coordinates, o.reply.body.ride.vehicleType, DispatchRadius, dist)
                      && (forall i :: 0 <= i < |sent| ==> sent[i].to != DriverChannel(id)) ==>
           && |sent| == MaxCandidates
           && forall i :: 0 <= i < |sent| ==>
                dist(s.drivers[sent[i].to.id].location.coordinates, pickup.coordinates)
                  <= dist(s.drivers[id].location.coordinates, pickup.coordinates)
  {
    var o := RequestRide(s, caller, Some(pickup), Some(dropoff), vehicleType, dist, index, false);
    var v := ParseVehicleType(RequestedClass(vehicleType)).value;
    var fare := CalculateFare(dist(pickup.coordinates, dropoff.coordinates), RequestedClass(vehicleType));
    var nearby := FindNearbyDrivers(s.drivers, index, pickup.coordinates, v, DispatchRadius, dist, false);
    var sent := o.next.outbox[|s.outbox|..];
    assert sent == Offers(nearby, s.nextRideId, fare);
    assert o.reply.body.ride.vehicleType == v;
    assert forall i :: 0 <= i < |nearby| ==> sent[i].to == DriverChannel(nearby[i]);
  }

  // ---------------------------------------------------------------------------------------------
  // acceptRide

  /** An accept succeeds exactly when the caller is an idle, available driver and the ride is
      still requested (and its rider resolves); success assigns the ride and locks the driver,
      pairing the two, and touches no other ride, driver or user. */
  lemma AcceptRideOutcome(s: State, caller: Caller, rideId: Id)
    ensures var o := AcceptRide(s, caller, rideId);
      o.reply.code == 200 <==>
        && caller.role == DriverRole && caller.id in s.drivers
        && s.drivers[caller.id].isAvailable && s.drivers[caller.id].currentRide.None?
        && rideId in s.rides && s.rides[rideId].status == Requested
        && s.rides[rideId].rider in s.users
    ensures var o := AcceptRide(s, caller, rideId);
      o.reply.code == 200 ==>
        && o.next.rides.Keys == s.rides.Keys && o.next.drivers.Keys == s.drivers.Keys
        && o.next.rides[rideId].status == Accepted
        && o.next.rides[rideId].driver == Some(caller.id)
        && o.next.drivers[caller.id].currentRide == Some(rideId)
        && !o.next.drivers[caller.id].isAvailable
        && (forall id :: id in s.rides && id != rideId ==> o.next.rides[id] == s.rides[id])
        && (forall id :: id in s.drivers && id != caller.id ==> o.next.drivers[id] == s.drivers[id])
        && o.next.users == s.users
  {
  }

  /** The rejections come in a fixed order: a non-driver is refused before anything is looked up,
      a busy driver before the ride is looked up, an unknown ride before its status is read. */
  lemma AcceptRideRejectionOrder(s: State, caller: Caller, rideId: Id)
    ensures caller.role != DriverRole ==> AcceptRide(s, caller, rideId).reply.code == 403
    ensures caller.role == DriverRole && caller.id in s.drivers
            && (!s.drivers[caller.id].isAvailable || s.drivers[caller.id].currentRide.Some?)
            ==> AcceptRide(s, caller, rideId).reply.code == 400
    ensures caller.role == DriverRole && caller.id in s.drivers
            && s.drivers[caller.id].isAvailable && s.drivers[caller.id].currentRide.None?
            && rideId !in s.rides
            ==> AcceptRide(s, caller, rideId).reply.code == 404
    ensures caller.role == DriverRole && caller.id in s.drivers
            && s.drivers[caller.id].isAvailable && s.drivers[caller.id].currentRide.None?
            && rideId in s.rides && s.rides[rideId].status != Requested
            ==> AcceptRide(s, caller, rideId).reply.code == 400
  {
  }

  /** First accept wins: once a ride has been accepted, any driver's accept of it (the same one
      again, or another) is refused with 400 and changes nothing. */
  lemma SecondAcceptRefused(s: State, first: Caller, second: Caller, rideId: Id)
    requires AcceptRide(s, first, rideId).reply.code == 200
    requires second.role == DriverRole && second.id in s.drivers
    ensures var s1 := AcceptRide(s, first, rideId).next;
      AcceptRide(s1, second, rideId).reply.code == 400 && AcceptRide(s1, second, rideId).next == s1
  {
    AcceptRideOutcome(s, first, rideId);
    var s1 := AcceptRide(s, first, rideId).next;
    assert second.id in s1.drivers;
    if second.id != first.id && s1.drivers[second.id].isAvailable && s1.drivers[second.id].currentRide.None? {
      assert s1.rides[rideId].status == Accepted;
    }
  }

  lemma AcceptRideKeepsInvariants(s: State, caller: Caller, rideId: Id)
    requires FreshIds(s) && EngagedUnavailable(s)
    ensures FreshIds(AcceptRide(s, caller, rideId).next)
    ensures EngagedUnavailable(AcceptRide(s, caller, rideId).next)
  {
  }

  // ---------------------------------------------------------------------------------------------
  // updateRideStatus

  /** Only arrived, in-progress and completed can be requested. */
  lemma UpdateStatusRejectsOtherNames(s: State, caller: Caller, rideId: Id, status: string)
    requires status !in {"arrived", "in-progress", "completed"}
    ensures UpdateRideStatus(s, caller, rideId, status) == Step(Reply(400, Message("Invalid status")), s)
  {
    var p := ParseRideStatus(status);
    if p.Some? {
      assert RideStatusName(p.value) == status;
    }
  }

  /** Who may request what: a caller who is neither the assigned driver, the rider nor an admin is
      refused, and the rider (when not also the assigned driver) may request only completion. */
  lemma UpdateStatusAuthorization(s: State, caller: Caller, rideId: Id, status: string)
    requires rideId in s.rides && status in {"arrived", "in-progress", "completed"}
    ensures var ride := s.rides[rideId];
      !IsAssignedDriver(ride, caller) && ride.rider != caller.id && caller.role != AdminRole
      ==> UpdateRideStatus(s, caller, rideId, status).reply.code == 403
    ensures var ride := s.rides[rideId];
      !IsAssignedDriver(ride, caller) && caller.role != AdminRole && status != "completed"
      ==> UpdateRideStatus(s, caller, rideId, status).reply.code == 403
  {
  }

  /** The current status is never consulted: the assigned driver can mark a ride arrived or
      in-progress even when it is cancelled or already completed. */
  lemma UpdateStatusIgnoresCurrentStatus(s: State, caller: Caller, rideId: Id, status: string)
    requires rideId in s.rides && IsAssignedDriver(s.rides[rideId], caller)
    requires status == "arrived" || status == "in-progress"
    ensures var o := UpdateRideStatus(s, caller, rideId, status);
      && o.reply.code == 200
      && o.next.rides[rideId] == s.rides[rideId].(status := ParseRideStatus(status).value)
      && o.next.drivers == s.drivers && o.next.users == s.users
  {
  }

  /** Completion: 400 without an assigned driver; otherwise payment completed, the driver
      credited with the fare on every earnings counter, one more ride and released, and the rider
      one more ride. */
  lemma CompletionOutcome(s: State, caller: Caller, rideId: Id)
    requires rideId in s.rides
    requires IsAssignedDriver(s.rides[rideId], caller) || s.rides[rideId].rider == caller.id || caller.role == AdminRole
    ensures var ride := s.rides[rideId]; var o := UpdateRideStatus(s, caller, rideId, "completed");
      ride.driver.None? ==> o.reply.code == 400 && o.next == s
    ensures var ride := s.rides[rideId]; var o := UpdateRideStatus(s, caller, rideId, "completed");
      ride.driver.Some? && ride.driver.value in s.drivers && ride.rider in s.users ==>
        var d := ride.driver.value; var before := s.drivers[d]; var after := o.next.drivers[d];
        && o.reply.code == 200
        && o.next.rides[rideId].status == Completed
        && o.next.rides[rideId].payment.status == PaymentCompleted
        && after.totalRides == before.totalRides + 1
        && after.currentRide.None? && after.isAvailable
        && after.earnings.total == before.earnings.total + ride.fare.total
        && after.earnings.daily == before.earnings.daily + ride.fare.total
        && after.earnings.weekly == before.earnings.weekly + ride.fare.total
        && after.rating == before.rating
        && o.next.users[ride.rider].totalRides == s.users[ride.rider].totalRides + 1
  {
  }

  /** Completion is not once-only: completing a ride a second time credits its fare and counts
      the ride again, for driver and rider alike. */
  lemma RepeatedCompletionCreditsTwice(s: State, caller: Caller, rideId: Id)
    requires UpdateRideStatus(s, caller, rideId, "completed").reply.code == 200
    ensures var s1 := UpdateRideStatus(s, caller, rideId, "completed").next;
      var o := UpdateRideStatus(s1, caller, rideId, "completed");
      var ride := s.rides[rideId]; var d := ride.driver.value;
      && o.reply.code == 200
      && o.next.drivers[d].earnings.total == s.drivers[d].earnings.total + 2 * ride.fare.total
      && o.next.drivers[d].totalRides == s.drivers[d].totalRides + 2
      && o.next.users[ride.rider].totalRides == s.users[ride.rider].totalRides + 2
  {
    var s1 := UpdateRideStatus(s, caller, rideId, "completed").next;
    var ride := s.rides[rideId];
    assert s1.rides[rideId].driver == ride.driver && s1.rides[rideId].rider == ride.rider;
    assert s1.rides[rideId].fare == ride.fare;
  }

  /** Because the current status is not consulted, completing a ride that was already completed
      releases its driver even when that driver has since taken another ride: the driver's lock
      on the newer ride is lost while that ride still names it. */
  lemma StaleCompletionReleasesBusyDriver(s: State, admin: Caller, oldRide: Id, newRide: Id)
    requires admin.role == AdminRole
    requires oldRide in s.rides && newRide in s.rides && oldRide != newRide
    requires s.rides[oldRide].status == Completed && s.rides[oldRide].driver.Some?
    requires s.rides[oldRide].rider in s.users
    requires var d := s.rides[oldRide].driver.value;
      d in s.drivers && s.drivers[d].currentRide == Some(newRide) && s.rides[newRide].driver == Some(d)
    ensures var d := s.rides[oldRide].driver.value; var o := UpdateRideStatus(s, admin, oldRide, "completed");
      && o.reply.code == 200
      && o.next.rides[newRide].driver == Some(d)
      && o.next.drivers[d].currentRide.None? && o.next.drivers[d].isAvailable
  {
  }

  lemma UpdateStatusKeepsInvariants(s: State, caller: Caller, rideId: Id, status: string)
    requires FreshIds(s) && EngagedUnavailable(s)
    ensures FreshIds(UpdateRideStatus(s, caller, rideId, status).next)
    ensures EngagedUnavailable(UpdateRideStatus(s, caller, rideId, status).next)
  {
  }

  // ---------------------------------------------------------------------------------------------
  // cancelRide

  /** Only the ride's rider or its assigned driver may cancel: an admin who is neither is refused. */
  lemma CancelRequiresParty(s: State, caller: Caller, rideId: Id, reason: string)
    requires rideId in s.rides
    requires s.rides[rideId].rider != caller.id && s.rides[rideId].driver != Some(caller.id)
    ensures CancelRide(s, caller, rideId, reason) == Step(Reply(403, Message("Not authorized")), s)
  {
  }

  /** A party's cancel of a ride that is not finished succeeds: the ride is cancelled with the
      caller's side and the reason (defaulted), and the assigned driver, if any, is released. */
  lemma CancelOutcome(s: State, caller: Caller, rideId: Id, reason: string)
    requires rideId in s.rides
    requires s.rides[rideId].rider == caller.id || s.rides[rideId].driver == Some(caller.id)
    ensures var ride := s.rides[rideId]; var o := CancelRide(s, caller, rideId, reason);
      (ride.status == Completed || ride.status == Cancelled) ==> o.reply.code == 400 && o.next == s
    ensures var ride := s.rides[rideId]; var o := CancelRide(s, caller, rideId, reason);
      ride.status != Completed && ride.status != Cancelled
      && (ride.driver.Some? ==> ride.driver.value in s.drivers) ==>
        && o.reply.code == 200
        && o.next.rides[rideId].status == Cancelled
        && o.next.rides[rideId].cancelledBy == Some(if caller.role == DriverRole then ByDriver else ByRider)
        && o.next.rides[rideId].cancellationReason == Some(if reason == "" then "No reason provided" else reason)
        && o.next.rides[rideId].driver == ride.driver
        && (ride.driver.Some? ==>
              o.next.drivers[ride.driver.value].currentRide.None? && o.next.drivers[ride.driver.value].isAvailable)
        && o.next.users == s.users
  {
  }

  /** A cancelled ride stays cancelled: cancelling it again is refused. */
  lemma CancelIsFinal(s: State, caller: Caller, rideId: Id, reason: string, again: string)
    requires CancelRide(s, caller, rideId, reason).reply.code == 200
    ensures var s1 := CancelRide(s, caller, rideId, reason).next;
      CancelRide(s1, caller, rideId, again).reply.code == 400
  {
    var s1 := CancelRide(s, caller, rideId, reason).next;
    assert s1.rides[rideId].status == Cancelled;
    assert s1.rides[rideId].rider == s.rides[rideId].rider && s1.rides[rideId].driver == s.rides[rideId].driver;
  }

  lemma CancelKeepsInvariants(s: State, caller: Caller, rideId: Id, reason: string)
    requires FreshIds(s) && EngagedUnavailable(s)
    ensures FreshIds(CancelRide(s, caller, rideId, reason).next)
    ensures EngagedUnavailable(CancelRide(s, caller, rideId, reason).next)
  {
  }

  // ---------------------------------------------------------------------------------------------
  // rateRide

  /** The running average of ratings in [1,5] stays within the schema's [0,5] bound. */
  lemma RunningAverageInRange(avg: real, n: nat, r: real)
    requires 0.0 <= avg <= 5.0 && 1.0 <= r <= 5.0
    ensures 0.0 <= RunningAverage(avg, n, r) <= 5.0
  {
    var k := n as real;
    assert 0.0 <= avg * k <= 5.0 * k;
    var sum := avg * k + r;
    assert 0.0 <= sum <= 5.0 * (k + 1.0);
    assert sum / (k + 1.0) <= 5.0 * (k + 1.0) / (k + 1.0);
    assert 5.0 * (k + 1.0) / (k + 1.0) == 5.0;
    assert 0.0 / (k + 1.0) <= sum / (k + 1.0);
  }

  /** Rating outcomes: an out-of-range or missing rating, or a ride not completed, gives 400; the
      rider's rating of the assigned driver folds into the driver's running average over its
      current ride count; a caller who is neither side is refused, whatever its role; a driver
      rating a ride that has no driver makes the source dereference null (500). */
  lemma RateRideOutcome(s: State, caller: Caller, rideId: Id, rating: Option<real>)
    ensures rating.None? || rating.value < 1.0 || rating.value > 5.0 ==>
      RateRide(s, caller, rideId, rating).reply.code == 400
    ensures rideId !in s.rides || s.rides[rideId].status != Completed ==>
      RateRide(s, caller, rideId, rating).reply.code == 400
    ensures rating.Some? && 1.0 <= rating.value <= 5.0 && rideId in s.rides && s.rides[rideId].status == Completed
            && s.rides[rideId].rider == caller.id && caller.role != DriverRole
            && s.rides[rideId].driver.Some? && s.rides[rideId].driver.value in s.drivers ==>
      var d := s.rides[rideId].driver.value; var o := RateRide(s, caller, rideId, rating);
      && o.reply.code == 200
      && o.next.drivers[d].rating == RunningAverage(s.drivers[d].rating, s.drivers[d].totalRides, rating.value)
      && o.next.rides[rideId].rating.driverRating == rating
      && o.next.drivers[d].totalRides == s.drivers[d].totalRides
    ensures rating.Some? && 1.0 <= rating.value <= 5.0 && rideId in s.rides && s.rides[rideId].status == Completed
            && IsAssignedDriver(s.rides[rideId], caller) && s.rides[rideId].rider in s.users ==>
      var u := s.rides[rideId].rider; var o := RateRide(s, caller, rideId, rating);
      && o.reply.code == 200
      && o.next.users[u].rating == RunningAverage(s.users[u].rating, s.users[u].totalRides, rating.value)
      && o.next.rides[rideId].rating.riderRating == rating
    ensures rating.Some? && 1.0 <= rating.value <= 5.0 && rideId in s.rides && s.rides[rideId].status == Completed
            && caller.role != DriverRole && s.rides[rideId].rider != caller.id ==>
      RateRide(s, caller, rideId, rating).reply.code == 403
    ensures rating.Some? && 1.0 <= rating.value <= 5.0 && rideId in s.rides && s.rides[rideId].status == Completed
            && caller.role == DriverRole && s.rides[rideId].driver.Some? && s.rides[rideId].driver.value != caller.id
            && s.rides[rideId].rider != caller.id ==>
      RateRide(s, caller, rideId, rating) == Step(Reply(403, Message("Not authorized")), s)
    ensures rating.Some? && 1.0 <= rating.value <= 5.0 && rideId in s.rides && s.rides[rideId].status == Completed
            && caller.role == DriverRole && s.rides[rideId].driver.None? ==>
      RateRide(s, caller, rideId, rating) == Step(Reply(500, Message("Error rating ride")), s)
  {
  }

  /** A rating keeps every driver within the schema's rating bound. */
  lemma RateRideKeepsDriverRatings(s: State, caller: Caller, rideId: Id, rating: Option<real>)
    requires forall id :: id in s.drivers ==> DriverSchema.SchemaValid(s.drivers[id])
    ensures var o := RateRide(s, caller, rideId, rating);
      forall id :: id in o.next.drivers ==> DriverSchema.SchemaValid(o.next.drivers[id])
  {
    var o := RateRide(s, caller, rideId, rating);
    if o.reply.code == 200 && rating.Some? && caller.role != DriverRole && rideId in s.rides && s.rides[rideId].driver.Some? {
      var d := s.rides[rideId].driver.value;
      if d in s.drivers {
        RunningAverageInRange(s.drivers[d].rating, s.drivers[d].totalRides, rating.value);
      }
    }
    if o.reply.code == 200 && rating.Some? && caller.role == DriverRole && rideId in s.rides && s.rides[rideId].driver.Some? {
      var d := s.rides[rideId].driver.value;
      if d in s.drivers && d != caller.id {
        RunningAverageInRange(s.drivers[d].rating, s.drivers[d].totalRides, rating.value);
      }
    }
  }

  /** Rating is not once-only: the same side can rate the same ride again, and the second rating
      is folded into the average once more. */
  lemma RatingCanBeRepeated(s: State, caller: Caller, rideId: Id, first: real, second: real)
    requires RateRide(s, caller, rideId, Some(first)).reply.code == 200
    requires 1.0 <= second <= 5.0
    ensures var s1 := RateRide(s, caller, rideId, Some(first)).next;
      RateRide(s1, caller, rideId, Some(second)).reply.code == 200
  {
    var s1 := RateRide(s, caller, rideId, Some(first)).next;
    assert s1.rides[rideId].status == Completed;
    assert s1.rides[rideId].rider == s.rides[rideId].rider && s1.rides[rideId].driver == s.rides[rideId].driver;
  }

  /** A driver's first rating does not replace the default 5.0: completion has already counted the
      ride, so a first rating of 3 after the driver's first completed ride averages to 4. */
  lemma FirstRatingAveragesWithDefault(s: State, rider: Caller, rideId: Id)
    requires UpdateRideStatus(s, rider, rideId, "completed").reply.code == 200
    requires rider.role == RiderRole && s.rides[rideId].rider == rider.id
    requires var d := s.rides[rideId].driver.value; s.drivers[d].rating == 5.0 && s.drivers[d].totalRides == 0
    ensures var s1 := UpdateRideStatus(s, rider, rideId, "completed").next;
      var o := RateRide(s1, rider, rideId, Some(3.0));
      o.reply.code == 200 && o.next.drivers[s.rides[rideId].driver.value].rating == 4.0
  {
    var s1 := UpdateRideStatus(s, rider, rideId, "completed").next;
    var d := s.rides[rideId].driver.value;
    assert s1.drivers[d].totalRides == 1 && s1.drivers[d].rating == 5.0;
    assert s1.rides[rideId].status == Completed && s1.rides[rideId].driver == Some(d);
    assert RunningAverage(5.0, 1, 3.0) == 4.0;
  }

  lemma RateKeepsInvariants(s: State, caller: Caller, rideId: Id, rating: Option<real>)
    requires FreshIds(s) && EngagedUnavailable(s)
    ensures FreshIds(RateRide(s, caller, rideId, rating).next)
    ensures EngagedUnavailable(RateRide(s, caller, rideId, rating).next)
  {
  }

  lemma RequestKeepsInvariants(s: State, caller: Caller, pickup: Option<Place>, dropoff: Option<Place>,
                               vehicleType: string, dist: Distance, index: seq<Id>, queryFails: bool)
    requires FreshIds(s) && EngagedUnavailable(s)
    ensures FreshIds(RequestRide(s, caller, pickup, dropoff, vehicleType, dist, index, queryFails).next)
    ensures EngagedUnavailable(RequestRide(s, caller, pickup, dropoff, vehicleType, dist, index, queryFails).next)
  {
  }
}
