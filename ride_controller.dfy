/** The ride controller of the Node backend (server/controllers/rideController.js): the fare
    table, the dispatch filter, and the request, accept, status-update, cancel and rate handlers.
    Each handler is specified by a function from the state before the request to the response and
    the state after it; the `Handle…` methods apply the same updates to a `Database` in place. */
module RideController {
  import opened Wrappers
  import opened RideSchema
  import opened DriverSchema
  import opened DispatchState

  // ---------------------------------------------------------------------------------------------
  // Fare

  /** Base fare in cents. */
  function BaseFare(v: VehicleType): int
  {
    match v
    case Sedan => 300
    case Suv => 500
    case Luxury => 1000
    case Van => 700
  }

  /** Rate in cents per kilometre. */
  function PerKmRate(v: VehicleType): int
  {
    match v
    case Sedan => 150
    case Suv => 200
    case Luxury => 350
    case Van => 250
  }

  /** The row of the fare table a class name selects; a name outside the table selects sedan. */
  function FareClass(name: string): VehicleType
  {
    ParseVehicleType(name).GetOr(Sedan)
  }

  /** Half-up rounding of `x / 1000` to an integer: the result is within half a unit of it. */
  lemma RoundThousandths(x: int)
    ensures -500 < ((x + 500) / 1000) * 1000 - x <= 500
  {
  }

  /** `calculateFare`: the per-class table, `distance = meters / 1000` and
      `total = baseFare + distance * perKmRate` rounded to the nearest cent, half-cents up. */
  function CalculateFare(meters: nat, vehicleType: string): (f: Fare)
    ensures f.baseFare == BaseFare(FareClass(vehicleType))
    ensures f.perKmRate == PerKmRate(FareClass(vehicleType))
    ensures f.distance == meters as real / 1000.0 && f.duration == 0
    ensures -0.5 < f.total as real - (f.baseFare as real + f.distance * f.perKmRate as real) <= 0.5
  {
    var v := FareClass(vehicleType);
    var exactMilliCents := BaseFare(v) * 1000 + meters * PerKmRate(v);
    var total := (exactMilliCents + 500) / 1000;
    RoundThousandths(exactMilliCents);
    assert (BaseFare(v) as real + (meters as real / 1000.0) * PerKmRate(v) as real)
        == exactMilliCents as real / 1000.0;
    Fare(BaseFare(v), PerKmRate(v), meters as real / 1000.0, 0, total)
  }

  // ---------------------------------------------------------------------------------------------
  // Dispatch candidates

  /** Geodesic distance in metres between two points (the geolib / MongoDB capability). */
  type Distance = (Point, Point) -> nat

  const MaxCandidates: nat := 10
  const DispatchRadius: nat := 5000

  /** The query filter of `findNearbyDrivers`, apart from the distance bound. */
  predicate Eligible(d: Driver, v: VehicleType)
  {
    d.isAvailable && d.isActive && d.isVerified && d.currentRide.None? && d.vehicleInfo.vehicleType == v
  }

  /** A driver the query may return: eligible and within `maxDistance` metres of the pickup. */
  predicate Candidate(drivers: map<Id, Driver>, id: Id, pickup: Point, v: VehicleType, maxDistance: nat, dist: Distance)
  {
    id in drivers && Eligible(drivers[id], v) && dist(drivers[id].location.coordinates, pickup) <= maxDistance
  }

  predicate NoDuplicates(ids: seq<Id>)
  {
    forall i, j :: 0 <= i < j < |ids| ==> ids[i] != ids[j]
  }

  /** Every id names a driver, and the drivers come in non-decreasing distance from `pickup`. */
  predicate NearestFirst(drivers: map<Id, Driver>, ids: seq<Id>, pickup: Point, dist: Distance)
  {
    && (forall i :: 0 <= i < |ids| ==> ids[i] in drivers)
    && (forall i, j :: 0 <= i < j < |ids| ==>
          dist(drivers[ids[i]].location.coordinates, pickup) <= dist(drivers[ids[j]].location.coordinates, pickup))
  }

  /** What a `$near` query promises about the order it visits the drivers in: every driver (each
      has coordinates) exactly once, nearest first. Drivers at equal distance may come in any
      order. */
  ghost predicate VisitOrder(drivers: map<Id, Driver>, index: seq<Id>, pickup: Point, dist: Distance)
  {
    && NoDuplicates(index)
    && (forall id :: id in drivers <==> id in index)
    && NearestFirst(drivers, index, pickup, dist)
  }

  /** The candidates among `index`, in the order of `index`. */
  function Matching(drivers: map<Id, Driver>, index: seq<Id>, pickup: Point, v: VehicleType, maxDistance: nat, dist: Distance): (r: seq<Id>)
    ensures |r| <= |index|
    ensures forall i :: 0 <= i < |r| ==> Candidate(drivers, r[i], pickup, v, maxDistance, dist)
    ensures forall id :: id in index && Candidate(drivers, id, pickup, v, maxDistance, dist) ==> id in r
    ensures forall id :: id in r ==> id in index
  {
    if index == [] then []
    else
      var rest := Matching(drivers, index[1..], pickup, v, maxDistance, dist);
      if Candidate(drivers, index[0], pickup, v, maxDistance, dist) then [index[0]] + rest else rest
  }

  /** Filtering keeps the drivers distinct when the visited drivers are. */
  lemma {:induction false} MatchingKeepsDistinct(drivers: map<Id, Driver>, index: seq<Id>, pickup: Point, v: VehicleType,
                                                 maxDistance: nat, dist: Distance)
    requires NoDuplicates(index)
    ensures NoDuplicates(Matching(drivers, index, pickup, v, maxDistance, dist))
  {
    if index != [] {
      var tail := index[1..];
      assert NoDuplicates(tail);
      MatchingKeepsDistinct(drivers, tail, pickup, v, maxDistance, dist);
      assert forall k :: 0 <= k < |tail| ==> tail[k] == index[k + 1] && index[k + 1] != index[0];
      assert index[0] !in Matching(drivers, tail, pickup, v, maxDistance, dist);
    }
  }

  /** Filtering keeps the drivers nearest first when the visited drivers are. */
  lemma {:induction false} MatchingKeepsNearestFirst(drivers: map<Id, Driver>, index: seq<Id>, pickup: Point, v: VehicleType,
                                                     maxDistance: nat, dist: Distance)
    requires NearestFirst(drivers, index, pickup, dist)
    ensures NearestFirst(drivers, Matching(drivers, index, pickup, v, maxDistance, dist), pickup, dist)
  {
    if index != [] {
      var tail := index[1..];
      assert NearestFirst(drivers, tail, pickup, dist);
      MatchingKeepsNearestFirst(drivers, tail, pickup, v, maxDistance, dist);
      var near := dist(drivers[index[0]].location.coordinates, pickup);
      assert forall k :: 0 <= k < |tail| ==>
        tail[k] == index[k + 1] && near <= dist(drivers[tail[k]].location.coordinates, pickup);
    }
  }

  /** `findNearbyDrivers`: the first ten candidates in the order the geospatial index visits the
      drivers (`index`); a failing query yields no drivers. When `index` is the order a `$near`
      query promises, the result is the ten nearest candidates, nearest first, each once. */
  function FindNearbyDrivers(drivers: map<Id, Driver>, index: seq<Id>, pickup: Point, v: VehicleType,
                             maxDistance: nat, dist: Distance, queryFails: bool): (r: seq<Id>)
    ensures |r| <= MaxCandidates
    ensures forall i :: 0 <= i < |r| ==> Candidate(drivers, r[i], pickup, v, maxDistance, dist)
    ensures forall id :: id in r ==> id in index
    ensures queryFails ==> r == []
    ensures !queryFails && |r| < MaxCandidates ==>
      forall id :: id in index && Candidate(drivers, id, pickup, v, maxDistance, dist) ==> id in r
    ensures VisitOrder(drivers, index, pickup, dist) ==>
      NoDuplicates(r) && NearestFirst(drivers, r, pickup, dist)
    ensures VisitOrder(drivers, index, pickup, dist) && !queryFails ==>
      forall id :: Candidate(drivers, id, pickup, v, maxDistance, dist) && id !in r ==>
        && |r| == MaxCandidates
        && forall i :: 0 <= i < |r| ==>
             dist(drivers[r[i]].location.coordinates, pickup) <= dist(drivers[id].location.coordinates, pickup)
  {
    if queryFails then []
    else
      var all := Matching(drivers, index, pickup, v, maxDistance, dist);
      assert VisitOrder(drivers, index, pickup, dist) ==> NoDuplicates(all) && NearestFirst(drivers, all, pickup, dist) by {
        if VisitOrder(drivers, index, pickup, dist) {
          MatchingKeepsDistinct(drivers, index, pickup, v, maxDistance, dist);
          MatchingKeepsNearestFirst(drivers, index, pickup, v, maxDistance, dist);
        }
      }
      if |all| <= MaxCandidates then all
      else
        var r := all[..MaxCandidates];
        assert VisitOrder(drivers, index, pickup, dist) ==>
          forall id :: Candidate(drivers, id, pickup, v, maxDistance, dist) && id !in r ==>
            forall i :: 0 <= i < |r| ==>
              dist(drivers[r[i]].location.coordinates, pickup) <= dist(drivers[id].location.coordinates, pickup) by {
          if VisitOrder(drivers, index, pickup, dist) {
            forall id, i | Candidate(drivers, id, pickup, v, maxDistance, dist) && id !in r && 0 <= i < |r|
              ensures dist(drivers[r[i]].location.coordinates, pickup) <= dist(drivers[id].location.coordinates, pickup)
            {
              assert id in all;
              assert forall j :: 0 <= j < MaxCandidates ==> all[j] == r[j] && r[j] != id;
              var k :| 0 <= k < |all| && all[k] == id;
            }
          }
        }
        r
  }

  // ---------------------------------------------------------------------------------------------
  // requestRide

  /** The `newRideRequest` offers sent to `nearby`, in order. */
  function Offers(nearby: seq<Id>, rideId: Id, fare: Fare): (es: seq<Event>)
    ensures |es| == |nearby|
    ensures forall i :: 0 <= i < |es| ==>
      es[i] == Event(DriverChannel(nearby[i]), NewRideRequest(rideId, fare.total, fare.distance))
  {
    if nearby == [] then []
    else Offers(nearby[..|nearby| - 1], rideId, fare)
         + [Event(DriverChannel(nearby[|nearby| - 1]), NewRideRequest(rideId, fare.total, fare.distance))]
  }

  /** The class name a request asks for: a missing or empty `vehicleType` means sedan. */
  function RequestedClass(vehicleType: string): string
  {
    if vehicleType == "" then "sedan" else vehicleType
  }

  /** `requestRide`. `dist` measures the trip and the drivers' distance to the pickup, `index` is
      the order in which the geospatial index visits the drivers, `queryFails` whether the
      candidate query throws. A class outside the enum or an empty address fails schema
      validation in `Ride.create` (500). */
  function RequestRide(s: State, caller: Caller, pickup: Option<Place>, dropoff: Option<Place>,
                       vehicleType: string, dist: Distance, index: seq<Id>, queryFails: bool): (o: Step)
    ensures o.reply.code in {201, 400, 500}
    ensures o.reply.code != 201 ==> o.next == s
    ensures pickup.None? || dropoff.None? ==> o.reply.code == 400
  {
    if pickup.None? || dropoff.None? then
      Step(Reply(400, Message("Pickup and dropoff locations are required")), s)
    else
      var name := RequestedClass(vehicleType);
      var fare := CalculateFare(dist(pickup.value.coordinates, dropoff.value.coordinates), name);
      var v := StoredVehicleType(name);
      if v.None? || pickup.value.address == "" || dropoff.value.address == "" then
        Step(Reply(500, Message("Error requesting ride")), s)
      else
        var id := s.nextRideId;
        var ride := NewRide(caller.id, pickup.value, dropoff.value, v.value, fare);
        var nearby := FindNearbyDrivers(s.drivers, index, pickup.value.coordinates, v.value, DispatchRadius, dist, queryFails);
        Step(Reply(201, RideCreated(id, ride, |nearby|)),
             s.(rides := s.rides[id := ride], nextRideId := id + 1, outbox := s.outbox + Offers(nearby, id, fare)))
  }

  method HandleRequestRide(db: Database, caller: Caller, pickup: Option<Place>, dropoff: Option<Place>,
                           vehicleType: string, dist: Distance, index: seq<Id>, queryFails: bool)
    returns (reply: Reply)
    modifies db
    ensures Step(reply, db.Snapshot()) == RequestRide(old(db.Snapshot()), caller, pickup, dropoff, vehicleType, dist, index, queryFails)
  {
    if pickup.None? || dropoff.None? {
      return Reply(400, Message("Pickup and dropoff locations are required"));
    }
    var name := RequestedClass(vehicleType);
    var fare := CalculateFare(dist(pickup.value.coordinates, dropoff.value.coordinates), name);
    var v := StoredVehicleType(name);
    if v.None? || pickup.value.address == "" || dropoff.value.address == "" {
      return Reply(500, Message("Error requesting ride"));
    }
    var id := db.nextRideId;
    var ride := NewRide(caller.id, pickup.value, dropoff.value, v.value, fare);
    db.rides := db.rides[id := ride];
    db.nextRideId := id + 1;
    var nearby := FindNearbyDrivers(db.drivers, index, pickup.value.coordinates, v.value, DispatchRadius, dist, queryFails);
    var i := 0;
    while i < |nearby|
      invariant 0 <= i <= |nearby|
      invariant db.rides == old(db.rides)[id := ride] && db.nextRideId == id + 1
      invariant db.drivers == old(db.drivers) && db.users == old(db.users)
      invariant db.outbox == old(db.outbox) + Offers(nearby[..i], id, fare)
    {
      assert nearby[..i + 1][..i] == nearby[..i];
      db.outbox := db.outbox + [Event(DriverChannel(nearby[i]), NewRideRequest(id, fare.total, fare.distance))];
      i := i + 1;
    }
    assert nearby[..i] == nearby;
    reply := Reply(201, RideCreated(id, ride, |nearby|));
  }

  // ---------------------------------------------------------------------------------------------
  // acceptRide

  /** `acceptRide`: role, then the caller's own availability, then the ride's existence and
      status; on success the ride is assigned and saved, then the driver is locked and saved. A
      rider reference that no longer resolves makes the notification throw after both saves. */
  function AcceptRide(s: State, caller: Caller, rideId: Id): (o: Step)
    ensures o.reply.code in {200, 400, 403, 404, 500}
    ensures o.reply.code in {400, 403, 404} ==> o.next == s
  {
    if caller.role != DriverRole then
      Step(Reply(403, Message("Only drivers can accept rides")), s)
    else if caller.id !in s.drivers then
      Step(Reply(500, Message("Error accepting ride")), s)
    else if !s.drivers[caller.id].isAvailable || s.drivers[caller.id].currentRide.Some? then
      Step(Reply(400, Message("Driver is not available")), s)
    else if rideId !in s.rides then
      Step(Reply(404, Message("Ride not found")), s)
    else if s.rides[rideId].status != Requested then
      Step(Reply(400, Message("Ride is no longer available")), s)
    else
      var ride := s.rides[rideId].(driver := Some(caller.id), status := Accepted);
      var driver := s.drivers[caller.id].(currentRide := Some(rideId), isAvailable := false);
      var saved := s.(rides := s.rides[rideId := ride], drivers := s.drivers[caller.id := driver]);
      if ride.rider !in s.users then
        Step(Reply(500, Message("Error accepting ride")), saved)
      else
        Step(Reply(200, RideData(ride)),
             saved.(outbox := s.outbox + [Event(UserChannel(ride.rider), RideAccepted(rideId, caller.id))]))
  }

  method HandleAcceptRide(db: Database, caller: Caller, rideId: Id) returns (reply: Reply)
    modifies db
    ensures Step(reply, db.Snapshot()) == AcceptRide(old(db.Snapshot()), caller, rideId)
  {
    if caller.role != DriverRole {
      return Reply(403, Message("Only drivers can accept rides"));
    }
    if caller.id !in db.drivers {
      return Reply(500, Message("Error accepting ride"));
    }
    var driver := db.drivers[caller.id];
    if !driver.isAvailable || driver.currentRide.Some? {
      return Reply(400, Message("Driver is not available"));
    }
    if rideId !in db.rides {
      return Reply(404, Message("Ride not found"));
    }
    var ride := db.rides[rideId];
    if ride.status != Requested {
      return Reply(400, Message("Ride is no longer available"));
    }
    ride := ride.(driver := Some(caller.id));
    ride := ride.(status := Accepted);
    db.rides := db.rides[rideId := ride];
    driver := driver.(currentRide := Some(rideId));
    driver := driver.(isAvailable := false);
    db.drivers := db.drivers[caller.id := driver];
    if ride.rider !in db.users {
      return Reply(500, Message("Error accepting ride"));
    }
    db.outbox := db.outbox + [Event(UserChannel(ride.rider), RideAccepted(rideId, caller.id))];
    reply := Reply(200, RideData(ride));
  }

  // ---------------------------------------------------------------------------------------------
  // updateRideStatus

  /** The `rideStatusUpdate` events: to the rider, and to the driver when one is assigned. */
  function StatusEvents(rideId: Id, ride: Ride): seq<Event>
  {
    [Event(UserChannel(ride.rider), RideStatusUpdate(rideId, ride.status))]
    + (if ride.driver.Some? then [Event(DriverChannel(ride.driver.value), RideStatusUpdate(rideId, ride.status))] else [])
  }

  /** The assigned driver after a completion: one more ride, released, and the fare credited to
      every earnings counter. */
  function CreditCompletion(d: Driver, fareTotal: int): Driver
  {
    d.(totalRides := d.totalRides + 1,
       currentRide := None,
       isAvailable := true,
       earnings := Earnings(d.earnings.total + fareTotal, d.earnings.weekly + fareTotal, d.earnings.daily + fareTotal))
  }

  /** Whether the caller is the ride's assigned driver (by id and by role). */
  predicate IsAssignedDriver(ride: Ride, caller: Caller)
  {
    ride.driver.Some? && caller.role == DriverRole && ride.driver.value == caller.id
  }

  /** `updateRideStatus`. The ride's current status is never consulted. A missing rider record
      makes the rider update throw after the driver was saved (500, the ride is not saved). */
  function UpdateRideStatus(s: State, caller: Caller, rideId: Id, status: string): (o: Step)
    ensures o.reply.code in {200, 400, 403, 404, 500}
    ensures o.reply.code in {400, 403, 404} ==> o.next == s
  {
    var requested := ParseRideStatus(status);
    if requested.None? || requested.value !in {Arrived, InProgress, Completed} then
      Step(Reply(400, Message("Invalid status")), s)
    else if rideId !in s.rides then
      Step(Reply(404, Message("Ride not found")), s)
    else
      var ride := s.rides[rideId];
      var isDriver := IsAssignedDriver(ride, caller);
      var isRider := ride.rider == caller.id;
      var isAdmin := caller.role == AdminRole;
      if !isDriver && !isRider && !isAdmin then
        Step(Reply(403, Message("Not authorized")), s)
      else if requested.value != Completed && !isDriver && !isAdmin then
        Step(Reply(403, Message("Only the assigned driver can update this status")), s)
      else if requested.value != Completed then
        var updated := ride.(status := requested.value);
        Step(Reply(200, RideData(updated)),
             s.(rides := s.rides[rideId := updated], outbox := s.outbox + StatusEvents(rideId, updated)))
      else if ride.driver.None? then
        Step(Reply(400, Message("Ride has no assigned driver")), s)
      else if ride.driver.value !in s.drivers then
        Step(Reply(404, Message("Assigned driver not found")), s)
      else
        var d := ride.driver.value;
        var drivers := s.drivers[d := CreditCompletion(s.drivers[d], ride.fare.total)];
        if ride.rider !in s.users then
          Step(Reply(500, Message("Error updating ride status")), s.(drivers := drivers))
        else
          var user := s.users[ride.rider];
          var updated := ride.(status := Completed, payment := ride.payment.(status := PaymentCompleted));
          Step(Reply(200, RideData(updated)),
               State(s.rides[rideId := updated], drivers, s.users[ride.rider := user.(totalRides := user.totalRides + 1)],
                     s.nextRideId, s.outbox + StatusEvents(rideId, updated)))
  }

  method HandleUpdateRideStatus(db: Database, caller: Caller, rideId: Id, status: string) returns (reply: Reply)
    modifies db
    ensures Step(reply, db.Snapshot()) == UpdateRideStatus(old(db.Snapshot()), caller, rideId, status)
  {
    var requested := ParseRideStatus(status);
    if requested.None? || requested.value !in {Arrived, InProgress, Completed} {
      return Reply(400, Message("Invalid status"));
    }
    if rideId !in db.rides {
      return Reply(404, Message("Ride not found"));
    }
    var ride := db.rides[rideId];
    var isDriver := IsAssignedDriver(ride, caller);
    var isRider := ride.rider == caller.id;
    var isAdmin := caller.role == AdminRole;
    if !isDriver && !isRider && !isAdmin {
      return Reply(403, Message("Not authorized"));
    }
    if requested.value != Completed && !isDriver && !isAdmin {
      return Reply(403, Message("Only the assigned driver can update this status"));
    }
    ride := ride.(status := requested.value);
    if requested.value == Completed {
      if ride.driver.None? {
        return Reply(400, Message("Ride has no assigned driver"));
      }
      ride := ride.(payment := ride.payment.(status := PaymentCompleted));
      var d := ride.driver.value;
      if d !in db.drivers {
        return Reply(404, Message("Assigned driver not found"));
      }
      var driver := db.drivers[d];
      driver := driver.(totalRides := driver.totalRides + 1);
      driver := driver.(currentRide := None);
      driver := driver.(isAvailable := true);
      driver := driver.(earnings := driver.earnings.(total := driver.earnings.total + ride.fare.total));
      driver := driver.(earnings := driver.earnings.(daily := driver.earnings.daily + ride.fare.total));
      driver := driver.(earnings := driver.earnings.(weekly := driver.earnings.weekly + ride.fare.total));
      db.drivers := db.drivers[d := driver];
      if ride.rider !in db.users {
        return Reply(500, Message("Error updating ride status"));
      }
      var user := db.users[ride.rider];
      db.users := db.users[ride.rider := user.(totalRides := user.totalRides + 1)];
    }
    db.rides := db.rides[rideId := ride];
    db.outbox := db.outbox + [Event(UserChannel(ride.rider), RideStatusUpdate(rideId, ride.status))];
    if ride.driver.Some? {
      db.outbox := db.outbox + [Event(DriverChannel(ride.driver.value), RideStatusUpdate(rideId, ride.status))];
    }
    reply := Reply(200, RideData(ride));
  }

  // ---------------------------------------------------------------------------------------------
  // cancelRide

  /** A driver released from its ride. */
  function Release(d: Driver): Driver
  {
    d.(currentRide := None, isAvailable := true)
  }

  /** The `rideCancelled` events: to the rider, and to the driver when one is assigned. */
  function CancelEvents(rideId: Id, ride: Ride): seq<Event>
    requires ride.cancelledBy.Some?
  {
    [Event(UserChannel(ride.rider), RideCancelled(rideId, ride.cancelledBy.value))]
    + (if ride.driver.Some? then [Event(DriverChannel(ride.driver.value), RideCancelled(rideId, ride.cancelledBy.value))] else [])
  }

  const NoReason: string := "No reason provided"

  /** `cancelRide`. `reason` is empty when the request gives none. Only the rider and the
      assigned driver are parties (no role is consulted for either); the ride is saved before the
      driver is released, so a dangling driver reference leaves a cancelled ride behind (500). */
  function CancelRide(s: State, caller: Caller, rideId: Id, reason: string): (o: Step)
    ensures o.reply.code in {200, 400, 403, 404, 500}
    ensures o.reply.code in {400, 403, 404} ==> o.next == s
  {
    if rideId !in s.rides then
      Step(Reply(404, Message("Ride not found")), s)
    else
      var ride := s.rides[rideId];
      var isRider := ride.rider == caller.id;
      var isDriver := ride.driver == Some(caller.id);
      if !isRider && !isDriver then
        Step(Reply(403, Message("Not authorized")), s)
      else if ride.status == Completed || ride.status == Cancelled then
        Step(Reply(400, Message("Cannot cancel this ride")), s)
      else
        var who := if caller.role == DriverRole then ByDriver else ByRider;
        var cancelled := ride.(status := Cancelled, cancelledBy := Some(who),
                               cancellationReason := Some(if reason == "" then NoReason else reason));
        var saved := s.(rides := s.rides[rideId := cancelled]);
        if ride.driver.None? then
          Step(Reply(200, RideData(cancelled)), saved.(outbox := s.outbox + CancelEvents(rideId, cancelled)))
        else if ride.driver.value !in s.drivers then
          Step(Reply(500, Message("Error cancelling ride")), saved)
        else
          var d := ride.driver.value;
          Step(Reply(200, RideData(cancelled)),
               saved.(drivers := s.drivers[d := Release(s.drivers[d])], outbox := s.outbox + CancelEvents(rideId, cancelled)))
  }

  method HandleCancelRide(db: Database, caller: Caller, rideId: Id, reason: string) returns (reply: Reply)
    modifies db
    ensures Step(reply, db.Snapshot()) == CancelRide(old(db.Snapshot()), caller, rideId, reason)
  {
    if rideId !in db.rides {
      return Reply(404, Message("Ride not found"));
    }
    var ride := db.rides[rideId];
    var isRider := ride.rider == caller.id;
    var isDriver := ride.driver == Some(caller.id);
    if !isRider && !isDriver {
      return Reply(403, Message("Not authorized"));
    }
    if ride.status == Completed || ride.status == Cancelled {
      return Reply(400, Message("Cannot cancel this ride"));
    }
    ride := ride.(status := Cancelled);
    ride := ride.(cancelledBy := Some(if caller.role == DriverRole then ByDriver else ByRider));
    ride := ride.(cancellationReason := Some(if reason == "" then NoReason else reason));
    db.rides := db.rides[rideId := ride];
    if ride.driver.Some? {
      var d := ride.driver.value;
      if d !in db.drivers {
        return Reply(500, Message("Error cancelling ride"));
      }
      var driver := db.drivers[d];
      driver := driver.(currentRide := None);
      driver := driver.(isAvailable := true);
      db.drivers := db.drivers[d := driver];
    }
    db.outbox := db.outbox + [Event(UserChannel(ride.rider), RideCancelled(rideId, ride.cancelledBy.value))];
    if ride.driver.Some? {
      db.outbox := db.outbox + [Event(DriverChannel(ride.driver.value), RideCancelled(rideId, ride.cancelledBy.value))];
    }
    reply := Reply(200, RideData(ride));
  }

  // ---------------------------------------------------------------------------------------------
  // rateRide

  /** The running average after one more rating `r`, with `n` the rated party's ride count. */
  function RunningAverage(avg: real, n: nat, r: real): real
  {
    (avg * n as real + r) / (n as real + 1.0)
  }

  /** `rateRide`. `rating` is absent when the request gives none. The assigned driver (by role and
      id) rates the rider; otherwise the ride's rider rates the driver; anyone else is refused.
      Reading the driver reference of a ride without one, or a record that does not resolve,
      throws (500) before anything is saved. Nothing stops a second rating. */
  function RateRide(s: State, caller: Caller, rideId: Id, rating: Option<real>): (o: Step)
    ensures o.reply.code in {200, 400, 403, 500}
    ensures o.reply.code != 200 ==> o.next == s
  {
    if rating.None? || rating.value < 1.0 || rating.value > 5.0 then
      Step(Reply(400, Message("Rating must be between 1 and 5")), s)
    else if rideId !in s.rides || s.rides[rideId].status != Completed then
      Step(Reply(400, Message("Cannot rate this ride")), s)
    else
      var r := rating.value;
      var ride := s.rides[rideId];
      if caller.role == DriverRole && ride.driver.None? then
        Step(Reply(500, Message("Error rating ride")), s)
      else if caller.role == DriverRole && ride.driver.value == caller.id then
        if ride.rider !in s.users then
          Step(Reply(500, Message("Error rating ride")), s)
        else
          var user := s.users[ride.rider];
          var rated := ride.(rating := ride.rating.(riderRating := Some(r)));
          Step(Reply(200, RideData(rated)),
               s.(rides := s.rides[rideId := rated],
                  users := s.users[ride.rider := user.(rating := RunningAverage(user.rating, user.totalRides, r))]))
      else if ride.rider == caller.id then
        if ride.driver.None? || ride.driver.value !in s.drivers then
          Step(Reply(500, Message("Error rating ride")), s)
        else
          var d := ride.driver.value;
          var driver := s.drivers[d];
          var rated := ride.(rating := ride.rating.(driverRating := Some(r)));
          Step(Reply(200, RideData(rated)),
               s.(rides := s.rides[rideId := rated],
                  drivers := s.drivers[d := driver.(rating := RunningAverage(driver.rating, driver.totalRides, r))]))
      else
        Step(Reply(403, Message("Not authorized")), s)
  }

  method HandleRateRide(db: Database, caller: Caller, rideId: Id, rating: Option<real>) returns (reply: Reply)
    modifies db
    ensures Step(reply, db.Snapshot()) == RateRide(old(db.Snapshot()), caller, rideId, rating)
  {
    if rating.None? || rating.value < 1.0 || rating.value > 5.0 {
      return Reply(400, Message("Rating must be between 1 and 5"));
    }
    if rideId !in db.rides || db.rides[rideId].status != Completed {
      return Reply(400, Message("Cannot rate this ride"));
    }
    var r := rating.value;
    var ride := db.rides[rideId];
    if caller.role == DriverRole && ride.driver.None? {
      return Reply(500, Message("Error rating ride"));
    }
    if caller.role == DriverRole && ride.driver.value == caller.id {
      ride := ride.(rating := ride.rating.(riderRating := Some(r)));
      if ride.rider !in db.users {
        return Reply(500, Message("Error rating ride"));
      }
      var user := db.users[ride.rider];
      user := user.(rating := RunningAverage(user.rating, user.totalRides, r));
      db.users := db.users[ride.rider := user];
    } else if ride.rider == caller.id {
      ride := ride.(rating := ride.rating.(driverRating := Some(r)));
      if ride.driver.None? || ride.driver.value !in db.drivers {
        return Reply(500, Message("Error rating ride"));
      }
      var d := ride.driver.value;
      var driver := db.drivers[d];
      driver := driver.(rating := RunningAverage(driver.rating, driver.totalRides, r));
      db.drivers := db.drivers[d := driver];
    } else {
      return Reply(403, Message("Not authorized"));
    }
    db.rides := db.rides[rideId := ride];
    reply := Reply(200, RideData(ride));
  }
}
