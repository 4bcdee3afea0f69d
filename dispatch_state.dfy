/** The shared state the Node controllers read and write: the ride, driver and user collections,
    the id allocator for new rides and the log of socket events emitted so far. The user document
    (server/models/User.js) is not part of this model; a user carries only the fields the
    controllers read and write. */
module DispatchState {
  import opened Wrappers
  import opened RideSchema
  import opened DriverSchema

  /** The role in the caller's token. Only "driver" and "admin" are tested by the controllers;
      `RiderRole` stands for every other role. */
  datatype Role = RiderRole | DriverRole | AdminRole

  /** The authenticated caller (`req.user`). */
  datatype Caller = Caller(id: Id, role: Role)

  datatype User = User(role: Role, rating: real, totalRides: nat)

  /** Socket rooms: `user_<id>`, `driver_<id>`, or a broadcast to every connection. */
  datatype Channel = UserChannel(id: Id) | DriverChannel(id: Id) | Everyone

  datatype EventKind =
    | NewRideRequest(rideId: Id, fareTotal: int, distance: real)
    | RideAccepted(rideId: Id, driverId: Id)
    | RideStatusUpdate(rideId: Id, status: RideStatus)
    | RideCancelled(rideId: Id, cancelledBy: CancelledBy)
    | DriverLocationUpdate(driverId: Id, location: DriverLocation)
    | DriverAvailabilityChanged(driverId: Id, isAvailable: bool)

  datatype Event = Event(to: Channel, kind: EventKind)

  datatype State = State(
    rides: map<Id, Ride>,
    drivers: map<Id, Driver>,
    users: map<Id, User>,
    nextRideId: nat,
    outbox: seq<Event>)

  /** The payload of a response. */
  datatype Body =
    | Message(text: string)
    | RideData(ride: Ride)
    | RideCreated(rideId: Id, ride: Ride, nearbyDriversCount: nat)
    | DriverData(driver: Option<Driver>)
    | LocationData(location: DriverLocation)
    | Availability(isAvailable: bool)
    | CurrentRide(current: Option<Ride>)
    | PaymentReceipt(transactionId: string, amount: int)
    | RefundData(payment: Payment)
    | PaymentHistory(payments: seq<Id>, totalSpent: int, count: nat)

  /** An HTTP response: status code and body. */
  datatype Reply = Reply(code: nat, body: Body)

  /** One request: the response and the state it leaves behind. */
  datatype Step = Step(reply: Reply, next: State)

  /** Every stored ride id lies below the allocator, so the next id is fresh. */
  ghost predicate FreshIds(s: State)
  {
    forall id :: id in s.rides ==> id < s.nextRideId
  }

  /** A driver who holds a ride is not offered new ones. */
  ghost predicate EngagedUnavailable(s: State)
  {
    forall id :: id in s.drivers && s.drivers[id].currentRide.Some? ==> !s.drivers[id].isAvailable
  }

  /** The database the handlers update in place. */
  class Database {
    var rides: map<Id, Ride>
    var drivers: map<Id, Driver>
    var users: map<Id, User>
    var nextRideId: nat
    var outbox: seq<Event>

    function Snapshot(): State
      reads this
    {
      State(rides, drivers, users, nextRideId, outbox)
    }

    constructor (s: State)
      ensures Snapshot() == s
    {
      rides, drivers, users, nextRideId, outbox := s.rides, s.drivers, s.users, s.nextRideId, s.outbox;
    }
  }
}
