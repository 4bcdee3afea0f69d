/** The in-memory store of the Python taxi platform (taxi_platform/store.py). Each collection is a
    dictionary from id to record, filled from a counter that only grows, so a dictionary's
    insertion order is its id order. The store's operations are specified as functions on a
    `StoreState` value; the `DataStore` class applies them in place. */
module PlatformStore {
  import opened Wrappers
  import opened PlatformModels
  import Decimal

  datatype StoreState = StoreState(
    users: map<int, User>, drivers: map<int, DriverProfile>, rides: map<int, RideRequest>,
    userCounter: nat, driverCounter: nat, rideCounter: nat)

  const Empty := StoreState(map[], map[], map[], 0, 0, 0)

  /** The ids in use are exactly `1..counter`, and every record carries its own key. */
  ghost predicate Valid(st: StoreState)
  {
    && (forall id :: id in st.users <==> 1 <= id <= st.userCounter)
    && (forall id :: id in st.users ==> st.users[id].id == id)
    && (forall id :: id in st.drivers <==> 1 <= id <= st.driverCounter)
    && (forall id :: id in st.drivers ==> st.drivers[id].id == id)
    && (forall id :: id in st.rides <==> 1 <= id <= st.rideCounter)
    && (forall id :: id in st.rides ==> st.rides[id].id == id)
  }

  lemma EmptyValid()
    ensures Valid(Empty)
  {
  }

  /** An exception a store operation can raise, or its result. */
  datatype Outcome<T> = Done(value: T) | KeyError | ValueError(message: string)

  /** The outcome of an operation and the store it leaves behind. */
  datatype Change<T> = Change(outcome: Outcome<T>, next: StoreState)

  // ---------------------------------------------------------------------------------------------
  // Listing: dictionary values in insertion order

  /** The values stored under keys `1..n`, in key order. */
  function Values<T>(m: map<int, T>, n: nat): (r: seq<T>)
    ensures |r| <= n
  {
    if n == 0 then [] else Values(m, n - 1) + (if n in m then [m[n]] else [])
  }

  /** With every key `1..n` present, the listing holds `m[i + 1]` at position `i`. */
  lemma {:induction false} ValuesAt<T>(m: map<int, T>, n: nat)
    requires forall id :: 1 <= id <= n ==> id in m
    ensures |Values(m, n)| == n
    ensures forall i :: 0 <= i < n ==> Values(m, n)[i] == m[i + 1]
  {
    if n > 0 {
      ValuesAt(m, n - 1);
    }
  }

  /** Entries above `n` do not affect the listing of keys `1..n`. */
  lemma {:induction false} ValuesIgnoreAbove<T>(m: map<int, T>, k: int, v: T, n: nat)
    requires k > n
    ensures Values(m[k := v], n) == Values(m, n)
  {
    if n > 0 {
      ValuesIgnoreAbove(m, k, v, n - 1);
    }
  }

  /** Replacing the value under an existing key keeps its position in the listing. */
  lemma ValuesReplace<T>(m: map<int, T>, k: int, v: T, n: nat)
    requires forall id :: id in m <==> 1 <= id <= n
    requires k in m
    ensures |Values(m, n)| == n
    ensures Values(m[k := v], n) == Values(m, n)[k - 1 := v]
  {
    ValuesAt(m, n);
    ValuesAt(m[k := v], n);
  }

  function Users(st: StoreState): seq<User>
  {
    Values(st.users, st.userCounter)
  }

  function DriverProfiles(st: StoreState): seq<DriverProfile>
  {
    Values(st.drivers, st.driverCounter)
  }

  // ---------------------------------------------------------------------------------------------
  // Ride listing

  /** A ride passes the listing's filters: each given filter must hold. */
  predicate Matches(r: RideRequest, riderId: Option<int>, status: Option<RideStatus>)
  {
    (riderId.None? || r.riderId == riderId.value) && (status.None? || r.status == status.value)
  }

  predicate IncreasingIds(rs: seq<RideRequest>)
  {
    forall i, j :: 0 <= i < j < |rs| ==> rs[i].id < rs[j].id
  }

  /** One filtering pass over a listing, keeping order. */
  function Filter(rs: seq<RideRequest>, riderId: Option<int>, status: Option<RideStatus>): (r: seq<RideRequest>)
    ensures forall x :: x in r ==> x in rs && Matches(x, riderId, status)
    ensures forall x :: x in rs && Matches(x, riderId, status) ==> x in r
    ensures IncreasingIds(rs) ==> IncreasingIds(r)
  {
    if |rs| == 0 then []
    else
      var rest := Filter(rs[1..], riderId, status);
      if Matches(rs[0], riderId, status) then
        assert IncreasingIds(rs) ==> forall x :: x in rs[1..] ==> rs[0].id < x.id;
        [rs[0]] + rest
      else rest
  }

  /** `list_rides`: the rider filter is applied first, then the status filter over its result. */
  function Rides(st: StoreState, riderId: Option<int>, status: Option<RideStatus>): seq<RideRequest>
  {
    var byRider := Filter(Values(st.rides, st.rideCounter), riderId, None);
    Filter(byRider, None, status)
  }

  /** `get_available_rides`. */
  function AvailableRides(st: StoreState): seq<RideRequest>
  {
    Rides(st, None, Some(Requested))
  }

  /** Filtering by rider and then by status is one pass with both filters. */
  lemma {:induction false} FilterTwice(rs: seq<RideRequest>, riderId: Option<int>, status: Option<RideStatus>)
    ensures Filter(Filter(rs, riderId, None), None, status) == Filter(rs, riderId, status)
  {
    if |rs| > 0 {
      FilterTwice(rs[1..], riderId, status);
      if Matches(rs[0], riderId, None) {
        assert Filter(rs, riderId, None) == [rs[0]] + Filter(rs[1..], riderId, None);
        assert ([rs[0]] + Filter(rs[1..], riderId, None))[1..] == Filter(rs[1..], riderId, None);
      }
    }
  }

  /** The rides listed are exactly the stored rides that pass both filters, in id order. */
  lemma RidesListed(st: StoreState, riderId: Option<int>, status: Option<RideStatus>)
    requires Valid(st)
    ensures var r := Rides(st, riderId, status);
      && IncreasingIds(r)
      && (forall x :: x in r ==> x.id in st.rides && st.rides[x.id] == x && Matches(x, riderId, status))
      && (forall id :: id in st.rides && Matches(st.rides[id], riderId, status) ==> st.rides[id] in r)
  {
    var all := Values(st.rides, st.rideCounter);
    ValuesAt(st.rides, st.rideCounter);
    FilterTwice(all, riderId, status);
    assert IncreasingIds(all);
    forall id | id in st.rides && Matches(st.rides[id], riderId, status)
      ensures st.rides[id] in all
    {
      assert all[id - 1] == st.rides[id];
    }
    forall x | x in all
      ensures x.id in st.rides && st.rides[x.id] == x
    {
      var i :| 0 <= i < |all| && all[i] == x;
      assert st.rides[i + 1] == x;
    }
  }

  /** The available rides are exactly the stored rides still `requested`. */
  lemma AvailableRidesAreRequested(st: StoreState, ride: RideRequest)
    requires Valid(st)
    ensures ride in AvailableRides(st) <==> ride.id in st.rides && st.rides[ride.id] == ride && ride.status == Requested
  {
    RidesListed(st, None, Some(Requested));
  }

  // ---------------------------------------------------------------------------------------------
  // Creation

  /** `create_user`: the next counter value becomes the id. */
  function AddUser(st: StoreState, name: JsonValue, role: Role): (c: Change<User>)
    ensures c.outcome == Done(User(st.userCounter + 1, name, role))
    ensures Valid(st) ==> Valid(c.next) && Users(c.next) == Users(st) + [c.outcome.value]
    ensures c.next.drivers == st.drivers && c.next.rides == st.rides
  {
    var user := User(st.userCounter + 1, name, role);
    var next := st.(users := st.users[user.id := user], userCounter := user.id);
    ValuesIgnoreAbove(st.users, user.id, user, st.userCounter);
    Change(Done(user), next)
  }

  /** `create_driver_profile`: no check of the user; new profiles are `pending`. */
  function AddDriverProfile(st: StoreState, userId: int, vehicle: JsonValue, licenseNumber: JsonValue): (c: Change<DriverProfile>)
    ensures c.outcome == Done(DriverProfile(st.driverCounter + 1, userId, vehicle, licenseNumber, Pending))
    ensures Valid(st) ==> Valid(c.next) && DriverProfiles(c.next) == DriverProfiles(st) + [c.outcome.value]
    ensures c.next.users == st.users && c.next.rides == st.rides
  {
    var profile := DriverProfile(st.driverCounter + 1, userId, vehicle, licenseNumber, Pending);
    var next := st.(drivers := st.drivers[profile.id := profile], driverCounter := profile.id);
    ValuesIgnoreAbove(st.drivers, profile.id, profile, st.driverCounter);
    Change(Done(profile), next)
  }

  /** `create_ride_request`: a new request is `requested`, has no driver, and is stamped with
      the clock reading `now`. */
  function AddRideRequest(st: StoreState, riderId: int, pickup: JsonValue, dropoff: JsonValue, now: int): (c: Change<RideRequest>)
    ensures c.outcome == Done(RideRequest(st.rideCounter + 1, riderId, pickup, dropoff, Requested, None, now))
    ensures Valid(st) ==> Valid(c.next) && Values(c.next.rides, c.next.rideCounter) == Values(st.rides, st.rideCounter) + [c.outcome.value]
    ensures c.next.users == st.users && c.next.drivers == st.drivers
  {
    var ride := RideRequest(st.rideCounter + 1, riderId, pickup, dropoff, Requested, None, now);
    var next := st.(rides := st.rides[ride.id := ride], rideCounter := ride.id);
    ValuesIgnoreAbove(st.rides, ride.id, ride, st.rideCounter);
    Change(Done(ride), next)
  }

  // ---------------------------------------------------------------------------------------------
  // Updates

  /** `update_driver_status`: a missing profile is a `KeyError`. */
  function SetDriverStatus(st: StoreState, driverId: int, status: DriverStatus): (c: Change<DriverProfile>)
    ensures driverId !in st.drivers <==> c.outcome == KeyError
    ensures driverId !in st.drivers ==> c.next == st
    ensures driverId in st.drivers ==>
      && c.outcome == Done(st.drivers[driverId].(status := status))
      && c.next == st.(drivers := st.drivers[driverId := c.outcome.value])
    ensures Valid(st) ==> Valid(c.next)
  {
    if driverId !in st.drivers then Change(KeyError, st)
    else
      var profile := st.drivers[driverId].(status := status);
      Change(Done(profile), st.(drivers := st.drivers[driverId := profile]))
  }

  function NotAvailableMessage(rideId: int): string
  {
    "Ride " + Decimal.IntToDecimal(rideId) + " is not available"
  }

  /** `assign_driver_to_ride`: the driver is looked up first, then the ride; only a `requested`
      ride can be taken, and the driver's own status is never consulted. */
  function AssignDriver(st: StoreState, driverId: int, rideId: int): (c: Change<RideRequest>)
    ensures c.outcome.KeyError? <==> driverId !in st.drivers || rideId !in st.rides
    ensures c.outcome.ValueError? <==>
      driverId in st.drivers && rideId in st.rides && st.rides[rideId].status != Requested
    ensures c.outcome.ValueError? ==> c.outcome.message == NotAvailableMessage(rideId)
    ensures !c.outcome.Done? ==> c.next == st
    ensures c.outcome.Done? ==>
      && c.outcome.value == st.rides[rideId].(driverId := Some(driverId), status := Accepted)
      && c.next == st.(rides := st.rides[rideId := c.outcome.value],
                       drivers := st.drivers[driverId := st.drivers[driverId].(status := OnTrip)])
    ensures Valid(st) ==> Valid(c.next)
  {
    if driverId !in st.drivers || rideId !in st.rides then Change(KeyError, st)
    else
      var ride := st.rides[rideId];
      if ride.status != Requested then Change(ValueError(NotAvailableMessage(rideId)), st)
      else
        var taken := ride.(driverId := Some(driverId), status := Accepted);
        Change(Done(taken), st.(rides := st.rides[rideId := taken],
                                drivers := st.drivers[driverId := st.drivers[driverId].(status := OnTrip)]))
  }

  /** A ride is assigned at most once: a second assignment, by any driver, is a `ValueError`. */
  lemma SecondAssignmentFails(st: StoreState, driverId: int, rideId: int, otherDriver: int)
    requires AssignDriver(st, driverId, rideId).outcome.Done?
    requires otherDriver in st.drivers
    ensures var st1 := AssignDriver(st, driverId, rideId).next;
      AssignDriver(st1, otherDriver, rideId) == Change(ValueError(NotAvailableMessage(rideId)), st1)
  {
  }

  /** A driver already on a trip, or never activated, can still be given a ride. */
  lemma AssignmentIgnoresDriverStatus(st: StoreState, driverId: int, rideId: int)
    requires driverId in st.drivers && rideId in st.rides && st.rides[rideId].status == Requested
    requires st.drivers[driverId].status in {Pending, Inactive, OnTrip}
    ensures AssignDriver(st, driverId, rideId).outcome.Done?
  {
  }

  /** Listing drivers after a status update keeps every profile in place. */
  lemma StatusUpdateKeepsListingOrder(st: StoreState, driverId: int, status: DriverStatus)
    requires Valid(st) && driverId in st.drivers
    ensures |DriverProfiles(st)| == st.driverCounter
    ensures var c := SetDriverStatus(st, driverId, status);
      DriverProfiles(c.next) == DriverProfiles(st)[driverId - 1 := c.outcome.value]
  {
    ValuesReplace(st.drivers, driverId, st.drivers[driverId].(status := status), st.driverCounter);
  }

  // ---------------------------------------------------------------------------------------------
  // The store object

  /** `DataStore`: three dictionaries and three counters, updated in place. */
  class DataStore {
    var users: map<int, User>
    var drivers: map<int, DriverProfile>
    var rides: map<int, RideRequest>
    var userCounter: nat
    var driverCounter: nat
    var rideCounter: nat

    function Snapshot(): StoreState
      reads this
    {
      StoreState(users, drivers, rides, userCounter, driverCounter, rideCounter)
    }

    constructor ()
      ensures Snapshot() == Empty
    {
      users := map[];
      drivers := map[];
      rides := map[];
      userCounter := 0;
      driverCounter := 0;
      rideCounter := 0;
    }

    method NextUserId() returns (id: nat)
      modifies this
      ensures id == old(userCounter) + 1
      ensures Snapshot() == old(Snapshot()).(userCounter := id)
    {
      userCounter := userCounter + 1;
      id := userCounter;
    }

    method NextDriverId() returns (id: nat)
      modifies this
      ensures id == old(driverCounter) + 1
      ensures Snapshot() == old(Snapshot()).(driverCounter := id)
    {
      driverCounter := driverCounter + 1;
      id := driverCounter;
    }

    method NextRideId() returns (id: nat)
      modifies this
      ensures id == old(rideCounter) + 1
      ensures Snapshot() == old(Snapshot()).(rideCounter := id)
    {
      rideCounter := rideCounter + 1;
      id := rideCounter;
    }

    method CreateUser(name: JsonValue, role: Role) returns (user: User)
      modifies this
      ensures Change(Done(user), Snapshot()) == AddUser(old(Snapshot()), name, role)
    {
      var id := NextUserId();
      user := User(id, name, role);
      users := users[id := user];
    }

    method CreateDriverProfile(userId: int, vehicle: JsonValue, licenseNumber: JsonValue) returns (profile: DriverProfile)
      modifies this
      ensures Change(Done(profile), Snapshot()) == AddDriverProfile(old(Snapshot()), userId, vehicle, licenseNumber)
    {
      var id := NextDriverId();
      profile := DriverProfile(id, userId, vehicle, licenseNumber, Pending);
      drivers := drivers[id := profile];
    }

    method CreateRideRequest(riderId: int, pickup: JsonValue, dropoff: JsonValue, now: int) returns (ride: RideRequest)
      modifies this
      ensures Change(Done(ride), Snapshot()) == AddRideRequest(old(Snapshot()), riderId, pickup, dropoff, now)
    {
      var id := NextRideId();
      ride := RideRequest(id, riderId, pickup, dropoff, Requested, None, now);
      rides := rides[id := ride];
    }

    method UpdateDriverStatus(driverId: int, status: DriverStatus) returns (result: Outcome<DriverProfile>)
      modifies this
      ensures Change(result, Snapshot()) == SetDriverStatus(old(Snapshot()), driverId, status)
    {
      if driverId !in drivers {
        return KeyError;
      }
      var profile := drivers[driverId];
      profile := profile.(status := status);
      drivers := drivers[driverId := profile];
      result := Done(profile);
    }

    method AssignDriverToRide(driverId: int, rideId: int) returns (result: Outcome<RideRequest>)
      modifies this
      ensures Change(result, Snapshot()) == AssignDriver(old(Snapshot()), driverId, rideId)
    {
      if driverId !in drivers {
        return KeyError;
      }
      var driver := drivers[driverId];
      if rideId !in rides {
        return KeyError;
      }
      var ride := rides[rideId];
      if ride.status != Requested {
        return ValueError(NotAvailableMessage(rideId));
      }
      ride := ride.(driverId := Some(driverId));
      ride := ride.(status := Accepted);
      driver := driver.(status := OnTrip);
      rides := rides[rideId := ride];
      drivers := drivers[driverId := driver];
      result := Done(ride);
    }
  }
}
