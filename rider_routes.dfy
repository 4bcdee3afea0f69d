/** The rider routes (taxi_platform/routes/riders.py): requesting a ride and the ride listings. */
module RiderRoutes {
  import opened Wrappers
  import opened PlatformModels
  import opened PlatformHttp
  import S = PlatformStore

  /** `_rider_exists`: a user with the rider role. */
  predicate RiderExists(st: S.StoreState, riderId: int)
  {
    riderId in st.users && st.users[riderId].role == Rider
  }

  const RiderNotFound := Reply(404, Error("Rider not found"))

  /** `POST /riders/<rider_id>/ride-request`: 404 unless the path names a rider, 400 for a
      missing `pickup` or `dropoff`; `now` is the clock reading stamped on the request. */
  function RequestRide(st: S.StoreState, riderId: nat, payload: Payload, now: int): (o: Response)
    ensures o.reply.code in {201, 400, 404}
    ensures o.reply.code != 201 ==> o.next == st
    ensures o.reply.code == 404 <==> !RiderExists(st, riderId)
    ensures o.reply.code == 201 <==> RiderExists(st, riderId) && "pickup" in payload && "dropoff" in payload
    ensures o.reply.code == 201 ==>
      o.reply.body == RideBody(RideRequest(st.rideCounter + 1, riderId, payload["pickup"], payload["dropoff"], Requested, None, now))
  {
    if !RiderExists(st, riderId) then Response(RiderNotFound, st)
    else if "pickup" !in payload then Response(Reply(400, InvalidPayload("pickup")), st)
    else if "dropoff" !in payload then Response(Reply(400, InvalidPayload("dropoff")), st)
    else
      var c := S.AddRideRequest(st, riderId, payload["pickup"], payload["dropoff"], now);
      Response(Reply(201, RideBody(c.outcome.value)), c.next)
  }

  method HandleRequestRide(store: S.DataStore, riderId: nat, payload: Payload, now: int) returns (reply: Reply)
    modifies store
    ensures Response(reply, store.Snapshot()) == RequestRide(old(store.Snapshot()), riderId, payload, now)
  {
    if riderId !in store.users || store.users[riderId].role != Rider {
      return RiderNotFound;
    }
    if "pickup" !in payload {
      return Reply(400, InvalidPayload("pickup"));
    }
    var pickup := payload["pickup"];
    if "dropoff" !in payload {
      return Reply(400, InvalidPayload("dropoff"));
    }
    var dropoff := payload["dropoff"];
    var ride := store.CreateRideRequest(riderId, pickup, dropoff, now);
    reply := Reply(201, RideBody(ride));
  }

  /** `GET /riders/<rider_id>/rides`. */
  function ListRides(st: S.StoreState, riderId: nat): (r: Reply)
    ensures !RiderExists(st, riderId) <==> r == RiderNotFound
  {
    if !RiderExists(st, riderId) then RiderNotFound else Reply(200, RideList(S.Rides(st, Some(riderId), None)))
  }

  /** `GET /riders/rides`: every ride request, in creation order. */
  function ListAllRides(st: S.StoreState): Reply
  {
    Reply(200, RideList(S.Rides(st, None, None)))
  }

  /** A rider's listing holds exactly that rider's requests, oldest first. */
  lemma RiderSeesOwnRides(st: S.StoreState, riderId: nat)
    requires S.Valid(st) && RiderExists(st, riderId)
    ensures var r := ListRides(st, riderId);
      && r.code == 200
      && S.IncreasingIds(r.body.rides)
      && (forall x :: x in r.body.rides ==> x.riderId == riderId && x.id in st.rides && st.rides[x.id] == x)
      && (forall id :: id in st.rides && st.rides[id].riderId == riderId ==> st.rides[id] in r.body.rides)
  {
    S.RidesListed(st, Some(riderId), None);
  }

  /** The full listing holds every stored request once, in id order. */
  lemma ListAllRidesInIdOrder(st: S.StoreState)
    requires S.Valid(st)
    ensures var r := ListAllRides(st).body.rides;
      |r| == st.rideCounter && forall i :: 0 <= i < |r| ==> r[i] == st.rides[i + 1]
  {
    S.ValuesAt(st.rides, st.rideCounter);
    var all := S.Values(st.rides, st.rideCounter);
    FilterNoneKeepsAll(all);
  }

  lemma {:induction false} FilterNoneKeepsAll(rs: seq<RideRequest>)
    ensures S.Filter(rs, None, None) == rs
  {
    if |rs| > 0 {
      FilterNoneKeepsAll(rs[1..]);
      assert [rs[0]] + rs[1..] == rs;
    }
  }

  /** A new request is offered to drivers at once and appears in the rider's own listing. */
  lemma RequestedRideOffered(st: S.StoreState, riderId: nat, payload: Payload, now: int)
    requires S.Valid(st)
    requires RequestRide(st, riderId, payload, now).reply.code == 201
    ensures var o := RequestRide(st, riderId, payload, now);
      && o.reply.body.ride in S.AvailableRides(o.next)
      && o.reply.body.ride in ListRides(o.next, riderId).body.rides
  {
    var o := RequestRide(st, riderId, payload, now);
    assert S.Valid(o.next);
    var ride := o.reply.body.ride;
    assert o.next.rides[ride.id] == ride;
    S.AvailableRidesAreRequested(o.next, ride);
    S.RidesListed(o.next, Some(riderId as int), None);
  }
}
