/** The driver routes (taxi_platform/routes/drivers.py): the open ride requests, accepting one,
    and a status change. Every route first requires the driver profile named in the path. */
module DriverRoutes {
  import opened Wrappers
  import opened PlatformModels
  import opened PlatformHttp
  import S = PlatformStore

  const DriverNotFound := Reply(404, Error("Driver not found"))

  /** `GET /drivers/<driver_id>/rides/available`: every driver sees every open request. */
  function AvailableRides(st: S.StoreState, driverId: nat): (r: Reply)
    ensures driverId !in st.drivers <==> r == DriverNotFound
    ensures driverId in st.drivers ==> r.code == 200 && r.body == RideList(S.AvailableRides(st))
  {
    if driverId !in st.drivers then DriverNotFound else Reply(200, RideList(S.AvailableRides(st)))
  }

  /** `POST /drivers/<driver_id>/rides/<ride_id>/accept`: 404 for an unknown driver or ride, 400
      for a ride no longer `requested`, otherwise the accepted ride. */
  function AcceptRide(st: S.StoreState, driverId: nat, rideId: nat): (o: Response)
    ensures o.reply.code in {200, 400, 404}
    ensures o.reply.code != 200 ==> o.next == st
    ensures o.reply.code == 404 <==> driverId !in st.drivers || rideId !in st.rides
    ensures o.reply.code == 400 <==> driverId in st.drivers && rideId in st.rides && st.rides[rideId].status != Requested
    ensures o.reply.code == 400 ==> o.reply.body == Error(S.NotAvailableMessage(rideId))
    ensures o.reply.code == 200 ==>
      && o.reply.body.RideBody?
      && o.reply.body.ride.driverId == Some(driverId as int) && o.reply.body.ride.status == Accepted
      && driverId in o.next.drivers && o.next.drivers[driverId].status == OnTrip
  {
    if driverId !in st.drivers then Response(DriverNotFound, st)
    else
      var c := S.AssignDriver(st, driverId, rideId);
      match c.outcome
      case KeyError => Response(Reply(404, Error("Ride not found")), st)
      case ValueError(message) => Response(Reply(400, Error(message)), st)
      case Done(ride) => Response(Reply(200, RideBody(ride)), c.next)
  }

  method HandleAcceptRide(store: S.DataStore, driverId: nat, rideId: nat) returns (reply: Reply)
    modifies store
    ensures Response(reply, store.Snapshot()) == AcceptRide(old(store.Snapshot()), driverId, rideId)
  {
    if driverId !in store.drivers {
      return DriverNotFound;
    }
    var result := store.AssignDriverToRide(driverId, rideId);
    match result
    case KeyError => reply := Reply(404, Error("Ride not found"));
    case ValueError(message) => reply := Reply(400, Error(message));
    case Done(ride) => reply := Reply(200, RideBody(ride));
  }

  /** Once accepted, a ride is no longer offered, and a second acceptance by any driver gets 400. */
  lemma AcceptedRideWithdrawn(st: S.StoreState, driverId: nat, rideId: nat, other: nat)
    requires S.Valid(st)
    requires AcceptRide(st, driverId, rideId).reply.code == 200
    requires other in st.drivers
    ensures var st1 := AcceptRide(st, driverId, rideId).next;
      && AcceptRide(st1, other, rideId).reply == Reply(400, Error(S.NotAvailableMessage(rideId)))
      && forall x :: x in AvailableRides(st1, other).body.rides ==> x.id != rideId
  {
    var st1 := AcceptRide(st, driverId, rideId).next;
    assert S.Valid(st1);
    forall x | x in S.AvailableRides(st1)
      ensures x.id != rideId
    {
      S.AvailableRidesAreRequested(st1, x);
    }
  }

  /** `POST /drivers/<driver_id>/status`: 404 for an unknown driver, 400 for a missing or unknown
      status, otherwise the updated profile. */
  function UpdateStatus(st: S.StoreState, driverId: nat, payload: Payload): (o: Response)
    ensures o.reply.code in {200, 400, 404}
    ensures o.reply.code != 200 ==> o.next == st
    ensures o.reply.code == 404 <==> driverId !in st.drivers
    ensures o.reply.code == 200 <==>
      driverId in st.drivers && "status" in payload && DriverStatusOf(payload["status"]).Some?
    ensures o.reply.code == 200 ==>
      && o.reply.body == ProfileBody(st.drivers[driverId].(status := DriverStatusOf(payload["status"]).value))
      && o.next == st.(drivers := st.drivers[driverId := o.reply.body.profile])
  {
    if driverId !in st.drivers then Response(DriverNotFound, st)
    else if "status" !in payload || DriverStatusOf(payload["status"]).None? then
      Response(Reply(400, InvalidPayload("status")), st)
    else
      var c := S.SetDriverStatus(st, driverId, DriverStatusOf(payload["status"]).value);
      Response(Reply(200, ProfileBody(c.outcome.value)), c.next)
  }

  method HandleUpdateStatus(store: S.DataStore, driverId: nat, payload: Payload) returns (reply: Reply)
    modifies store
    ensures Response(reply, store.Snapshot()) == UpdateStatus(old(store.Snapshot()), driverId, payload)
  {
    if driverId !in store.drivers {
      return DriverNotFound;
    }
    if "status" !in payload {
      return Reply(400, InvalidPayload("status"));
    }
    var status := DriverStatusOf(payload["status"]);
    if status.None? {
      return Reply(400, InvalidPayload("status"));
    }
    var result := store.UpdateDriverStatus(driverId, status.value);
    reply := Reply(200, ProfileBody(result.value));
  }
}
