/** The Ride document of the Node backend (server/models/Ride.js): its enumerations, its
    defaults and the checks Mongoose's schema validation makes when a ride is saved. */
module RideSchema {
  import opened Wrappers

  /** A document id (a MongoDB ObjectId). */
  type Id = nat

  /** A GeoJSON point; the schema stores `coordinates` as `[longitude, latitude]`. */
  datatype Point = Point(longitude: real, latitude: real)

  datatype RideStatus = Requested | Accepted | Arrived | InProgress | Completed | Cancelled

  function RideStatusName(s: RideStatus): string
  {
    match s
    case Requested => "requested"
    case Accepted => "accepted"
    case Arrived => "arrived"
    case InProgress => "in-progress"
    case Completed => "completed"
    case Cancelled => "cancelled"
  }

  /** The status enum of the schema: a string names a status exactly when it is one of the six names. */
  function ParseRideStatus(name: string): (r: Option<RideStatus>)
    ensures r.Some? <==> name in {"requested", "accepted", "arrived", "in-progress", "completed", "cancelled"}
    ensures r.Some? ==> RideStatusName(r.value) == name
  {
    if name == "requested" then Some(Requested)
    else if name == "accepted" then Some(Accepted)
    else if name == "arrived" then Some(Arrived)
    else if name == "in-progress" then Some(InProgress)
    else if name == "completed" then Some(Completed)
    else if name == "cancelled" then Some(Cancelled)
    else None
  }

  lemma ParseRideStatusName(s: RideStatus)
    ensures ParseRideStatus(RideStatusName(s)) == Some(s)
  {
  }

  /** Vehicle class, shared by the Ride and the Driver schema. */
  datatype VehicleType = Sedan | Suv | Luxury | Van

  function VehicleTypeName(v: VehicleType): string
  {
    match v
    case Sedan => "sedan"
    case Suv => "suv"
    case Luxury => "luxury"
    case Van => "van"
  }

  function ParseVehicleType(name: string): (r: Option<VehicleType>)
    ensures r.Some? <==> name in {"sedan", "suv", "luxury", "van"}
    ensures r.Some? ==> VehicleTypeName(r.value) == name
  {
    if name == "sedan" then Some(Sedan)
    else if name == "suv" then Some(Suv)
    else if name == "luxury" then Some(Luxury)
    else if name == "van" then Some(Van)
    else None
  }

  lemma ParseVehicleTypeName(v: VehicleType)
    ensures ParseVehicleType(VehicleTypeName(v)) == Some(v)
  {
  }

  /** The vehicle class a document stores when saved with the value `given` (empty when the
      field is absent): absent means the default sedan, and a name outside the enum fails
      validation (`None`). */
  function StoredVehicleType(given: string): (r: Option<VehicleType>)
    ensures given == "" ==> r == Some(Sedan)
    ensures given != "" ==> r == ParseVehicleType(given)
    ensures r.None? <==> given != "" && given !in {"sedan", "suv", "luxury", "van"}
  {
    if given == "" then Some(Sedan) else ParseVehicleType(given)
  }

  datatype PaymentMethod = Cash | Card | Wallet

  function ParsePaymentMethod(name: string): (r: Option<PaymentMethod>)
    ensures r.Some? <==> name in {"cash", "card", "wallet"}
  {
    if name == "cash" then Some(Cash)
    else if name == "card" then Some(Card)
    else if name == "wallet" then Some(Wallet)
    else None
  }

  /** `PaymentRefunded` is a value the payment controller assigns; the schema's enum does not admit it
      (see `PaymentStatusAdmitted`). */
  datatype PaymentStatus = PaymentPending | PaymentCompleted | PaymentFailed | PaymentRefunded

  datatype CancelledBy = ByRider | ByDriver | BySystem

  /** A pickup or dropoff point; the schema requires a non-empty address. */
  datatype Place = Place(coordinates: Point, address: string)

  /** Fare breakdown. Money is in integer cents (`baseFare`, `perKmRate` per kilometre, `total`);
      `distance` is in kilometres. */
  datatype Fare = Fare(baseFare: int, perKmRate: int, distance: real, duration: int, total: int)

  /** The payment sub-record. `paymentMethod` (the schema's `method`) is absent once a request has unset it; `refundReason` is
      the field the corrected refund records. */
  datatype Payment = Payment(
    paymentMethod: Option<PaymentMethod>,
    status: PaymentStatus,
    transactionId: Option<string>,
    refundReason: Option<string>)

  datatype RideRating = RideRating(riderRating: Option<real>, driverRating: Option<real>)

  datatype RoutePoint = RoutePoint(coordinates: Point, timestamp: int)

  datatype Ride = Ride(
    rider: Id,
    driver: Option<Id>,
    pickupLocation: Place,
    dropoffLocation: Place,
    status: RideStatus,
    vehicleType: VehicleType,
    fare: Fare,
    payment: Payment,
    rating: RideRating,
    route: seq<RoutePoint>,
    cancelledBy: Option<CancelledBy>,
    cancellationReason: Option<string>)

  const DefaultFare: Fare := Fare(0, 0, 0.0, 0, 0)
  const DefaultPayment: Payment := Payment(Some(Cash), PaymentPending, None, None)

  /** A ride as `Ride.create` stores it: every field the caller does not give takes its default. */
  function NewRide(rider: Id, pickup: Place, dropoff: Place, vehicleType: VehicleType, fare: Fare): (r: Ride)
    ensures r.status == Requested && r.driver == None && r.route == []
    ensures r.payment == DefaultPayment && r.rating == RideRating(None, None)
    ensures r.cancelledBy == None && r.cancellationReason == None
  {
    Ride(rider, None, pickup, dropoff, Requested, vehicleType, fare, DefaultPayment,
         RideRating(None, None), [], None, None)
  }

  /** The payment-status enum as the schema declares it: pending, completed, failed. */
  predicate PaymentStatusAdmitted(s: PaymentStatus)
  {
    s != PaymentRefunded
  }

  predicate RatingInRange(r: Option<real>)
  {
    r.Some? ==> 0.0 <= r.value <= 5.0
  }

  /** What schema validation checks when a ride is saved: required non-empty addresses, the
      payment-status enum and the [0,5] bounds on both ratings. */
  predicate SchemaValid(r: Ride)
  {
    && r.pickupLocation.address != ""
    && r.dropoffLocation.address != ""
    && PaymentStatusAdmitted(r.payment.status)
    && RatingInRange(r.rating.riderRating)
    && RatingInRange(r.rating.driverRating)
  }

  lemma NewRideValid(rider: Id, pickup: Place, dropoff: Place, v: VehicleType, fare: Fare)
    requires pickup.address != "" && dropoff.address != ""
    ensures SchemaValid(NewRide(rider, pickup, dropoff, v, fare))
    ensures NewRide(rider, pickup, dropoff, v, fare).payment.status == PaymentPending
  {
  }
}
