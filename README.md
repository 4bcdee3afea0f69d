# Ride-hailing dispatch, modelled in Dafny

This project models the dispatch core of a ride-hailing system. The system has two
independent backends, and the model covers both.

**The Node/Express backend.** Riders request rides and get a fare quote. Nearby verified,
available drivers of the requested vehicle class are offered the ride. One driver accepts
it. The ride then moves through arrived, in-progress and completed, or is cancelled, and
the two parties rate each other. A driver toggles availability and reports its location. A
rider pays for a ride, sees a payment history and can be refunded.

**The Python/Flask platform.** This is an in-memory store of users, driver profiles and ride
requests. Each collection has an id counter. Flask routes check existence, role and payload
in front of the store.

How the model is built:

- **Request handlers.** Each handler is specified by a pure function. It maps the state before
  the request (and the request) to the HTTP reply and the state after it. A `Handle…` method
  then applies the same changes step by step to a mutable database object (`Database` for
  the Node backend, `DataStore` for the Python store). Its postcondition ties the reply and
  the new state to that function. The lemmas are stated about the functions.
- **Dispatch state.** The Node state holds rides, drivers and users (maps keyed by id), the
  next ride id, and an outbox of socket events the handlers emit. The events are recorded but
  never delivered.
- **Python store state.** It holds the three dictionaries and the three counters. A
  dictionary's insertion order is its id order, because ids come from counters that only grow
  and entries are never removed.
- **Money.** Amounts are integer cents. Ratings are exact reals.

The code's actual behaviour is modelled, including its gaps, and the gaps are stated as
lemmas:

- `updateRideStatus` never looks at the ride's current status.
- `toggleAvailability` ignores `currentRide`.
- A ride can be rated repeatedly.
- Completing a ride twice credits the fare twice.
- `assign_driver_to_ride` ignores the driver's status.
- The onboarding status route answers 500, not 404, for an unknown driver.
- A driver's first rating is averaged with the default 5.0. Completion increments
  `totalRides` (server/controllers/rideController.js:288) before the rider can rate, so the
  running average at rideController.js:442 turns a first rating of 3 into 4
  (`RideControllerLemmas.FirstRatingAveragesWithDefault`).

## Model

| member | source | states |
|---|---|---|
| RideSchema.ParseRideStatus | server/models/Ride.js:44-48 | a string names a ride status exactly when it is one of the six enum names, and the status found prints back as that name |
| RideSchema.ParseRideStatusName | server/models/Ride.js:44-48 | every status's name parses back to that status |
| RideSchema.ParseVehicleType | server/models/Ride.js:49-53 | a string names a vehicle class exactly when it is sedan, suv, luxury or van |
| RideSchema.ParseVehicleTypeName | server/models/Ride.js:49-53 | every vehicle class's name parses back to that class |
| RideSchema.StoredVehicleType | server/models/Driver.js:65-69 | an absent vehicle class is stored as the default sedan, a listed name as its class, and any other name fails validation |
| RideSchema.ParsePaymentMethod | server/models/Ride.js:77-81 | a payment method is admitted exactly when it is cash, card or wallet |
| RideSchema.NewRide | server/models/Ride.js:3-126 | a created ride is `requested`, has no driver, an empty route, payment cash/pending, no ratings and no cancellation fields |
| RideSchema.NewRideValid | server/models/Ride.js:76-100 | a new ride with non-empty addresses passes schema validation, and its payment is pending |
| DriverSchema.NewDriver | server/models/Driver.js:71-124 | a registered driver has rating 5.0, no rides, is unavailable, active and unverified, holds no ride and has zero earnings |
| DriverSchema.NewDriverValid | server/models/Driver.js:71-76 | a new driver's rating lies within the schema's [0,5] bound |
| RideController.RoundThousandths | server/controllers/rideController.js:30-31 | half-up rounding of milli-cents lands within half a cent of the exact amount |
| RideController.CalculateFare | server/controllers/rideController.js:7-34 | the class's base fare and per-km rate, sedan for a name outside the fare table (JavaScript object-prototype keys aside, see Left out), distance in km, duration 0, and a total within half a cent of base + distance × rate |
| RideController.Matching | server/controllers/rideController.js:37-61 | every driver found is eligible, within range and in the index, and every such driver in the index is found |
| RideController.MatchingKeepsDistinct | server/controllers/rideController.js:39-53 | the drivers found are distinct when the query visits each driver once |
| RideController.MatchingKeepsNearestFirst | server/controllers/rideController.js:45-52 | the drivers found come nearest first when the query visits them nearest first |
| RideController.FindNearbyDrivers | server/controllers/rideController.js:37-61 | at most 10 drivers; each is available, active, verified, idle, of the class and within range; none on a query error; every candidate visited is found when fewer than 10 are; under the `$near` visit order, the drivers are distinct and nearest first, and a candidate left out means 10 were found, none farther than it |
| RideController.Offers | server/controllers/rideController.js:110-119 | one `newRideRequest` event per notified driver, on that driver's channel, in order |
| RideController.RequestRide | server/controllers/rideController.js:64-133 | a missing pickup or dropoff gives 400; only 201 changes the state |
| RideController.HandleRequestRide | server/controllers/rideController.js:64-133 | the in-place handler, including the loop over notified drivers, computes what `RequestRide` specifies |
| RideController.AcceptRide | server/controllers/rideController.js:136-214 | replies 200, 400, 403, 404 or 500, and the rejections change nothing |
| RideController.HandleAcceptRide | server/controllers/rideController.js:136-214 | the in-place handler computes what `AcceptRide` specifies |
| RideController.UpdateRideStatus | server/controllers/rideController.js:217-329 | replies 200, 400, 403, 404 or 500; the 400, 403 and 404 replies change nothing |
| RideController.HandleUpdateRideStatus | server/controllers/rideController.js:217-329 | the in-place handler computes what `UpdateRideStatus` specifies |
| RideController.CancelRide | server/controllers/rideController.js:332-404 | replies 200, 400, 403, 404 or 500; the rejections change nothing |
| RideController.HandleCancelRide | server/controllers/rideController.js:332-404 | the in-place handler computes what `CancelRide` specifies |
| RideController.RateRide | server/controllers/rideController.js:407-465 | replies 200, 400, 403 or 500; the rejections change nothing |
| RideController.HandleRateRide | server/controllers/rideController.js:407-465 | the in-place handler computes what `RateRide` specifies |
| RideControllerLemmas.FareOfTenKilometresBySedan | server/controllers/rideController.js:7-34 | 10000 m by sedan costs 3 + 10 × 1.5 = 18.00 |
| RideControllerLemmas.FareUnknownClassIsSedan | server/controllers/rideController.js:8-29 | a class name that is not sedan, suv, luxury or van is charged exactly like a sedan (object-prototype keys aside, see Left out) |
| RideControllerLemmas.FareMonotone | server/controllers/rideController.js:7-34 | a longer trip never costs less |
| RideControllerLemmas.FareAtLeastBase | server/controllers/rideController.js:7-34 | every fare is at least its class's base fare |
| RideControllerLemmas.NewDriverNotEligible | server/controllers/rideController.js:39-44 | a freshly registered driver is never a dispatch candidate |
| RideControllerLemmas.RequestRideCreatesOneRide | server/controllers/rideController.js:85-104 | a valid request adds exactly one ride under a fresh id, `requested` with no driver and the computed fare, sedan by default, and leaves everything else alone |
| RideControllerLemmas.RequestRideNotifiesCandidates | server/controllers/rideController.js:106-124 | `nearbyDriversCount` equals the number of offers sent, and every offer goes to a candidate driver |
| RideControllerLemmas.RequestRideOffersNearest | server/controllers/rideController.js:106-124 | under the `$near` visit order, no driver gets the offer twice, and a candidate with no offer is passed over only when ten drivers no farther than it were offered the ride |
| RideControllerLemmas.AcceptRideOutcome | server/controllers/rideController.js:141-184 | an accept succeeds exactly when the caller is an idle, available driver and the ride is still requested; success assigns the ride and locks the driver, and nothing else changes |
| RideControllerLemmas.AcceptRideRejectionOrder | server/controllers/rideController.js:141-173 | non-driver 403, then busy driver 400, then unknown ride 404, then ride not requested 400 |
| RideControllerLemmas.SecondAcceptRefused | server/controllers/rideController.js:168-184 | after one accept, a second accept by any driver gets 400 and changes nothing |
| RideControllerLemmas.AcceptRideKeepsInvariants | server/controllers/rideController.js:176-184 | an accept keeps ride ids fresh and keeps every driver that holds a ride unavailable |
| RideControllerLemmas.UpdateStatusRejectsOtherNames | server/controllers/rideController.js:222-229 | any status other than arrived, in-progress or completed gets 400 with no change |
| RideControllerLemmas.UpdateStatusAuthorization | server/controllers/rideController.js:240-264 | a caller who is not the assigned driver, the rider or an admin gets 403; the rider may not set arrived or in-progress |
| RideControllerLemmas.UpdateStatusIgnoresCurrentStatus | server/controllers/rideController.js:267-269 | the assigned driver can set arrived or in-progress whatever the current status, including on cancelled or completed rides |
| RideControllerLemmas.CompletionOutcome | server/controllers/rideController.js:270-299 | completion without a driver gives 400; otherwise the payment is completed and the driver gets one more ride, is released and has the fare added to all three earnings counters, and the rider gets one more ride |
| RideControllerLemmas.RepeatedCompletionCreditsTwice | server/controllers/rideController.js:270-299 | completing a ride twice credits its fare and counts the ride twice |
| RideControllerLemmas.StaleCompletionReleasesBusyDriver | server/controllers/rideController.js:281-294 | re-completing an old ride releases its driver even while the driver holds a newer ride |
| RideControllerLemmas.UpdateStatusKeepsInvariants | server/controllers/rideController.js:267-302 | a status update keeps ride ids fresh and keeps every driver that holds a ride unavailable |
| RideControllerLemmas.CancelRequiresParty | server/controllers/rideController.js:347-355 | a caller who is neither the rider nor the assigned driver, an admin included, gets 403 |
| RideControllerLemmas.CancelOutcome | server/controllers/rideController.js:357-377 | a finished ride gives 400; otherwise the ride is cancelled by the caller's side with the reason (default "No reason provided"), and its driver is released |
| RideControllerLemmas.CancelIsFinal | server/controllers/rideController.js:357-362 | a ride once cancelled cannot be cancelled again |
| RideControllerLemmas.CancelKeepsInvariants | server/controllers/rideController.js:365-377 | a cancel keeps ride ids fresh and keeps every driver that holds a ride unavailable |
| RideControllerLemmas.RunningAverageInRange | server/controllers/rideController.js:434-443 | averaging a rating in [1,5] into a rating in [0,5] stays in [0,5] |
| RideControllerLemmas.RateRideOutcome | server/controllers/rideController.js:412-450 | a missing or out-of-range rating, or a ride not completed, gives 400; the rider's rating updates the driver's average and the driver's rating updates the rider's average; anyone else gets 403, except a driver-role caller on a ride with no driver, whose lookup throws (500) |
| RideControllerLemmas.RateRideKeepsDriverRatings | server/controllers/rideController.js:438-444 | ratings keep every driver's rating inside the schema's [0,5] bound |
| RideControllerLemmas.RatingCanBeRepeated | server/controllers/rideController.js:429-452 | the same party can rate the same ride again |
| RideControllerLemmas.FirstRatingAveragesWithDefault | server/controllers/rideController.js:288-298 | after a driver's first completion, a first rating of 3 gives an average of 4, not 3 |
| RideControllerLemmas.RateKeepsInvariants | server/controllers/rideController.js:429-452 | a rating keeps ride ids fresh and keeps every driver that holds a ride unavailable |
| RideControllerLemmas.RequestKeepsInvariants | server/controllers/rideController.js:85-104 | a request keeps ride ids fresh and keeps every driver that holds a ride unavailable |
| DriverController.UpdateProfile | server/controllers/driverController.js:23-50 | 200 or 500 only; 500 exactly when a given name or phone is all white space (the required validators, run before the lookup), or the caller's new phone or licence plate is another driver's (the unique indexes); a 500 says "Error updating profile" and changes nothing; an unknown caller changes nothing and, unless refused, gets no data |
| DriverController.HandleUpdateProfile | server/controllers/driverController.js:25-37 | builds the update field by field, then writes what `UpdateProfile` specifies |
| DriverController.UpdateProfileWritesOnlyGivenFields | server/controllers/driverController.js:25-37 | on success only the non-empty fields among name, phone and profile image, and a given vehicle, are written, name and phone trimmed; every other field and driver is unchanged |
| DriverController.UpdateProfileTrimsName | server/models/Driver.js:5-9 | a name wrapped in white space is stored without it |
| DriverController.DuplicatePhoneRefused | server/models/Driver.js:18-23 | asking for another driver's phone number is refused with 500 and nothing changes |
| DriverController.UpdateProfileKeepsPhonesUnique | server/models/Driver.js:18-23 | profile updates keep every driver's phone number distinct |
| DriverSchema.Trim | server/models/Driver.js:5-9 | the `trim` setter's result is empty exactly when the text is all white space, and otherwise starts and ends with a character that is not white space |
| DriverSchema.TrimSurrounded | server/models/Driver.js:5-9 | trimming removes exactly the surrounding white space |
| DriverSchema.TrimIdempotent | server/models/Driver.js:18-23 | a trimmed value trims to itself |
| DriverController.UpdateLocation | server/controllers/driverController.js:53-97 | a missing or zero latitude or longitude gives 400; only 200 changes the state |
| DriverController.HandleUpdateLocation | server/controllers/driverController.js:53-97 | the in-place handler computes what `UpdateLocation` specifies |
| DriverController.UpdateLocationStoresPosition | server/controllers/driverController.js:64-74 | stores `[longitude, latitude]`, address default "", heading default 0, and keeps availability, current ride and every other field |
| DriverController.UpdateLocationKeepsInvariants | server/controllers/driverController.js:64-84 | a location update keeps ride ids fresh and keeps every driver that holds a ride unavailable |
| DriverController.ToggleAvailability | server/controllers/driverController.js:100-126 | an unknown caller gets 500; otherwise the driver's availability is negated and reported |
| DriverController.HandleToggleAvailability | server/controllers/driverController.js:100-126 | the in-place handler computes what `ToggleAvailability` specifies |
| DriverController.ToggleTwiceRestores | server/controllers/driverController.js:102-105 | two toggles restore every driver record |
| DriverController.ToggleCanFreeEngagedDriver | server/controllers/driverController.js:104 | a driver holding a ride can make itself available, which breaks the pairing of held ride and unavailability |
| DriverController.GetCurrentRide | server/controllers/driverController.js:151-172 | an unknown caller gets 500; otherwise the reply is the ride the driver holds, or null when it holds none |
| DriverController.CurrentRideAfterAccept | server/controllers/driverController.js:153-164 | a driver holding a ride gets exactly that ride back |
| PaymentController.ProcessPayment | server/controllers/paymentController.js:15-87 | 404 exactly for an unknown ride; 403 exactly when the caller is not its rider; 400 "Payment already completed" exactly when the rider's ride is already paid; 500 exactly for a method outside cash/card/wallet; 200 otherwise, marking the payment completed with the transaction id and returning the fare; only 200 changes the state, and only that ride's payment |
| PaymentController.HandleProcessPayment | server/controllers/paymentController.js:15-62 | the in-place handler computes what `ProcessPayment` specifies |
| PaymentController.SecondPaymentRefused | server/controllers/paymentController.js:36-41 | a second charge of the same ride gets 400 and changes nothing |
| PaymentController.CompletedRideRejectsPayment | server/controllers/paymentController.js:36-41 | after `completed` is set on a ride, its rider's payment attempt gets 400 |
| PaymentController.PaymentKeepsInvariants | server/controllers/paymentController.js:59-62 | a charge keeps ride ids fresh and keeps every driver that holds a ride unavailable |
| PaymentController.PaidBelow | server/controllers/paymentController.js:92-97 | exactly the rider's rides with completed payment, newest first |
| PaymentController.GetPaymentHistory | server/controllers/paymentController.js:90-117 | at most 50 of the caller's paid rides, newest first, with the count and `totalSpent` as the sum of the listed fares; all of them when fewer than 50, and then `totalSpent` is the fare total of every paid ride |
| PaymentController.HistoryKeepsNewest | server/controllers/paymentController.js:97-98 | a paid ride left out of the history is older than all 50 rides shown |
| PaymentController.SumFaresPrepend | server/controllers/paymentController.js:100 | the total of a listing that starts with a ride is that ride's fare plus the total of the rest |
| PaymentController.SumOfPaidBelow | server/controllers/paymentController.js:92-100 | summing the full newest-first listing gives the fare total of every paid ride, whatever the order |
| PaymentController.PaidBelowAfterCharge | server/controllers/paymentController.js:92-100 | when exactly one more ride is paid, the listing gains one entry and the total gains that ride's fare |
| PaymentController.PaymentRaisesTotal | server/controllers/paymentController.js:90-109 | for a rider with fewer than 50 paid rides, a successful charge puts the ride in the history, adds one to the count and adds its fare to `totalSpent` |
| PaymentController.PaidRideHeadsHistory | server/controllers/paymentController.js:92-98 | the ride just paid for heads the history when no newer ride is paid |
| PaymentController.InitiateRefundAsWritten | server/controllers/paymentController.js:120-166 | 404 exactly for an unknown ride; only 200 could change the state |
| PaymentController.RefundAsWrittenNeverSucceeds | server/controllers/paymentController.js:148-152 | as written, a refund of a paid ride always fails with 500 and changes nothing |
| PaymentController.InitiateRefund | server/controllers/paymentController.js:120-166 | 404 exactly for an unknown ride; 400 "No payment to refund" exactly when its payment is not completed; otherwise 200, setting status refunded and recording the reason; nothing else changes |
| PaymentController.HandleInitiateRefund | server/controllers/paymentController.js:148-152 | the in-place handler computes what `InitiateRefund` specifies |
| PaymentController.PaymentThenRefund | server/controllers/paymentController.js:133-152 | a charge then a refund leaves the ride refunded, with the charge's transaction id and the reason, drops it from the history, and leaves the history, its total and its count exactly as before the charge |
| PaymentController.RefundTwiceRefused | server/controllers/paymentController.js:133-138 | a refunded ride cannot be refunded again |
| PaymentController.RefundKeepsInvariants | server/controllers/paymentController.js:148-152 | a refund keeps ride ids fresh and keeps every driver that holds a ride unavailable |
| PlatformModels.ParseRole | taxi_platform/models.py:10-13 | a string names a role exactly when it is admin, driver or rider |
| PlatformModels.ParseRoleName | taxi_platform/models.py:10-13 | every role's value looks up that role |
| PlatformModels.ParseDriverStatus | taxi_platform/models.py:16-20 | a string names a driver status exactly when it is pending, active, inactive or on_trip |
| PlatformModels.ParseDriverStatusName | taxi_platform/models.py:16-20 | every driver status's value looks up that status |
| PlatformModels.RoleOf | taxi_platform/routes/admin.py:21 | only the three role strings are accepted; any other JSON value is a lookup error |
| PlatformModels.DriverStatusOf | taxi_platform/routes/drivers.py:48 | only the four status strings are accepted; any other JSON value is a lookup error |
| Decimal.NatToDecimal | taxi_platform/store.py:72 | the decimal text of an id is non-empty, all digits, and starts with 0 only for 0 |
| Decimal.ParseInt | taxi_platform/routes/onboarding.py:20 | text converts to an integer exactly when it is ASCII digits with an optional sign |
| Decimal.ParseIntOfDecimal | taxi_platform/routes/onboarding.py:20 | converting an integer's decimal text gives the integer back |
| PlatformStore.EmptyValid | taxi_platform/store.py:14-20 | the empty store satisfies the id invariant |
| PlatformStore.ValuesAt | taxi_platform/store.py:42-43 | with ids 1..n all present, the listing has n entries and entry i is record i + 1 |
| PlatformStore.ValuesReplace | taxi_platform/store.py:63-66 | updating a record in place keeps its position in the listing |
| PlatformStore.Filter | taxi_platform/store.py:86-94 | keeps exactly the rides that pass the filters, in their original order |
| PlatformStore.FilterTwice | taxi_platform/store.py:86-94 | the rider filter followed by the status filter equals one conjunctive filter |
| PlatformStore.RidesListed | taxi_platform/store.py:86-94 | the listing is exactly the stored rides passing both filters, in id order |
| PlatformStore.AvailableRidesAreRequested | taxi_platform/store.py:96-97 | a ride is available exactly when it is stored and `requested` |
| PlatformStore.AddUser | taxi_platform/store.py:36-40 | the user gets the next counter value as id, the id invariant is kept, and the user is listed last |
| PlatformStore.AddDriverProfile | taxi_platform/store.py:49-55 | a new `pending` profile gets the next driver id and is listed last; users and rides are unchanged |
| PlatformStore.AddRideRequest | taxi_platform/store.py:80-84 | a new `requested` ride with no driver gets the next ride id and is listed last; users and drivers are unchanged |
| PlatformStore.SetDriverStatus | taxi_platform/store.py:63-66 | KeyError exactly for an unknown driver; otherwise only that driver's status changes |
| PlatformStore.AssignDriver | taxi_platform/store.py:68-77 | KeyError for an unknown driver or ride; ValueError "Ride N is not available", with no change, unless the ride is requested; otherwise the ride is accepted by the driver and the driver goes on trip |
| PlatformStore.SecondAssignmentFails | taxi_platform/store.py:71-73 | a ride once assigned cannot be assigned again, to any driver |
| PlatformStore.AssignmentIgnoresDriverStatus | taxi_platform/store.py:68-77 | a pending, inactive or on-trip driver can still be assigned |
| PlatformStore.StatusUpdateKeepsListingOrder | taxi_platform/store.py:57-66 | after a status change the profile listing is the old one with that entry replaced in place |
| PlatformStore.DataStore.CreateUser | taxi_platform/store.py:36-40 | the in-place method performs what `AddUser` specifies |
| PlatformStore.DataStore.CreateDriverProfile | taxi_platform/store.py:49-55 | the in-place method performs what `AddDriverProfile` specifies |
| PlatformStore.DataStore.CreateRideRequest | taxi_platform/store.py:80-84 | the in-place method performs what `AddRideRequest` specifies |
| PlatformStore.DataStore.UpdateDriverStatus | taxi_platform/store.py:63-66 | the in-place method performs what `SetDriverStatus` specifies |
| PlatformStore.DataStore.AssignDriverToRide | taxi_platform/store.py:68-77 | the in-place method performs what `AssignDriver` specifies |
| PlatformStore.DataStore.NextUserId | taxi_platform/store.py:23-25 | the counter grows by one and the new value is returned |
| AdminRoutes.CreateUser | taxi_platform/routes/admin.py:16-26 | 201 exactly when a name and a valid role are given, with the new user; 400 changes nothing |
| AdminRoutes.HandleCreateUser | taxi_platform/routes/admin.py:16-26 | the route handler performs what `CreateUser` specifies |
| AdminRoutes.ListUsersInCreationOrder | taxi_platform/routes/admin.py:29-31 | every user is listed once, in creation order |
| AdminRoutes.CreatedUserListedLast | taxi_platform/routes/admin.py:25-31 | a created user is added at the end of the listing |
| DriverRoutes.AvailableRides | taxi_platform/routes/drivers.py:21-26 | 404 for an unknown driver; otherwise every open request, whichever driver asks |
| DriverRoutes.AcceptRide | taxi_platform/routes/drivers.py:29-39 | 404 for an unknown driver or ride, 400 with the store's message for a ride no longer requested, 200 with the ride assigned to the driver |
| DriverRoutes.HandleAcceptRide | taxi_platform/routes/drivers.py:29-39 | the route handler performs what `AcceptRide` specifies |
| DriverRoutes.AcceptedRideWithdrawn | taxi_platform/routes/drivers.py:25-39 | once accepted, a ride is no longer offered to drivers, and a second accept gets 400 |
| DriverRoutes.UpdateStatus | taxi_platform/routes/drivers.py:42-52 | 404 for an unknown driver; 400 with no change for a missing or invalid status; otherwise only that driver's status changes |
| DriverRoutes.HandleUpdateStatus | taxi_platform/routes/drivers.py:42-52 | the route handler performs what `UpdateStatus` specifies |
| RiderRoutes.RequestRide | taxi_platform/routes/riders.py:21-33 | 404 unless the id names a rider; 400 with no change for a missing pickup or dropoff; otherwise 201 with a new requested ride |
| RiderRoutes.HandleRequestRide | taxi_platform/routes/riders.py:21-33 | the route handler performs what `RequestRide` specifies |
| RiderRoutes.ListRides | taxi_platform/routes/riders.py:36-41 | 404 exactly when the id does not name a rider |
| RiderRoutes.RiderSeesOwnRides | taxi_platform/routes/riders.py:36-41 | a rider's listing holds exactly that rider's rides, oldest first |
| RiderRoutes.ListAllRidesInIdOrder | taxi_platform/routes/riders.py:44-47 | every ride is listed, in id order |
| RiderRoutes.RequestedRideOffered | taxi_platform/routes/riders.py:32-41 | a new request is offered to drivers at once and appears in the rider's listing |
| OnboardingRoutes.Truncate | taxi_platform/routes/onboarding.py:20 | `int()` of a real truncates toward zero |
| OnboardingRoutes.IntOf | taxi_platform/routes/onboarding.py:20-24 | null, arrays and objects are type errors; integers are kept; text converts exactly when it parses |
| OnboardingRoutes.UserIdAsText | taxi_platform/routes/onboarding.py:20 | a user id sent as decimal text is read as that id |
| OnboardingRoutes.CreateDriverProfile | taxi_platform/routes/onboarding.py:16-33 | 201 exactly when all three fields are present, the user id converts and names a driver user; a user id that is null, an array or an object is a server error (500); text that does not parse is 400, like every other refusal; only 201 changes the state |
| OnboardingRoutes.HandleCreateDriverProfile | taxi_platform/routes/onboarding.py:16-33 | the route handler performs what `CreateDriverProfile` specifies |
| OnboardingRoutes.OnboardingTwiceGivesTwoProfiles | taxi_platform/routes/onboarding.py:26-33 | onboarding a user twice creates two profiles with distinct ids |
| OnboardingRoutes.UpdateDriverStatus | taxi_platform/routes/onboarding.py:36-45 | 400 exactly for a missing or invalid status; 500 for an unknown driver; otherwise only that driver's status changes |
| OnboardingRoutes.HandleUpdateDriverStatus | taxi_platform/routes/onboarding.py:36-45 | the route handler performs what `UpdateDriverStatus` specifies |
| OnboardingRoutes.StatusRoutesCompared | taxi_platform/routes/onboarding.py:36-45 | for a known driver the two status routes agree; for an unknown one this route answers 500 where the driver route answers 404 |
| OnboardingRoutes.ListDriverProfilesInCreationOrder | taxi_platform/routes/onboarding.py:48-50 | every profile is listed once, in creation order |
| PlatformFlow.UsersCreated | tests/test_app.py:27-32 | the three users are created with ids 1, 2 and 3 |
| PlatformFlow.DriverOnboarded | tests/test_app.py:34-45 | user 2 becomes driver profile 1, then active |
| PlatformFlow.RideRequested | tests/test_app.py:47-58 | rider 3's request becomes ride 1, the one open request driver 1 sees |
| PlatformFlow.RideAccepted | tests/test_app.py:60-68 | driver 1 accepts ride 1, and the rider's listing shows it accepted |
| PlatformFlow.FullFlow | tests/test_app.py:25-68 | the whole end-to-end scenario yields the status codes and data the scenario expects |

## Left out

- The React client (client/src) renders pages only. It is not part of this model.
- Socket delivery (server/sockets/locationSocket.js, and `io.to(...).emit` in the controllers)
  is not modelled. The handlers append the events they emit to the state's `outbox`, and
  nothing delivers them.
- Authentication is not modelled: authController.js, JWT issuance, express-validator and the
  bcrypt password hooks of server/models/Driver.js:133-145. The authenticated caller is a
  parameter (`Caller`: id and role).
- server/controllers/userController.js and the route wiring (server/routes/*.js,
  taxi_platform/__init__.py) are not part of this model.
- User.js is not part of this model. The Node user record carries only the fields the
  handlers touch: role, rating and total rides.
- Read-only handlers outside the modelled core are not modelled: `getProfile`,
  `getRideHistory` and `getEarnings` in driverController.js, and `getRideDetails`,
  `trackRide` and `estimateFare` in rideController.js. `getPaymentMethods` is a constant stub.
- Geodesy is abstract. Distances come from a `Distance` function parameter (metres).
  The order in which MongoDB's `$near` query visits drivers is a parameter (`index`), and a
  failing query is a boolean parameter. `VisitOrder` states what `$near` promises about that
  order: each driver once, nearest first. Drivers at equal distance may come in any order.
- Floating point is not modelled. Money is integer cents, and the fare total is rounded
  half-up to the cent. JavaScript's `toFixed(2)` on doubles can round a tie the other way.
  Ratings and running averages are exact reals.
- Concurrency is not modelled. Requests run one at a time, so the check-then-save race in
  `acceptRide` does not arise.
- Clocks and randomness are parameters. The payment transaction id is one, and so is the
  Python request's `requested_at`. The Node timestamps (`acceptedAt`, `completedAt` and
  others) are not stored. `createdAt` order is the order of ride ids, which the model
  allocates from a counter in place of ObjectIds.
- Request bodies in the Node model are typed values. An absent string is the empty string
  (the code treats it as falsy), and an absent number is `None`. Mongoose casting of
  other JSON types is not modelled.
- Mongoose validation is modelled only as far as the handlers can trip it. That covers
  required addresses, the status, class, method and payment-status enums, and the [0,5]
  rating bounds. `updateProfile` also trips the required validators of `name` and `phone`
  and the unique indexes on `phone` and `vehicleInfo.licensePlate`.
- DriverController.UpdateProfile: the `required` validators of the `vehicleInfo` sub-fields
  are not modelled, so a given vehicle with an empty make, model, colour or plate is stored.
  Whether the source refuses one depends on how Mongoose runs update validators on a nested
  object. The class of a vehicle is typed, so a class outside the enum cannot be given.
- Flask error pages are not modelled in detail. Undecodable JSON and non-object bodies are
  not modelled. An uncaught exception is a 500 reply with no state change. The text of the
  "Invalid payload" messages is reduced to the name of the failing field.
- Decimal.ParseInt: Python's `int()` also accepts surrounding whitespace, underscores between
  digits and non-ASCII digits. The model rejects these. It also does not model the overflow
  error of an infinite float.
- RideController.CalculateFare, RideControllerLemmas.FareUnknownClassIsSedan: a class name that
  is a key of JavaScript's object prototype (`constructor`, `toString`, `valueOf`, `__proto__`)
  is not modelled. For such a name the `|| baseFares.sedan` fallback at
  server/controllers/rideController.js:22-23 picks up a function or an object instead of a rate.
  The total is then not a number, and `toFixed` throws. The model charges these names like a
  sedan. Through `requestRide` both end in a 500 with nothing written, because
  `StoredVehicleType` also rejects such a name.
- RideController.RequestRide: any other class outside the enum is a 500 from schema validation.
  The fare is still computed with the sedan fallback first, as the code does.

## Findings

| source | as written | input that shows it | evidently intended | confidence | as-written member | corrected member |
|---|---|---|---|---|---|---|
| server/controllers/paymentController.js:149-152 | sets `payment.status` to `'refunded'`, which the payment-status enum at server/models/Ride.js:82-86 does not list, so `ride.save()` fails validation; `refundReason` and `refundedAt` are not schema paths either | any ride whose payment is `completed`, e.g. right after a successful `processPayment`: the refund replies 500 and the ride stays paid | the refund succeeds: the status becomes refunded and the reason is recorded | high; not executed | PaymentController.RefundAsWrittenNeverSucceeds | PaymentController.InitiateRefund |
