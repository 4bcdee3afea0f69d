/** The driver controller of the Node backend (server/controllers/driverController.js): profile
    and location updates, the availability toggle and the current-ride lookup. A caller whose id
    names no driver document makes every handler but `updateProfile` throw (500). */
module DriverController {
  import opened Wrappers
  import opened RideSchema
  import opened DriverSchema
  import opened DispatchState

  // ---------------------------------------------------------------------------------------------
  // updateProfile

  /** The `updateData` object: the fields the request gave with a truthy value. */
  datatype ProfileUpdate = ProfileUpdate(
    name: Option<string>, phone: Option<string>, profileImage: Option<string>, vehicleInfo: Option<VehicleInfo>)

  /** A string field of the request is written only when it is non-empty. */
  function IfTruthy(x: string): Option<string>
  {
    if x == "" then None else Some(x)
  }

  /** A given name or phone as the schema's `trim` setter stores it. */
  function Trimmed(x: Option<string>): Option<string>
  {
    if x.None? then None else Some(Trim(x.value))
  }

  /** The update validators of `name` and `phone`: both are required, so a given value that trims
      to the empty string is refused. */
  predicate PassesValidators(u: ProfileUpdate)
  {
    (u.name.None? || u.name.value != "") && (u.phone.None? || u.phone.value != "")
  }

  /** The unique index on `phone`: another driver already holds `phone`. */
  predicate PhoneTaken(drivers: map<Id, Driver>, self: Id, phone: string)
  {
    exists id :: id in drivers && id != self && drivers[id].phone == phone
  }

  /** The unique index on `vehicleInfo.licensePlate`: another driver's vehicle already carries `plate`. */
  predicate PlateTaken(drivers: map<Id, Driver>, self: Id, plate: string)
  {
    exists id :: id in drivers && id != self && drivers[id].vehicleInfo.licensePlate == plate
  }

  /** No two drivers share a phone number, as the unique index guarantees. */
  ghost predicate PhonesUnique(drivers: map<Id, Driver>)
  {
    forall a, b :: a in drivers && b in drivers && a != b ==> drivers[a].phone != drivers[b].phone
  }

  function Apply(d: Driver, u: ProfileUpdate): Driver
  {
    d.(name := u.name.GetOr(d.name),
       phone := u.phone.GetOr(d.phone),
       profileImage := u.profileImage.GetOr(d.profileImage),
       vehicleInfo := u.vehicleInfo.GetOr(d.vehicleInfo))
  }

  /** `updateProfile`: empty strings stand for absent fields; `name` and `phone` are stored
      trimmed. The update validators run before the document is looked up, so a blank name or
      phone is refused (500) even for an unknown caller; an unknown caller otherwise updates
      nothing and gets 200 with no data. Writing a phone another driver holds violates the unique
      index, and so does a vehicle whose plate another driver's vehicle carries (500, nothing
      written). */
  function UpdateProfile(s: State, caller: Caller, name: string, phone: string, profileImage: string,
                         vehicleInfo: Option<VehicleInfo>): (o: Step)
    ensures o.reply.code in {200, 500}
    ensures o.reply.code == 500 <==>
      || (name != "" && AllWhitespace(name))
      || (phone != "" && AllWhitespace(phone))
      || (caller.id in s.drivers && phone != "" && PhoneTaken(s.drivers, caller.id, Trim(phone)))
      || (caller.id in s.drivers && vehicleInfo.Some? && PlateTaken(s.drivers, caller.id, vehicleInfo.value.licensePlate))
    ensures o.reply.code == 500 ==> o.next == s && o.reply.body == Message("Error updating profile")
    ensures caller.id !in s.drivers ==> o.next == s
    ensures caller.id !in s.drivers && o.reply.code == 200 ==> o.reply.body == DriverData(None)
  {
    var update := ProfileUpdate(Trimmed(IfTruthy(name)), Trimmed(IfTruthy(phone)), IfTruthy(profileImage), vehicleInfo);
    if !PassesValidators(update) then
      Step(Reply(500, Message("Error updating profile")), s)
    else if caller.id !in s.drivers then
      Step(Reply(200, DriverData(None)), s)
    else if || (update.phone.Some? && PhoneTaken(s.drivers, caller.id, update.phone.value))
            || (update.vehicleInfo.Some? && PlateTaken(s.drivers, caller.id, update.vehicleInfo.value.licensePlate)) then
      Step(Reply(500, Message("Error updating profile")), s)
    else
      var updated := Apply(s.drivers[caller.id], update);
      Step(Reply(200, DriverData(Some(updated))), s.(drivers := s.drivers[caller.id := updated]))
  }

  method HandleUpdateProfile(db: Database, caller: Caller, name: string, phone: string, profileImage: string,
                             vehicleInfo: Option<VehicleInfo>) returns (reply: Reply)
    modifies db
    ensures Step(reply, db.Snapshot()) == UpdateProfile(old(db.Snapshot()), caller, name, phone, profileImage, vehicleInfo)
  {
    var update := ProfileUpdate(None, None, None, None);
    if name != "" { update := update.(name := Some(Trim(name))); }
    if phone != "" { update := update.(phone := Some(Trim(phone))); }
    if profileImage != "" { update := update.(profileImage := Some(profileImage)); }
    if vehicleInfo.Some? { update := update.(vehicleInfo := vehicleInfo); }
    if !PassesValidators(update) {
      return Reply(500, Message("Error updating profile"));
    }
    if caller.id !in db.drivers {
      return Reply(200, DriverData(None));
    }
    if || (update.phone.Some? && PhoneTaken(db.drivers, caller.id, update.phone.value))
       || (update.vehicleInfo.Some? && PlateTaken(db.drivers, caller.id, update.vehicleInfo.value.licensePlate)) {
      return Reply(500, Message("Error updating profile"));
    }
    var driver := Apply(db.drivers[caller.id], update);
    db.drivers := db.drivers[caller.id := driver];
    reply := Reply(200, DriverData(Some(driver)));
  }

  /** A successful update writes only the non-empty fields among name, phone and profile image
      (name and phone trimmed) and a given vehicle; every other field of the driver, and every
      other driver, is unchanged. */
  lemma UpdateProfileWritesOnlyGivenFields(s: State, caller: Caller, name: string, phone: string,
                                           profileImage: string, vehicleInfo: Option<VehicleInfo>)
    requires caller.id in s.drivers
    ensures var o := UpdateProfile(s, caller, name, phone, profileImage, vehicleInfo);
      var before := s.drivers[caller.id]; var after := o.next.drivers[caller.id];
      o.reply.code == 200 ==>
      && after.name == (if name == "" then before.name else Trim(name))
      && after.phone == (if phone == "" then before.phone else Trim(phone))
      && after.profileImage == (if profileImage == "" then before.profileImage else profileImage)
      && after.vehicleInfo == (if vehicleInfo.None? then before.vehicleInfo else vehicleInfo.value)
      && after.(name := before.name, phone := before.phone, profileImage := before.profileImage,
                vehicleInfo := before.vehicleInfo) == before
      && o.next.drivers.Keys == s.drivers.Keys
      && (forall id :: id in s.drivers && id != caller.id ==> o.next.drivers[id] == s.drivers[id])
      && o.next.rides == s.rides && o.next.users == s.users
  {
  }

  /** The name stored is the one given without its surrounding white space. */
  lemma UpdateProfileTrimsName(s: State, caller: Caller, pre: string, core: string, post: string)
    requires caller.id in s.drivers
    requires AllWhitespace(pre) && AllWhitespace(post) && core != []
    requires !IsJsWhitespace(core[0]) && !IsJsWhitespace(core[|core| - 1])
    ensures var o := UpdateProfile(s, caller, pre + core + post, "", "", None);
      o.reply.code == 200 && o.next.drivers[caller.id].name == core
  {
    TrimSurrounded(pre, core, post);
  }

  /** A driver cannot take over another driver's phone number: the update is refused and nothing
      changes. */
  lemma DuplicatePhoneRefused(s: State, caller: Caller, other: Id, phone: string)
    requires caller.id in s.drivers && other in s.drivers && other != caller.id
    requires phone != "" && Trim(phone) == s.drivers[other].phone
    ensures UpdateProfile(s, caller, "", phone, "", None) == Step(Reply(500, Message("Error updating profile")), s)
  {
    assert PhoneTaken(s.drivers, caller.id, Trim(phone));
  }

  /** Profile updates keep phone numbers unique across drivers. */
  lemma UpdateProfileKeepsPhonesUnique(s: State, caller: Caller, name: string, phone: string, profileImage: string,
                                       vehicleInfo: Option<VehicleInfo>)
    requires PhonesUnique(s.drivers)
    ensures PhonesUnique(UpdateProfile(s, caller, name, phone, profileImage, vehicleInfo).next.drivers)
  {
    var o := UpdateProfile(s, caller, name, phone, profileImage, vehicleInfo);
    if o.reply.code == 200 && caller.id in s.drivers && phone != "" {
      forall a, b | a in o.next.drivers && b in o.next.drivers && a != b
        ensures o.next.drivers[a].phone != o.next.drivers[b].phone
      {
        if a == caller.id {
          assert !PhoneTaken(s.drivers, caller.id, Trim(phone));
        } else if b == caller.id {
          assert !PhoneTaken(s.drivers, caller.id, Trim(phone));
        }
      }
    }
  }

  // ---------------------------------------------------------------------------------------------
  // updateLocation

  /** JavaScript truthiness of an optional number: present and not zero. */
  predicate Truthy(x: Option<real>)
  {
    x.Some? && x.value != 0.0
  }

  /** The location a request stores: `[longitude, latitude]`, address defaulting to the empty
      string and heading to 0. */
  function RequestedLocation(latitude: real, longitude: real, address: string, heading: Option<real>): DriverLocation
  {
    DriverLocation(Point(longitude, latitude), Some(address), Some(if Truthy(heading) then heading.value else 0.0))
  }

  /** `updateLocation`: a missing or zero coordinate gives 400. The location event is broadcast
      only when the driver is available. */
  function UpdateLocation(s: State, caller: Caller, latitude: Option<real>, longitude: Option<real>,
                          address: string, heading: Option<real>): (o: Step)
    ensures o.reply.code in {200, 400, 500}
    ensures o.reply.code != 200 ==> o.next == s
    ensures !Truthy(latitude) || !Truthy(longitude) ==> o.reply.code == 400
  {
    if !Truthy(latitude) || !Truthy(longitude) then
      Step(Reply(400, Message("Latitude and longitude are required")), s)
    else if caller.id !in s.drivers then
      Step(Reply(500, Message("Error updating location")), s)
    else
      var location := RequestedLocation(latitude.value, longitude.value, address, heading);
      var driver := s.drivers[caller.id].(location := location);
      var events := if driver.isAvailable then [Event(Everyone, DriverLocationUpdate(caller.id, location))] else [];
      Step(Reply(200, LocationData(location)),
           s.(drivers := s.drivers[caller.id := driver], outbox := s.outbox + events))
  }

  method HandleUpdateLocation(db: Database, caller: Caller, latitude: Option<real>, longitude: Option<real>,
                              address: string, heading: Option<real>) returns (reply: Reply)
    modifies db
    ensures Step(reply, db.Snapshot()) == UpdateLocation(old(db.Snapshot()), caller, latitude, longitude, address, heading)
  {
    if !Truthy(latitude) || !Truthy(longitude) {
      return Reply(400, Message("Latitude and longitude are required"));
    }
    if caller.id !in db.drivers {
      return Reply(500, Message("Error updating location"));
    }
    var location := RequestedLocation(latitude.value, longitude.value, address, heading);
    var driver := db.drivers[caller.id].(location := location);
    db.drivers := db.drivers[caller.id := driver];
    if driver.isAvailable {
      db.outbox := db.outbox + [Event(Everyone, DriverLocationUpdate(caller.id, location))];
    }
    reply := Reply(200, LocationData(location));
  }

  /** A location update stores longitude first, defaults address and heading, and leaves the
      driver's availability and current ride as they were. */
  lemma UpdateLocationStoresPosition(s: State, caller: Caller, latitude: real, longitude: real,
                                     address: string, heading: Option<real>)
    requires caller.id in s.drivers && latitude != 0.0 && longitude != 0.0
    ensures var o := UpdateLocation(s, caller, Some(latitude), Some(longitude), address, heading);
      var before := s.drivers[caller.id]; var after := o.next.drivers[caller.id];
      && o.reply.code == 200
      && after.location.coordinates == Point(longitude, latitude)
      && after.location.address == Some(address)
      && after.location.heading == Some(if heading.None? || heading.value == 0.0 then 0.0 else heading.value)
      && after.isAvailable == before.isAvailable
      && after.currentRide == before.currentRide
      && after.(location := before.location) == before
      && o.next.rides == s.rides && o.next.users == s.users
  {
  }

  lemma UpdateLocationKeepsInvariants(s: State, caller: Caller, latitude: Option<real>, longitude: Option<real>,
                                      address: string, heading: Option<real>)
    requires FreshIds(s) && EngagedUnavailable(s)
    ensures FreshIds(UpdateLocation(s, caller, latitude, longitude, address, heading).next)
    ensures EngagedUnavailable(UpdateLocation(s, caller, latitude, longitude, address, heading).next)
  {
  }

  // ---------------------------------------------------------------------------------------------
  // toggleAvailability

  /** `toggleAvailability`: negates the flag, consulting nothing else. */
  function ToggleAvailability(s: State, caller: Caller): (o: Step)
    ensures caller.id !in s.drivers <==> o.reply.code == 500
    ensures caller.id !in s.drivers ==> o.next == s
    ensures caller.id in s.drivers ==>
      && o.reply == Reply(200, Availability(!s.drivers[caller.id].isAvailable))
      && o.next.drivers == s.drivers[caller.id := s.drivers[caller.id].(isAvailable := !s.drivers[caller.id].isAvailable)]
  {
    if caller.id !in s.drivers then
      Step(Reply(500, Message("Error toggling availability")), s)
    else
      var driver := s.drivers[caller.id];
      var toggled := driver.(isAvailable := !driver.isAvailable);
      Step(Reply(200, Availability(toggled.isAvailable)),
           s.(drivers := s.drivers[caller.id := toggled],
              outbox := s.outbox + [Event(Everyone, DriverAvailabilityChanged(caller.id, toggled.isAvailable))]))
  }

  method HandleToggleAvailability(db: Database, caller: Caller) returns (reply: Reply)
    modifies db
    ensures Step(reply, db.Snapshot()) == ToggleAvailability(old(db.Snapshot()), caller)
  {
    if caller.id !in db.drivers {
      return Reply(500, Message("Error toggling availability"));
    }
    var driver := db.drivers[caller.id];
    driver := driver.(isAvailable := !driver.isAvailable);
    db.drivers := db.drivers[caller.id := driver];
    db.outbox := db.outbox + [Event(Everyone, DriverAvailabilityChanged(caller.id, driver.isAvailable))];
    reply := Reply(200, Availability(driver.isAvailable));
  }

  /** Two toggles restore every driver record. */
  lemma ToggleTwiceRestores(s: State, caller: Caller)
    ensures ToggleAvailability(ToggleAvailability(s, caller).next, caller).next.drivers == s.drivers
  {
    if caller.id in s.drivers {
      var d := s.drivers[caller.id];
      assert d.(isAvailable := !d.isAvailable).(isAvailable := !!d.isAvailable) == d;
    }
  }

  /** The toggle ignores `currentRide`: a driver in the middle of a ride can make itself
      available again, and the state no longer keeps engaged drivers unavailable. */
  lemma ToggleCanFreeEngagedDriver(s: State, caller: Caller)
    requires caller.id in s.drivers
    requires s.drivers[caller.id].currentRide.Some? && !s.drivers[caller.id].isAvailable
    ensures var o := ToggleAvailability(s, caller);
      && o.reply == Reply(200, Availability(true))
      && o.next.drivers[caller.id].isAvailable
      && o.next.drivers[caller.id].currentRide == s.drivers[caller.id].currentRide
      && !EngagedUnavailable(o.next)
  {
  }

  // ---------------------------------------------------------------------------------------------
  // getCurrentRide

  /** `getCurrentRide`: the ride the driver's `currentRide` names, or null when it names none (or a
      ride that no longer exists, which population turns into null). */
  function GetCurrentRide(s: State, caller: Caller): (r: Reply)
    ensures caller.id !in s.drivers <==> r.code == 500
    ensures caller.id in s.drivers ==> r.code == 200 && r.body.CurrentRide?
    ensures caller.id in s.drivers && s.drivers[caller.id].currentRide.None? ==> r.body.current.None?
    ensures caller.id in s.drivers && r.body.current.Some? ==>
      var id := s.drivers[caller.id].currentRide.value; id in s.rides && r.body.current.value == s.rides[id]
  {
    if caller.id !in s.drivers then
      Reply(500, Message("Error fetching current ride"))
    else
      var current := s.drivers[caller.id].currentRide;
      Reply(200, CurrentRide(if current.Some? && current.value in s.rides then Some(s.rides[current.value]) else None))
  }

  /** Right after an accept, the driver's current ride is the accepted ride. */
  lemma CurrentRideAfterAccept(s: State, caller: Caller, rideId: Id)
    requires caller.id in s.drivers && rideId in s.rides
    requires s.drivers[caller.id].currentRide == Some(rideId)
    ensures GetCurrentRide(s, caller) == Reply(200, CurrentRide(Some(s.rides[rideId])))
  {
  }
}
