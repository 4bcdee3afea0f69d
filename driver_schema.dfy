/** The Driver document of the Node backend (server/models/Driver.js). Password hashing is not
    part of this model. */
module DriverSchema {
  import opened Wrappers
  import opened RideSchema

  datatype VehicleInfo = VehicleInfo(
    make: string, model: string, year: int, color: string, licensePlate: string, vehicleType: VehicleType)

  /** The driver's position; `coordinates` is `[longitude, latitude]`, address and heading are unset
      until the first location update. */
  datatype DriverLocation = DriverLocation(coordinates: Point, address: Option<string>, heading: Option<real>)

  /** Earnings in integer cents. */
  datatype Earnings = Earnings(total: int, weekly: int, daily: int)

  datatype Driver = Driver(
    name: string,
    phone: string,
    profileImage: string,
    vehicleInfo: VehicleInfo,
    rating: real,
    totalRides: nat,
    isAvailable: bool,
    isActive: bool,
    isVerified: bool,
    location: DriverLocation,
    currentRide: Option<Id>,
    earnings: Earnings)

  const DefaultLocation: DriverLocation := DriverLocation(Point(0.0, 0.0), None, None)

  /** A driver as registration stores it: every field not given takes the schema default. */
  function NewDriver(name: string, phone: string, vehicleInfo: VehicleInfo): (d: Driver)
    ensures d.rating == 5.0 && d.totalRides == 0
    ensures !d.isAvailable && d.isActive && !d.isVerified
    ensures d.currentRide == None && d.earnings == Earnings(0, 0, 0)
  {
    Driver(name, phone, "", vehicleInfo, 5.0, 0, false, true, false, DefaultLocation, None, Earnings(0, 0, 0))
  }

  // ---------------------------------------------------------------------------------------------
  // The `trim` setter of `name` and `phone`

  /** The characters JavaScript's `String.prototype.trim` removes: the ECMAScript white space and
      line terminators. */
  predicate IsJsWhitespace(c: char)
  {
    var n := c as int;
    || 0x09 <= n <= 0x0D || n == 0x20 || n == 0xA0 || n == 0x1680 || 0x2000 <= n <= 0x200A
    || n == 0x2028 || n == 0x2029 || n == 0x202F || n == 0x205F || n == 0x3000 || n == 0xFEFF
  }

  predicate AllWhitespace(s: string)
  {
    forall i :: 0 <= i < |s| ==> IsJsWhitespace(s[i])
  }

  /** `s` without its leading white space. */
  function TrimStart(s: string): (r: string)
    ensures |r| <= |s| && r == s[|s| - |r|..]
    ensures AllWhitespace(s[..|s| - |r|])
    ensures r == [] || !IsJsWhitespace(r[0])
  {
    if s != [] && IsJsWhitespace(s[0]) then TrimStart(s[1..]) else s
  }

  /** `s` without its trailing white space. */
  function TrimEnd(s: string): (r: string)
    ensures |r| <= |s| && r == s[..|r|]
    ensures AllWhitespace(s[|r|..])
    ensures r == [] || !IsJsWhitespace(r[|r| - 1])
  {
    if s != [] && IsJsWhitespace(s[|s| - 1]) then TrimEnd(s[..|s| - 1]) else s
  }

  /** `String.prototype.trim`: empty exactly when `s` is all white space, and otherwise
      starting and ending with a character that is not white space. */
  function Trim(s: string): (r: string)
    ensures |r| <= |s|
    ensures r == [] <==> AllWhitespace(s)
    ensures r != [] ==> !IsJsWhitespace(r[0]) && !IsJsWhitespace(r[|r| - 1])
  {
    var t := TrimStart(s);
    assert s == s[..|s| - |t|] + t;
    TrimEnd(t)
  }

  lemma {:induction false} TrimStartSkips(pre: string, rest: string)
    requires AllWhitespace(pre) && (rest == [] || !IsJsWhitespace(rest[0]))
    ensures TrimStart(pre + rest) == rest
  {
    if pre != [] {
      assert (pre + rest)[1..] == pre[1..] + rest;
      TrimStartSkips(pre[1..], rest);
    }
  }

  lemma {:induction false} TrimEndSkips(rest: string, post: string)
    requires AllWhitespace(post) && (rest == [] || !IsJsWhitespace(rest[|rest| - 1]))
    ensures TrimEnd(rest + post) == rest
  {
    if post != [] {
      assert (rest + post)[..|rest + post| - 1] == rest + post[..|post| - 1];
      TrimEndSkips(rest, post[..|post| - 1]);
    }
  }

  /** Trimming removes exactly the surrounding white space: a text with no white space at either
      end, wrapped in white space, trims back to itself. */
  lemma TrimSurrounded(pre: string, core: string, post: string)
    requires AllWhitespace(pre) && AllWhitespace(post)
    requires core == [] || (!IsJsWhitespace(core[0]) && !IsJsWhitespace(core[|core| - 1]))
    ensures Trim(pre + core + post) == core
  {
    if core == [] {
      assert AllWhitespace(pre + core + post);
    } else {
      assert pre + core + post == pre + (core + post);
      TrimStartSkips(pre, core + post);
      TrimEndSkips(core, post);
    }
  }

  /** A text with no white space at either end is its own trim. */
  lemma TrimFixed(r: string)
    requires r == [] || (!IsJsWhitespace(r[0]) && !IsJsWhitespace(r[|r| - 1]))
    ensures Trim(r) == r
  {
    var none: string := [];
    assert none + r == r && r + none == r;
    TrimStartSkips(none, r);
    TrimEndSkips(r, none);
  }

  /** Trimming twice is trimming once. */
  lemma TrimIdempotent(s: string)
    ensures Trim(Trim(s)) == Trim(s)
  {
    TrimFixed(Trim(s));
  }

  /** Schema validation of a driver: the rating lies in [0,5]. */
  predicate SchemaValid(d: Driver)
  {
    0.0 <= d.rating <= 5.0
  }

  lemma NewDriverValid(name: string, phone: string, vehicleInfo: VehicleInfo)
    ensures SchemaValid(NewDriver(name, phone, vehicleInfo))
  {
  }
}
