/** The JSON responses of the Python platform's routes (taxi_platform/routes/). */
module PlatformHttp {
  import opened PlatformModels
  import PlatformStore

  /** A response body: a record, a list of records, or an error. `InvalidPayload` names the
      request field whose lookup or conversion failed; `InternalError` is the server's page for
      an exception no route handles. */
  datatype Body =
    | UserBody(user: User)
    | UserList(users: seq<User>)
    | ProfileBody(profile: DriverProfile)
    | ProfileList(profiles: seq<DriverProfile>)
    | RideBody(ride: RideRequest)
    | RideList(rides: seq<RideRequest>)
    | InvalidPayload(field: string)
    | Error(error: string)
    | InternalError

  datatype Reply = Reply(code: nat, body: Body)

  /** A request's response and the store it leaves behind. */
  datatype Response = Response(reply: Reply, next: PlatformStore.StoreState)
}
