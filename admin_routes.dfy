/** The admin routes (taxi_platform/routes/admin.py): creating and listing users. */
module AdminRoutes {
  import opened Wrappers
  import opened PlatformModels
  import opened PlatformHttp
  import S = PlatformStore

  /** `POST /admin/users`: a missing `name` or a missing or unknown `role` gives 400. The name is
      stored as sent, whatever its JSON type. */
  function CreateUser(st: S.StoreState, payload: Payload): (o: Response)
    ensures o.reply.code in {201, 400}
    ensures o.reply.code == 201 <==> "name" in payload && "role" in payload && RoleOf(payload["role"]).Some?
    ensures o.reply.code == 400 ==> o.next == st
    ensures o.reply.code == 201 ==>
      o.reply.body == UserBody(User(st.userCounter + 1, payload["name"], RoleOf(payload["role"]).value))
  {
    if "name" !in payload then
      Response(Reply(400, InvalidPayload("name")), st)
    else if "role" !in payload || RoleOf(payload["role"]).None? then
      Response(Reply(400, InvalidPayload("role")), st)
    else
      var c := S.AddUser(st, payload["name"], RoleOf(payload["role"]).value);
      Response(Reply(201, UserBody(c.outcome.value)), c.next)
  }

  method HandleCreateUser(store: S.DataStore, payload: Payload) returns (reply: Reply)
    modifies store
    ensures Response(reply, store.Snapshot()) == CreateUser(old(store.Snapshot()), payload)
  {
    if "name" !in payload {
      return Reply(400, InvalidPayload("name"));
    }
    var name := payload["name"];
    if "role" !in payload {
      return Reply(400, InvalidPayload("role"));
    }
    var role := RoleOf(payload["role"]);
    if role.None? {
      return Reply(400, InvalidPayload("role"));
    }
    var user := store.CreateUser(name, role.value);
    reply := Reply(201, UserBody(user));
  }

  /** `GET /admin/users`. */
  function ListUsers(st: S.StoreState): Reply
  {
    Reply(200, UserList(S.Users(st)))
  }

  /** The listing holds every user once, in creation order. */
  lemma ListUsersInCreationOrder(st: S.StoreState)
    requires S.Valid(st)
    ensures var r := ListUsers(st);
      && r.code == 200 && |r.body.users| == st.userCounter
      && forall i :: 0 <= i < |r.body.users| ==> r.body.users[i] == st.users[i + 1] && r.body.users[i].id == i + 1
  {
    S.ValuesAt(st.users, st.userCounter);
  }

  /** A user created is listed last. */
  lemma CreatedUserListedLast(st: S.StoreState, payload: Payload)
    requires S.Valid(st)
    requires CreateUser(st, payload).reply.code == 201
    ensures var o := CreateUser(st, payload);
      ListUsers(o.next).body.users == ListUsers(st).body.users + [o.reply.body.user]
  {
  }
}
