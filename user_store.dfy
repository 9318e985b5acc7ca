/** The user store (`src/store/useUserStore.jsx`): the accounts the admin
    manages. Every request needs the session token; without one, and on any
    failure, the store only logs and nothing changes. */
module UserStore {
  import opened JsValues
  import opened Http
  import opened RecordLists
  import AuthStore

  class UserStore {
    var users: seq<Record>

    constructor()
      ensures users == []
    {
      users := [];
    }

    /** `setUsers(list)`. */
    method SetUsers(list: seq<Record>)
      modifies this
      ensures users == list
    {
      users := list;
    }

    /** `clearUsers()`. */
    method ClearUsers()
      modifies this
      ensures users == []
    {
      users := [];
    }

    /** `fetchUsers()`: `response.data` becomes the list. */
    method FetchUsers(token: Option<string>, outcome: Response<seq<Record>>) returns (sent: bool)
      modifies this
      ensures sent <==> AuthStore.HasToken(token)
      ensures users == if sent && outcome.Success? then outcome.body else old(users)
    {
      sent := AuthStore.HasToken(token);
      if sent && outcome.Success? {
        users := outcome.body;
      }
    }

    /** `editUser(id, data)`: the users with that id get `data` merged in. */
    method EditUser(token: Option<string>, id: Value, data: Record, outcome: Response<()>) returns (sent: bool)
      modifies this
      ensures sent <==> AuthStore.HasToken(token)
      ensures users == if sent && outcome.Success? then MergeWhereId(old(users), id, data) else old(users)
    {
      sent := AuthStore.HasToken(token);
      if sent && outcome.Success? {
        users := MergeWhereId(users, id, data);
      }
    }

    /** `deleteUser(id)`: the users with that id are dropped. It never throws,
        whatever the outcome. */
    method DeleteUser(token: Option<string>, id: Value, outcome: Response<()>) returns (sent: bool)
      modifies this
      ensures sent <==> AuthStore.HasToken(token)
      ensures users == if sent && outcome.Success? then RemoveId(old(users), id) else old(users)
    {
      sent := AuthStore.HasToken(token);
      if sent && outcome.Success? {
        users := RemoveId(users, id);
      }
    }
  }
}
