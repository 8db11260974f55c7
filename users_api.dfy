/** `users.api.ts`: the request `getUsers` sends, and the user record. */
module UsersApi {
  import opened Js
  import opened ParamsUtils
  import opened AxiosConfig
  import opened ListRequest

  /** A user as the server returns it; `createdAt` and `updatedAt` are not used here. */
  datatype User = User(id: string, name: string, email: string, phone: Option<string>, roles: seq<string>, status: bool)

  const UsersPath := "/users"

  /** `getUsers(filters)`: `GET /users` with the shaped params; throws where `sortBy.split` would. */
  function GetUsers(filters: map<string, Value>, defaults: PageDefaults): (r: Result<Request, JsError>)
    ensures r.Ok? <==> ListParams(filters, defaults).Ok?
    ensures r.Ok? ==>
      && r.value.httpMethod == Some("get") && r.value.url == Some(UsersPath)
      && r.value.params == ListParams(filters, defaults).value
      && r.value.headers == map[] && !r.value.retry
  {
    match ListParams(filters, defaults)
    case Ok(params) => Ok(Request(Some("get"), Some(UsersPath), map[], params, Undefined, false))
    case Err(e) => Err(e)
  }

  /** The list request is a GET, so the request interceptor lets it through without a token. */
  lemma GetUsersNeedsNoToken(filters: map<string, Value>, defaults: PageDefaults, s: ClientState, server: Server)
    requires GetUsers(filters, defaults).Ok?
    ensures IsExempt(GetUsers(filters, defaults).value)
    ensures RequestSpec(s, GetUsers(filters, defaults).value, server) == Step(s, Ok(GetUsers(filters, defaults).value))
  {
    ExemptPassesThrough(s, GetUsers(filters, defaults).value, server);
  }
}
