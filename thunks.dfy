/** The pattern the async thunks of the client's Redux slices (under
    frontend/src/features) follow: the ones that need a token read
    `auth.userInfo` and refuse early without one, send the request with a
    Bearer header, and turn a failed request into
    `rejectWithValue(server message || error message)`. The network call
    itself is a parameter: the response it produced. */
module Thunks {
  import opened Common
  import AuthMiddleware

  /** `auth.userInfo`, as the login and register endpoints return it. */
  datatype UserInfo = UserInfo(id: UserId, name: string, email: string, isAdmin: bool, token: Option<string>)

  const NOT_AUTHENTICATED: string := "Not authenticated. Please log in."

  /** What axios produced: the response data, or an error carrying the
      server's `message` (None when the response or its message is absent)
      and the error's own message. */
  datatype Response<+T> = Ok(data: T) | HttpError(serverMessage: Option<string>, errorMessage: string)

  /** How a thunk settles: its fulfilled payload or its rejected value. */
  datatype Outcome<+T> = Fulfilled(payload: T) | Rejected(error: string)

  /** `!userInfo || !userInfo.token` is false. */
  predicate Authenticated(userInfo: Option<UserInfo>) {
    userInfo.Some? && Truthy(userInfo.value.token)
  }

  /** `error.response?.data?.message || error.message`. */
  function RejectValue(serverMessage: Option<string>, errorMessage: string): (v: string)
    ensures Truthy(serverMessage) ==> v == serverMessage.value
    ensures !Truthy(serverMessage) ==> v == errorMessage
  {
    if Truthy(serverMessage) then serverMessage.value else errorMessage
  }

  /** The try/catch around the request: the data, or the rejected value. */
  function Settle<T>(response: Response<T>): (o: Outcome<T>)
    ensures o.Fulfilled? <==> response.Ok?
    ensures response.Ok? ==> o.payload == response.data
    ensures response.HttpError? ==> o.error == RejectValue(response.serverMessage, response.errorMessage)
  {
    match response
    case Ok(data) => Fulfilled(data)
    case HttpError(serverMessage, errorMessage) => Rejected(RejectValue(serverMessage, errorMessage))
  }

  /** A thunk that needs a token: refused before any request without one,
      otherwise settled by the response. */
  function Guarded<T>(userInfo: Option<UserInfo>, response: Response<T>): (o: Outcome<T>)
    ensures !Authenticated(userInfo) ==> o == Rejected(NOT_AUTHENTICATED)
    ensures Authenticated(userInfo) ==> o == Settle(response)
  {
    if !Authenticated(userInfo) then Rejected(NOT_AUTHENTICATED) else Settle(response)
  }

  /** The Authorization header the thunks send. */
  function BearerHeader(token: string): string {
    "Bearer " + token
  }

  /** The server's `protect` reads back exactly the token the client sent,
      provided the token holds no space (a signed JWT never does). */
  lemma HeaderCarriesToken(token: string)
    requires ' ' !in token
    ensures AuthMiddleware.StartsWith(BearerHeader(token), "Bearer")
    ensures AuthMiddleware.TokenOf(BearerHeader(token)) == Some(token)
  {
    AuthMiddleware.BearerHeaderToken(token);
  }
}
