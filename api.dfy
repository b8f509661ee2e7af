/**
 * The client of the user service (src/lib/api.ts): every call goes through
 * `requestWithUserId`, which fills in the identity and content-type headers,
 * and through a response interceptor that turns a reply into its body or
 * into an error with the most specific message available.
 */
module Api {
  import opened Optional
  import opened Text
  import opened Json

  const ApiBaseUrl: string := "/api/user"
  const DefaultUserId: string := "123"
  const JsonContentType: string := "application/json"

  /** A request's header record: name to value. */
  type Headers = map<string, Json>

  /** The identity header: the given user id when it is truthy, else the built-in one. */
  function UserIdHeader(userId: Option<string>): (h: string)
    ensures userId.Some? && userId.value != [] ==> h == userId.value
    ensures !(userId.Some? && userId.value != []) ==> h == DefaultUserId
    ensures h != []
  {
    if userId.Some? && userId.value != [] then userId.value else DefaultUserId
  }

  /** Whether `headers["Content-Type"]` is truthy, so that the caller's content type is kept. */
  predicate HasContentType(headers: Headers)
  {
    "Content-Type" in headers && Truthy(headers["Content-Type"])
  }

  /**
   * The headers `requestWithUserId` sends: a copy of the caller's, with
   * `UserId` always overwritten and `Content-Type` filled in only when the
   * caller's is missing or falsy; every other caller header is kept as given.
   */
  method RequestHeaders(callerHeaders: Headers, userId: Option<string>) returns (headers: Headers)
    ensures headers.Keys == callerHeaders.Keys + {"UserId", "Content-Type"}
    ensures headers["UserId"] == Str(UserIdHeader(userId))
    ensures HasContentType(callerHeaders) ==> headers["Content-Type"] == callerHeaders["Content-Type"]
    ensures !HasContentType(callerHeaders) ==> headers["Content-Type"] == Str(JsonContentType)
    ensures forall k :: k in callerHeaders && k != "UserId" && k != "Content-Type" ==> headers[k] == callerHeaders[k]
  {
    headers := callerHeaders;
    if userId.Some? && userId.value != [] {
      headers := headers["UserId" := Str(userId.value)];
    } else {
      headers := headers["UserId" := Str(DefaultUserId)];
    }
    if !HasContentType(headers) {
      headers := headers["Content-Type" := Str(JsonContentType)];
    }
  }

  /** The exported calls, with the arguments that decide their request. */
  datatype ApiCall =
    | GeneratePromotionCodes(count: int, level: int)
    | BindPromotionCode(bindUserId: Option<string>, promotionCode: string, email: Option<string>)
    | GetUserPromotionCode(userId: string)
    | UsePromotionCode(userId: string, promotionCode: string)
    | ValidatePromotionCode(promotionCode: string)
    | DeactivatePromotionCode(promotionCode: string)
    | GetAllPromotionCodes
    | HasUserRedeemedPromotionCode(userId: string)
    | GetPromotedUsers(promotionCode: string)
    | GetUserProfile(profileUserId: string)

  /** A call's path under the base URL, its HTTP method, and the identity it hands to `requestWithUserId`. */
  datatype Route = Route(url: string, httpMethod: string, identity: Option<string>)

  function RouteOf(call: ApiCall): (r: Route)
    ensures r.identity.Some? <==> (call.BindPromotionCode? && call.bindUserId.Some?) || call.GetUserProfile?
    ensures r.httpMethod == "POST" <==>
      call.GeneratePromotionCodes? || call.BindPromotionCode? || call.UsePromotionCode? || call.DeactivatePromotionCode?
  {
    match call
    case GeneratePromotionCodes(_, _) => Route("/promotion-codes/generate", "POST", None)
    case BindPromotionCode(userId, _, _) => Route("/promotion-codes/bind", "POST", userId)
    case GetUserPromotionCode(_) => Route("/promotion-codes/user", "GET", None)
    case UsePromotionCode(_, _) => Route("/promotion-codes/use", "POST", None)
    case ValidatePromotionCode(_) => Route("/promotion-codes/validate", "GET", None)
    case DeactivatePromotionCode(_) => Route("/promotion-codes/deactivate", "POST", None)
    case GetAllPromotionCodes => Route("/promotion-codes/all", "GET", None)
    case HasUserRedeemedPromotionCode(_) => Route("/promotion-codes/has-redeemed", "GET", None)
    case GetPromotedUsers(_) => Route("/promotion-code/promoted-users", "GET", None)
    case GetUserProfile(userId) => Route("/profile", "GET", Some(userId))
  }

  /**
   * Only a bind and a profile lookup carry a caller identity; every other
   * call, even one whose body names a user, and a bind without a `userId`
   * (as the invitation store sends it), identify as the built-in user.
   */
  lemma IdentitySent(call: ApiCall)
    ensures !call.BindPromotionCode? && !call.GetUserProfile? ==> UserIdHeader(RouteOf(call).identity) == DefaultUserId
    ensures call.BindPromotionCode? && call.bindUserId.None? ==> UserIdHeader(RouteOf(call).identity) == DefaultUserId
    ensures call.GetUserProfile? && call.profileUserId != [] ==> UserIdHeader(RouteOf(call).identity) == call.profileUserId
  {
  }

  /** What the transport yields: a reply with a status and body, or a failure with no reply at all. */
  datatype HttpOutcome =
    | Answered(status: int, data: Json, errorMessage: string)   // errorMessage: the error's own message when status is not 2xx
    | NoResponse(errorMessage: string)

  /** `error.response?.data?.message`. */
  function ServerMessage(o: HttpOutcome): (m: Json)
    ensures m != Undefined ==> o.Answered? && o.data.Obj? && "message" in o.data.fields
  {
    if o.Answered? && o.data.Obj? && "message" in o.data.fields then o.data.fields["message"] else Undefined
  }

  /** The error interceptor's message: the server's, else the error's own, else one naming the status. */
  function ErrorMessage(o: HttpOutcome): (m: string)
    ensures Truthy(ServerMessage(o)) ==> m == TemplateString(ServerMessage(o))
    ensures !Truthy(ServerMessage(o)) && o.errorMessage != [] ==> m == o.errorMessage
    ensures !Truthy(ServerMessage(o)) && o.errorMessage == [] ==>
      m == "API request failed with status " + (if o.Answered? then IntToString(o.status) else "undefined")
  {
    var server := ServerMessage(o);
    if Truthy(server) then TemplateString(server)
    else if o.errorMessage != [] then o.errorMessage
    else "API request failed with status " + (if o.Answered? then IntToString(o.status) else "undefined")
  }

  /** The two interceptors: a 2xx reply resolves to its body, anything else rejects with `ErrorMessage`. */
  function Settle(o: HttpOutcome): (r: Result<Json>)
    ensures r.Ok? <==> o.Answered? && 200 <= o.status < 300
    ensures r.Ok? ==> r.value == o.data
    ensures r.Err? ==> r.message == ErrorMessage(o)
  {
    if o.Answered? && 200 <= o.status < 300 then Ok(o.data) else Err(ErrorMessage(o))
  }

  /** A server message wins whatever the transport says, and a bare failure names its status. */
  lemma ErrorMessagePrecedence(status: int, message: string, fallback: string)
    requires message != []
    ensures Settle(Answered(status, Obj(map["message" := Str(message)]), fallback)) ==
      (if 200 <= status < 300 then Ok(Obj(map["message" := Str(message)])) else Err(message))
    ensures 200 <= status < 300 || Settle(Answered(status, Null, "")) == Err("API request failed with status " + IntToString(status))
    ensures Settle(NoResponse("")) == Err("API request failed with status undefined")
  {
  }
}
