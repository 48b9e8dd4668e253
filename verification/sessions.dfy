/** The sessions service of `clerk/sessions.go`: the status names, the
    filter query of `ListAllWithFiltering`, and the per-session URLs. The
    service's base URL constant is defined outside this file and is a
    parameter here. */
module Sessions {
  import opened Wrappers
  import opened Strings
  import opened UrlValues
  import opened Api

  /** `SessionStatus` is an open string type: any string is a status, and
      the filter passes it through unchanged. */
  type SessionStatus = string

  /** The seven named `SessionStatus` constants. */
  datatype StatusConstant = Abandoned | Active | Ended | Expired | Removed | Replaced | Revoked

  /** The underlying string of a status constant. */
  function StatusString(s: StatusConstant): SessionStatus
  {
    match s
    case Abandoned => "abandoned"
    case Active => "active"
    case Ended => "ended"
    case Expired => "expired"
    case Removed => "removed"
    case Replaced => "replaced"
    case Revoked => "revoked"
  }

  /** The status constant with a given underlying string, if any. */
  function ParseStatus(str: SessionStatus): (r: Option<StatusConstant>)
    ensures r.Some? ==> StatusString(r.value) == str
  {
    if str == "abandoned" then Some(Abandoned)
    else if str == "active" then Some(Active)
    else if str == "ended" then Some(Ended)
    else if str == "expired" then Some(Expired)
    else if str == "removed" then Some(Removed)
    else if str == "replaced" then Some(Replaced)
    else if str == "revoked" then Some(Revoked)
    else None
  }

  /** Every status string reads back as its own constant, so the seven
      constants are pairwise distinct strings. */
  lemma ParseStatusString(s: StatusConstant)
    ensures ParseStatus(StatusString(s)) == Some(s)
  {
  }

  lemma StatusStringInjective(a: StatusConstant, b: StatusConstant)
    requires StatusString(a) == StatusString(b)
    ensures a == b
  {
    ParseStatusString(a);
    ParseStatusString(b);
  }

  /** `ListAllSessionsParams`: nil pointers are `None`. */
  datatype ListAllSessionsParams = ListAllSessionsParams(
    limit: Option<int>,
    offset: Option<int>,
    clientId: Option<string>,
    userId: Option<string>,
    status: Option<SessionStatus>)

  /** The filter writes of `ListAllWithFiltering`, in source order. */
  function Writes(params: ListAllSessionsParams): (ws: seq<Write>)
    ensures |ws| == 3 && ws[0].key == "client_id" && ws[1].key == "user_id" && ws[2].key == "status"
    ensures DistinctKeys(ws)
  {
    [ AddValue("client_id", params.clientId),
      AddValue("user_id", params.userId),
      AddValue("status", params.status) ]
  }

  /** The query `ListAllWithFiltering` encodes: the request URL's own query
      (empty), paginated with the caller's limit and offset, then
      `client_id`, `user_id` and `status` each Added exactly when given. */
  function ListAllQuery(params: ListAllSessionsParams, addPagination: AddPagination): (r: Values)
    ensures var paged := addPagination(map[], Page(params.limit, params.offset));
      && AddEffect(r, paged, "client_id", params.clientId)
      && AddEffect(r, paged, "user_id", params.userId)
      && AddEffect(r, paged, "status", params.status)
    ensures forall k :: k !in {"client_id", "user_id", "status"} ==>
      Agree(r, addPagination(map[], Page(params.limit, params.offset)), k)
  {
    var paged := addPagination(map[], Page(params.limit, params.offset));
    var ws := Writes(params);
    ApplyAllEffect(paged, ws);
    var r := ApplyAll(paged, ws);
    assert WriteEffect(r, paged, ws[0]);
    assert WriteEffect(r, paged, ws[1]);
    assert WriteEffect(r, paged, ws[2]);
    assert forall k :: k in KeysOf(ws) ==> k in {"client_id", "user_id", "status"};
    r
  }

  /** When pagination writes none of the filter keys: each filter key is
      present exactly when its field is set, and then holds that one value.
      Any status string is passed through, named constant or not. */
  lemma ListAllQueryFilters(params: ListAllSessionsParams, addPagination: AddPagination)
    requires var paged := addPagination(map[], Page(params.limit, params.offset));
      "client_id" !in paged && "user_id" !in paged && "status" !in paged
    ensures var r := ListAllQuery(params, addPagination);
      && ("client_id" in r <==> params.clientId.Some?)
      && (params.clientId.Some? ==> r["client_id"] == [params.clientId.value])
      && ("user_id" in r <==> params.userId.Some?)
      && (params.userId.Some? ==> r["user_id"] == [params.userId.value])
      && ("status" in r <==> params.status.Some?)
      && (params.status.Some? ==> r["status"] == [params.status.value])
  {
  }

  /** `Read`: GET `SessionsUrl/id`. */
  function ReadRequest(sessionsUrl: string, sessionId: string): (r: Request)
    ensures r.verb == Get
    ensures HasPrefix(r.path, sessionsUrl + "/")
    ensures Split(r.path, '/') == Split(sessionsUrl, '/') + Split(sessionId, '/')
    ensures '/' !in sessionId ==> Split(r.path, '/') == Split(sessionsUrl, '/') + [sessionId]
  {
    SplitAppend(sessionsUrl, '/', sessionId);
    SplitWithoutSeparator(sessionId, '/');
    assert (sessionsUrl + "/" + sessionId)[..|sessionsUrl + "/"|] == sessionsUrl + "/";
    Request(Get, sessionsUrl + "/" + sessionId)
  }

  /** The path `SessionsUrl/id/<action>`. */
  function ActionPath(sessionsUrl: string, sessionId: string, action: string): (path: string)
    requires '/' !in action
    ensures HasPrefix(path, sessionsUrl + "/")
    ensures Split(path, '/') == Split(sessionsUrl, '/') + Split(sessionId, '/') + [action]
    ensures '/' !in sessionId ==> Split(path, '/') == Split(sessionsUrl, '/') + [sessionId, action]
  {
    var path := sessionsUrl + "/" + sessionId + "/" + action;
    assert path == sessionsUrl + ['/'] + (sessionId + ['/'] + action);
    SplitAppend(sessionsUrl, '/', sessionId + ['/'] + action);
    SplitAppend(sessionId, '/', action);
    SplitWithoutSeparator(action, '/');
    SplitWithoutSeparator(sessionId, '/');
    assert path[..|sessionsUrl + "/"|] == sessionsUrl + "/";
    path
  }

  /** `Revoke`: POST `SessionsUrl/id/revoke`. */
  function RevokeRequest(sessionsUrl: string, sessionId: string): (r: Request)
    ensures r.verb == Post
    ensures Split(r.path, '/') == Split(sessionsUrl, '/') + Split(sessionId, '/') + ["revoke"]
    ensures '/' !in sessionId ==> Split(r.path, '/') == Split(sessionsUrl, '/') + [sessionId, "revoke"]
  {
    Request(Post, ActionPath(sessionsUrl, sessionId, "revoke"))
  }

  /** The URL `Verify` posts the token to: `SessionsUrl/id/verify`. */
  function VerifyUrl(sessionsUrl: string, sessionId: string): (url: string)
    ensures Split(url, '/') == Split(sessionsUrl, '/') + Split(sessionId, '/') + ["verify"]
    ensures '/' !in sessionId ==> Split(url, '/') == Split(sessionsUrl, '/') + [sessionId, "verify"]
  {
    ActionPath(sessionsUrl, sessionId, "verify")
  }

  /** `CreateTokenFromTemplate`: POST `SessionsUrl/id/token/slug`. */
  function CreateTokenFromTemplateRequest(sessionsUrl: string, sessionId: string, templateSlug: string): (r: Request)
    ensures r.verb == Post
    ensures Split(r.path, '/') == Split(sessionsUrl, '/') + Split(sessionId, '/') + ["token"] + Split(templateSlug, '/')
    ensures '/' !in sessionId && '/' !in templateSlug ==>
      Split(r.path, '/') == Split(sessionsUrl, '/') + [sessionId, "token", templateSlug]
  {
    var path := sessionsUrl + "/" + sessionId + "/token/" + templateSlug;
    assert path == ActionPath(sessionsUrl, sessionId, "token") + ['/'] + templateSlug;
    SplitAppend(ActionPath(sessionsUrl, sessionId, "token"), '/', templateSlug);
    SplitWithoutSeparator(templateSlug, '/');
    Request(Post, path)
  }
}
