/** The request side of the module: how a response status is judged
    (`validate_response`), how every caller reacts to that judgement, how `api_call`
    builds its URL, and the requests the module sends to the PRTG API
    (plugins/modules/prtg.py:97-147 and the calls in `main`). */
module Api {
  import opened Wrappers
  import opened Text
  import opened Params

  /** What `validate_response` does: end the run with a message, or return a code. */
  datatype Verdict = Fatal(msg: string) | Code(code: int)

  const UnreachableMsg := "Unable to reach API server"
  const CredentialsMsg := "Invalid API credentials"
  const UrlMsg := "Invalid API URL"
  const BadRequestMsg := "The API call could not be completed successfully"

  /** `validate_response`: a missing or zero status and the statuses 401, 404 and 400
      are fatal, each with its own message; 200 and 302 are returned as they are and
      every other status becomes 0. */
  function ValidateResponse(status: Option<int>): (r: Verdict)
    ensures r == Fatal(UnreachableMsg) <==> status.None? || status == Some(0)
    ensures r == Fatal(CredentialsMsg) <==> status == Some(401)
    ensures r == Fatal(UrlMsg) <==> status == Some(404)
    ensures r == Fatal(BadRequestMsg) <==> status == Some(400)
    ensures r == Code(200) <==> status == Some(200)
    ensures r == Code(302) <==> status == Some(302)
    ensures r.Code? ==> r.code == 0 || r.code == 200 || r.code == 302
    ensures (status.Some? && status.value != 0 && status.value != 200 && status.value != 302 &&
             status.value != 400 && status.value != 401 && status.value != 404) ==> r == Code(0)
  {
    match status
    case None => Fatal(UnreachableMsg)
    case Some(s) =>
      if s == 0 then Fatal(UnreachableMsg)
      else if s == 401 then Fatal(CredentialsMsg)
      else if s == 404 then Fatal(UrlMsg)
      else if s == 400 then Fatal(BadRequestMsg)
      else if s == 200 then Code(200)
      else if s == 302 then Code(302)
      else Code(0)
  }

  /** The check every caller makes, `if validate_response(...) != 200: fail_json(msg)`:
      `None` lets the run go on, `Some(m)` ends it with message `m`. A fatal verdict
      ends it first, with its own message. */
  function Guard(status: Option<int>, onError: string): (r: Option<string>)
    ensures r.None? <==> status == Some(200)
    ensures ValidateResponse(status).Fatal? ==> r == Some(ValidateResponse(status).msg)
    ensures ValidateResponse(status).Code? && status != Some(200) ==> r == Some(onError)
  {
    match ValidateResponse(status)
    case Fatal(m) => Some(m)
    case Code(c) => if c == 200 then None else Some(onError)
  }

  /** A six-way classification of how a call can end: accepted, or one of five ways
      it can go wrong. */
  datatype StatusClass =
    | Accepted
    | AuthenticationFailed
    | EndpointNotFound
    | MalformedRequest
    | TransportUnreachable
    | UnexpectedStatus

  function Classify(status: Option<int>): StatusClass
  {
    match status
    case None => TransportUnreachable
    case Some(s) =>
      if s == 200 then Accepted
      else if s == 401 then AuthenticationFailed
      else if s == 404 then EndpointNotFound
      else if s == 400 then MalformedRequest
      else if s == 0 then TransportUnreachable
      else UnexpectedStatus
  }

  /** Every caller reads the status through that classification: only `Accepted`
      goes on; the four named failures carry their own message whatever the caller
      says; an unexpected status (a redirect 302 included) gets the caller's message. */
  lemma GuardFollowsClassification(status: Option<int>, onError: string)
    ensures Guard(status, onError).None? <==> Classify(status) == Accepted
    ensures Classify(status) == AuthenticationFailed ==> Guard(status, onError) == Some(CredentialsMsg)
    ensures Classify(status) == EndpointNotFound ==> Guard(status, onError) == Some(UrlMsg)
    ensures Classify(status) == MalformedRequest ==> Guard(status, onError) == Some(BadRequestMsg)
    ensures Classify(status) == TransportUnreachable ==> Guard(status, onError) == Some(UnreachableMsg)
    ensures Classify(status) == UnexpectedStatus ==> Guard(status, onError) == Some(onError)
  {
  }

  /** The base URL `api_call` starts from: trailing slashes are stripped only when the
      configured URL ends in one, which amounts to stripping them always. */
  function BaseUrl(prtgUrl: string): (r: string)
    ensures r == TrimTrailing(prtgUrl, '/')
    ensures !EndsWith(prtgUrl, '/') ==> r == prtgUrl
  {
    if EndsWith(prtgUrl, '/') then TrimTrailing(prtgUrl, '/') else prtgUrl
  }

  /** The endpoints of the PRTG API the module calls. */
  datatype Endpoint = Table | ObjectStatus | Duplicate | Pause | DeleteObject

  /** The path `api_call` appends to the base URL for each endpoint. */
  function Path(e: Endpoint): string
  {
    match e
    case Table => "/api/table.json"
    case ObjectStatus => "/api/getobjectstatus.htm"
    case Duplicate => "/api/duplicateobject.htm"
    case Pause => "/api/pause.htm"
    case DeleteObject => "/api/deleteobject.htm"
  }

  /** One call to the API: an endpoint and the caller's parameters. */
  datatype Request = Request(endpoint: Endpoint, params: Params)

  /** The URL `api_call` fetches for a request. `encode` stands for `urlencode`, whose
      escaping is not modelled. */
  function RequestUrl(prtgUrl: string, user: string, passhash: string, req: Request,
                      encode: Params -> string): (r: string)
    ensures r == TrimTrailing(prtgUrl, '/') + Path(req.endpoint) + "?" + encode(WithAuth(req.params, user, passhash))
  {
    BaseUrl(prtgUrl) + Path(req.endpoint) + "?" + encode(WithAuth(req.params, user, passhash))
  }

  /** Any number of trailing slashes on the configured URL yields the same request URL. */
  lemma {:induction false} TrailingSlashesIgnored(host: string, extra: nat, user: string, passhash: string,
                                                 req: Request, encode: Params -> string)
    requires !EndsWith(host, '/')
    ensures RequestUrl(host + seq(extra, _ => '/'), user, passhash, req, encode)
         == RequestUrl(host, user, passhash, req, encode)
  {
    var s := host + seq(extra, _ => '/');
    assert host == s[..|host|];
    TrimTrailingUnique(s, '/', host);
    TrimTrailingUnique(host, '/', host);
  }

  const PauseMessage := "paused by ansible"

  /** Requests that change the device table on the server. */
  predicate IsMutating(req: Request)
  {
    req.endpoint == Duplicate || req.endpoint == Pause || req.endpoint == DeleteObject
  }

  /** plugins/modules/prtg.py:180: the full device listing, up to 10000 entries. */
  function ListRequest(): (r: Request)
    ensures r.endpoint == Table && !IsMutating(r)
    ensures KeyList(r.params) == ["content", "output", "columns", "count"]
  {
    Request(Table, [("content", Str("devices")), ("output", Str("json")),
                    ("columns", Str("objid,device,host,group,active")), ("count", Num(10000))])
  }

  /** plugins/modules/prtg.py:230: the status of the clone source, whose parent group is read. */
  function GroupRequest(cloneFrom: string): (r: Request)
    ensures r.endpoint == ObjectStatus && !IsMutating(r)
    ensures KeyList(r.params) == ["id", "name", "show"]
  {
    Request(ObjectStatus, [("id", Str(cloneFrom)), ("name", Str("group")), ("show", Str("text"))])
  }

  /** plugins/modules/prtg.py:242: duplicate the clone source into the target group, with both name and
      host set to the device name. */
  function DuplicateRequest(cloneFrom: string, name: string, group: string): (r: Request)
    ensures r.endpoint == Duplicate && IsMutating(r)
    ensures KeyList(r.params) == ["id", "name", "host", "targetid"]
  {
    Request(Duplicate, [("id", Str(cloneFrom)), ("name", Str(name)), ("host", Str(name)), ("targetid", Str(group))])
  }

  /** plugins/modules/prtg.py:134-142, `pause_device`: pausing sends action 0, unpausing action 1, and
      both carry the fixed message. */
  function PauseRequest(id: Value, paused: bool): (r: Request)
    ensures r.endpoint == Pause && IsMutating(r)
    ensures KeyList(r.params) == ["id", "pausemsg", "action"]
  {
    Request(Pause, [("id", id), ("pausemsg", Str(PauseMessage)), ("action", Num(if paused then 0 else 1))])
  }

  /** plugins/modules/prtg.py:281: delete a device, with the approval flag set. */
  function DeleteRequest(id: Value): (r: Request)
    ensures r.endpoint == DeleteObject && IsMutating(r)
    ensures KeyList(r.params) == ["id", "approve"]
  {
    Request(DeleteObject, [("id", id), ("approve", Str("1"))])
  }

  /** The listing asks for up to 10000 devices and the group lookup names the template;
      neither changes the server. */
  lemma ReadRequestFields(cloneFrom: string)
    ensures !IsMutating(ListRequest()) && Lookup(ListRequest().params, "count") == Some(Num(10000))
    ensures !IsMutating(GroupRequest(cloneFrom)) && Lookup(GroupRequest(cloneFrom).params, "id") == Some(Str(cloneFrom))
  {
  }

  /** The duplication names the template, sets both name and host of the new device to
      the target, and places it in the given group. */
  lemma DuplicateRequestFields(cloneFrom: string, name: string, group: string)
    ensures IsMutating(DuplicateRequest(cloneFrom, name, group))
    ensures var d := DuplicateRequest(cloneFrom, name, group).params;
            && Lookup(d, "id") == Some(Str(cloneFrom))
            && Lookup(d, "name") == Some(Str(name)) && Lookup(d, "host") == Some(Str(name))
            && Lookup(d, "targetid") == Some(Str(group))
  {
    assert Lookup(DuplicateRequest(cloneFrom, name, group).params[2..], "targetid") == Some(Str(group));
  }

  /** The pause call sends action 0 exactly when pausing, action 1 exactly when
      unpausing, and always the fixed message. */
  lemma PauseRequestFields(id: Value, paused: bool)
    ensures IsMutating(PauseRequest(id, paused))
    ensures var p := PauseRequest(id, paused).params;
            && Lookup(p, "id") == Some(id)
            && Lookup(p, "pausemsg") == Some(Str(PauseMessage))
            && (Lookup(p, "action") == Some(Num(0)) <==> paused)
            && (Lookup(p, "action") == Some(Num(1)) <==> !paused)
  {
  }

  /** The delete call names the device and carries the approval flag. */
  lemma DeleteRequestFields(id: Value)
    ensures IsMutating(DeleteRequest(id))
    ensures Lookup(DeleteRequest(id).params, "id") == Some(id)
    ensures Lookup(DeleteRequest(id).params, "approve") == Some(Str("1"))
  {
  }
}
