/** The decision layer of `main` (plugins/modules/prtg.py:173-296): resolve the device by
    name, pick the one mutating call the desired state calls for, issue it unless
    running in check mode, and report `changed` or a failure message. */
module Reconcile {
  import opened Wrappers
  import opened Params
  import opened Api
  import opened Devices
  import opened NewId

  datatype State = Present | Absent

  /** The module's parameters, looked up by device name. Optional parameters keep
      Python's notion of truth: a missing or empty value counts as not given. */
  datatype Config = Config(
    deviceName: string,
    state: State,
    enabled: bool,
    cloneFrom: Option<string>,
    destGroup: Option<string>)

  predicate Given(o: Option<string>): (b: bool)
    ensures o.None? ==> !b
    ensures o == Some("") ==> !b
    ensures o.Some? && |o.value| > 0 ==> b
  {
    o.Some? && o.value != ""
  }

  /** What the server answers to one request, reduced to what the callers read: the
      status, the URL reached after redirects, the parsed device table (listing call)
      and the parsed parent group id (group call). */
  datatype Response = Response(status: Option<int>, url: string, devices: seq<Device>, parentGroup: Option<string>)

  /** The mutating call a run settles on. */
  datatype Action =
    | Keep                          // nothing to change
    | Refuse(msg: string)           // cannot proceed; fails before any further call
    | Create(cloneFrom: string)     // duplicate a template device
    | SetPaused(id: int, paused: bool)
    | Delete(id: int)

  /** How the run ends: `exit_json(changed=…)` or `fail_json(msg=…)`. */
  datatype Outcome = Exit(changed: bool) | Fail(msg: string)

  /** The calls a run issued, in order, and how it ended. */
  datatype Run = Run(calls: seq<Request>, outcome: Outcome)

  const NoCloneMsg := "Unable to create new device because: clone_from parameter not specified"
  const ApiFailedMsg := "API request failed"
  const NoGroupMsg := "Unable to find parent group of clone_from"
  const NoIdMsg := "Unable to parse new device ID from return request"
  const PauseFailedMsg := "Failed to pause device"
  const DeleteFailedMsg := "Failed to delete device"

  /** Whether the action changes the server; this is the `changed` a run reports. */
  predicate Changes(a: Action)
  {
    a.Create? || a.SetPaused? || a.Delete?
  }

  /** The decision table of plugins/modules/prtg.py:219-292 for the observed device. */
  function Decide(cfg: Config, observed: Option<Device>): (a: Action)
    ensures a.Create? <==> cfg.state == Present && observed.None? && Given(cfg.cloneFrom)
    ensures a.Create? ==> a.cloneFrom == cfg.cloneFrom.value
    ensures a == Refuse(NoCloneMsg) <==> cfg.state == Present && observed.None? && !Given(cfg.cloneFrom)
    ensures a.SetPaused? ==> observed.Some? && a.id == observed.value.objid
    ensures a.SetPaused? && !a.paused <==>
              cfg.state == Present && observed.Some? && cfg.enabled && observed.value.activeRaw == Paused
    ensures a.SetPaused? && a.paused <==>
              cfg.state == Present && observed.Some? && !cfg.enabled && observed.value.activeRaw == Active
    ensures a.Delete? <==> cfg.state == Absent && observed.Some?
    ensures a.Delete? ==> a.id == observed.value.objid
    ensures a == Keep <==>
              (cfg.state == Absent && observed.None?) ||
              (cfg.state == Present && observed.Some? &&
               !(cfg.enabled && observed.value.activeRaw == Paused) &&
               !(!cfg.enabled && observed.value.activeRaw == Active))
  {
    match (cfg.state, observed)
    case (Present, None) =>
      if Given(cfg.cloneFrom) then Create(cfg.cloneFrom.value) else Refuse(NoCloneMsg)
    case (Present, Some(d)) =>
      if cfg.enabled && d.activeRaw == Paused then SetPaused(d.objid, false)
      else if !cfg.enabled && d.activeRaw == Active then SetPaused(d.objid, true)
      else Keep
    case (Absent, Some(d)) => Delete(d.objid)
    case (Absent, None) => Keep
  }

  /** Turn the status of one call into how the run goes on. */
  function Conclude(status: Option<int>, onError: string): (o: Outcome)
    ensures o == Exit(true) <==> status == Some(200)
    ensures o.Fail? <==> status != Some(200)
    ensures o.Fail? && !ValidateResponse(status).Fatal? ==> o.msg == onError
    ensures ValidateResponse(status).Fatal? ==> o == Fail(ValidateResponse(status).msg)
  {
    match Guard(status, onError)
    case None => Exit(true)
    case Some(m) => Fail(m)
  }

  /** Every call of a run but the last was accepted, and a run that ends well had
      every call accepted: a rejected call always ends the run with a failure. */
  predicate StopsAtRejection(r: Run, respond: Request -> Response)
  {
    && (forall i :: 0 <= i < |r.calls| - 1 ==> respond(r.calls[i]).status == Some(200))
    && (r.outcome.Exit? ==> forall i :: 0 <= i < |r.calls| ==> respond(r.calls[i]).status == Some(200))
  }

  /** Every call in the list was accepted. */
  predicate AllAccepted(calls: seq<Request>, respond: Request -> Response)
  {
    forall i :: 0 <= i < |calls| ==> respond(calls[i]).status == Some(200)
  }

  /** A list of calls was all accepted exactly when both of its parts were. */
  lemma AllAcceptedConcat(xs: seq<Request>, ys: seq<Request>, respond: Request -> Response)
    ensures AllAccepted(xs + ys, respond) <==> AllAccepted(xs, respond) && AllAccepted(ys, respond)
  {
    if AllAccepted(xs, respond) && AllAccepted(ys, respond) {
      forall i | 0 <= i < |xs + ys|
        ensures respond((xs + ys)[i]).status == Some(200)
      {
        if i >= |xs| {
          assert (xs + ys)[i] == ys[i - |xs|];
        }
      }
    }
    if AllAccepted(xs + ys, respond) {
      forall i | 0 <= i < |xs|
        ensures respond(xs[i]).status == Some(200)
      {
        assert (xs + ys)[i] == xs[i];
      }
      forall i | 0 <= i < |ys|
        ensures respond(ys[i]).status == Some(200)
      {
        assert (xs + ys)[|xs| + i] == ys[i];
      }
    }
  }

  /** Accepted calls ahead of a run keep it stopping at its first rejection; so does a
      single call whose rejection ended the run with nothing after it. */
  lemma AcceptedPrefix(accepted: seq<Request>, last: seq<Request>, r: Run, respond: Request -> Response)
    requires forall i :: 0 <= i < |accepted| ==> respond(accepted[i]).status == Some(200)
    requires |last| == 1
    requires StopsAtRejection(r, respond)
    requires respond(last[0]).status != Some(200) ==> r.calls == [] && r.outcome.Fail?
    ensures StopsAtRejection(Run(accepted + last + r.calls, r.outcome), respond)
  {
  }

  /** `pause_device` (plugins/modules/prtg.py:134-147): one pause call; anything but 200 is fatal. */
  function PauseDevice(id: Value, paused: bool, respond: Request -> Response): (r: Run)
    ensures r.calls == [PauseRequest(id, paused)]
    ensures r.outcome == Exit(true) <==> respond(PauseRequest(id, paused)).status == Some(200)
    ensures r.outcome.Fail? && !ValidateResponse(respond(PauseRequest(id, paused)).status).Fatal? ==>
              r.outcome.msg == PauseFailedMsg
    ensures ValidateResponse(respond(PauseRequest(id, paused)).status).Fatal? ==>
              r.outcome == Fail(ValidateResponse(respond(PauseRequest(id, paused)).status).msg)
    ensures StopsAtRejection(r, respond)
  {
    var req := PauseRequest(id, paused);
    Run([req], Conclude(respond(req).status, PauseFailedMsg))
  }

  /** The calls made so far towards a value, and the value or the failure message. */
  datatype Step<+T> = Step(calls: seq<Request>, result: Result<T>)

  /** plugins/modules/prtg.py:227-239: the group the new device goes into. A given `dest_group` takes
      precedence and costs no call; otherwise the clone source's parent group is
      looked up. */
  function TargetGroup(cfg: Config, cloneFrom: string, respond: Request -> Response): (s: Step<string>)
    ensures Given(cfg.destGroup) ==> s == Step([], Ok(cfg.destGroup.value))
    ensures !Given(cfg.destGroup) ==> s.calls == [GroupRequest(cloneFrom)]
    ensures !Given(cfg.destGroup) && s.result.Ok? ==>
              respond(GroupRequest(cloneFrom)).status == Some(200) &&
              respond(GroupRequest(cloneFrom)).parentGroup == Some(s.result.value)
    ensures (!Given(cfg.destGroup) && respond(GroupRequest(cloneFrom)).status == Some(200) &&
             respond(GroupRequest(cloneFrom)).parentGroup.None?) ==> s.result == Err(NoGroupMsg)
    ensures (!Given(cfg.destGroup) && respond(GroupRequest(cloneFrom)).status == Some(200) &&
             respond(GroupRequest(cloneFrom)).parentGroup.Some?) ==>
              s.result == Ok(respond(GroupRequest(cloneFrom)).parentGroup.value)
    ensures (!Given(cfg.destGroup) && respond(GroupRequest(cloneFrom)).status != Some(200)) ==>
              s.result == Err(Guard(respond(GroupRequest(cloneFrom)).status, ApiFailedMsg).value)
    ensures s.result.Ok? ==> forall i :: 0 <= i < |s.calls| ==> respond(s.calls[i]).status == Some(200)
  {
    if Given(cfg.destGroup) then Step([], Ok(cfg.destGroup.value))
    else
      var req := GroupRequest(cloneFrom);
      var resp := respond(req);
      match Guard(resp.status, ApiFailedMsg)
      case Some(m) => Step([req], Err(m))
      case None =>
        match resp.parentGroup
        case None => Step([req], Err(NoGroupMsg))
        case Some(g) => Step([req], Ok(g))
  }

  /** plugins/modules/prtg.py:243-257, once the duplication has been answered: the answer must be
      accepted and its URL must carry the new id, which is then unpaused when the
      device should be enabled. */
  function AfterDuplicate(cfg: Config, answer: Response, respond: Request -> Response): (r: Run)
    ensures r.outcome.Exit? ==> r.outcome.changed && answer.status == Some(200)
    ensures r.outcome == Exit(true) <==>
              answer.status == Some(200) && ExtractNewId(answer.url).Some? && AllAccepted(r.calls, respond)
    ensures answer.status == Some(200) && ExtractNewId(answer.url).None? ==> r == Run([], Fail(NoIdMsg))
    ensures cfg.enabled && answer.status == Some(200) && ExtractNewId(answer.url).Some? ==>
              r == PauseDevice(Str(ExtractNewId(answer.url).value), false, respond)
    ensures !cfg.enabled || answer.status != Some(200) ==> r.calls == []
    ensures answer.status != Some(200) ==> r == Run([], Fail(Guard(answer.status, ApiFailedMsg).value))
    ensures (!cfg.enabled && answer.status == Some(200) && ExtractNewId(answer.url).Some?) ==>
              r == Run([], Exit(true))
    ensures StopsAtRejection(r, respond)
    ensures |r.calls| <= 1 && (|r.calls| == 1 ==> r.calls[0].endpoint == Pause)
  {
    match Guard(answer.status, ApiFailedMsg)
    case Some(m) => Run([], Fail(m))
    case None =>
      match ExtractNewId(answer.url)
      case None => Run([], Fail(NoIdMsg))
      case Some(newId) =>
        if cfg.enabled then
          var unpause := PauseDevice(Str(newId), false, respond);
          assert unpause.calls[0] == PauseRequest(Str(newId), false);
          unpause
        else Run([], Exit(true))
  }

  /** plugins/modules/prtg.py:226-257: duplicate the template into the target group, read the new id from
      the redirect URL, and unpause the new device when it should be enabled. */
  function CreateDevice(cfg: Config, cloneFrom: string, respond: Request -> Response): (r: Run)
    ensures r.outcome.Exit? ==> r.outcome.changed
    ensures StopsAtRejection(r, respond)
    ensures var lookup := respond(GroupRequest(cloneFrom));
            var groupCalls := if Given(cfg.destGroup) then [] else [GroupRequest(cloneFrom)];
            var group := if Given(cfg.destGroup) then Some(cfg.destGroup.value)
                         else if lookup.status == Some(200) then lookup.parentGroup else None;
            && (group.None? ==>
                  r == Run(groupCalls, Fail(if lookup.status != Some(200) then Guard(lookup.status, ApiFailedMsg).value
                                            else NoGroupMsg)))
            && (group.Some? ==>
                  var dup := DuplicateRequest(cloneFrom, cfg.deviceName, group.value);
                  var answer := respond(dup);
                  var newId := ExtractNewId(answer.url);
                  var unpause := if cfg.enabled && answer.status == Some(200) && newId.Some?
                                 then [PauseRequest(Str(newId.value), false)] else [];
                  && r.calls == groupCalls + [dup] + unpause
                  && (r.outcome == Exit(true) <==>
                        newId.Some? && AllAccepted(r.calls, respond))
                  && (answer.status != Some(200) ==> r.outcome == Fail(Guard(answer.status, ApiFailedMsg).value))
                  && (answer.status == Some(200) && newId.None? ==> r.outcome == Fail(NoIdMsg))
                  && (cfg.enabled && answer.status == Some(200) && newId.Some? ==>
                        r.outcome == PauseDevice(Str(newId.value), false, respond).outcome))
  {
    var g := TargetGroup(cfg, cloneFrom, respond);
    match g.result
    case Err(m) => Run(g.calls, Fail(m))
    case Ok(group) =>
      var dup := DuplicateRequest(cloneFrom, cfg.deviceName, group);
      var rest := AfterDuplicate(cfg, respond(dup), respond);
      AcceptedPrefix(g.calls, [dup], rest, respond);
      AllAcceptedConcat(g.calls, [dup], respond);
      AllAcceptedConcat(g.calls + [dup], rest.calls, respond);
      Run(g.calls + [dup] + rest.calls, rest.outcome)
  }

  /** Whether a mutating call is one that carrying out `a` may issue: the duplication of
      the template under the target's name and the unpause of a new device for a
      creation, the one pause call for a pause or unpause, the one delete for a delete. */
  ghost predicate Serves(cfg: Config, a: Action, req: Request)
  {
    match a
    case Keep => false
    case Refuse(_) => false
    case Create(c) =>
      (exists g :: req == DuplicateRequest(c, cfg.deviceName, g)) || (exists id :: req == PauseRequest(Str(id), false))
    case SetPaused(id, paused) => req == PauseRequest(Num(id), paused)
    case Delete(id) => req == DeleteRequest(Num(id))
  }

  /** Every mutating call of a creation serves it. */
  lemma CreationServes(cfg: Config, cloneFrom: string, respond: Request -> Response)
    ensures var r := CreateDevice(cfg, cloneFrom, respond);
            forall i :: 0 <= i < |r.calls| && IsMutating(r.calls[i]) ==> Serves(cfg, Create(cloneFrom), r.calls[i])
  {
  }

  /** Carry out the decided action. In check mode nothing is called and the run reports
      the change the action would make. */
  function Execute(cfg: Config, a: Action, checkMode: bool, respond: Request -> Response): (r: Run)
    ensures checkMode || !Changes(a) ==> r.calls == []
    ensures checkMode ==> r.outcome == (if a.Refuse? then Fail(a.msg) else Exit(Changes(a)))
    ensures r.outcome.Exit? ==> r.outcome.changed == Changes(a)
    ensures a == Keep ==> r == Run([], Exit(false))
    ensures a.Refuse? ==> r == Run([], Fail(a.msg))
    ensures StopsAtRejection(r, respond)
    ensures a.Create? && !checkMode ==> r == CreateDevice(cfg, a.cloneFrom, respond)
    ensures a.SetPaused? && !checkMode ==> r == PauseDevice(Num(a.id), a.paused, respond)
    ensures a.Delete? && !checkMode ==>
              && r.calls == [DeleteRequest(Num(a.id))]
              && (r.outcome == Exit(true) <==> respond(DeleteRequest(Num(a.id))).status == Some(200))
              && (r.outcome.Fail? && !ValidateResponse(respond(DeleteRequest(Num(a.id))).status).Fatal? ==>
                    r.outcome.msg == DeleteFailedMsg)
              && (ValidateResponse(respond(DeleteRequest(Num(a.id))).status).Fatal? ==>
                    r.outcome == Fail(ValidateResponse(respond(DeleteRequest(Num(a.id))).status).msg))
    ensures forall i :: 0 <= i < |r.calls| && IsMutating(r.calls[i]) ==> Serves(cfg, a, r.calls[i])
  {
    match a
    case Keep => Run([], Exit(false))
    case Refuse(msg) => Run([], Fail(msg))
    case Create(cloneFrom) =>
      if checkMode then Run([], Exit(true))
      else
        CreationServes(cfg, cloneFrom, respond);
        CreateDevice(cfg, cloneFrom, respond)
    case SetPaused(id, paused) =>
      if checkMode then Run([], Exit(true)) else PauseDevice(Num(id), paused, respond)
    case Delete(id) =>
      if checkMode then Run([], Exit(true))
      else
        var req := DeleteRequest(Num(id));
        Run([req], Conclude(respond(req).status, DeleteFailedMsg))
  }

  /** The action decided for the device the listing resolves to. */
  function Decided(cfg: Config, respond: Request -> Response): Action
  {
    Decide(cfg, Resolve(respond(ListRequest()).devices, cfg.deviceName))
  }

  /** An accepted listing ahead of a run keeps it stopping at its first rejection, and
      keeps every mutating call serving the action. */
  lemma AfterListing(cfg: Config, a: Action, e: Run, respond: Request -> Response)
    requires respond(ListRequest()).status == Some(200)
    requires StopsAtRejection(e, respond)
    requires forall i :: 0 <= i < |e.calls| && IsMutating(e.calls[i]) ==> Serves(cfg, a, e.calls[i])
    ensures StopsAtRejection(Run([ListRequest()] + e.calls, e.outcome), respond)
    ensures var calls := [ListRequest()] + e.calls;
            forall i :: 1 <= i < |calls| && IsMutating(calls[i]) ==> Serves(cfg, a, calls[i])
  {
    var calls := [ListRequest()] + e.calls;
    forall i | 1 <= i < |calls|
      ensures calls[i] == e.calls[i - 1]
    {
    }
  }

  /** One invocation looked up by device name: list the devices, resolve the target,
      decide, and carry the decision out. */
  function Invoke(cfg: Config, checkMode: bool, respond: Request -> Response): (r: Run)
    ensures |r.calls| >= 1 && r.calls[0] == ListRequest()
    ensures checkMode ==> r.calls == [ListRequest()]
    ensures checkMode ==> forall i :: 0 <= i < |r.calls| ==> !IsMutating(r.calls[i])
    ensures respond(ListRequest()).status != Some(200) ==>
              r == Run([ListRequest()], Fail(Guard(respond(ListRequest()).status, ApiFailedMsg).value))
    ensures StopsAtRejection(r, respond)
    ensures var a := Decided(cfg, respond);
            respond(ListRequest()).status == Some(200) ==> (r.outcome.Exit? ==> r.outcome.changed == Changes(a))
    ensures var a := Decided(cfg, respond);
            respond(ListRequest()).status == Some(200) ==> (a == Keep ==> r == Run([ListRequest()], Exit(false)))
    ensures var a := Decided(cfg, respond);
            respond(ListRequest()).status == Some(200) ==> (a.Refuse? ==> r == Run([ListRequest()], Fail(a.msg)))
    ensures var a := Decided(cfg, respond);
            respond(ListRequest()).status == Some(200) ==> (forall i :: 1 <= i < |r.calls| && IsMutating(r.calls[i]) ==> Serves(cfg, a, r.calls[i]))
    ensures var a := Decided(cfg, respond);
            respond(ListRequest()).status == Some(200) ==> (checkMode && !a.Refuse? ==> r.outcome == Exit(Changes(a)))
    ensures var a := Decided(cfg, respond);
            respond(ListRequest()).status == Some(200) ==> (!checkMode && a.SetPaused? ==>
              r.calls == [ListRequest(), PauseRequest(Num(a.id), a.paused)] &&
              r.outcome == PauseDevice(Num(a.id), a.paused, respond).outcome)
    ensures var a := Decided(cfg, respond);
            respond(ListRequest()).status == Some(200) ==> (!checkMode && a.Delete? ==>
              r.calls == [ListRequest(), DeleteRequest(Num(a.id))] &&
              r.outcome == Conclude(respond(DeleteRequest(Num(a.id))).status, DeleteFailedMsg))
    ensures var a := Decided(cfg, respond);
            respond(ListRequest()).status == Some(200) ==> (!checkMode && a.Create? ==>
              r.calls == [ListRequest()] + CreateDevice(cfg, a.cloneFrom, respond).calls &&
              r.outcome == CreateDevice(cfg, a.cloneFrom, respond).outcome)
  {
    var list := ListRequest();
    var resp := respond(list);
    match Guard(resp.status, ApiFailedMsg)
    case Some(m) => Run([list], Fail(m))
    case None =>
      var r := Execute(cfg, Decided(cfg, respond), checkMode, respond);
      AfterListing(cfg, Decided(cfg, respond), r, respond);
      Run([list] + r.calls, r.outcome)
  }

  /** Once the listing is accepted, a run is the listing followed by the decided action. */
  lemma InvokeUnfolds(cfg: Config, checkMode: bool, respond: Request -> Response)
    requires respond(ListRequest()).status == Some(200)
    ensures var r := Execute(cfg, Decide(cfg, Resolve(respond(ListRequest()).devices, cfg.deviceName)), checkMode, respond);
            Invoke(cfg, checkMode, respond) == Run([ListRequest()] + r.calls, r.outcome)
  {
  }

  /** Check mode predicts the real run: whenever the real run ends well it reports the
      same `changed` as the check-mode run, and a check-mode failure is the failure the
      real run meets too. */
  lemma CheckModePredictsChange(cfg: Config, respond: Request -> Response)
    ensures Invoke(cfg, false, respond).outcome.Exit? ==>
              Invoke(cfg, true, respond).outcome == Invoke(cfg, false, respond).outcome
    ensures Invoke(cfg, true, respond).outcome.Fail? ==>
              Invoke(cfg, false, respond).outcome == Invoke(cfg, true, respond).outcome
  {
  }

  /** A server that accepts every call, knows every parent group and redirects every
      duplication to a URL carrying the new id. */
  ghost predicate Cooperative(respond: Request -> Response)
  {
    forall req: Request :: respond(req).status == Some(200) && respond(req).parentGroup.Some?
                           && ExtractNewId(respond(req).url).Some?
  }

  /** Against a server that accepts everything, the real run issues exactly the calls
      of the decision table and ends as check mode predicted. */
  lemma CooperativeRun(cfg: Config, a: Action, respond: Request -> Response)
    requires Cooperative(respond)
    ensures Execute(cfg, a, false, respond).outcome == Execute(cfg, a, true, respond).outcome
    ensures a.SetPaused? ==> Execute(cfg, a, false, respond).calls == [PauseRequest(Num(a.id), a.paused)]
    ensures a.Delete? ==> Execute(cfg, a, false, respond).calls == [DeleteRequest(Num(a.id))]
    ensures a.Create? ==>
              var groupCalls := if Given(cfg.destGroup) then [] else [GroupRequest(a.cloneFrom)];
              var group := if Given(cfg.destGroup) then cfg.destGroup.value
                           else respond(GroupRequest(a.cloneFrom)).parentGroup.value;
              var dup := DuplicateRequest(a.cloneFrom, cfg.deviceName, group);
              var newId := ExtractNewId(respond(dup).url).value;
              Execute(cfg, a, false, respond).calls
                == groupCalls + [dup] + (if cfg.enabled then [PauseRequest(Str(newId), false)] else [])
  {
  }

  /** Creating without a template fails before any mutating call, in check mode or not. */
  lemma CreateNeedsTemplate(cfg: Config, checkMode: bool, respond: Request -> Response)
    requires cfg.state == Present && !Given(cfg.cloneFrom)
    requires respond(ListRequest()).status == Some(200)
    requires Resolve(respond(ListRequest()).devices, cfg.deviceName).None?
    ensures Invoke(cfg, checkMode, respond) == Run([ListRequest()], Fail(NoCloneMsg))
  {
  }

  /** A server that accepts every call and redirects to the page of device 4321. */
  ghost predicate ExampleServer(respond: Request -> Response)
  {
    forall req :: respond(req) == Response(Some(200), "/device.htm?id%3D4321&tabid=1", [], None)
  }

  /** The answer to the example's duplication: the redirect names device 4321, which is
      then unpaused. */
  lemma ExampleAnswer(cfg: Config, respond: Request -> Response)
    requires cfg == Config("newhost", Present, true, Some("1234"), Some("5678"))
    requires ExampleServer(respond)
    ensures AfterDuplicate(cfg, respond(DuplicateRequest("1234", "newhost", "5678")), respond)
         == Run([PauseRequest(Str("4321"), false)], Exit(true))
  {
    var answer := respond(DuplicateRequest("1234", "newhost", "5678"));
    assert ExtractNewId(answer.url) == Some("4321") by {
      RedirectExample();
    }
    assert respond(PauseRequest(Str("4321"), false)).status == Some(200);
  }

  /** The creation step of the example below: duplication, then the unpause of 4321. */
  lemma ExampleCreation(cfg: Config, respond: Request -> Response)
    requires cfg == Config("newhost", Present, true, Some("1234"), Some("5678"))
    requires ExampleServer(respond)
    ensures CreateDevice(cfg, "1234", respond)
         == Run([DuplicateRequest("1234", "newhost", "5678"), PauseRequest(Str("4321"), false)], Exit(true))
  {
    var dup := DuplicateRequest("1234", "newhost", "5678");
    var after := AfterDuplicate(cfg, respond(dup), respond);
    assert TargetGroup(cfg, "1234", respond) == Step([], Ok("5678"));
    assert after == Run([PauseRequest(Str("4321"), false)], Exit(true)) by {
      ExampleAnswer(cfg, respond);
    }
    assert CreateDevice(cfg, "1234", respond) == Run([dup] + after.calls, after.outcome) by {
      assert [] + [dup] == [dup];
    }
    assert [dup] + after.calls == [dup, PauseRequest(Str("4321"), false)];
  }

  /** End-to-end creation: template 1234, name "newhost", group
      5678, enabled, and a redirect carrying id 4321 give the listing, a duplication,
      an unpause of device 4321 and a reported change. */
  lemma CreateFlowExample(cfg: Config, respond: Request -> Response)
    requires cfg == Config("newhost", Present, true, Some("1234"), Some("5678"))
    requires ExampleServer(respond)
    ensures Invoke(cfg, false, respond)
         == Run([ListRequest(), DuplicateRequest("1234", "newhost", "5678"), PauseRequest(Str("4321"), false)],
                Exit(true))
  {
    var e := Execute(cfg, Create("1234"), false, respond);
    assert e == Run([DuplicateRequest("1234", "newhost", "5678"), PauseRequest(Str("4321"), false)], Exit(true)) by {
      assert e == CreateDevice(cfg, "1234", respond);
      ExampleCreation(cfg, respond);
    }
    assert respond(ListRequest()) == Response(Some(200), "/device.htm?id%3D4321&tabid=1", [], None);
    assert Decide(cfg, Resolve([], "newhost")) == Create("1234");
    InvokeUnfolds(cfg, false, respond);
  }
}
