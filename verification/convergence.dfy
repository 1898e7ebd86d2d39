/** What an accepting PRTG server does with each decided action, and what the next run
    decides afterwards: running the module twice in a row changes nothing the second
    time, as long as the name identifies one device. */
module Convergence {
  import opened Wrappers
  import opened Text
  import opened Devices
  import opened Reconcile

  /** The device table after an accepted pause call: every device with that id takes the
      new raw state and nothing else changes. */
  function SetActive(devs: seq<Device>, id: int, raw: int): (r: seq<Device>)
    ensures |r| == |devs|
    ensures forall i :: 0 <= i < |devs| && devs[i].objid == id ==> r[i] == devs[i].(activeRaw := raw)
    ensures forall i :: 0 <= i < |devs| && devs[i].objid != id ==> r[i] == devs[i]
  {
    seq(|devs|, i requires 0 <= i < |devs| =>
      if devs[i].objid == id then devs[i].(activeRaw := raw) else devs[i])
  }

  /** The device table after an accepted delete: the devices with that id are gone and
      every other one stays. */
  function Without(devs: seq<Device>, id: int): (r: seq<Device>)
    ensures forall i :: 0 <= i < |r| ==> r[i].objid != id && r[i] in devs
    ensures forall d :: d in devs && d.objid != id ==> d in r
  {
    if |devs| == 0 then []
    else if devs[0].objid == id then Without(devs[1..], id)
    else [devs[0]] + Without(devs[1..], id)
  }

  /** The device table after the action was carried out by a server that accepted every
      call. A duplicated device, named and hosted after the target, appears at position
      `at` of the listing with the id `newId`; PRTG creates it paused, and the run
      unpauses it when it should be enabled. */
  function Effect(cfg: Config, a: Action, devs: seq<Device>, newId: int, group: string, at: nat): seq<Device>
    requires at <= |devs|
  {
    match a
    case Create(_) =>
      devs[..at] + [Device(newId, cfg.deviceName, cfg.deviceName, group, if cfg.enabled then Active else Paused)]
      + devs[at..]
    case SetPaused(id, paused) => SetActive(devs, id, if paused then Paused else Active)
    case Delete(id) => Without(devs, id)
    case Keep => devs
    case Refuse(_) => devs
  }

  /** A device named after the target is found by the name test. */
  lemma NamesakeMatches(d: Device, name: string)
    requires d.device == name
    ensures Matches(d, name)
  {
  }

  /** Every device the target matches carries the same id, so deleting that id removes
      them all. */
  ghost predicate OneTarget(devs: seq<Device>, name: string)
  {
    forall i, j :: 0 <= i < |devs| && 0 <= j < |devs| && Matches(devs[i], name) && Matches(devs[j], name)
      ==> devs[i].objid == devs[j].objid
  }

  /** After a creation, the next scan finds the new device and its pause state is the
      desired one. */
  lemma CreatedDeviceSettles(cfg: Config, devs: seq<Device>, newId: int, group: string, at: nat)
    requires at <= |devs| && newId != 0 && cfg.state == Present
    requires FirstMatch(devs, cfg.deviceName).None?
    ensures Decide(cfg, Resolve(Effect(cfg, Create(""), devs, newId, group, at), cfg.deviceName)) == Keep
  {
    var name := cfg.deviceName;
    var d := Device(newId, name, name, group, if cfg.enabled then Active else Paused);
    NamesakeMatches(d, name);
    InsertedDeviceIsFound(devs, name, d, at);
    var devs' := devs[..at] + [d] + devs[at..];
    assert devs'[at] == d;
    assert Resolve(devs', name) == Some(d);
  }

  /** After a pause or unpause, the next scan stops at the same device, which now has
      the desired pause state. */
  lemma PausedDeviceSettles(cfg: Config, devs: seq<Device>, i: nat, paused: bool)
    requires cfg.state == Present
    requires FirstMatch(devs, cfg.deviceName) == Some(i) && devs[i].objid != 0
    requires paused <==> !cfg.enabled
    ensures Decide(cfg, Resolve(SetActive(devs, devs[i].objid, if paused then Paused else Active), cfg.deviceName)) == Keep
  {
    var name := cfg.deviceName;
    var devs' := SetActive(devs, devs[i].objid, if paused then Paused else Active);
    forall j | 0 <= j < |devs'|
      ensures Matches(devs'[j], name) == Matches(devs[j], name)
    {
    }
    FirstMatchAt(devs', name, i);
  }

  /** After a delete of the only target, the next scan finds nothing. */
  lemma DeletedDeviceIsGone(devs: seq<Device>, name: string, i: nat)
    requires FirstMatch(devs, name) == Some(i)
    requires OneTarget(devs, name)
    ensures Resolve(Without(devs, devs[i].objid), name).None?
  {
  }

  /** Idempotence: after the server carries out what a run decided, the next run with the
      same parameters decides to leave everything alone. This needs every listed device
      to have a non-zero id and the target to identify one device. */
  lemma SecondRunIsNoOp(cfg: Config, devs: seq<Device>, newId: int, group: string, at: nat)
    requires at <= |devs| && newId != 0
    requires forall j :: 0 <= j < |devs| ==> devs[j].objid != 0
    requires OneTarget(devs, cfg.deviceName)
    ensures var a := Decide(cfg, Resolve(devs, cfg.deviceName));
            !a.Refuse? ==> Decide(cfg, Resolve(Effect(cfg, a, devs, newId, group, at), cfg.deviceName)) == Keep
  {
    var name := cfg.deviceName;
    var a := Decide(cfg, Resolve(devs, name));
    match a
    case Create(_) =>
      CreatedDeviceSettles(cfg, devs, newId, group, at);
    case SetPaused(id, paused) =>
      PausedDeviceSettles(cfg, devs, FirstMatch(devs, name).value, paused);
    case Delete(id) =>
      DeletedDeviceIsGone(devs, name, FirstMatch(devs, name).value);
    case Keep =>
    case Refuse(_) =>
  }

  /** Without a single target the second run is not a no-op: with "web01" and "web02"
      listed, removing "web" deletes web01 and the next run deletes web02. */
  lemma SecondDeleteWithTwoMatches(cfg: Config, devs: seq<Device>)
    requires cfg == Config("web", Absent, true, None, None)
    requires devs == [Device(1, "web01", "10.0.0.1", "", Active), Device(2, "web02", "10.0.0.2", "", Active)]
    ensures Decide(cfg, Resolve(devs, "web")) == Delete(1)
    ensures Decide(cfg, Resolve(Effect(cfg, Delete(1), devs, 3, "", 0), "web")) == Delete(2)
  {
    assert Lower("web") == "web";
    assert Lower("web01") == "web01";
    assert Lower("web02") == "web02";
    assert OccursAt("web01", "web", 0);
    assert OccursAt("web02", "web", 0);
    assert Matches(devs[0], "web");
    FirstMatchAt(devs, "web", 0);
    var rest := Effect(cfg, Delete(1), devs, 3, "", 0);
    assert devs[1..] == [devs[1]] && devs[1..][1..] == [];
    assert Without(devs[1..], 1) == [devs[1]] + Without([], 1);
    assert rest == Without(devs, 1) == Without(devs[1..], 1);
    FirstMatchAt(rest, "web", 0);
  }
}
