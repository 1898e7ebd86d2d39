/** Finding the device to manage by name: the scan over the device listing at
    plugins/modules/prtg.py:188-197. */
module Devices {
  import opened Wrappers
  import opened Text

  /** One row of the device table as the listing call returns it. `activeRaw` is PRTG's
      raw "active" column: 0 for a paused device, -1 for an active one. */
  datatype Device = Device(objid: int, device: string, host: string, group: string, activeRaw: int)

  const Paused := 0
  const Active := -1

  /** The name test of the scan: the lower-cased target occurs in the lower-cased name. */
  predicate NameMatches(d: Device, name: string): (b: bool)
    ensures b <==> exists i: nat :: OccursAt(Lower(d.device), Lower(name), i)
  {
    Contains(Lower(d.device), Lower(name))
  }

  /** The host test of the scan: the lower-cased host equals the lower-cased target. */
  predicate HostMatches(d: Device, name: string): (b: bool)
    ensures b <==> |d.host| == |name| && forall i :: 0 <= i < |name| ==> LowerChar(d.host[i]) == LowerChar(name[i])
  {
    Lower(d.host) == Lower(name)
  }

  predicate Matches(d: Device, name: string)
  {
    NameMatches(d, name) || HostMatches(d, name)
  }

  /** Both tests ignore case on both sides: lower-casing the target, the listed name or
      the listed host beforehand decides nothing differently. */
  lemma MatchIgnoresCase(d: Device, name: string)
    ensures Matches(d, Lower(name)) == Matches(d, name)
    ensures Matches(d.(device := Lower(d.device), host := Lower(d.host)), name) == Matches(d, name)
  {
    LowerIdempotent(name);
    LowerIdempotent(d.device);
    LowerIdempotent(d.host);
  }

  /** The position at which the scan stops: the first device, in listing order, that
      passes either test; `None` when the scan runs to the end. */
  function FirstMatch(devs: seq<Device>, name: string): (r: Option<nat>)
    ensures r.Some? ==> r.value < |devs| && Matches(devs[r.value], name)
    ensures r.Some? ==> forall j :: 0 <= j < r.value ==> !Matches(devs[j], name)
    ensures r.None? <==> forall j :: 0 <= j < |devs| ==> !Matches(devs[j], name)
  {
    if |devs| == 0 then None
    else if Matches(devs[0], name) then Some(0)
    else
      match FirstMatch(devs[1..], name)
      case None => None
      case Some(i) => Some(i + 1)
  }

  /** The device the rest of the run treats as existing. The scan sets `device_id` to
      the first match's `objid`, and the later tests read `device_id` for truth, so a
      first match whose `objid` is 0 counts as no device at all. */
  function Resolve(devs: seq<Device>, name: string): (r: Option<Device>)
    ensures r.Some? ==> r.value.objid != 0 && Matches(r.value, name)
    ensures r.Some? ==> exists i :: 0 <= i < |devs| && devs[i] == r.value
                               && forall j :: 0 <= j < i ==> !Matches(devs[j], name)
    ensures (forall j :: 0 <= j < |devs| ==> devs[j].objid != 0) ==>
              (r.None? <==> forall j :: 0 <= j < |devs| ==> !Matches(devs[j], name))
    ensures forall i :: IsFirstMatch(devs, name, i) ==>
              r == (if devs[i].objid != 0 then Some(devs[i]) else None)
  {
    FirstMatchUnique(devs, name);
    match FirstMatch(devs, name)
    case None => None
    case Some(i) => if devs[i].objid != 0 then Some(devs[i]) else None
  }

  /** Position `i` is where the scan stops: it matches and no earlier position does. */
  predicate IsFirstMatch(devs: seq<Device>, name: string, i: int)
  {
    0 <= i < |devs| && Matches(devs[i], name) && forall j :: 0 <= j < i ==> !Matches(devs[j], name)
  }

  /** At most one position is a first match, and the scan returns it. */
  lemma FirstMatchUnique(devs: seq<Device>, name: string)
    ensures forall i :: IsFirstMatch(devs, name, i) ==> FirstMatch(devs, name) == Some(i)
  {
  }

  /** A position that passes the test with no earlier one passing is the scan's result. */
  lemma FirstMatchAt(devs: seq<Device>, name: string, i: nat)
    requires i < |devs| && Matches(devs[i], name)
    requires forall j :: 0 <= j < i ==> !Matches(devs[j], name)
    ensures FirstMatch(devs, name) == Some(i)
  {
  }

  /** When nothing in the listing matches, a matching device inserted at any position
      is what the scan finds. */
  lemma InsertedDeviceIsFound(devs: seq<Device>, name: string, d: Device, at: nat)
    requires at <= |devs|
    requires FirstMatch(devs, name).None?
    requires Matches(d, name)
    ensures FirstMatch(devs[..at] + [d] + devs[at..], name) == Some(at)
  {
    var devs' := devs[..at] + [d] + devs[at..];
    forall j | 0 <= j < at
      ensures !Matches(devs'[j], name)
    {
      assert devs'[j] == devs[j];
    }
    FirstMatchAt(devs', name, at);
  }

  /** Matching ignores case on both sides and treats name and host differently: the
      listed device "Web01" at 10.0.0.5 is found by "web" (part of its name) and by
      "10.0.0.5" (its whole host), but not by "10.0.0", which is only part of its host. */
  lemma HostNeedsWholeMatch()
    ensures Matches(Device(1, "Web01", "10.0.0.5", "", Active), "web")
    ensures Matches(Device(1, "Web01", "10.0.0.5", "", Active), "10.0.0.5")
    ensures !Matches(Device(1, "Web01", "10.0.0.5", "", Active), "10.0.0")
    ensures Contains("10.0.0.5", "10.0.0")
  {
  }
}
