# PRTG device module — a Dafny model of its decision layer

The `prtg` Ansible module keeps one device of a Paessler PRTG monitoring server in a
declared state: present or absent, and paused or not. Each run lists the devices,
finds the target by name or host, and then decides on one action. The action is to
duplicate a template device, pause or unpause the device, delete it, or do nothing.
Every PRTG API call's status is checked before the run goes on. In check mode the run
reports whether anything would change, but it makes no call that changes the server.

This project models that logic as pure functions over immutable values:

- `Wrappers`: `Option` and `Result`.
- `Text`: the Python string operations the module uses, over ASCII. These are `lower`,
  the substring test `in`, `endswith` and `rstrip`.
- `Params`: the insertion-ordered parameter dict. `api_call` writes `username` and
  `passhash` into it.
- `Api`: `validate_response`, the `!= 200` test every caller makes, the URL `api_call`
  builds, and the five requests a lookup by name can send.
- `Devices`: the first-match scan over the device listing, by name substring or whole
  host, ignoring case.
- `NewId`: the regex search `id%3D([0-9]+)` that recovers the duplicated device's id
  from the redirect URL.
- `Reconcile`: the decision table (`Decide`) and how it is carried out (`Execute`).
  `Invoke` is one whole run by device name. Server answers come in through a function
  `respond: Request -> Response`. A run yields the list of calls it issued and its
  `Outcome`, which is `Exit(changed)` or `Fail(msg)`; that is, `exit_json` or `fail_json`.
- `Convergence`: a model of what an accepting server does with each action, and the
  proof that a second run then decides to do nothing. The model assumes that PRTG
  creates a duplicated device paused, which is why the module unpauses it only when
  `enabled` is true; a disabled creation therefore leaves the new device paused
  (`Convergence.Effect`).

Some behaviours of the code are easy to miss; the model follows the code in each:

- The module is not idempotent when several devices match the name. It deletes only
  the first device that matches the target by name or host, so when two devices match, the
  next run deletes the second one (`Convergence.SecondDeleteWithTwoMatches`).
  Idempotence is therefore proved only when every matching device carries the same id
  (`Convergence.SecondRunIsNoOp`).
- The code tests `device_id` for truth. A first match whose `objid` is 0 is therefore
  treated as "no device" (`Devices.Resolve`).
- A status of 0 is treated like a missing status: "Unable to reach API server".
- The redirect marker is the URL-encoded `id%3D`, and it is matched case-sensitively.
  It is not a plain `id=`.

## Model

| member | source | states |
|---|---|---|
| `Text.Lower` | plugins/modules/prtg.py:190 | the result has no upper-case ASCII letter; each upper-case letter becomes its lower-case counterpart and every other character is kept |
| `Text.LowerIdempotent` | plugins/modules/prtg.py:190 | lower-casing twice is lower-casing once |
| `Text.Contains` | plugins/modules/prtg.py:190 | `needle in hay` holds exactly when the needle occurs at some position of the haystack |
| `Text.TrimTrailing` | plugins/modules/prtg.py:101 | `rstrip('/')` yields a prefix that does not end in `/`, and everything it removed is `/` |
| `Text.TrimTrailingUnique` | plugins/modules/prtg.py:101 | those three properties determine the `rstrip` result: any prefix meeting them equals it |
| `Params.Put` | plugins/modules/prtg.py:106-107 | dict assignment: the key maps to the new value, other keys keep their values, an existing key keeps its position, a new key is appended, and keys stay unique |
| `Params.WithAuth` | plugins/modules/prtg.py:105-107 | `username` and `passhash` are set, overwriting same-named entries; every other key keeps its value; the key set gains exactly those two |
| `Api.ValidateResponse` | plugins/modules/prtg.py:116-132 | missing or zero status, 401, 404 and 400 are fatal, each with its own message; 200 and 302 come back as themselves, and every other status comes back as 0 |
| `Api.Guard` | plugins/modules/prtg.py:182-183 | a caller goes on exactly when the status is 200, so 302 fails too; a fatal verdict's message wins over the caller's message |
| `Api.GuardFollowsClassification` | plugins/modules/prtg.py:116-132 | the caller's reaction agrees with a six-way classification of how a call ends: accepted, authentication, endpoint, malformed, unreachable, unexpected |
| `Api.BaseUrl` | plugins/modules/prtg.py:99-103 | the conditional strip equals an unconditional `rstrip('/')` |
| `Api.RequestUrl` | plugins/modules/prtg.py:97-113 | the URL is the stripped base, then the path, then `?`, then the encoded parameters with the credentials added |
| `Api.TrailingSlashesIgnored` | plugins/modules/prtg.py:99-103 | any number of trailing slashes on the configured URL gives the same request URL |
| `Api.ListRequest` | plugins/modules/prtg.py:180 | the listing reads `/api/table.json`, changes nothing, and sends the keys content, output, columns and count in that order |
| `Api.GroupRequest` | plugins/modules/prtg.py:230 | the group lookup reads `/api/getobjectstatus.htm`, changes nothing, and sends the keys id, name and show |
| `Api.DuplicateRequest` | plugins/modules/prtg.py:242 | the duplication calls `/api/duplicateobject.htm`, changes the server, and sends the keys id, name, host and targetid |
| `Api.PauseRequest` | plugins/modules/prtg.py:142 | the pause call goes to `/api/pause.htm`, changes the server, and sends the keys id, pausemsg and action |
| `Api.DeleteRequest` | plugins/modules/prtg.py:281 | the delete call goes to `/api/deleteobject.htm`, changes the server, and sends the keys id and approve |
| `Api.ReadRequestFields` | plugins/modules/prtg.py:180 | the listing asks for up to 10000 devices, the group lookup names the template, and neither call changes the server |
| `Api.DuplicateRequestFields` | plugins/modules/prtg.py:242 | the duplication names the template, sets both the new name and the new host to the target, and names the target group |
| `Api.PauseRequestFields` | plugins/modules/prtg.py:134-142 | the pause call sends action 0 exactly when pausing and 1 exactly when unpausing, always with the message "paused by ansible" |
| `Api.DeleteRequestFields` | plugins/modules/prtg.py:281 | the delete call names the device and sets `approve` to `'1'` |
| `Devices.NameMatches` | plugins/modules/prtg.py:190 | the name test holds exactly when the lower-cased target occurs somewhere in the lower-cased device name |
| `Devices.HostMatches` | plugins/modules/prtg.py:195 | the host test holds exactly when host and target have the same length and agree character by character up to ASCII case |
| `Devices.MatchIgnoresCase` | plugins/modules/prtg.py:190-195 | lower-casing the target, the listed name or the listed host beforehand changes neither test |
| `Devices.FirstMatch` | plugins/modules/prtg.py:188-197 | the scan stops at a matching device with no earlier match, or finds nothing when no device matches |
| `Devices.Resolve` | plugins/modules/prtg.py:187-197 | the device treated as existing matches, has a non-zero id and is first in listing order; whenever some position is the first match, the result is that device when its id is non-zero and nothing when its id is 0; if all ids are non-zero, none is found exactly when nothing matches |
| `Devices.FirstMatchAt` | plugins/modules/prtg.py:188-197 | a matching position with no earlier match is the scan's result |
| `Devices.InsertedDeviceIsFound` | plugins/modules/prtg.py:188-197 | in a listing with no match, a matching device inserted anywhere is the one found |
| `Devices.HostNeedsWholeMatch` | plugins/modules/prtg.py:190-197 | "Web01" at 10.0.0.5 is found by "web" and by "10.0.0.5" but not by "10.0.0", although its host contains "10.0.0" |
| `NewId.DigitRun` | plugins/modules/prtg.py:248 | the greedy `[0-9]+` takes only digits and stops at the end of the text or before a non-digit |
| `NewId.DigitRunExact` | plugins/modules/prtg.py:248 | any digit stretch that ends at the end or before a non-digit is exactly that run |
| `NewId.FindMatch` | plugins/modules/prtg.py:248-249 | the search returns the leftmost position where the marker and a digit start, or reports that there is none |
| `NewId.ExtractNewId` | plugins/modules/prtg.py:248-253 | there is no id exactly when no marker is followed by a digit; otherwise the id is the non-empty digit run after the leftmost such marker |
| `NewId.ExtractFromRedirect` | plugins/modules/prtg.py:248-251 | extraction inverts embedding: text without the marker, then `id%3D`, digits, and a non-digit tail gives back exactly those digits |
| `NewId.RedirectExample` | plugins/modules/prtg.py:248-251 | `/device.htm?id%3D4321&tabid=1` yields `4321` |
| `Reconcile.Given` | plugins/modules/prtg.py:221-227 | Python truth of an optional text parameter: a missing value and the empty string are false, any non-empty string is true |
| `Reconcile.Decide` | plugins/modules/prtg.py:219-292 | the decision table. Create exactly when present, not found and a template is given; refuse when the template is missing. Unpause exactly when enabled and paused (0); pause exactly when disabled and active (-1). Delete exactly when absent and found. Otherwise nothing |
| `Reconcile.Conclude` | plugins/modules/prtg.py:282-283 | a call ends well exactly on 200 and fails exactly otherwise, with the verdict's message when it is fatal and the caller's message when it is not |
| `Reconcile.PauseDevice` | plugins/modules/prtg.py:134-147 | `pause_device` issues one pause call and ends well exactly on 200; otherwise it fails with the fatal verdict's message, or with "Failed to pause device" when the verdict is not fatal |
| `Reconcile.TargetGroup` | plugins/modules/prtg.py:226-239 | a given `dest_group` wins and costs no call; otherwise the template's parent group is looked up: an accepted lookup that names a group yields that group, an accepted lookup without one fails with "Unable to find parent group of clone_from", and a rejected lookup fails with the verdict's message or "API request failed" |
| `Reconcile.AfterDuplicate` | plugins/modules/prtg.py:243-257 | a rejected duplication fails with the verdict's message or "API request failed" and issues nothing more; an accepted one without an id in the URL fails with "Unable to parse new device ID from return request"; with an id the new device is unpaused when enabled, and a disabled creation ends with a change and no further call; it ends well exactly when the answer was accepted, carried an id, and every later call was accepted |
| `Reconcile.CreateDevice` | plugins/modules/prtg.py:226-260 | creation issues the group lookup (unless `dest_group` is given), then the duplication named and hosted after the target into the resolved group, then the unpause of the extracted id only when enabled and the duplication was accepted with an id; a failed group stage ends it with its message and no duplication; it ends with a change exactly when an id was extracted and every call it issued was accepted; a rejected unpause of the new device ends it as `pause_device` fails |
| `Reconcile.Execute` | plugins/modules/prtg.py:219-292 | check mode makes no call and reports the change the action makes; keeping makes no call and reports no change; a real run that ends well reports the same change; a real creation is the creation above; a pause, unpause or delete is one call, and a delete fails with the fatal verdict's message or else "Failed to delete device"; every mutating call serves the action |
| `Reconcile.Invoke` | plugins/modules/prtg.py:173-296 | a run starts with the listing; a rejected listing ends it with the verdict's message or "API request failed"; check mode issues only the listing, never a mutating call; a rejected call is always the last one; after an accepted listing a run that ends well reports the change of the action decided for the resolved device, a run with nothing to do issues only the listing and reports no change, a refused run fails with the refusal's message after the listing, check mode otherwise reports the decided action's change, a real run issues the decided pause, unpause or delete call (or the creation's calls) right after the listing and ends as that call or creation ends, and every mutating call serves the decided action |
| `Reconcile.CheckModePredictsChange` | plugins/modules/prtg.py:219-286 | when a real run ends well, check mode reports the same `changed`; a failing check-mode run fails in the same way when run for real |
| `Reconcile.CooperativeRun` | plugins/modules/prtg.py:219-292 | against a server that accepts everything, the real run ends as check mode predicts and issues exactly the table's calls (group lookup if needed, duplication, and the unpause only when enabled) |
| `Reconcile.CreateNeedsTemplate` | plugins/modules/prtg.py:219-222 | creating without `clone_from` fails after the listing, before any other call, in check mode too |
| `Reconcile.ExampleCreation` | plugins/modules/prtg.py:226-260 | template 1234, group 5678 and a redirect to id 4321 give the duplication and then the unpause of 4321 |
| `Reconcile.CreateFlowExample` | plugins/modules/prtg.py:219-260 | the whole run for that example: listing, duplication, unpause of 4321, changed |
| `Convergence.NamesakeMatches` | plugins/modules/prtg.py:190 | a device named after the target passes the name test |
| `Convergence.CreatedDeviceSettles` | plugins/modules/prtg.py:219-273 | after a creation, the next run finds the new device in its desired pause state and does nothing |
| `Convergence.PausedDeviceSettles` | plugins/modules/prtg.py:263-273 | after a pause or unpause, the next run finds the same device in its desired state and does nothing |
| `Convergence.DeletedDeviceIsGone` | plugins/modules/prtg.py:277-286 | after deleting the only target, the next scan finds nothing |
| `Convergence.SecondRunIsNoOp` | plugins/modules/prtg.py:219-292 | when listed ids are non-zero and the target names one device, a second run decides to do nothing |
| `Convergence.SecondDeleteWithTwoMatches` | plugins/modules/prtg.py:277-286 | with web01 and web02 listed, removing "web" deletes web01, and the next run deletes web02 |

## Left out

- The lookup by `device_id` (plugins/modules/prtg.py:199-208) is not modelled. It reads
  `dev`, which is unbound on that path, so a non-empty answer raises a `NameError`. An
  empty answer leaves the given id set, so a missing device counts as existing. Only
  the lookup by name is modelled, with the matched device passed on explicitly.
- Transport and the Ansible runtime are left out as I/O: `fetch_url`, `resp.close()`,
  `AnsibleModule` argument parsing, `validate_certs` and `module.boolean`. Server answers
  are the `respond` parameter, and `exit_json`/`fail_json` are the `Outcome` value.
- `Api.RequestUrl`: `urlencode` is taken as a parameter `encode`. Its escaping is a
  library call and is not modelled.
- JSON and XML parsing are left out. The parsed device table and the parent group id
  (`group_result[1][0].attrib['thisid']`) arrive as fields of `Response`. A malformed
  body, and the exceptions it would raise, are not modelled.
- `Text.Lower`: only ASCII letters are lower-cased. Unicode case mapping is not modelled.
- Strings stand for every parameter value the module reads from its arguments.
  `device_name` is always a string on the name path. The case where `device_id` is
  given but empty and `device_name` is missing is not modelled; there, `.lower()` on
  `None` raises as soon as the listing holds a device, while an empty listing never
  enters the loop and so raises nothing.
- `Convergence.SecondRunIsNoOp` requires that all devices matching the target share one
  id and that no listed id is 0. Without these conditions the code is not idempotent.
