/** The query-parameter dictionaries that `api_call` receives, extends with the
    credentials and hands to `urlencode` (plugins/modules/prtg.py:97-113). */
module Params {
  import opened Wrappers

  /** A scalar parameter value: the module passes both text and integers. */
  datatype Value = Str(s: string) | Num(n: int)

  /** A Python dict of parameters: key/value pairs in insertion order. */
  type Params = seq<(string, Value)>

  function Keys(p: Params): set<string>
  {
    if |p| == 0 then {} else {p[0].0} + Keys(p[1..])
  }

  /** The keys in insertion order: the order in which `urlencode` writes them. */
  function KeyList(p: Params): (r: seq<string>)
    ensures |r| == |p| && forall i :: 0 <= i < |p| ==> r[i] == p[i].0
  {
    seq(|p|, i requires 0 <= i < |p| => p[i].0)
  }

  /** No key appears twice, as in every Python dict. */
  predicate UniqueKeys(p: Params)
  {
    |p| == 0 || (p[0].0 !in Keys(p[1..]) && UniqueKeys(p[1..]))
  }

  /** `p.get(k)`: the value stored under `k`, if any. */
  function Lookup(p: Params, k: string): (r: Option<Value>)
    ensures r.Some? <==> k in Keys(p)
    ensures r.Some? ==> (k, r.value) in p
  {
    if |p| == 0 then None
    else if p[0].0 == k then Some(p[0].1)
    else Lookup(p[1..], k)
  }

  /** Dict assignment `p[k] = v`: an existing key keeps its position and gets the new
      value, a new key is appended at the end. */
  function Put(p: Params, k: string, v: Value): (r: Params)
    ensures Lookup(r, k) == Some(v)
    ensures forall k' :: k' != k ==> Lookup(r, k') == Lookup(p, k')
    ensures Keys(r) == Keys(p) + {k}
    ensures UniqueKeys(p) ==> UniqueKeys(r)
    ensures k in Keys(p) ==> |r| == |p| && forall i :: 0 <= i < |p| ==> r[i].0 == p[i].0
    ensures k !in Keys(p) ==> r == p + [(k, v)]
  {
    if |p| == 0 then [(k, v)]
    else if p[0].0 == k then [(k, v)] + p[1..]
    else [p[0]] + Put(p[1..], k, v)
  }

  /** plugins/modules/prtg.py:106-107: the credentials are written into the caller's parameters,
      replacing any same-named entries and leaving every other entry alone. */
  function WithAuth(p: Params, user: string, passhash: string): (r: Params)
    ensures Lookup(r, "username") == Some(Str(user))
    ensures Lookup(r, "passhash") == Some(Str(passhash))
    ensures forall k :: k != "username" && k != "passhash" ==> Lookup(r, k) == Lookup(p, k)
    ensures Keys(r) == Keys(p) + {"username", "passhash"}
    ensures UniqueKeys(p) ==> UniqueKeys(r)
  {
    assert "username"[0] != "passhash"[0];
    Put(Put(p, "username", Str(user)), "passhash", Str(passhash))
  }
}
