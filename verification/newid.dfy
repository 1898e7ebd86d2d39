/** Recovering the id of a freshly duplicated device from the URL PRTG redirects to:
    the search for `id%3D([0-9]+)` at plugins/modules/prtg.py:248-253. */
module NewId {
  import opened Wrappers
  import opened Text

  /** The URL-encoded `id=` that precedes the new id. */
  const Marker := "id%3D"

  /** The pattern matches at position `i`: the marker followed by at least one digit. */
  predicate MatchAt(url: string, i: nat)
  {
    i + |Marker| < |url| && url[i..i + |Marker|] == Marker && IsDigit(url[i + |Marker|])
  }

  /** The number of consecutive digits starting at `i`, as the greedy `[0-9]+` takes them. */
  function DigitRun(s: string, i: nat): (n: nat)
    requires i <= |s|
    ensures i + n <= |s|
    ensures forall k :: i <= k < i + n ==> IsDigit(s[k])
    ensures i + n == |s| || !IsDigit(s[i + n])
    decreases |s| - i
  {
    if i < |s| && IsDigit(s[i]) then 1 + DigitRun(s, i + 1) else 0
  }

  /** A digit run is determined by where it starts: any stretch of digits that ends at
      the end of the text or before a non-digit is the run. */
  lemma DigitRunExact(s: string, i: nat, n: nat)
    requires i + n <= |s|
    requires forall k :: i <= k < i + n ==> IsDigit(s[k])
    requires i + n == |s| || !IsDigit(s[i + n])
    ensures DigitRun(s, i) == n
  {
  }

  /** Where the search finds the pattern, looking from `from` onwards: the leftmost
      matching position, or `None` if there is none. */
  function FindMatch(url: string, from: nat): (r: Option<nat>)
    ensures r.Some? ==> from <= r.value && MatchAt(url, r.value)
    ensures r.Some? ==> forall j: nat :: from <= j < r.value ==> !MatchAt(url, j)
    ensures r.None? ==> forall j: nat :: from <= j ==> !MatchAt(url, j)
    decreases |url| - from
  {
    if from >= |url| then None
    else if MatchAt(url, from) then Some(from)
    else FindMatch(url, from + 1)
  }

  /** The new device's id: the digits of the leftmost match, taken greedily; `None` when
      the URL holds no marker followed by a digit, which ends the run. */
  function ExtractNewId(url: string): (r: Option<string>)
    ensures r.None? <==> forall i: nat :: !MatchAt(url, i)
    ensures r.Some? ==> exists i: nat :: MatchAt(url, i)
                                   && (forall j: nat :: j < i ==> !MatchAt(url, j))
                                   && r.value == url[i + |Marker|..i + |Marker| + DigitRun(url, i + |Marker|)]
    ensures r.Some? ==> |r.value| > 0 && forall k :: 0 <= k < |r.value| ==> IsDigit(r.value[k])
  {
    match FindMatch(url, 0)
    case None => None
    case Some(i) =>
      var start := i + |Marker|;
      Some(url[start..start + DigitRun(url, start)])
  }

  /** Extraction inverts the way PRTG writes the id into its redirect: text in which the
      marker does not start, then the marker, a run of digits, and anything that does
      not begin with a digit gives back exactly that run. */
  lemma ExtractFromRedirect(prefix: string, digits: string, rest: string)
    requires !Contains(prefix + Marker[..4], Marker)
    requires |digits| > 0 && forall k :: 0 <= k < |digits| ==> IsDigit(digits[k])
    requires |rest| == 0 || !IsDigit(rest[0])
    ensures ExtractNewId(prefix + Marker + digits + rest) == Some(digits)
  {
    var url := prefix + Marker + digits + rest;
    var start := |prefix| + |Marker|;
    forall j: nat | j < |prefix|
      ensures !MatchAt(url, j)
    {
      var head := prefix + Marker[..4];
      assert head[j..j + |Marker|] == url[j..j + |Marker|];
      assert !OccursAt(head, Marker, j);
    }
    assert url[|prefix|..start] == Marker;
    assert url[start] == digits[0];
    assert MatchAt(url, |prefix|);
    forall k | start <= k < start + |digits|
      ensures IsDigit(url[k])
    {
      assert url[k] == digits[k - start];
    }
    assert start + |digits| == |url| || url[start + |digits|] == rest[0];
    DigitRunExact(url, start, |digits|);
    assert url[start..start + |digits|] == digits;
  }

  /** The shape PRTG answers a duplication with yields the id 4321. */
  lemma RedirectExample()
    ensures ExtractNewId("/device.htm?id%3D4321&tabid=1") == Some("4321")
  {
    var prefix := "/device.htm?";
    assert prefix + Marker + "4321" + "&tabid=1" == "/device.htm?id%3D4321&tabid=1";
    var head := prefix + Marker[..4];
    forall i: nat
      ensures !OccursAt(head, Marker, i)
    {
      if i + |Marker| <= |head| {
        assert head[i..i + |Marker|][4] == head[i + 4];
        assert 'D' !in head;
      }
    }
    ExtractFromRedirect(prefix, "4321", "&tabid=1");
  }
}
