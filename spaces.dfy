/** The frontend's reading of a route's security statuses
    (frontend/pages/index.tsx:22-37) and of the two mainland flags
    (frontend/pages/index.tsx:319-324). `getSpaces` is not called anywhere. */
module Spaces {
  import opened Wrappers
  import opened Text

  const SaferRouteSuffix: string := ". Some providers take a safer, but longer route"

  /** The three predicates handed to `securities.find`. */
  datatype Band = High | Low | NonPositive

  predicate InBand(b: Band, s: real) {
    match b
    case High => s >= 0.45
    case Low => s > 0.0 && s < 0.45
    case NonPositive => s <= 0.0
  }

  /** `securities.find(pred)`: the first value in the band, if any. */
  function Find(secs: seq<real>, b: Band): (f: Option<real>)
    ensures f.None? <==> forall i :: 0 <= i < |secs| ==> !InBand(b, secs[i])
    ensures f.Some? ==> exists i :: 0 <= i < |secs| && secs[i] == f.value && InBand(b, secs[i])
                          && forall j :: 0 <= j < i ==> !InBand(b, secs[j])
  {
    if |secs| == 0 then None
    else if InBand(b, secs[0]) then Some(secs[0])
    else
      var rest := Find(secs[1..], b);
      assert forall i :: 1 <= i < |secs| ==> secs[i] == secs[1..][i - 1];
      if rest.Some? then
        var i :| 0 <= i < |secs[1..]| && secs[1..][i] == rest.value && InBand(b, secs[1..][i])
                 && forall j :: 0 <= j < i ==> !InBand(b, secs[1..][j]);
        assert secs[i + 1] == rest.value;
        rest
      else rest
  }

  /** A found number is truthy unless it is zero. */
  predicate Truthy(f: Option<real>) {
    f.Some? && f.value != 0.0
  }

  predicate HasHighsec(secs: seq<real>) {
    exists i :: 0 <= i < |secs| && secs[i] >= 0.45
  }

  predicate HasLowsec(secs: seq<real>) {
    exists i :: 0 <= i < |secs| && secs[i] > 0.0 && secs[i] < 0.45
  }

  /** Nullsec is reported when the first non-positive security is negative. */
  predicate NullsecReported(secs: seq<real>) {
    exists i :: 0 <= i < |secs| && secs[i] < 0.0 && forall j :: 0 <= j < i ==> secs[j] > 0.0
  }

  function Labels(secs: seq<real>): seq<string> {
    (if HasHighsec(secs) then ["highsec"] else [])
    + (if HasLowsec(secs) then ["lowsec"] else [])
    + (if NullsecReported(secs) then ["nullsec"] else [])
  }

  lemma FindHigh(secs: seq<real>)
    ensures Truthy(Find(secs, High)) <==> HasHighsec(secs)
  {
    if Find(secs, High).Some? {
      assert Find(secs, High).value >= 0.45;
    }
  }

  lemma FindLow(secs: seq<real>)
    ensures Truthy(Find(secs, Low)) <==> HasLowsec(secs)
  {
    if Find(secs, Low).Some? {
      assert Find(secs, Low).value > 0.0;
    }
  }

  lemma {:induction false} FindNonPositive(secs: seq<real>)
    ensures Truthy(Find(secs, NonPositive)) <==> NullsecReported(secs)
  {
    if |secs| > 0 && secs[0] > 0.0 {
      var tail := secs[1..];
      FindNonPositive(tail);
      if NullsecReported(secs) {
        var i :| 0 <= i < |secs| && secs[i] < 0.0 && forall j :: 0 <= j < i ==> secs[j] > 0.0;
        assert i > 0;
        assert tail[i - 1] < 0.0 && forall j :: 0 <= j < i - 1 ==> tail[j] == secs[j + 1] > 0.0;
      }
      if NullsecReported(tail) {
        var i :| 0 <= i < |tail| && tail[i] < 0.0 && forall j :: 0 <= j < i ==> tail[j] > 0.0;
        assert secs[i + 1] < 0.0 && forall j :: 0 <= j < i + 1 ==> secs[j] > 0.0 by {
          forall j | 0 <= j < i + 1 ensures secs[j] > 0.0 {
            if j > 0 {
              assert secs[j] == tail[j - 1];
            }
          }
        }
      }
    }
  }

  /** `getSpaces`: the labels, in the order highsec, lowsec, nullsec, joined
      by ", ", and the safer-route remark exactly when lowsec or nullsec is
      reported. */
  method GetSpaces(secs: seq<real>) returns (text: string)
    ensures text == Join(Labels(secs), ", ") + (if HasLowsec(secs) || NullsecReported(secs) then SaferRouteSuffix else "")
  {
    var spaces: seq<string> := [];
    var contiguous := true;
    if Truthy(Find(secs, High)) {
      spaces := spaces + ["highsec"];
    }
    if Truthy(Find(secs, Low)) {
      spaces := spaces + ["lowsec"];
      contiguous := false;
    }
    if Truthy(Find(secs, NonPositive)) {
      spaces := spaces + ["nullsec"];
      contiguous := false;
    }
    FindHigh(secs);
    FindLow(secs);
    FindNonPositive(secs);
    assert spaces == Labels(secs);
    text := Join(spaces, ", ") + (if contiguous then "" else SaferRouteSuffix);
  }

  /** A zero security hides the nullsec label when it is the first
      non-positive value, whatever negative values follow. */
  lemma ZeroHidesNullsec(secs: seq<real>, i: nat)
    requires i < |secs| && secs[i] == 0.0
    requires forall j :: 0 <= j < i ==> secs[j] > 0.0
    ensures !NullsecReported(secs)
    ensures "nullsec" !in Labels(secs)
  {
    forall k | 0 <= k < |secs| && secs[k] < 0.0
      ensures exists j :: 0 <= j < k && !(secs[j] > 0.0)
    {
      assert i < k;
    }
    assert Labels(secs) == (if HasHighsec(secs) then ["highsec"] else []) + (if HasLowsec(secs) then ["lowsec"] else []);
  }

  /** The contingent-highsec hint: hidden (`None`) until both mainland flags
      are known, then "Yes" (`true`) exactly when both are. */
  function ContingentHint(originMainland: Option<bool>, destinationMainland: Option<bool>): (hint: Option<bool>)
    ensures hint.Some? <==> originMainland.Some? && destinationMainland.Some?
    ensures hint == Some(true) <==> originMainland == Some(true) && destinationMainland == Some(true)
  {
    if originMainland.None? || destinationMainland.None? then None
    else Some(originMainland.value && destinationMainland.value)
  }
}
