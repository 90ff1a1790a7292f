/**
 The order in which differences between two bridges are reported.
 */
module DifferenceReport {

  datatype Difference =
    | BridgeConnected | BridgeDisconnected | StreamingConnected | StreamingDisconnected
    | BridgeChanged | GroupListUpdated | LightsUpdated | GroupLightStateUpdated

  const COMPARISONS: nat := 8

  function Nth(k: nat): Difference
    requires k < COMPARISONS
  {
    if k == 0 then BridgeConnected
    else if k == 1 then BridgeDisconnected
    else if k == 2 then StreamingConnected
    else if k == 3 then StreamingDisconnected
    else if k == 4 then BridgeChanged
    else if k == 5 then GroupListUpdated
    else if k == 6 then LightsUpdated
    else GroupLightStateUpdated
  }

  function Index(d: Difference): (k: nat)
    ensures k < COMPARISONS && Nth(k) == d
  {
    match d
    case BridgeConnected => 0
    case BridgeDisconnected => 1
    case StreamingConnected => 2
    case StreamingDisconnected => 3
    case BridgeChanged => 4
    case GroupListUpdated => 5
    case LightsUpdated => 6
    case GroupLightStateUpdated => 7
  }

  /** What the first k comparisons report. */
  function Reported(c: seq<bool>, k: nat): seq<Difference>
    requires |c| == COMPARISONS && k <= |c|
  {
    if k == 0 then [] else if c[k - 1] then Reported(c, k - 1) + [Nth(k - 1)] else Reported(c, k - 1)
  }

  /** A difference is reported exactly when its comparison says so, and reports come in the fixed order,
      so none comes twice. */
  lemma {:induction false} ReportedExactly(c: seq<bool>, k: nat)
    requires |c| == COMPARISONS && k <= |c|
    ensures forall d :: d in Reported(c, k) <==> Index(d) < k && c[Index(d)]
    ensures forall i, j :: 0 <= i < j < |Reported(c, k)| ==> Index(Reported(c, k)[i]) < Index(Reported(c, k)[j])
  {
    if k > 0 {
      ReportedExactly(c, k - 1);
      var before := Reported(c, k - 1);
      assert forall i :: 0 <= i < |before| ==> before[i] in before;
    }
  }
}
