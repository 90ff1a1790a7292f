/**
 Comparing the bridge before and after a procedure: which feedback messages describe
 what changed.
 */
module BridgeStreamingChecker {
  import opened Prelude
  import opened BridgeData
  import opened DifferenceReport

  const COLOR_TOLERANCE: real := 0.0274

  function Abs(x: real): real { if x < 0.0 then -x else x }

  predicate IsBridgeChanged(o: Bridge, n: Bridge) {
    o.id != n.id || o.name != n.name || o.ip != n.ip || o.modelId != n.modelId ||
    o.apiversion != n.apiversion || o.user != n.user || o.clientKey != n.clientKey
  }

  predicate IsGroupUpdated(o: Group, n: Group) {
    o.id != n.id || o.name != n.name || o.active != n.active || o.owner != n.owner
  }

  predicate IsLightUpdated(o: Light, n: Light) {
    || o.id != n.id
    || o.x != n.x || o.y != n.y
    || Abs(o.red - n.red) > COLOR_TOLERANCE || Abs(o.green - n.green) > COLOR_TOLERANCE
    || Abs(o.blue - n.blue) > COLOR_TOLERANCE
    || o.reachable != n.reachable
  }

  predicate GroupsDiffer(o: seq<Group>, n: seq<Group>) {
    |o| != |n| || exists i :: 0 <= i < |n| && IsGroupUpdated(o[i], n[i])
  }

  predicate LightsDiffer(o: seq<Light>, n: seq<Light>) {
    |o| != |n| || exists i :: 0 <= i < |n| && IsLightUpdated(o[i], n[i])
  }

  predicate IsHomeAutomationStateUpdated(o: Option<Group>, n: Option<Group>) {
    match (o, n)
    case (_, None) => false
    case (None, Some(_)) => true
    case (Some(a), Some(b)) => a.onState != b.onState || a.brightness != b.brightness
  }

  /** The comparisons, in the order in which differences are reported. */
  function Changes(o: Bridge, n: Bridge): (c: seq<bool>)
    ensures |c| == COMPARISONS
  {
    [!o.IsConnected() && n.IsConnected(),
     o.IsConnected() && !n.IsConnected(),
     !o.IsStreaming() && n.IsStreaming(),
     o.IsStreaming() && !n.IsStreaming(),
     IsBridgeChanged(o, n),
     GroupsDiffer(o.groups, n.groups),
     LightsDiffer(o.GetGroupLights(), n.GetGroupLights()),
     !n.IsStreaming() && IsHomeAutomationStateUpdated(o.GetGroup(), n.GetGroup())]
  }

  function Differences(o: Bridge, n: Bridge): seq<Difference> {
    Reported(Changes(o, n), COMPARISONS)
  }

  method AreGroupsUpdated(expected: seq<Group>, actual: seq<Group>) returns (updated: bool)
    ensures updated <==> GroupsDiffer(expected, actual)
  {
    if |actual| != |expected| {
      return true;
    }
    for i := 0 to |actual|
      invariant forall k :: 0 <= k < i ==> !IsGroupUpdated(expected[k], actual[k])
    {
      if IsGroupUpdated(expected[i], actual[i]) {
        return true;
      }
    }
    return false;
  }

  method AreLightsUpdated(expected: seq<Light>, actual: seq<Light>) returns (updated: bool)
    ensures updated <==> LightsDiffer(expected, actual)
  {
    if |actual| != |expected| {
      return true;
    }
    for i := 0 to |actual|
      invariant forall k :: 0 <= k < i ==> !IsLightUpdated(expected[k], actual[k])
    {
      if IsLightUpdated(expected[i], actual[i]) {
        return true;
      }
    }
    return false;
  }

  method CompareBridges(o: Bridge, n: Bridge) returns (differences: seq<Difference>)
    ensures differences == Differences(o, n)
  {
    ghost var c := Changes(o, n);
    differences := CompareConnection(o.IsConnected(), n.IsConnected(), o.IsStreaming(), n.IsStreaming(), c);
    var groups := AreGroupsUpdated(o.groups, n.groups);
    var lights := AreLightsUpdated(o.GetGroupLights(), n.GetGroupLights());
    var state := !n.IsStreaming() && IsHomeAutomationStateUpdated(o.GetGroup(), n.GetGroup());
    differences := AppendContents(differences, IsBridgeChanged(o, n), groups, lights, state, c);
  }

  /** The first four comparisons, given what they compare. */
  method CompareConnection(wasConnected: bool, connected: bool, wasStreaming: bool, streaming: bool, ghost c: seq<bool>)
    returns (differences: seq<Difference>)
    requires |c| == COMPARISONS
    requires c[0] == (!wasConnected && connected) && c[1] == (wasConnected && !connected)
    requires c[2] == (!wasStreaming && streaming) && c[3] == (wasStreaming && !streaming)
    ensures differences == Reported(c, 4)
  {
    differences := [];
    if !wasConnected && connected {
      differences := differences + [BridgeConnected];
    }
    assert differences == Reported(c, 1);
    if wasConnected && !connected {
      differences := differences + [BridgeDisconnected];
    }
    assert differences == Reported(c, 2);
    if !wasStreaming && streaming {
      differences := differences + [StreamingConnected];
    }
    assert differences == Reported(c, 3);
    if wasStreaming && !streaming {
      differences := differences + [StreamingDisconnected];
    }
  }

  /** The other four. */
  method AppendContents(first: seq<Difference>, bridge: bool, groups: bool, lights: bool, state: bool, ghost c: seq<bool>)
    returns (differences: seq<Difference>)
    requires |c| == COMPARISONS && first == Reported(c, 4)
    requires c[4] == bridge && c[5] == groups && c[6] == lights && c[7] == state
    ensures differences == Reported(c, COMPARISONS)
  {
    differences := first;
    if bridge {
      differences := differences + [BridgeChanged];
    }
    assert differences == Reported(c, 5);
    if groups {
      differences := differences + [GroupListUpdated];
    }
    assert differences == Reported(c, 6);
    if lights {
      differences := differences + [LightsUpdated];
    }
    assert differences == Reported(c, 7);
    if state {
      differences := differences + [GroupLightStateUpdated];
    }
  }

  /** A bridge does not differ from itself. */
  lemma {:induction false} NoDifferenceWithItself(b: Bridge)
    ensures Differences(b, b) == []
  {
    var c := Changes(b, b);
    assert !GroupsDiffer(b.groups, b.groups);
    assert !LightsDiffer(b.GetGroupLights(), b.GetGroupLights());
    NothingReported(c, COMPARISONS);
  }

  lemma {:induction false} NothingReported(c: seq<bool>, k: nat)
    requires |c| == COMPARISONS && k <= |c| && forall i :: 0 <= i < k ==> !c[i]
    ensures Reported(c, k) == []
  {
    if k > 0 {
      NothingReported(c, k - 1);
    }
  }

  /** Streaming edges are reported exactly when they happened, and never both. */
  lemma {:induction false} StreamingEdges(o: Bridge, n: Bridge)
    ensures StreamingConnected in Differences(o, n) <==> !o.IsStreaming() && n.IsStreaming()
    ensures StreamingDisconnected in Differences(o, n) <==> o.IsStreaming() && !n.IsStreaming()
  {
    var c := Changes(o, n);
    ReportedExactly(c, COMPARISONS);
    assert Index(StreamingConnected) == 2 && Index(StreamingDisconnected) == 3;
  }
}
