/**
 Starting a stream on a bridge: which requests are sent, when another client may be thrown out,
 and what the replies do to the bridge object.
 */
module TakeoverPolicy {
  import opened Prelude
  import opened BridgeData

  const UNAUTHORIZED_USER := 1
  const RESOURCE_NOT_AVAILABLE := 3
  const PARAMETER_NOT_AVAILABLE := 6
  const CANT_ACTIVATE := 307
  const V2_UNAUTHORIZED_USER := 401
  const V2_IS_BUSY := 503
  const V2_BODY_ERROR := 400

  datatype Override = Never | SameGroup | Always

  datatype Request = Request(group: string, activate: bool)

  /** An entry of a version 1 reply: no error, or an error with perhaps a type. */
  datatype Entry = Clean | Error(code: Option<int>)

  /** The parts of a reply that are looked at; `errors` are the http errors of a version 2 reply. */
  datatype Reply =
    | NoAnswer
    | Answer(isArray: bool, entries: seq<Entry>, errors: seq<Option<int>>)

  /** The bridge object and the requests sent; the n-th request gets the n-th reply of the script. */
  datatype Talk = Talk(bridge: Bridge, sent: seq<Request>)

  type Script = nat -> Reply

  /** `NoGroup`: the code dereferences the selected group and there is none. */
  datatype Outcome = Started | NotStarted | NoGroup

  // ---------------------------------------------------------------- replies

  /** A reply that reports no error. */
  ghost predicate Accepts(v2: bool, reply: Reply) {
    reply.Answer? &&
    if v2 then forall k :: 0 <= k < |reply.errors| ==> reply.errors[k].None?
    else reply.isArray && forall k :: 0 <= k < |reply.entries| ==> reply.entries[k].Clean?
  }

  function FirstCode(errors: seq<Option<int>>, i: nat): Option<int>
    requires i <= |errors|
    decreases |errors| - i
  {
    if i == |errors| then None else if errors[i].Some? then errors[i] else FirstCode(errors, i + 1)
  }

  function FirstError(entries: seq<Entry>, i: nat): Entry
    requires i <= |entries|
    decreases |entries| - i
  {
    if i == |entries| then Clean else if entries[i].Error? then entries[i] else FirstError(entries, i + 1)
  }

  function DeleteFirst(groups: seq<Group>, id: string): seq<Group> {
    if groups == [] then []
    else if groups[0].id == id then groups[1..]
    else [groups[0]] + DeleteFirst(groups[1..], id)
  }

  function OnV2Error(b: Bridge, code: int): Bridge {
    if code == V2_UNAUTHORIZED_USER then b.(authorized := false)
    else if code == V2_IS_BUSY || code == V2_BODY_ERROR then b.(busy := true)
    else b
  }

  predicate IsNotExistingOrInvalidGroup(code: int) {
    code == RESOURCE_NOT_AVAILABLE || code == PARAMETER_NOT_AVAILABLE
  }

  function SelectedDeleted(b: Bridge): Bridge { b.(groups := DeleteFirst(b.groups, b.selectedGroup)) }

  function OnV1Error(b: Bridge, code: int): Bridge {
    if code == UNAUTHORIZED_USER then b.(authorized := false)
    else if IsNotExistingOrInvalidGroup(code) then SelectedDeleted(b)
    else if code == CANT_ACTIVATE then b.(busy := true)
    else b
  }

  /** What a reply does to the bridge, and whether the request was accepted. */
  function Checked(b: Bridge, reply: Reply): (bool, Bridge) {
    if reply.NoAnswer? then (false, b.(validIp := false))
    else if b.IsSupportingClipV2() then CheckedV2(b, reply.errors)
    else if !reply.isArray then (false, b)
    else CheckedV1(b, reply.entries)
  }

  function CheckedV2(b: Bridge, errors: seq<Option<int>>): (bool, Bridge) {
    match FirstCode(errors, 0)
    case Some(code) => (false, OnV2Error(b, code))
    case None => (true, b.(busy := false))
  }

  function CheckedV1(b: Bridge, entries: seq<Entry>): (bool, Bridge) {
    match FirstError(entries, 0)
    case Error(Some(code)) => (false, OnV1Error(b, code))
    case Error(None) => (false, b)
    case Clean => (true, b.(busy := false))
  }

  function Put(t: Talk, script: Script, r: Request): (bool, Talk) {
    var (ok, b) := Checked(t.bridge, script(|t.sent|));
    (ok, Talk(b, t.sent + [r]))
  }

  // ---------------------------------------------------------------- groups

  /** The first group that is active for another client. */
  function OwnedByOther(b: Bridge, i: nat): nat
    requires i <= |b.groups|
    decreases |b.groups| - i
  {
    if i == |b.groups| || (b.groups[i].active && b.groups[i].owner != b.appId) then i else OwnedByOther(b, i + 1)
  }

  predicate HasOtherOwner(b: Bridge) { OwnedByOther(b, 0) < |b.groups| }

  function FirstOther(b: Bridge): Group
    requires HasOtherOwner(b)
  {
    b.groups[OwnedByOther(b, 0)]
  }

  /** The first group with the id is set. */
  function SetFirst(groups: seq<Group>, id: string, active: bool, owner: string): seq<Group> {
    if groups == [] then []
    else if groups[0].id == id then [groups[0].(active := active, owner := owner)] + groups[1..]
    else [groups[0]] + SetFirst(groups[1..], id, active, owner)
  }

  function WithGroup(b: Bridge, id: string, active: bool, owner: string): Bridge {
    b.(groups := SetFirst(b.groups, id, active, owner))
  }

  function Deactivated(t: Talk, script: Script, id: string): (bool, Talk) {
    var (ok, u) := Put(t, script, Request(id, false));
    (ok, if ok then u.(bridge := WithGroup(u.bridge, id, false, "")) else u)
  }

  // ---------------------------------------------------------------- starting

  predicate MayStop(b: Bridge, level: Override)
    requires HasOtherOwner(b)
    requires level.SameGroup? ==> b.IsValidGroupSelected()
  {
    level.Always? || (level.SameGroup? && b.GetGroup().value.id == FirstOther(b).id)
  }

  predicate MissesGroupAtOnce(b: Bridge, level: Override) {
    b.IsSupportingClipV2() && HasOtherOwner(b) && level.SameGroup? && !b.IsValidGroupSelected()
  }

  /** Version 2 is kept up to date by events, so a stream of another client is stopped beforehand. */
  function Prepared(t: Talk, script: Script, level: Override): Talk
    requires !MissesGroupAtOnce(t.bridge, level)
  {
    var b := t.bridge;
    if b.IsSupportingClipV2() && HasOtherOwner(b) && MayStop(b, level) then Deactivated(t, script, FirstOther(b).id).1 else t
  }

  function Execute(t: Talk, script: Script, activate: bool): (bool, Talk) {
    Put(t, script, Request(t.bridge.selectedGroup, activate))
  }

  /** Always: the other client is stopped, and its group object is written once more. */
  function OtherStopped(t: Talk, script: Script, level: Override): Talk {
    if !level.Always? || !HasOtherOwner(t.bridge) then t
    else
      var k := OwnedByOther(t.bridge, 0);
      var (ok, u) := Deactivated(t, script, t.bridge.groups[k].id);
      if ok && k < |u.bridge.groups| then
        u.(bridge := u.bridge.(groups := u.bridge.groups[k := u.bridge.groups[k].(active := false, owner := "")]))
      else u
  }

  function Retried(t: Talk, script: Script, level: Override): (bool, Talk) {
    Execute(Execute(OtherStopped(t, script, level), script, false).1, script, true)
  }

  function Tried(t: Talk, script: Script, level: Override): (bool, Talk) {
    var (ok, u) := Execute(t, script, true);
    if !ok && u.bridge.busy && !level.Never? then Retried(u, script, level) else (ok, u)
  }

  function Finished(ok: bool, t: Talk, level: Override): (Outcome, Talk) {
    var b := t.bridge;
    if ok then
      if b.IsValidGroupSelected() then (Started, t.(bridge := WithGroup(b, b.selectedGroup, true, b.appId)))
      else (NoGroup, t)
    else if b.busy && b.IsValidGroupSelected() && !level.Never? then
      (NotStarted, t.(bridge := WithGroup(b, b.selectedGroup, false, b.GetGroup().value.owner)))
    else (NotStarted, t)
  }

  function StartStream(t: Talk, script: Script, level: Override): (Outcome, Talk) {
    if MissesGroupAtOnce(t.bridge, level) then (NoGroup, t)
    else
      var (ok, u) := Tried(Prepared(t, script, level), script, level);
      Finished(ok, u, level)
  }

  /** Stopping gives up the selected group when the bridge agrees. */
  function StopStream(t: Talk, script: Script): Talk {
    var (ok, u) := Execute(t, script, false);
    if ok && u.bridge.IsValidGroupSelected() then u.(bridge := WithGroup(u.bridge, u.bridge.selectedGroup, false, "")) else u
  }

  // ---------------------------------------------------------------- replies, proved

  lemma {:induction false} FirstCodeIsSound(errors: seq<Option<int>>, i: nat)
    requires i <= |errors|
    ensures FirstCode(errors, i).None? <==> forall k :: i <= k < |errors| ==> errors[k].None?
    decreases |errors| - i
  {
    if i < |errors| {
      FirstCodeIsSound(errors, i + 1);
    }
  }

  lemma {:induction false} FirstErrorIsSound(entries: seq<Entry>, i: nat)
    requires i <= |entries|
    ensures FirstError(entries, i).Clean? <==> forall k :: i <= k < |entries| ==> entries[k].Clean?
    decreases |entries| - i
  {
    if i < |entries| {
      FirstErrorIsSound(entries, i + 1);
    }
  }

  /** An exchange only changes these. */
  predicate SameSession(b: Bridge, c: Bridge) {
    c == b.(validIp := c.validIp, authorized := c.authorized, busy := c.busy, groups := c.groups)
  }

  lemma {:induction false} SameVersion(b: Bridge, c: Bridge)
    requires SameSession(b, c)
    ensures b.IsSupportingClipV2() == c.IsSupportingClipV2()
  {
  }

  lemma {:induction false} OnV1ErrorKeeps(b: Bridge, code: int)
    ensures SameSession(b, OnV1Error(b, code))
  {
    hide SelectedDeleted;
    SelectedDeletedKeeps(b);
  }

  lemma {:induction false} SelectedDeletedKeeps(b: Bridge)
    ensures SameSession(b, SelectedDeleted(b))
  {
    hide DeleteFirst;
  }

  lemma {:induction false} OnV2ErrorKeeps(b: Bridge, code: int)
    ensures SameSession(b, OnV2Error(b, code)) && OnV2Error(b, code).groups == b.groups
  {
  }

  lemma {:induction false} CheckedV2IsExact(b: Bridge, errors: seq<Option<int>>)
    ensures CheckedV2(b, errors).0 <==> forall k :: 0 <= k < |errors| ==> errors[k].None?
    ensures CheckedV2(b, errors).0 ==> CheckedV2(b, errors).1 == b.(busy := false)
    ensures SameSession(b, CheckedV2(b, errors).1) && CheckedV2(b, errors).1.groups == b.groups
  {
    hide FirstCode;
    hide OnV2Error;
    FirstCodeIsSound(errors, 0);
    if FirstCode(errors, 0).Some? {
      OnV2ErrorKeeps(b, FirstCode(errors, 0).value);
    }
  }

  lemma {:induction false} CheckedV1IsExact(b: Bridge, entries: seq<Entry>)
    ensures CheckedV1(b, entries).0 <==> forall k :: 0 <= k < |entries| ==> entries[k].Clean?
    ensures CheckedV1(b, entries).0 ==> CheckedV1(b, entries).1 == b.(busy := false)
    ensures SameSession(b, CheckedV1(b, entries).1)
  {
    hide FirstError;
    hide OnV1Error;
    FirstErrorIsSound(entries, 0);
    match FirstError(entries, 0)
    case Error(Some(code)) => OnV1ErrorKeeps(b, code);
    case _ =>
  }

  /** A request succeeds exactly when its reply reports no error, and the bridge is not busy then. */
  lemma {:induction false} CheckedIsExact(b: Bridge, reply: Reply)
    ensures Checked(b, reply).0 <==> Accepts(b.IsSupportingClipV2(), reply)
    ensures Checked(b, reply).0 ==> Checked(b, reply).1 == b.(busy := false)
    ensures SameSession(b, Checked(b, reply).1)
  {
    hide CheckedV1;
    hide CheckedV2;
    if reply.Answer? {
      CheckedV1IsExact(b, reply.entries);
      CheckedV2IsExact(b, reply.errors);
    }
  }
}
