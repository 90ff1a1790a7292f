/**
 The effect mixer over whole runs.
 */
module MixerRuns {
  import opened Prelude
  import opened EffectOrder
  import opened Compositing
  import opened Mixer

  datatype Call =
    | AddEffect(effect: Option<Effect>)
    | AddEffectList(effects: seq<Option<Effect>>)
    | SetGroup(group: Option<seq<Light>>)
    | Render(frame: Frame)

  /** What a call means for the order of the effects. */
  function ActionOf(c: Call): Action {
    match c
    case AddEffect(e) => Add(e)
    case AddEffectList(es) => AddList(es)
    case SetGroup(_) => AddList([])
    case Render(frame) => Action.Render(frame.finished)
  }

  function ActionsOf(calls: seq<Call>): seq<Action> { seq(|calls|, i requires 0 <= i < |calls| => ActionOf(calls[i])) }

  /** The group that was set last. */
  function GroupAfter(calls: seq<Call>): seq<Light> {
    if calls == [] then []
    else
      var last := calls[|calls| - 1];
      if last.SetGroup? && last.group.Some? then last.group.value else GroupAfter(calls[..|calls| - 1])
  }

  /** The colour of a light that had the colour c: each render draws the layers of the effects enabled then over what
      the light showed or over black, as often as the light is in the group. */
  function ColorAfter(retain: bool, calls: seq<Call>, l: Light, c: Rgb): Rgb {
    if calls == [] then c
    else
      var front, last := calls[..|calls| - 1], calls[|calls| - 1];
      var before := ColorAfter(retain, front, l, c);
      if last.Render? then
        Redrawn(before, retain, Shown(Kept(ActionsOf(calls)), last.frame, l), multiset(GroupAfter(front))[l])
      else before
  }

  ghost function LightsIn(calls: seq<Call>): set<Light> {
    set i, l | 0 <= i < |calls| && calls[i].SetGroup? && calls[i].group.Some? && l in calls[i].group.value :: l
  }

  lemma {:induction false} GroupIsIn(calls: seq<Call>, k: nat)
    requires k <= |calls|
    ensures forall l :: l in GroupAfter(calls[..k]) ==> l in LightsIn(calls)
  {
    if k > 0 {
      assert calls[..k][..k - 1] == calls[..k - 1];
      GroupIsIn(calls, k - 1);
    }
  }

  lemma {:induction false} OneMoreCall(retain: bool, calls: seq<Call>, k: nat)
    requires k < |calls|
    ensures GroupAfter(calls[..k + 1]) == if calls[k].SetGroup? && calls[k].group.Some? then calls[k].group.value else GroupAfter(calls[..k])
    ensures Kept(ActionsOf(calls[..k + 1])) == Act(Kept(ActionsOf(calls[..k])), ActionOf(calls[k]))
    ensures forall l, c :: ColorAfter(retain, calls[..k + 1], l, c)
                        == if calls[k].Render? then Redrawn(ColorAfter(retain, calls[..k], l, c), retain,
                                                            Shown(Kept(ActionsOf(calls[..k + 1])), calls[k].frame, l),
                                                            multiset(GroupAfter(calls[..k]))[l])
                           else ColorAfter(retain, calls[..k], l, c)
  {
    hide Act;
    hide Shown;
    hide Redrawn;
    assert calls[..k + 1][..k] == calls[..k];
    assert ActionsOf(calls[..k + 1])[..k] == ActionsOf(calls[..k]);
  }

  method Handle(m: EffectMixer, c: Call)
    modifies m, m.lights
    ensures m.effects == Act(old(m.effects), ActionOf(c))
    ensures m.lights == if c.SetGroup? && c.group.Some? then c.group.value else old(m.lights)
    ensures c.Render? ==> forall l :: l in m.lights ==>
                            l.color == Redrawn(old(l.color), m.retainColor, Shown(m.effects, c.frame, l), multiset(m.lights)[l])
    ensures !c.Render? ==> forall l :: l in old(m.lights) ==> l.color == old(l.color)
  {
    hide Shown;
    hide Redrawn;
    hide Where;
    hide Added;
    match c {
      case AddEffect(e) => m.AddEffect(e);
      case AddEffectList(es) => m.AddEffectList(es);
      case SetGroup(group) => m.SetGroup(group);
      case Render(frame) => m.Render(frame);
    }
  }

  /** Any run on a new mixer: the effects are the stable sort by layer of what was added and has not finished; every light
      of every group shows what the renders have drawn on it; and after a render without retained colours a light of the
      group shows exactly the layers of the enabled effects, drawn in that order over black. */
  method Lifetime(retainColor: bool, calls: seq<Call>) returns (m: EffectMixer)
    modifies LightsIn(calls)
    ensures fresh(m) && m.retainColor == retainColor && m.lights == GroupAfter(calls)
    ensures m.effects == Kept(ActionsOf(calls)) && StableSort(m.effects, Log(ActionsOf(calls)))
    ensures forall l :: l in LightsIn(calls) ==> l.color == ColorAfter(retainColor, calls, l, old(l.color))
    ensures !retainColor && calls != [] && calls[|calls| - 1].Render? ==>
              forall l :: l in m.lights ==> l.color == Drawn(BLACK, Shown(m.effects, calls[|calls| - 1].frame, l), 0)
  {
    hide Act;
    hide Shown;
    hide Drawn;
    hide Redrawn;
    hide StableSort;
    hide Log;
    hide Kept;
    hide ActionOf;
    hide ActionsOf;
    hide ColorAfter;
    hide GroupAfter;
    m := new EffectMixer(retainColor);
    NothingYet(retainColor);
    assert calls[..0] == [];
    ghost var all := LightsIn(calls);
    for i := 0 to |calls|
      invariant fresh(m) && m.retainColor == retainColor && m.lights == GroupAfter(calls[..i])
      invariant m.effects == Kept(ActionsOf(calls[..i]))
      invariant forall l :: l in all ==> l.color == ColorAfter(retainColor, calls[..i], l, old(l.color))
    {
      GroupIsIn(calls, i);
      OneMoreCall(retainColor, calls, i);
      label L:
      Handle(m, calls[i]);
      NotDrawn(retainColor);
      forall l | l in all ensures l.color == ColorAfter(retainColor, calls[..i + 1], l, old(l.color)) {
        if l !in old@L(m.lights) {
          assert l.color == old@L(l.color);
        }
      }
    }
    assert calls[..|calls|] == calls;
    KeptInLayerOrder(ActionsOf(calls));
    if !retainColor && calls != [] && calls[|calls| - 1].Render? {
      GroupIsIn(calls, |calls|);
      LastRender(calls);
      forall l | l in m.lights
        ensures l.color == Drawn(BLACK, Shown(m.effects, calls[|calls| - 1].frame, l), 0)
      {
        assert l in all;
      }
    }
  }

  lemma {:induction false} NothingYet(retain: bool)
    ensures Kept(ActionsOf([])) == [] && GroupAfter([]) == []
    ensures forall l, c :: ColorAfter(retain, [], l, c) == c
  {
  }

  /** A light outside the group is not drawn. */
  lemma {:induction false} NotDrawn(retain: bool)
    ensures forall color, layers :: Redrawn(color, retain, layers, 0) == color
  {
  }

  /** Without retained colours only the last render counts. */
  lemma {:induction false} LastRender(calls: seq<Call>)
    requires calls != [] && calls[|calls| - 1].Render?
    ensures forall l, c :: l in GroupAfter(calls) ==>
              ColorAfter(false, calls, l, c) == Drawn(BLACK, Shown(Kept(ActionsOf(calls)), calls[|calls| - 1].frame, l), 0)
  {
    hide Shown;
    hide Drawn;
    hide Kept;
    hide ActionsOf;
    forall l | l in GroupAfter(calls) ensures multiset(GroupAfter(calls[..|calls| - 1]))[l] > 0 {
    }
  }
}
