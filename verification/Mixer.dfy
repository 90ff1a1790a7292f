/**
 The effect mixer: a list of effects kept by layer, and a render that removes what is finished,
 lets the enabled effects draw, and composites them on every light of the group.
 */
module Mixer {
  import opened Prelude
  import opened EffectOrder
  import opened Compositing

  class Light {
    var color: Rgb

    constructor (color: Rgb)
      ensures this.color == color
    {
      this.color := color;
    }
  }

  /** What the effects answer during one render: who is finished before it, who is enabled before and
      after drawing, and what each shows on a light. */
  datatype Frame = Frame(finished: Effect -> bool, playing: Effect -> bool, enabled: Effect -> bool,
                         look: (Effect, Light) -> Layer)

  /** The layers seen on a light, bottom first. */
  function Shown(effects: seq<Effect>, frame: Frame, light: Light): seq<Layer> {
    if effects == [] then []
    else
      var e := effects[|effects| - 1];
      Shown(effects[..|effects| - 1], frame, light) + if frame.enabled(e) then [frame.look(e, light)] else []
  }

  /** A light that occurs in the group several times is drawn as often; what it showed is the base of the
      next drawing only when colours are retained. */
  function Redrawn(color: Rgb, retain: bool, layers: seq<Layer>, times: nat): Rgb {
    if times == 0 then color
    else Drawn(if retain then Redrawn(color, retain, layers, times - 1) else BLACK, layers, 0)
  }

  class EffectMixer {
    const retainColor: bool
    var effects: seq<Effect>
    var lights: seq<Light>
    var rendered: seq<Effect>

    constructor (retainColor: bool)
      ensures effects == [] && lights == [] && rendered == [] && this.retainColor == retainColor
    {
      this.retainColor := retainColor;
      effects, lights, rendered := [], [], [];
    }

    method FindEffectIndex(e: Effect) returns (i: nat)
      ensures i == FindFrom(effects, e.layer, 0)
    {
      i := 0;
      while i < |effects|
        invariant i <= |effects|
        invariant FindFrom(effects, e.layer, i) == FindFrom(effects, e.layer, 0)
      {
        if e.layer < effects[i].layer {
          break;
        }
        i := i + 1;
      }
    }

    method AddEffect(e: Option<Effect>)
      modifies this`effects
      ensures effects == Added(old(effects), e)
    {
      if e.None? {
        return;
      }
      var i := FindEffectIndex(e.value);
      effects := effects[..i] + [e.value] + effects[i..];
    }

    method AddEffectList(es: seq<Option<Effect>>)
      modifies this`effects
      ensures effects == AddedAll(old(effects), es)
    {
      for i := 0 to |es|
        invariant effects == AddedAll(old(effects), es[..i])
      {
        assert es[..i + 1][..i] == es[..i];
        AddEffect(es[i]);
      }
      assert es[..|es|] == es;
    }

    method SetGroup(group: Option<seq<Light>>)
      modifies this`lights
      ensures lights == if group.Some? then group.value else old(lights)
    {
      if group.Some? {
        lights := group.value;
      }
    }

    method RemoveFinishedEffects(frame: Frame)
      modifies this`effects
      ensures effects == Where(old(effects), Survives(frame.finished))
    {
      var i := 0;
      ghost var seen := 0;
      ghost var p := Survives(frame.finished);
      NoneWhere(old(effects)[..0], p);
      hide Where;
      while i < |effects|
        invariant seen <= |old(effects)|
        invariant i == |Where(old(effects)[..seen], p)|
        invariant effects == Where(old(effects)[..seen], p) + old(effects)[seen..]
        decreases |old(effects)| - seen
      {
        SeenOneMore(old(effects), seen, p);
        PassOne(Where(old(effects)[..seen], p), old(effects), seen);
        if frame.finished(effects[i]) {
          effects := effects[..i] + effects[i + 1..];
        } else {
          i := i + 1;
        }
        seen := seen + 1;
      }
      assert old(effects)[..seen] == old(effects);
    }

    method RenderEffects(frame: Frame)
      modifies this`rendered
      ensures rendered == old(rendered) + Where(effects, frame.playing)
    {
      for i := 0 to |effects|
        invariant rendered == old(rendered) + Where(effects[..i], frame.playing)
      {
        SeenOneMore(effects, i, frame.playing);
        if frame.playing(effects[i]) {
          rendered := rendered + [effects[i]];
        }
      }
      assert effects[..|effects|] == effects;
    }

    static method Blend(below: Rgb, layer: Layer) returns (color: Rgb)
      ensures color == Over(below, layer)
    {
      var alpha := layer.alpha;
      var prevLayersAlpha := 1.0 - alpha;
      var r, g, b := below.r * prevLayersAlpha, below.g * prevLayersAlpha, below.b * prevLayersAlpha;
      r := r + layer.color.r * alpha;
      g := g + layer.color.g * alpha;
      b := b + layer.color.b * alpha;
      color := Rgb(r, g, b);
    }

    method ApplyEffectsOnLight(light: Light, frame: Frame)
      modifies light
      ensures light.color == Redrawn(old(light.color), retainColor, Shown(effects, frame, light), 1)
    {
      var color := BLACK;
      if retainColor {
        color := light.color;
      }
      ghost var base := color;
      assert Drawn(base, Shown(effects[..0], frame, light), 0) == base;
      assert Redrawn(light.color, retainColor, Shown(effects, frame, light), 1) == Drawn(base, Shown(effects, frame, light), 0);
      hide Shown;
      hide Drawn;
      hide Redrawn;
      for i := 0 to |effects|
        invariant color == Drawn(base, Shown(effects[..i], frame, light), 0)
      {
        ShownOneMore(effects, i, frame, light);
        if frame.enabled(effects[i]) {
          var layer := frame.look(effects[i], light);
          DrawOneMore(base, Shown(effects[..i], frame, light), layer, 0);
          color := Blend(color, layer);
        }
      }
      assert effects[..|effects|] == effects;
      light.color := color;
    }

    method ApplyEffectsOnLights(frame: Frame)
      modifies lights
      ensures forall l :: l in lights ==>
                l.color == Redrawn(old(l.color), retainColor, Shown(effects, frame, l), multiset(lights)[l])
    {
      hide Redrawn;
      hide Shown;
      Undrawn(retainColor);
      for i := 0 to |lights|
        invariant forall l :: l in lights ==>
                    l.color == Redrawn(old(l.color), retainColor, Shown(effects, frame, l), multiset(lights[..i])[l])
      {
        assert lights[..i + 1] == lights[..i] + [lights[i]];
        RedrawnAgain(old(lights[i].color), retainColor, Shown(effects, frame, lights[i]), multiset(lights[..i])[lights[i]]);
        ApplyEffectsOnLight(lights[i], frame);
      }
      assert lights[..|lights|] == lights;
    }

    method Render(frame: Frame)
      modifies this`effects, this`rendered, lights
      ensures effects == Where(old(effects), Survives(frame.finished))
      ensures rendered == old(rendered) + Where(effects, frame.playing)
      ensures forall l :: l in lights ==>
                l.color == Redrawn(old(l.color), retainColor, Shown(effects, frame, l), multiset(lights)[l])
    {
      RemoveFinishedEffects(frame);
      RenderEffects(frame);
      ApplyEffectsOnLights(frame);
    }
  }

  lemma {:induction false} SeenOneMore(s: seq<Effect>, k: nat, p: Effect -> bool)
    requires k < |s|
    ensures Where(s[..k + 1], p) == Where(s[..k], p) + if p(s[k]) then [s[k]] else []
  {
    assert s[..k + 1] == s[..k] + [s[k]];
    WhereConcat(s[..k], [s[k]], p);
    WhereOne(s[k], p);
  }

  lemma {:induction false} PassOne(kept: seq<Effect>, all: seq<Effect>, seen: nat)
    requires seen < |all|
    ensures var list, i := kept + all[seen..], |kept|;
            i < |list| && list[i] == all[seen]
            && list[..i] + list[i + 1..] == kept + all[seen + 1..]
            && list == kept + [all[seen]] + all[seen + 1..]
  {
  }

  lemma {:induction false} ShownOneMore(effects: seq<Effect>, k: nat, frame: Frame, light: Light)
    requires k < |effects|
    ensures Shown(effects[..k + 1], frame, light)
         == if frame.enabled(effects[k]) then Shown(effects[..k], frame, light) + [frame.look(effects[k], light)]
            else Shown(effects[..k], frame, light)
  {
    assert effects[..k + 1][..k] == effects[..k];
  }

  lemma {:induction false} RedrawnAgain(color: Rgb, retain: bool, layers: seq<Layer>, times: nat)
    ensures Redrawn(Redrawn(color, retain, layers, times), retain, layers, 1) == Redrawn(color, retain, layers, times + 1)
  {
    assert Redrawn(Redrawn(color, retain, layers, times), retain, layers, 0) == Redrawn(color, retain, layers, times);
  }

  lemma {:induction false} Undrawn(retain: bool)
    ensures forall color, layers :: Redrawn(color, retain, layers, 0) == color
  {
  }

  // ---------------------------------------------------------------- what a render shows

  /** Every shown layer belongs to an enabled effect. */
  lemma {:induction false} ShownComesFromEnabled(effects: seq<Effect>, frame: Frame, light: Light)
    ensures |Shown(effects, frame, light)| == |Where(effects, frame.enabled)|
    ensures forall k :: 0 <= k < |Shown(effects, frame, light)| ==>
              Shown(effects, frame, light)[k] == frame.look(Where(effects, frame.enabled)[k], light)
  {
    if effects != [] {
      var n := |effects| - 1;
      ShownComesFromEnabled(effects[..n], frame, light);
      SeenOneMore(effects, n, frame.enabled);
      assert effects[..n + 1] == effects;
    }
  }

  /** A light drawn at least once, for effects in range, gets a colour in range that is the weighted sum of
      what the enabled effects show; the base only counts when colours are retained. */
  lemma {:induction false} RenderedColor(color: Rgb, retain: bool, layers: seq<Layer>, times: nat)
    requires InRange(color)
    requires forall k :: 0 <= k < |layers| ==> InRange(layers[k].color) && Unit(layers[k].alpha)
    ensures InRange(Redrawn(color, retain, layers, times))
    ensures times > 0 && !retain ==> Redrawn(color, retain, layers, times) == WeightedSum(layers, 0)
    ensures times > 0 && retain ==>
              Redrawn(color, retain, layers, times)
              == Plus(Scaled(Redrawn(color, retain, layers, times - 1), Through(layers, 0)), WeightedSum(layers, 0))
  {
    if times > 0 {
      RenderedColor(color, retain, layers, times - 1);
      var base := if retain then Redrawn(color, retain, layers, times - 1) else BLACK;
      DrawnStaysInRange(base, layers, 0);
      DrawnIsWeightedSum(base, layers, 0);
      NothingOfBlack(Through(layers, 0), WeightedSum(layers, 0));
    }
  }

  lemma {:induction false} NothingOfBlack(t: real, c: Rgb)
    ensures Plus(Scaled(BLACK, t), c) == c
  {
  }

  lemma {:induction false} ShownInParts(below: seq<Effect>, above: seq<Effect>, frame: Frame, light: Light)
    ensures Shown(below + above, frame, light) == Shown(below, frame, light) + Shown(above, frame, light)
  {
    if above == [] {
      assert below + above == below;
    } else {
      var n := |above| - 1;
      var front, last := above[..n], above[n];
      ShownInParts(below, front, frame, light);
      assert above == front + [last] && below + above == below + front + [last];
      ShownAppended(front, last, frame, light);
      ShownAppended(below + front, last, frame, light);
      hide Shown;
      Associate(Shown(below, frame, light), Shown(front, frame, light), [frame.look(last, light)]);
    }
  }

  lemma {:induction false} ShownAppended(effects: seq<Effect>, e: Effect, frame: Frame, light: Light)
    ensures Shown(effects + [e], frame, light)
         == if frame.enabled(e) then Shown(effects, frame, light) + [frame.look(e, light)] else Shown(effects, frame, light)
  {
    assert (effects + [e])[..|effects|] == effects;
  }

  lemma {:induction false} SameAnswersSameLayers(effects: seq<Effect>, f: Frame, g: Frame, light: Light)
    requires forall k :: 0 <= k < |effects| ==>
               f.enabled(effects[k]) == g.enabled(effects[k]) && f.look(effects[k], light) == g.look(effects[k], light)
    ensures Shown(effects, f, light) == Shown(effects, g, light)
  {
    if effects != [] {
      SameAnswersSameLayers(effects[..|effects| - 1], f, g, light);
    }
  }

  /** Whatever the base is and whatever the effects below an enabled opaque effect do, the light looks the same. */
  lemma {:induction false} OpaqueEffectHidesBelow(effects: seq<Effect>, k: nat, f: Frame, g: Frame, light: Light, b: Rgb, c: Rgb)
    requires k < |effects| && f.enabled(effects[k]) && f.look(effects[k], light).alpha == 1.0
    requires forall j :: k <= j < |effects| ==>
               f.enabled(effects[j]) == g.enabled(effects[j]) && f.look(effects[j], light) == g.look(effects[j], light)
    ensures Drawn(b, Shown(effects, f, light), 0) == Drawn(c, Shown(effects, g, light), 0)
  {
    var below, above := effects[..k], effects[k..];
    SameAnswersSameLayers(above, f, g, light);
    OpaqueFirst(below, effects[k], effects[k + 1..], f, light, b);
    OpaqueFirst(below, effects[k], effects[k + 1..], g, light, c);
    SameAnswersSameLayers(effects[k + 1..], f, g, light);
    assert effects == below + ([effects[k]] + effects[k + 1..]);
  }

  lemma {:induction false} OpaqueFirst(below: seq<Effect>, e: Effect, above: seq<Effect>, f: Frame, light: Light, base: Rgb)
    requires f.enabled(e) && f.look(e, light).alpha == 1.0
    ensures Drawn(base, Shown(below + ([e] + above), f, light), 0)
         == Drawn(f.look(e, light).color, Shown(above, f, light), 0)
  {
    hide *;
    var under, own, over := Shown(below, f, light), f.look(e, light), Shown(above, f, light);
    ShownInParts(below, [e] + above, f, light);
    ShownInParts([e], above, f, light);
    assert Shown([e], f, light) == [own] by { ShownAlone(e, f, light); }
    var layers := under + ([own] + over);
    OpaqueHidesBelow(base, layers, 0, |under|);
    assert layers == (under + [own]) + over;
    DrawnAbove(own.color, under + [own], over, 0);
  }

  lemma {:induction false} ShownAlone(e: Effect, f: Frame, light: Light)
    requires f.enabled(e)
    ensures Shown([e], f, light) == [f.look(e, light)]
  {
    ShownOneMore([e], 0, f, light);
    assert [e][..1] == [e];
  }

  lemma {:induction false} DrawnAbove(base: Rgb, a: seq<Layer>, b: seq<Layer>, i: nat)
    requires i <= |b|
    ensures Drawn(base, a + b, |a| + i) == Drawn(base, b, i)
    decreases |b| - i
  {
    if i < |b| {
      DrawnAbove(Over(base, b[i]), a, b, i + 1);
    }
  }
}
