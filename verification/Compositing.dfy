/**
 Colours of stacked layers: drawing them one over the other, bottom first, is a weighted sum
 whose weights add up to one.  Channel values and alphas are reals.
 */
module Compositing {

  datatype Rgb = Rgb(r: real, g: real, b: real)

  /** What an effect shows on a light. */
  datatype Layer = Layer(color: Rgb, alpha: real)

  const BLACK := Rgb(0.0, 0.0, 0.0)

  function OverChannel(below: real, c: real, alpha: real): real { below * (1.0 - alpha) + c * alpha }

  function Over(below: Rgb, l: Layer): Rgb {
    Rgb(OverChannel(below.r, l.color.r, l.alpha),
        OverChannel(below.g, l.color.g, l.alpha),
        OverChannel(below.b, l.color.b, l.alpha))
  }

  /** The layers from `i` upwards drawn over `base`. */
  function Drawn(base: Rgb, layers: seq<Layer>, i: nat): Rgb
    requires i <= |layers|
    decreases |layers| - i
  {
    if i == |layers| then base else Drawn(Over(base, layers[i]), layers, i + 1)
  }

  lemma {:induction false} DrawOneMore(base: Rgb, layers: seq<Layer>, l: Layer, i: nat)
    requires i <= |layers|
    ensures Drawn(base, layers + [l], i) == Over(Drawn(base, layers, i), l)
    decreases |layers| - i
  {
    if i < |layers| {
      assert (layers + [l])[i] == layers[i];
      DrawOneMore(Over(base, layers[i]), layers, l, i + 1);
    } else {
      assert Drawn(Over(base, l), layers + [l], i + 1) == Over(base, l);
    }
  }

  // ---------------------------------------------------------------- the closed form

  /** The share of what lies under layer `i` that is still seen. */
  function Through(layers: seq<Layer>, i: nat): real
    requires i <= |layers|
    decreases |layers| - i
  {
    if i == |layers| then 1.0 else (1.0 - layers[i].alpha) * Through(layers, i + 1)
  }

  /** The share of layer `i` itself in the result. */
  function Weight(layers: seq<Layer>, i: nat): real
    requires i < |layers|
  {
    layers[i].alpha * Through(layers, i + 1)
  }

  function Scaled(c: Rgb, w: real): Rgb { Rgb(c.r * w, c.g * w, c.b * w) }

  function Plus(c: Rgb, d: Rgb): Rgb { Rgb(c.r + d.r, c.g + d.g, c.b + d.b) }

  function WeightedSum(layers: seq<Layer>, i: nat): Rgb
    requires i <= |layers|
    decreases |layers| - i
  {
    if i == |layers| then BLACK
    else Plus(Scaled(layers[i].color, Weight(layers, i)), WeightedSum(layers, i + 1))
  }

  function WeightTotal(layers: seq<Layer>, i: nat): real
    requires i <= |layers|
    decreases |layers| - i
  {
    if i == |layers| then 0.0 else Weight(layers, i) + WeightTotal(layers, i + 1)
  }

  lemma {:induction false} Regroup(x: real, y: real, z: real)
    ensures x * y * z == x * (y * z)
  {
  }

  lemma {:induction false} Distribute(x: real, y: real, t: real)
    ensures (x + y) * t == x * t + y * t
  {
  }

  lemma {:induction false} ScaledChannel(b: real, c: real, a: real, t: real, under: real, own: real)
    requires under == (1.0 - a) * t && own == a * t
    ensures OverChannel(b, c, a) * t == b * under + c * own
  {
    var shade := 1.0 - a;
    Distribute(b * shade, c * a, t);
    Regroup(b, shade, t);
    Regroup(c, a, t);
  }

  lemma {:induction false} ScaledOver(base: Rgb, l: Layer, t: real, under: real, own: real)
    requires under == (1.0 - l.alpha) * t && own == l.alpha * t
    ensures Scaled(Over(base, l), t) == Plus(Scaled(base, under), Scaled(l.color, own))
  {
    hide OverChannel;
    ScaledChannel(base.r, l.color.r, l.alpha, t, under, own);
    ScaledChannel(base.g, l.color.g, l.alpha, t, under, own);
    ScaledChannel(base.b, l.color.b, l.alpha, t, under, own);
  }

  lemma {:induction false} Unscaled(c: Rgb)
    ensures Plus(Scaled(c, 1.0), BLACK) == c
  {
  }

  lemma {:induction false} PlusAssociates(a: Rgb, b: Rgb, c: Rgb)
    ensures Plus(Plus(a, b), c) == Plus(a, Plus(b, c))
  {
  }

  /** base * prod(1 - alpha) + sum of color * alpha * prod(1 - alpha of later layers). */
  lemma {:induction false} DrawnIsWeightedSum(base: Rgb, layers: seq<Layer>, i: nat)
    requires i <= |layers|
    ensures Drawn(base, layers, i) == Plus(Scaled(base, Through(layers, i)), WeightedSum(layers, i))
    decreases |layers| - i
  {
    hide Over;
    hide Scaled;
    hide Plus;
    if i == |layers| {
      Unscaled(base);
    } else {
      var l, t := layers[i], Through(layers, i + 1);
      DrawnIsWeightedSum(Over(base, l), layers, i + 1);
      ScaledOver(base, l, t, Through(layers, i), Weight(layers, i));
      PlusAssociates(Scaled(base, Through(layers, i)), Scaled(l.color, Weight(layers, i)), WeightedSum(layers, i + 1));
    }
  }

  lemma {:induction false} WeightsAddUpToOne(layers: seq<Layer>, i: nat)
    requires i <= |layers|
    ensures Through(layers, i) + WeightTotal(layers, i) == 1.0
    decreases |layers| - i
  {
    if i < |layers| {
      WeightsAddUpToOne(layers, i + 1);
    }
  }

  // ---------------------------------------------------------------- consequences

  predicate Unit(x: real) { 0.0 <= x <= 1.0 }

  predicate InRange(c: Rgb) { Unit(c.r) && Unit(c.g) && Unit(c.b) }

  lemma {:induction false} NonNegative(x: real, y: real)
    requires x >= 0.0 && y >= 0.0
    ensures x * y >= 0.0
  {
  }

  lemma {:induction false} Convex(b: real, c: real, a: real)
    requires Unit(b) && Unit(c) && Unit(a)
    ensures Unit(OverChannel(b, c, a))
  {
    NonNegative(b, 1.0 - a);
    NonNegative(c, a);
    NonNegative(1.0 - b, 1.0 - a);
    NonNegative(1.0 - c, a);
  }

  /** Layers in range over a base in range never leave the range: nothing needs clipping. */
  lemma {:induction false} DrawnStaysInRange(base: Rgb, layers: seq<Layer>, i: nat)
    requires i <= |layers|
    requires InRange(base)
    requires forall j :: i <= j < |layers| ==> InRange(layers[j].color) && Unit(layers[j].alpha)
    ensures InRange(Drawn(base, layers, i))
    decreases |layers| - i
  {
    if i < |layers| {
      var l := layers[i];
      Convex(base.r, l.color.r, l.alpha);
      Convex(base.g, l.color.g, l.alpha);
      Convex(base.b, l.color.b, l.alpha);
      DrawnStaysInRange(Over(base, l), layers, i + 1);
    }
  }

  /** An opaque layer hides the base and every layer under it. */
  lemma {:induction false} OpaqueHidesBelow(base: Rgb, layers: seq<Layer>, i: nat, k: nat)
    requires i <= k < |layers| && layers[k].alpha == 1.0
    ensures Drawn(base, layers, i) == Drawn(layers[k].color, layers, k + 1)
    decreases |layers| - i
  {
    if i < k {
      OpaqueHidesBelow(Over(base, layers[i]), layers, i + 1, k);
    } else {
      assert Over(base, layers[k]) == layers[k].color;
    }
  }

  /** The base shines through exactly to the extent no layer is opaque. */
  lemma {:induction false} BaseIsSeen(layers: seq<Layer>, i: nat)
    requires i <= |layers|
    ensures Through(layers, i) == 0.0 <==> exists k :: i <= k < |layers| && layers[k].alpha == 1.0
    decreases |layers| - i
  {
    if i < |layers| {
      BaseIsSeen(layers, i + 1);
      var a, t := 1.0 - layers[i].alpha, Through(layers, i + 1);
      assert a * t == 0.0 <==> a == 0.0 || t == 0.0;
    }
  }
}
