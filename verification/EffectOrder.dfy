/**
 The order in which effects are kept: by layer, and within a layer in the order they were added.
 The reference is a plain log of everything added that has not finished yet; the list of the mixer
 is its stable sort, and that determines it completely.
 */
module EffectOrder {
  import opened Prelude

  /** An effect object; whether it is finished or enabled changes over time and is asked when needed. */
  datatype Effect = Effect(id: nat, layer: nat)

  /** The first position whose layer is higher, from `i` on. */
  function FindFrom(effects: seq<Effect>, layer: nat, i: nat): (r: nat)
    requires i <= |effects|
    ensures i <= r <= |effects|
    ensures forall k :: i <= k < r ==> effects[k].layer <= layer
    ensures r < |effects| ==> layer < effects[r].layer
    decreases |effects| - i
  {
    if i == |effects| || layer < effects[i].layer then i else FindFrom(effects, layer, i + 1)
  }

  function Inserted(effects: seq<Effect>, e: Effect): seq<Effect> {
    var i := FindFrom(effects, e.layer, 0);
    effects[..i] + [e] + effects[i..]
  }

  function Added(effects: seq<Effect>, e: Option<Effect>): seq<Effect> {
    if e.None? then effects else Inserted(effects, e.value)
  }

  function AddedAll(effects: seq<Effect>, es: seq<Option<Effect>>): seq<Effect> {
    if es == [] then effects else Added(AddedAll(effects, es[..|es| - 1]), es[|es| - 1])
  }

  function Where(effects: seq<Effect>, p: Effect -> bool): seq<Effect> {
    if effects == [] then []
    else (if p(effects[0]) then [effects[0]] else []) + Where(effects[1..], p)
  }

  function IsOn(layer: nat): Effect -> bool { (e: Effect) => e.layer == layer }

  function Survives(finished: Effect -> bool): Effect -> bool { (e: Effect) => !finished(e) }

  predicate Sorted(effects: seq<Effect>) {
    forall i, j :: 0 <= i < j < |effects| ==> effects[i].layer <= effects[j].layer
  }

  // ---------------------------------------------------------------- filters

  lemma {:induction false} WhereConcat(a: seq<Effect>, b: seq<Effect>, p: Effect -> bool)
    ensures Where(a + b, p) == Where(a, p) + Where(b, p)
  {
    if a == [] {
      assert a + b == b;
    } else {
      assert (a + b)[0] == a[0] && (a + b)[1..] == a[1..] + b;
      WhereConcat(a[1..], b, p);
      Associate(if p(a[0]) then [a[0]] else [], Where(a[1..], p), Where(b, p));
    }
  }

  lemma {:induction false} WhereMembers(s: seq<Effect>, p: Effect -> bool, e: Effect)
    ensures e in Where(s, p) <==> e in s && p(e)
  {
    if s != [] {
      WhereMembers(s[1..], p, e);
      assert s == [s[0]] + s[1..];
    }
  }

  lemma {:induction false} WhereCommutes(s: seq<Effect>, p: Effect -> bool, q: Effect -> bool)
    ensures Where(Where(s, p), q) == Where(Where(s, q), p)
  {
    if s != [] {
      WhereCommutes(s[1..], p, q);
      var first := [s[0]];
      WhereConcat(if p(s[0]) then first else [], Where(s[1..], p), q);
      WhereConcat(if q(s[0]) then first else [], Where(s[1..], q), p);
      assert Where([], p) == [] && Where([], q) == [];
      WhereOne(s[0], p);
      WhereOne(s[0], q);
    }
  }

  lemma {:induction false} WhereOne(e: Effect, p: Effect -> bool)
    ensures Where([e], p) == if p(e) then [e] else []
  {
    assert [e][1..] == [];
  }

  lemma {:induction false} WhereKeepsSorted(s: seq<Effect>, p: Effect -> bool)
    requires Sorted(s)
    ensures Sorted(Where(s, p))
  {
    if s != [] {
      WhereKeepsSorted(s[1..], p);
      var rest := Where(s[1..], p);
      forall j | 0 <= j < |rest| ensures s[0].layer <= rest[j].layer {
        WhereMembers(s[1..], p, rest[j]);
        assert rest[j] in rest;
      }
    }
  }

  // ---------------------------------------------------------------- insertion

  lemma {:induction false} InsertedIsSorted(effects: seq<Effect>, e: Effect)
    requires Sorted(effects)
    ensures Sorted(Inserted(effects, e))
  {
    var i := FindFrom(effects, e.layer, 0);
    forall k | i <= k < |effects| ensures e.layer < effects[k].layer {
      assert effects[i].layer <= effects[k].layer;
    }
  }

  lemma {:induction false} NoneWhere(s: seq<Effect>, p: Effect -> bool)
    requires forall k :: 0 <= k < |s| ==> !p(s[k])
    ensures Where(s, p) == []
  {
    if s != [] {
      NoneWhere(s[1..], p);
    }
  }

  /** A new effect comes last on its own layer; the other layers do not notice. */
  lemma {:induction false} InsertedOnLayers(effects: seq<Effect>, e: Effect, layer: nat)
    requires Sorted(effects)
    ensures Where(Inserted(effects, e), IsOn(layer))
         == Where(effects, IsOn(layer)) + if layer == e.layer then [e] else []
  {
    hide Where;
    var i := FindFrom(effects, e.layer, 0);
    assert effects == effects[..i] + effects[i..];
    AboveIsOff(effects, e.layer);
    InsertedBetween(effects[..i], e, effects[i..], layer);
  }

  lemma {:induction false} InsertedBetween(below: seq<Effect>, e: Effect, above: seq<Effect>, layer: nat)
    requires Where(above, IsOn(e.layer)) == []
    ensures Where(below + [e] + above, IsOn(layer))
         == Where(below + above, IsOn(layer)) + if layer == e.layer then [e] else []
  {
    hide *;
    var p := IsOn(layer);
    WhereConcat(below, above, p);
    WhereAround(below, e, above, p);
    OnLayer(e, layer);
    Rearranged(Where(below, p), if layer == e.layer then [e] else [], Where(above, p));
  }

  lemma {:induction false} Rearranged(x: seq<Effect>, own: seq<Effect>, y: seq<Effect>)
    requires own == [] || y == []
    ensures x + own + y == x + y + own
  {
  }

  lemma {:induction false} OnLayer(e: Effect, layer: nat)
    ensures IsOn(layer)(e) <==> e.layer == layer
  {
  }

  lemma {:induction false} AboveIsOff(effects: seq<Effect>, layer: nat)
    requires Sorted(effects)
    ensures Where(effects[FindFrom(effects, layer, 0)..], IsOn(layer)) == []
  {
    hide Where;
    var i := FindFrom(effects, layer, 0);
    forall k | i <= k < |effects| ensures effects[k].layer != layer {
      assert effects[i].layer <= effects[k].layer;
    }
    NoneWhere(effects[i..], IsOn(layer));
  }

  lemma {:induction false} WhereAround(below: seq<Effect>, e: Effect, above: seq<Effect>, p: Effect -> bool)
    ensures Where(below + [e] + above, p) == Where(below, p) + (if p(e) then [e] else []) + Where(above, p)
  {
    WhereConcat(below + [e], above, p);
    WhereConcat(below, [e], p);
    WhereOne(e, p);
  }

  // ---------------------------------------------------------------- runs

  datatype Action =
    | Add(effect: Option<Effect>)
    | AddList(effects: seq<Option<Effect>>)
    | Render(finished: Effect -> bool)

  function Act(effects: seq<Effect>, a: Action): seq<Effect> {
    match a
    case Add(e) => Added(effects, e)
    case AddList(es) => AddedAll(effects, es)
    case Render(finished) => Where(effects, Survives(finished))
  }

  /** The mixer's list after a run. */
  function Kept(run: seq<Action>): seq<Effect> {
    if run == [] then [] else Act(Kept(run[..|run| - 1]), run[|run| - 1])
  }

  function Present(es: seq<Option<Effect>>): seq<Effect> {
    if es == [] then []
    else Present(es[..|es| - 1]) + if es[|es| - 1].Some? then [es[|es| - 1].value] else []
  }

  /** What was added and has not finished, in the order of adding. */
  function Log(run: seq<Action>): seq<Effect> {
    if run == [] then [] else Logged(Log(run[..|run| - 1]), run[|run| - 1])
  }

  function Logged(log: seq<Effect>, a: Action): seq<Effect> {
    match a
    case Add(e) => log + Present([e])
    case AddList(es) => log + Present(es)
    case Render(finished) => Where(log, Survives(finished))
  }

  ghost predicate StableSort(list: seq<Effect>, log: seq<Effect>) {
    Sorted(list) && forall layer :: Where(list, IsOn(layer)) == Where(log, IsOn(layer))
  }

  lemma {:induction false} AddedKeepsStable(list: seq<Effect>, log: seq<Effect>, e: Option<Effect>)
    requires StableSort(list, log)
    ensures StableSort(Added(list, e), log + if e.Some? then [e.value] else [])
  {
    if e.Some? {
      InsertedIsSorted(list, e.value);
      forall layer
        ensures Where(Inserted(list, e.value), IsOn(layer)) == Where(log + [e.value], IsOn(layer))
      {
        InsertedOnLayers(list, e.value, layer);
        WhereConcat(log, [e.value], IsOn(layer));
        WhereOne(e.value, IsOn(layer));
      }
    } else {
      assert log + [] == log;
    }
  }

  lemma {:induction false} AddedAllKeepsStable(list: seq<Effect>, log: seq<Effect>, es: seq<Option<Effect>>)
    requires StableSort(list, log)
    ensures StableSort(AddedAll(list, es), log + Present(es))
  {
    if es == [] {
      assert log + [] == log;
    } else {
      var front, last := es[..|es| - 1], es[|es| - 1];
      AddedAllKeepsStable(list, log, front);
      AddedKeepsStable(AddedAll(list, front), log + Present(front), last);
      assert log + Present(es) == log + Present(front) + if last.Some? then [last.value] else [];
    }
  }

  lemma {:induction false} RemovalKeepsStable(list: seq<Effect>, log: seq<Effect>, p: Effect -> bool)
    requires StableSort(list, log)
    ensures StableSort(Where(list, p), Where(log, p))
  {
    WhereKeepsSorted(list, p);
    forall layer ensures Where(Where(list, p), IsOn(layer)) == Where(Where(log, p), IsOn(layer)) {
      WhereCommutes(list, p, IsOn(layer));
      WhereCommutes(log, p, IsOn(layer));
    }
  }

  lemma {:induction false} ActKeepsStable(list: seq<Effect>, log: seq<Effect>, a: Action)
    requires StableSort(list, log)
    ensures StableSort(Act(list, a), Logged(log, a))
  {
    match a
    case Add(e) =>
      PresentOne(e);
      AddedKeepsStable(list, log, e);
    case AddList(es) =>
      AddedAllKeepsStable(list, log, es);
    case Render(finished) =>
      RemovalKeepsStable(list, log, Survives(finished));
  }

  lemma {:induction false} PresentOne(e: Option<Effect>)
    ensures Present([e]) == if e.Some? then [e.value] else []
  {
    assert [e][..0] == [];
  }

  /** After any run the list is the surviving effects by layer, ties in the order of adding. */
  lemma {:induction false} KeptInLayerOrder(run: seq<Action>)
    ensures StableSort(Kept(run), Log(run))
  {
    if run != [] {
      var front := run[..|run| - 1];
      KeptInLayerOrder(front);
      ActKeepsStable(Kept(front), Log(front), run[|run| - 1]);
    }
  }

  /** A log has only one stable sort, so the list is a function of the log. */
  lemma {:induction false} StableSortIsUnique(a: seq<Effect>, b: seq<Effect>, log: seq<Effect>)
    requires StableSort(a, log) && StableSort(b, log)
    ensures a == b
  {
    SameLayersSameList(a, b);
  }

  lemma {:induction false} Cancel(first: seq<Effect>, x: seq<Effect>, y: seq<Effect>)
    requires first + x == first + y
    ensures x == y
  {
    assert x == (first + x)[|first|..] && y == (first + y)[|first|..];
  }

  lemma {:induction false} WhereHead(a: seq<Effect>, layer: nat)
    requires a != []
    ensures Where(a, IsOn(layer)) == (if a[0].layer == layer then [a[0]] else []) + Where(a[1..], IsOn(layer))
  {
  }

  lemma {:induction false} SameLayersSameList(a: seq<Effect>, b: seq<Effect>)
    requires Sorted(a) && Sorted(b)
    requires forall layer :: Where(a, IsOn(layer)) == Where(b, IsOn(layer))
    ensures a == b
  {
    if a == [] {
      if b != [] {
        LowestIsFirst(b, a);
      }
    } else {
      LowestIsFirst(a, b);
      LowestIsFirst(b, a);
      var here := a[0].layer;
      WhereHead(a, here);
      WhereHead(b, here);
      assert Where(a, IsOn(here))[0] == a[0] && Where(b, IsOn(here))[0] == b[0];
      forall layer ensures Where(a[1..], IsOn(layer)) == Where(b[1..], IsOn(layer)) {
        hide Where;
        WhereHead(a, layer);
        WhereHead(b, layer);
        Cancel(if a[0].layer == layer then [a[0]] else [], Where(a[1..], IsOn(layer)), Where(b[1..], IsOn(layer)));
      }
      SameLayersSameList(a[1..], b[1..]);
    }
  }

  lemma {:induction false} LowestIsFirst(a: seq<Effect>, b: seq<Effect>)
    requires a != [] && Sorted(b)
    requires forall layer :: Where(a, IsOn(layer)) == Where(b, IsOn(layer))
    ensures b != [] && b[0].layer <= a[0].layer
  {
    var p := IsOn(a[0].layer);
    assert a[0] in Where(a, p);
    WhereMembers(b, p, a[0]);
  }
}
