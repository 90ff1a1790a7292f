/**
 Channel values on the wire: clamped, scaled to 16 bits and truncated by the sender, scaled to
 8 bits and rounded by the receiver.
 */
module ColorLevels {

  function Clamp(c: real): real { if c > 1.0 then 1.0 else if c < 0.0 then 0.0 else c }

  /** The 16-bit value that is sent. */
  function Quantised(c: real): (v: nat)
    ensures v <= 65535
  {
    (Clamp(c) * 65535.0).Floor
  }

  /** The 8-bit level that is shown: rounding half up. */
  function Level(v: nat): int { (v as real / 65535.0 * 255.0 + 0.5).Floor }

  lemma {:induction false} LevelOf(v: nat)
    ensures Level(v) == (v as real / 257.0 + 0.5).Floor
  {
    assert v as real / 65535.0 * 255.0 == v as real / 257.0;
  }

  lemma {:induction false} FloorMonotone(x: real, y: real)
    requires x <= y
    ensures x.Floor <= y.Floor
  {
  }

  /** A brighter channel never shows darker. */
  lemma {:induction false} Monotone(c: real, d: real)
    requires c <= d
    ensures Quantised(c) <= Quantised(d)
    ensures Level(Quantised(c)) <= Level(Quantised(d))
  {
    FloorMonotone(Clamp(c) * 65535.0, Clamp(d) * 65535.0);
    LevelOf(Quantised(c));
    LevelOf(Quantised(d));
    FloorMonotone(Quantised(c) as real / 257.0 + 0.5, Quantised(d) as real / 257.0 + 0.5);
  }

  function Abs(x: real): real { if x < 0.0 then -x else x }

  /** The two roundings together cost at most half a level and a 257th. */
  lemma {:induction false} LevelError(c: real)
    ensures 0 <= Level(Quantised(c)) <= 255
    ensures Abs(Level(Quantised(c)) as real - 255.0 * Clamp(c)) <= 0.5 + 1.0 / 257.0
  {
    LevelOf(Quantised(c));
    var v := Quantised(c) as real;
    assert v <= Clamp(c) * 65535.0 < v + 1.0;
    assert 255.0 * Clamp(c) - 1.0 / 257.0 <= v / 257.0 <= 255.0 * Clamp(c);
    var l := Level(Quantised(c)) as real;
    assert l <= v / 257.0 + 0.5 < l + 1.0;
  }

  /** Every 8-bit level survives the trip. */
  lemma {:induction false} LevelsSurvive(k: nat)
    requires k <= 255
    ensures Quantised(k as real / 255.0) == 257 * k
    ensures Level(Quantised(k as real / 255.0)) == k
  {
    assert k as real / 255.0 * 65535.0 == (257 * k) as real;
    LevelOf(257 * k);
    assert (257 * k) as real / 257.0 == k as real;
  }
}
