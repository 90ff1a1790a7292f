/**
 The frames of the streaming protocol: a sixteen byte header, in version 2 the group id, and one
 record for each light.  The sender builds them byte by byte; the receiver strips the header.
 */
module StreamProtocol {
  import opened Prelude
  import opened Compositing
  import opened ColorLevels

  type Byte = x: int | 0 <= x < 256

  const ADDRTYPE_LIGHTID: Byte := 0
  const ADDRTYPE_GROUPID: Byte := 1
  const HEADER_SIZE: nat := 16
  const GROUP_ID_SIZE: nat := 36

  datatype ColorSpace = Rgb8 | XyBri

  /** A light to be sent; `id` is the number its id string denotes. */
  datatype StreamLight = StreamLight(id: nat, color: Rgb)

  datatype StreamOptions = StreamOptions(colorSpace: ColorSpace, useClipV2: bool, groupId: seq<Byte>, lights: seq<StreamLight>)

  function High(v: nat): Byte { v / 256 % 256 }

  function Low(v: nat): Byte { v % 256 }

  function Wide(high: nat, low: nat): nat { high * 256 + low }

  function Header(o: StreamOptions, seqNr: Byte): (h: seq<Byte>)
    ensures |h| == HEADER_SIZE
  {
    ['H' as int, 'u' as int, 'e' as int, 'S' as int, 't' as int, 'r' as int, 'e' as int, 'a' as int, 'm' as int,
     if o.useClipV2 then 2 else 1, 0, seqNr, 0, 0, if o.colorSpace.Rgb8? then 0 else 1, 0]
  }

  function Address(l: StreamLight, v2: bool): seq<Byte> {
    var id := l.id % 0x1_0000;
    if v2 then [Low(id)]
    else if id >= 100 then [ADDRTYPE_GROUPID, High(id - 100), Low(id - 100)]
    else [ADDRTYPE_LIGHTID, High(id), Low(id)]
  }

  function Channels(c: Rgb): seq<Byte> {
    [High(Quantised(c.r)), Low(Quantised(c.r)), High(Quantised(c.g)), Low(Quantised(c.g)),
     High(Quantised(c.b)), Low(Quantised(c.b))]
  }

  function Records(lights: seq<StreamLight>, v2: bool): seq<Byte> {
    if lights == [] then []
    else
      var l := lights[|lights| - 1];
      Records(lights[..|lights| - 1], v2) + (Address(l, v2) + Channels(l.color))
  }

  function Body(o: StreamOptions): seq<Byte> {
    (if o.useClipV2 then o.groupId else []) + Records(o.lights, o.useClipV2)
  }

  function Payload(o: StreamOptions, seqNr: Byte): seq<Byte> { Header(o, seqNr) + Body(o) }

  method SerializeLight(l: StreamLight, useClipV2: bool, before: seq<Byte>) returns (payload: seq<Byte>)
    ensures payload == before + (Address(l, useClipV2) + Channels(l.color))
  {
    var id := l.id % 0x1_0000;
    var r := Quantised(l.color.r);
    var g := Quantised(l.color.g);
    var b := Quantised(l.color.b);
    payload := before;
    if !useClipV2 {
      if id >= 100 {
        payload := payload + [ADDRTYPE_GROUPID];
        id := id - 100;
      } else {
        payload := payload + [ADDRTYPE_LIGHTID];
      }
    }
    if !useClipV2 {
      payload := payload + [High(id)];
    }
    payload := payload + [Low(id)];
    assert payload == before + Address(l, useClipV2);
    payload := payload + [High(r)];
    payload := payload + [Low(r)];
    payload := payload + [High(g)];
    payload := payload + [Low(g)];
    payload := payload + [High(b)];
    payload := payload + [Low(b)];
  }

  method SerializeGroupId(id: seq<Byte>, before: seq<Byte>) returns (payload: seq<Byte>)
    ensures payload == before + id
  {
    payload := before;
    for i := 0 to |id|
      invariant payload == before + id[..i]
    {
      payload := payload + [id[i]];
    }
  }

  method SerializeLights(lights: seq<StreamLight>, useClipV2: bool, before: seq<Byte>) returns (payload: seq<Byte>)
    ensures payload == before + Records(lights, useClipV2)
  {
    payload := before;
    assert before + Records(lights[..0], useClipV2) == before;
    hide *;
    for i := 0 to |lights|
      invariant payload == before + Records(lights[..i], useClipV2)
    {
      RecordsOneMore(lights, useClipV2, i);
      Associate(before, Records(lights[..i], useClipV2), Address(lights[i], useClipV2) + Channels(lights[i].color));
      payload := SerializeLight(lights[i], useClipV2, payload);
    }
    assert lights[..|lights|] == lights;
  }

  lemma {:induction false} RecordsOneMore(lights: seq<StreamLight>, v2: bool, i: nat)
    requires i < |lights|
    ensures Records(lights[..i + 1], v2)
         == Records(lights[..i], v2) + (Address(lights[i], v2) + Channels(lights[i].color))
  {
    assert lights[..i + 1][..i] == lights[..i];
  }

  method Serialize(o: StreamOptions, seqNr: Byte) returns (payload: seq<Byte>)
    ensures payload == Payload(o, seqNr)
  {
    hide Header;
    payload := Header(o, seqNr);
    if o.useClipV2 {
      payload := SerializeGroupId(o.groupId, payload);
    }
    payload := SerializeLights(o.lights, o.useClipV2, payload);
  }

  // ---------------------------------------------------------------- the receiving server

  /** A field that is not there is `undefined`, here -1. */
  datatype StreamMessage = StreamMessage(colormode: int, filter: int, length: int, version: int, data: seq<Byte>)

  /** Reading past the end gives `undefined`, here -1; bit operations take that for zero. */
  function At(data: seq<Byte>, i: nat): int { if i < |data| then data[i] else -1 }

  function Bits(x: int): nat { if x < 0 then 0 else x }

  /** A datagram shorter than a header leaves no data. */
  function Stripped(data: seq<Byte>): StreamMessage {
    StreamMessage(At(data, 14), At(data, 15), |data| - HEADER_SIZE, At(data, 9),
                  if |data| < HEADER_SIZE then [] else data[HEADER_SIZE..])
  }

  method Deserialize(data: seq<Byte>) returns (m: StreamMessage)
    ensures m == Stripped(data)
  {
    var length := |data| - HEADER_SIZE;
    var rawData := [];
    var i := 0;
    while i < length
      invariant 0 <= i && (i <= length || i == 0)
      invariant rawData == if length < 0 then [] else data[HEADER_SIZE..HEADER_SIZE + i]
    {
      rawData := rawData + [data[i + HEADER_SIZE]];
      i := i + 1;
    }
    m := StreamMessage(At(data, 14), At(data, 15), length, At(data, 9), rawData);
  }

  lemma {:induction false} PayloadStripped(o: StreamOptions, seqNr: Byte)
    ensures |Payload(o, seqNr)| >= HEADER_SIZE && Payload(o, seqNr)[11] == seqNr
    ensures Stripped(Payload(o, seqNr)) ==
            StreamMessage(if o.colorSpace.Rgb8? then 0 else 1, 0, |Body(o)|, if o.useClipV2 then 2 else 1, Body(o))
  {
    hide Body;
    assert Payload(o, seqNr)[HEADER_SIZE..] == Body(o);
  }

  // ---------------------------------------------------------------- records

  function RecordsSize(v2: bool, c: nat): nat { if v2 then 7 * c else 9 * c }

  function Offset(v2: bool, c: nat): nat { (if v2 then GROUP_ID_SIZE else 0) + RecordsSize(v2, c) }

  function Wide16(data: seq<Byte>, i: nat): nat { Wide(Bits(At(data, i)), Bits(At(data, i + 1))) }

  datatype Record = Record(addressType: int, id: int, r: nat, g: nat, b: nat)

  /** The record that starts at offset `i`. */
  function RecordAt(data: seq<Byte>, v2: bool, i: nat): Record {
    if v2 then Record(0, At(data, i), Wide16(data, i + 1), Wide16(data, i + 3), Wide16(data, i + 5))
    else Record(At(data, i), Wide16(data, i + 1), Wide16(data, i + 3), Wide16(data, i + 5), Wide16(data, i + 7))
  }

  /** What the record of a light has to say. */
  function RecordOf(l: StreamLight, v2: bool): Record {
    var id := l.id % 0x1_0000;
    var r, g, b := Quantised(l.color.r), Quantised(l.color.g), Quantised(l.color.b);
    if v2 then Record(0, id % 256, r, g, b)
    else if id >= 100 then Record(1, id - 100, r, g, b)
    else Record(0, id, r, g, b)
  }

  lemma {:induction false} SixteenBits(v: nat)
    requires v < 0x1_0000
    ensures Wide(High(v), Low(v)) == v
  {
  }

  lemma {:induction false} RecordsLength(lights: seq<StreamLight>, v2: bool)
    ensures |Records(lights, v2)| == RecordsSize(v2, |lights|)
  {
    if lights != [] {
      RecordsLength(lights[..|lights| - 1], v2);
    }
  }

  lemma {:induction false} RecordsSplit(lights: seq<StreamLight>, v2: bool, c: nat)
    requires c < |lights|
    ensures RecordsSize(v2, c + 1) <= |Records(lights, v2)|
    ensures Records(lights, v2)[RecordsSize(v2, c)..RecordsSize(v2, c + 1)] == Address(lights[c], v2) + Channels(lights[c].color)
  {
    hide *;
    var n := |lights| - 1;
    var front, own := lights[..n], Address(lights[n], v2) + Channels(lights[n].color);
    RecordsLength(front, v2);
    RecordsLength(lights, v2);
    RecordsOneMore(lights, v2, n);
    assert lights[..n + 1] == lights;
    RecordsFit(v2, c, n);
    if c < n {
      RecordsSplit(front, v2, c);
      SliceOfPrefix(Records(front, v2), own, RecordsSize(v2, c), RecordsSize(v2, c + 1));
    } else {
      SliceOfSuffix(Records(front, v2), own, 0, |own|);
    }
  }

  lemma {:induction false} RecordsFit(v2: bool, c: nat, n: nat)
    requires c <= n
    ensures RecordsSize(v2, c) <= RecordsSize(v2, c + 1) <= RecordsSize(v2, n + 1)
    ensures c < n ==> RecordsSize(v2, c + 1) <= RecordsSize(v2, n)
  {
  }

  lemma {:induction false} SliceOfPrefix(a: seq<Byte>, b: seq<Byte>, i: nat, j: nat)
    requires i <= j <= |a|
    ensures (a + b)[i..j] == a[i..j]
  {
  }

  lemma {:induction false} RecordDecodes(l: StreamLight, v2: bool)
    ensures RecordAt(Address(l, v2) + Channels(l.color), v2, 0) == RecordOf(l, v2)
  {
    SixteenBits(Quantised(l.color.r));
    SixteenBits(Quantised(l.color.g));
    SixteenBits(Quantised(l.color.b));
    var id := l.id % 0x1_0000;
    SixteenBits(if id >= 100 then id - 100 else id);
  }

  lemma {:induction false} RecordIsLocal(data: seq<Byte>, v2: bool, i: nat)
    requires i + RecordsSize(v2, 1) <= |data|
    ensures RecordAt(data, v2, i) == RecordAt(data[i..i + RecordsSize(v2, 1)], v2, 0)
  {
  }

  lemma {:induction false} SliceOfSuffix(a: seq<Byte>, b: seq<Byte>, i: nat, j: nat)
    requires i <= j <= |b|
    ensures (a + b)[|a| + i..|a| + j] == b[i..j]
    ensures b[..|b|] == b && b[0..|b|] == b
  {
  }

  /** Round trip: the record at the c-th offset of a body is the c-th light, for every list of lights. */
  lemma {:induction false} RoundTrip(o: StreamOptions, c: nat)
    requires c < |o.lights|
    requires o.useClipV2 ==> |o.groupId| == GROUP_ID_SIZE
    ensures RecordAt(Body(o), o.useClipV2, Offset(o.useClipV2, c)) == RecordOf(o.lights[c], o.useClipV2)
  {
    hide RecordAt;
    hide RecordOf;
    hide Records;
    hide Address;
    hide Channels;
    var v2 := o.useClipV2;
    var i := Offset(v2, c);
    RecordsSplit(o.lights, v2, c);
    SliceOfSuffix(if v2 then o.groupId else [], Records(o.lights, v2), RecordsSize(v2, c), RecordsSize(v2, c + 1));
    RecordIsLocal(Body(o), v2, i);
    RecordDecodes(o.lights[c], v2);
  }

  /** The length the receiver computes, which is right exactly when the numbers of lights and the group id fit. */
  lemma {:induction false} BodyLength(o: StreamOptions)
    ensures |Body(o)| == (if o.useClipV2 then |o.groupId| else 0) + RecordsSize(o.useClipV2, |o.lights|)
  {
    RecordsLength(o.lights, o.useClipV2);
  }
}
