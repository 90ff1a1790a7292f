/**
 The client that shows streamed frames: a timer walks over the records of the last frame with a
 moving index and reports the light levels it finds.
 */
module StreamerClient {
  import opened ColorLevels
  import opened StreamProtocol

  datatype Locations = LocationList(length: nat) | LocationMap(count: nat)

  datatype Outcome =
    | Update(id: int, r: int, g: int, b: int)
    | UnsupportedAddress

  datatype Notice = Idle | SizeMismatch | Streaming | Nothing

  /** What a record leads to: only address type 0 is shown. */
  function Shown(r: Record): Outcome {
    if r.addressType == 0 then Update(r.id, Level(r.r), Level(r.g), Level(r.b)) else UnsupportedAddress
  }

  /** The outcomes of the first `n` records. */
  function Outcomes(data: seq<Byte>, v2: bool, n: nat): (r: seq<Outcome>)
    ensures |r| == n
  {
    if n == 0 then [] else Outcomes(data, v2, n - 1) + [Shown(RecordAt(data, v2, Offset(v2, n - 1)))]
  }

  class Streamer {
    var lightDataSize: nat
    var locationCount: nat
    var bytesNeeded: nat
    var streamData: seq<Byte>
    var newData: bool
    var version: int
    var updates: seq<Outcome>

    constructor ()
      ensures lightDataSize == 9 && version == 1 && streamData == [] && !newData && updates == []
    {
      lightDataSize, locationCount, bytesNeeded := 9, 0, 0;
      streamData, newData, version, updates := [], false, 1, [];
    }

    predicate V2()
      reads this
    {
      version != 1
    }

    predicate Fits()
      reads this
    {
      (if version == 1 then bytesNeeded else bytesNeeded + GROUP_ID_SIZE) == |streamData|
    }

    /** The record size of version 2 is never taken back. */
    method Start(locations: Locations)
      modifies this`lightDataSize, this`locationCount, this`bytesNeeded
      ensures locationCount == if locations.LocationList? then locations.length else locations.count
      ensures lightDataSize == if locations.LocationList? then 7 else old(lightDataSize)
      ensures bytesNeeded == locationCount * lightDataSize
    {
      match locations {
        case LocationList(n) =>
          locationCount := n;
          lightDataSize := 7;
        case LocationMap(n) =>
          locationCount := n;
      }
      bytesNeeded := locationCount * lightDataSize;
    }

    method Receive(m: StreamMessage)
      modifies this`streamData, this`newData, this`version
      ensures if m.colormode == 0 then streamData == m.data && newData && version == m.version
              else streamData == old(streamData) && newData == old(newData) && version == old(version)
    {
      if m.colormode == 0 {
        streamData := m.data;
        newData := true;
        version := m.version;
      }
    }

    /** One timer tick: a frame is shown once, and only if its length is what the locations need. */
    method Tick() returns (notice: Notice)
      modifies this`newData, this`updates
      ensures notice == if streamData == [] then Idle else if !Fits() then SizeMismatch
                        else if old(newData) then Streaming else Nothing
      ensures notice.Streaming? ==> !newData && updates == old(updates) + Outcomes(streamData, V2(), locationCount)
      ensures !notice.Streaming? ==> newData == old(newData) && updates == old(updates)
    {
      if |streamData| == 0 {
        return Idle;
      }
      if (if version == 1 then bytesNeeded else bytesNeeded + 36) != |streamData| {
        return SizeMismatch;
      }
      if !newData {
        return Nothing;
      }
      newData := false;
      Walk();
      return Streaming;
    }

    /** The walk over the records.  A version 2 record has no address type and a one byte id, so the index is
        moved back by one for each; before record c it stands at the offset of record c. */
    method Walk()
      modifies this`updates
      ensures updates == old(updates) + Outcomes(streamData, V2(), locationCount)
    {
      hide Level;
      hide At;
      hide Bits;
      var i: int := if version == 1 then 0 else 36;
      for c := 0 to locationCount
        invariant i == Offset(V2(), c)
        invariant updates == old(updates) + Outcomes(streamData, V2(), c)
      {
        var addressType := if version == 1 then At(streamData, i) else 0;
        i := if version == 1 then i else i - 1;
        if addressType == 0 {
          var id := 0;
          if version == 1 {
            id := Wide(Bits(At(streamData, i + 1)), Bits(At(streamData, i + 2)));
          } else {
            id := At(streamData, i + 1);
            i := i - 1;
          }
          var r := Level(Wide16(streamData, i + 3));
          var g := Level(Wide16(streamData, i + 5));
          var b := Level(Wide16(streamData, i + 7));
          updates := updates + [Update(id, r, g, b)];
        } else {
          updates := updates + [UnsupportedAddress];
        }
        i := i + 9;
      }
    }
  }

  // ---------------------------------------------------------------- from the sender to the screen

  /** What the client should show for a light. */
  function Expected(l: StreamLight, v2: bool): Outcome {
    var id := l.id % 0x1_0000;
    if !v2 && id >= 100 then UnsupportedAddress
    else Update(if v2 then id % 256 else id, Level(Quantised(l.color.r)), Level(Quantised(l.color.g)), Level(Quantised(l.color.b)))
  }

  lemma {:induction false} OutcomesAre(data: seq<Byte>, v2: bool, n: nat, c: nat)
    requires c < n
    ensures Outcomes(data, v2, n)[c] == Shown(RecordAt(data, v2, Offset(v2, c)))
  {
    if c < n - 1 {
      OutcomesAre(data, v2, n - 1, c);
    }
  }

  /** A frame that arrives shows every light of the group with its level, in order; version 1 cannot show
      ids of 100 and more, and version 2 shows ids modulo 256. */
  lemma {:induction false} FrameReachesTheScreen(o: StreamOptions, seqNr: Byte, c: nat)
    requires c < |o.lights|
    requires o.useClipV2 ==> |o.groupId| == GROUP_ID_SIZE
    ensures var m := Stripped(Payload(o, seqNr));
            Outcomes(m.data, m.version != 1, |o.lights|)[c] == Expected(o.lights[c], o.useClipV2)
  {
    hide RecordAt;
    hide Body;
    PayloadStripped(o, seqNr);
    RoundTrip(o, c);
    OutcomesAre(Body(o), o.useClipV2, |o.lights|, c);
  }

  /** The size check lets a frame through exactly when the group id and the number of lights are right together. */
  lemma {:induction false} SizeCheckIsExact(o: StreamOptions, locationCount: nat)
    ensures !o.useClipV2 ==> (|Body(o)| == locationCount * 9 <==> |o.lights| == locationCount)
    ensures o.useClipV2 ==> (|Body(o)| == locationCount * 7 + 36 <==> |o.groupId| + 7 * |o.lights| == 36 + 7 * locationCount)
    ensures o.useClipV2 && |o.groupId| == GROUP_ID_SIZE ==> (|Body(o)| == locationCount * 7 + 36 <==> |o.lights| == locationCount)
  {
    BodyLength(o);
  }
}
