/**
  The light list: each light is packed into a `LightData` record padded for
  the shader's std140 uniform block, and the records are uploaded back to
  back (src/main.cpp:353-380).
*/
module Lights {
  import opened Wrappers
  import opened Drawables

  /** `int lightCount = 200`. */
  const LightCount: int := 200

  /** Bytes per float. */
  const FloatSize: nat := 4

  /** `sizeof(LightData)` and the byte offsets of its members. */
  const LightStride: nat := 32
  const PositionOffset: nat := 0
  const PaddingOffset: nat := 12
  const ColorOffset: nat := 16
  const PowerOffset: nat := 28

  /** `LightData`: position[3], one padding float, color[3], power. */
  datatype LightData = LightData(position: Vec3, paddingPos: Float, color: Vec3, power: Float)

  /** The record packed for a light at `position`: zero padding, white, power 1. */
  function LightAt(position: Vec3): LightData
  {
    LightData(position, 0.0, Vec3(1.0, 1.0, 1.0), 1.0)
  }

  /** The loop filling `lights` from `lightPositions`, `lightCount` times. */
  method PackLights(lightPositions: seq<Vec3>, lightCount: int) returns (lights: seq<LightData>)
    requires lightCount <= |lightPositions|
    ensures |lights| == if lightCount < 0 then 0 else lightCount
    ensures forall i :: 0 <= i < |lights| ==> lights[i] == LightAt(lightPositions[i])
  {
    lights := [];
    var i := 0;
    while i < lightCount
      invariant 0 <= i <= (if lightCount < 0 then 0 else lightCount)
      invariant |lights| == i
      invariant forall k :: 0 <= k < i ==> lights[k] == LightAt(lightPositions[k])
    {
      var position := lightPositions[i];
      var light := LightData(position, 0.0, Vec3(1.0, 1.0, 1.0), 1.0);
      lights := lights + [light];
      i := i + 1;
    }
  }

  // ---------------------------------------------------------------------
  // The uploaded bytes, as floats

  /** One record's floats in memory order. */
  function RecordFloats(light: LightData): seq<Float>
  {
    [light.position.x, light.position.y, light.position.z, light.paddingPos,
     light.color.x, light.color.y, light.color.z, light.power]
  }

  /** The uniform buffer's contents: the records back to back. */
  function LightBuffer(lights: seq<LightData>): seq<Float>
  {
    if lights == [] then []
    else LightBuffer(lights[..|lights| - 1]) + RecordFloats(lights[|lights| - 1])
  }

  // ---------------------------------------------------------------------
  // The shader's side: the std140 layout of the light block

  /** Member types of the shader's light struct. */
  datatype GlslType = GlslFloat | GlslVec3

  /** std140 base alignment in bytes: 4 for a float, 16 for a vec3. */
  function BaseAlignment(t: GlslType): nat
  {
    match t
    case GlslFloat => 4
    case GlslVec3 => 16
  }

  function ByteSize(t: GlslType): nat
  {
    match t
    case GlslFloat => 4
    case GlslVec3 => 12
  }

  /** The least multiple of `alignment` that is at least `offset`. */
  function AlignUp(offset: nat, alignment: nat): nat
    requires alignment > 0
  {
    if offset % alignment == 0 then offset else offset + (alignment - offset % alignment)
  }

  /** std140 member offsets of a struct whose members start at `start`: each
      member goes at the next offset aligned to its base alignment. */
  function Std140Offsets(members: seq<GlslType>, start: nat): (r: seq<nat>)
    ensures |r| == |members|
    decreases |members|
  {
    if members == [] then []
    else
      var offset := AlignUp(start, BaseAlignment(members[0]));
      [offset] + Std140Offsets(members[1..], offset + ByteSize(members[0]))
  }

  /** Where the last member ends. */
  function Std140End(members: seq<GlslType>, start: nat): nat
    decreases |members|
  {
    if members == [] then start
    else Std140End(members[1..], AlignUp(start, BaseAlignment(members[0])) + ByteSize(members[0]))
  }

  /** std140 array stride of such a struct: its size rounded up to a vec4 (16 bytes). */
  function Std140Stride(members: seq<GlslType>): nat
  {
    AlignUp(Std140End(members, 0), 16)
  }

  /** The shader's light struct: position, colour, power (padding is implicit). */
  const LightsBlock: seq<GlslType> := [GlslVec3, GlslVec3, GlslFloat]

  datatype ShaderLight = ShaderLight(position: Vec3, color: Vec3, power: Float)

  /** What the shader reads as light `index` of the buffer, at the declared
      byte offsets within a 32-byte record (LightDataIsStd140 shows they are
      the std140 ones), or None when that record lies outside the buffer. */
  function ReadLight(buffer: seq<Float>, index: nat): Option<ShaderLight>
  {
    var base := index * LightStride;
    var p, c, w := (base + PositionOffset) / FloatSize, (base + ColorOffset) / FloatSize, (base + PowerOffset) / FloatSize;
    if p + 2 < |buffer| && c + 2 < |buffer| && w < |buffer| then
      Some(ShaderLight(Vec3(buffer[p], buffer[p + 1], buffer[p + 2]),
                       Vec3(buffer[c], buffer[c + 1], buffer[c + 2]), buffer[w]))
    else None
  }

  // ---------------------------------------------------------------------
  // Lemmas

  /** The host record's layout is the shader block's std140 layout: position at
      byte 0, colour at 16, power at 28, a 32-byte stride, and the record is
      exactly one stride long. */
  lemma LightDataIsStd140(light: LightData)
    ensures Std140Offsets(LightsBlock, 0) == [PositionOffset, ColorOffset, PowerOffset]
    ensures Std140Stride(LightsBlock) == LightStride
    ensures |RecordFloats(light)| * FloatSize == LightStride
    ensures RecordFloats(light)[PaddingOffset / FloatSize] == light.paddingPos
  {
    var power, colorPower := [GlslFloat], [GlslVec3, GlslFloat];
    assert LightsBlock[1..] == colorPower && colorPower[1..] == power && power[1..] == [];
    // position: aligned to 16 from 0, ends at 12
    assert AlignUp(0, 16) == 0;
    // colour: aligned to 16 from 12, ends at 28
    assert AlignUp(12, 16) == 16;
    // power: aligned to 4 from 28, ends at 32
    assert AlignUp(28, 4) == 28;
    assert AlignUp(32, 16) == 32;
    assert Std140Offsets(power, 28) == [28] && Std140End(power, 28) == 32;
    assert Std140Offsets(colorPower, 12) == [16, 28] && Std140End(colorPower, 12) == 32;
  }

  lemma {:induction false} LightBufferLength(lights: seq<LightData>)
    ensures |LightBuffer(lights)| * FloatSize == LightStride * |lights|
  {
    if lights != [] {
      LightBufferLength(lights[..|lights| - 1]);
    }
  }

  /** Record i occupies floats 8i .. 8i+8 of the buffer. */
  lemma {:induction false} LightBufferRecordAt(lights: seq<LightData>, i: nat)
    requires i < |lights|
    ensures |LightBuffer(lights)| == 8 * |lights|
    ensures LightBuffer(lights)[8 * i..8 * i + 8] == RecordFloats(lights[i])
  {
    LightBufferLength(lights);
    var init := lights[..|lights| - 1];
    LightBufferLength(init);
    if i < |init| {
      LightBufferRecordAt(init, i);
      assert init[i] == lights[i];
    }
  }

  /** With the std140 offsets, light i is read from floats 8i..8i+2 (position),
      8i+4..8i+6 (colour) and 8i+7 (power). */
  lemma ReadLightAt(buffer: seq<Float>, i: nat)
    requires 8 * i + 8 <= |buffer|
    ensures ReadLight(buffer, i) == Some(ShaderLight(Vec3(buffer[8 * i], buffer[8 * i + 1], buffer[8 * i + 2]),
                                                     Vec3(buffer[8 * i + 4], buffer[8 * i + 5], buffer[8 * i + 6]),
                                                     buffer[8 * i + 7]))
  {
    var base := i * LightStride;
    assert (base + PositionOffset) / FloatSize == 8 * i;
    assert (base + ColorOffset) / FloatSize == 8 * i + 4;
    assert (base + PowerOffset) / FloatSize == 8 * i + 7;
  }

  /** A buffer holding `light`'s record as record i is read back as that light. */
  lemma ReadRecord(buffer: seq<Float>, i: nat, light: LightData)
    requires 8 * i + 8 <= |buffer|
    requires buffer[8 * i..8 * i + 8] == RecordFloats(light)
    ensures ReadLight(buffer, i) == Some(ShaderLight(light.position, light.color, light.power))
  {
    ReadLightAt(buffer, i);
    var record := buffer[8 * i..8 * i + 8];
    forall k | 0 <= k < 8 ensures buffer[8 * i + k] == RecordFloats(light)[k] {
      assert record[k] == buffer[8 * i + k];
    }
  }

  /** Round trip: the shader, reading light i at the std140 offsets, sees the
      position, colour and power that were packed for light i. */
  lemma LightRoundTrip(lights: seq<LightData>, i: nat)
    requires i < |lights|
    ensures ReadLight(LightBuffer(lights), i) == Some(ShaderLight(lights[i].position, lights[i].color, lights[i].power))
  {
    LightBufferRecordAt(lights, i);
    ReadRecord(LightBuffer(lights), i, lights[i]);
  }

  /** Packing then uploading the `lightCount` lights: the buffer is one 32-byte
      record per light, and the shader reads light i back as light i's position,
      white colour and power 1. */
  method SetupLights(lightPositions: seq<Vec3>) returns (buffer: seq<Float>)
    requires LightCount <= |lightPositions|
    ensures |buffer| * FloatSize == LightStride * LightCount
    ensures forall i :: 0 <= i < LightCount ==>
      ReadLight(buffer, i) == Some(ShaderLight(lightPositions[i], Vec3(1.0, 1.0, 1.0), 1.0))
  {
    var lights := PackLights(lightPositions, LightCount);
    buffer := LightBuffer(lights);
    LightBufferLength(lights);
    forall i | 0 <= i < LightCount
      ensures ReadLight(buffer, i) == Some(ShaderLight(lightPositions[i], Vec3(1.0, 1.0, 1.0), 1.0))
    {
      LightRoundTrip(lights, i);
    }
  }
}
