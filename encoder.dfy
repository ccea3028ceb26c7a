/**
  The draw-command encoder: the loop in `drawObjects` (src/main.cpp:408-443)
  that turns the submitted objects into a flat vertex array, a flat
  per-instance array and a list of indirect draw commands.
*/
module Encoder {
  import opened Wrappers
  import opened Drawables

  /** `DrawArraysIndirectCommand`; every field is an `unsigned int`. */
  datatype DrawCommand = DrawCommand(count: nat, instanceCount: nat, firstVertex: nat, baseInstance: nat)

  /** Floats per instance record: position x,y,z then colour x,y,z. */
  const InstanceStride: nat := 6

  // ---------------------------------------------------------------------
  // Reference definitions of what the encoder produces

  /** Sum of the vertex counts of `objects`, without 32-bit wrap-around. */
  function TotalVertexCount(objects: seq<Object>): nat
  {
    if objects == [] then 0
    else TotalVertexCount(objects[..|objects| - 1]) + objects[|objects| - 1].vertexCount
  }

  /** Every object's vertex data, concatenated in submission order. */
  function VertexBuffer(objects: seq<Object>): seq<Float>
  {
    if objects == [] then []
    else VertexBuffer(objects[..|objects| - 1]) + objects[|objects| - 1].verts
  }

  /** The instance record of one object. */
  function InstanceRecord(data: ObjectData): seq<Float>
  {
    [data.position.x, data.position.y, data.position.z, data.color.x, data.color.y, data.color.z]
  }

  /** Every object's instance record, in submission order. */
  function InstanceBuffer(objects: seq<Object>): seq<Float>
  {
    if objects == [] then []
    else InstanceBuffer(objects[..|objects| - 1]) + InstanceRecord(objects[|objects| - 1].data)
  }

  /** The command for the object at `index` whose vertices start after
      `firstVertex` earlier vertices; offsets and indices are `unsigned int`. */
  function CommandFor(obj: Object, firstVertex: nat, index: nat): DrawCommand
  {
    DrawCommand(obj.vertexCount, 1, U32Cast(firstVertex), U32Cast(index))
  }

  /** Command i draws object i alone: its own vertices, after all earlier
      objects' vertices, with instance slot i. */
  function Commands(objects: seq<Object>): seq<DrawCommand>
  {
    seq(|objects|, i requires 0 <= i < |objects| => CommandFor(objects[i], TotalVertexCount(objects[..i]), i))
  }

  /** Total vertices drawn by a list of commands (one instance each). */
  function SumCounts(commands: seq<DrawCommand>): nat
  {
    if commands == [] then 0
    else SumCounts(commands[..|commands| - 1]) + commands[|commands| - 1].count
  }

  // ---------------------------------------------------------------------
  // What the indirect draw reads back for one command

  /** The vertex data a sub-draw fetches: vertices firstVertex .. firstVertex+count-1
      of a buffer with a 6-float stride, or None when that range lies outside it. */
  function VertexSlice(vertices: seq<Float>, command: DrawCommand): (r: Option<seq<Float>>)
    ensures r.Some? ==> |r.value| == VertexStride * command.count
    ensures r.None? <==> |vertices| < VertexStride * (command.firstVertex + command.count)
  {
    var lo, hi := VertexStride * command.firstVertex, VertexStride * (command.firstVertex + command.count);
    if hi <= |vertices| then Some(vertices[lo..hi]) else None
  }

  /** The instance record a sub-draw fetches: with an attribute divisor of 1 its
      single instance reads slot baseInstance; None when the slot is outside the buffer. */
  function InstanceSlot(instances: seq<Float>, command: DrawCommand): (r: Option<seq<Float>>)
    ensures r.Some? ==> |r.value| == InstanceStride
    ensures r.None? <==> |instances| < InstanceStride * (command.baseInstance + 1)
  {
    var lo := InstanceStride * command.baseInstance;
    if lo + InstanceStride <= |instances| then Some(instances[lo..lo + InstanceStride]) else None
  }

  /** Every object's vertex data is a whole number of 6-float records. */
  predicate WholeRecords(objects: seq<Object>)
  {
    forall i :: 0 <= i < |objects| ==> |objects[i].verts| % VertexStride == 0
  }

  // ---------------------------------------------------------------------
  // The encoder

  /** One pass over `objects`, as the loop in `drawObjects` runs it when it
      (re)builds the batch: push a command, advance the running vertex offset,
      append the vertex data and the instance record. */
  method Encode(objects: seq<Object>) returns (drawCommands: seq<DrawCommand>, verts: seq<Float>, uniforms: seq<Float>, numVerts: nat)
    ensures drawCommands == Commands(objects)
    ensures verts == VertexBuffer(objects)
    ensures uniforms == InstanceBuffer(objects)
    ensures numVerts == U32Cast(TotalVertexCount(objects))
  {
    drawCommands, verts, uniforms, numVerts := [], [], [], 0;
    var count: nat := 0;
    var i := 0;
    while i < |objects|
      invariant 0 <= i <= |objects|
      invariant count == U32Cast(i)
      invariant numVerts == U32Cast(TotalVertexCount(objects[..i]))
      invariant drawCommands == Commands(objects[..i])
      invariant verts == VertexBuffer(objects[..i])
      invariant uniforms == InstanceBuffer(objects[..i])
    {
      var obj := objects[i];
      EncodeStep(objects, i, count, numVerts, drawCommands, verts, uniforms);
      var command := DrawCommand(obj.vertexCount, 1, numVerts, count);
      count := U32Cast(count + 1);
      drawCommands := drawCommands + [command];
      numVerts := U32Cast(numVerts + obj.vertexCount);
      verts := AppendAll(verts, obj.verts);
      var pos, col := obj.data.position, obj.data.color;
      uniforms := uniforms + [pos.x, pos.y, pos.z, col.x, col.y, col.z];
      i := i + 1;
    }
    assert objects[..i] == objects;
  }

  /** The inner loop that copies an object's floats onto the vertex array one at a time. */
  method AppendAll(verts: seq<Float>, more: seq<Float>) returns (r: seq<Float>)
    ensures r == verts + more
  {
    r := verts;
    var k := 0;
    while k < |more|
      invariant 0 <= k <= |more|
      invariant r == verts + more[..k]
    {
      r := r + [more[k]];
      k := k + 1;
    }
    assert more[..k] == more;
  }

  // ---------------------------------------------------------------------
  // Lemmas

  /** Adding to a wrapped counter wraps the exact sum. */
  lemma U32CastAdd(a: nat, b: nat)
    ensures U32Cast(U32Cast(a) + b) == U32Cast(a + b)
  {
    var q := a / U32;
    assert a == q * U32 + U32Cast(a);
    assert a + b == q * U32 + (U32Cast(a) + b);
  }

  /** Encoding one more object appends exactly its command. */
  lemma CommandsSnoc(objects: seq<Object>, i: nat)
    requires i < |objects|
    ensures Commands(objects[..i + 1]) == Commands(objects[..i]) + [CommandFor(objects[i], TotalVertexCount(objects[..i]), i)]
  {
    var longer, shorter := objects[..i + 1], objects[..i];
    forall k | 0 <= k < i
      ensures Commands(longer)[k] == Commands(shorter)[k]
    {
      assert longer[..k] == shorter[..k];
    }
    assert longer[..i] == shorter;
  }

  /** Encoding one more object adds its vertex count to the running total and
      appends its vertex data and its instance record. */
  lemma PrefixSnoc(objects: seq<Object>, i: nat)
    requires i < |objects|
    ensures TotalVertexCount(objects[..i + 1]) == TotalVertexCount(objects[..i]) + objects[i].vertexCount
    ensures VertexBuffer(objects[..i + 1]) == VertexBuffer(objects[..i]) + objects[i].verts
    ensures InstanceBuffer(objects[..i + 1]) == InstanceBuffer(objects[..i]) + InstanceRecord(objects[i].data)
  {
    assert objects[..i + 1][..i] == objects[..i];
  }

  /** One iteration of the encoder's loop keeps its invariant: the two
      `unsigned int` counters keep wrapping the exact object index and the
      exact running vertex total, and the three arrays grow by object i's part. */
  lemma EncodeStep(objects: seq<Object>, i: nat, count: nat, numVerts: nat,
                   drawCommands: seq<DrawCommand>, verts: seq<Float>, uniforms: seq<Float>)
    requires i < |objects|
    requires count == U32Cast(i)
    requires numVerts == U32Cast(TotalVertexCount(objects[..i]))
    requires drawCommands == Commands(objects[..i])
    requires verts == VertexBuffer(objects[..i])
    requires uniforms == InstanceBuffer(objects[..i])
    ensures U32Cast(count + 1) == U32Cast(i + 1)
    ensures U32Cast(numVerts + objects[i].vertexCount) == U32Cast(TotalVertexCount(objects[..i + 1]))
    ensures drawCommands + [DrawCommand(objects[i].vertexCount, 1, numVerts, count)] == Commands(objects[..i + 1])
    ensures verts + objects[i].verts == VertexBuffer(objects[..i + 1])
    ensures uniforms + InstanceRecord(objects[i].data) == InstanceBuffer(objects[..i + 1])
  {
    CommandsSnoc(objects, i);
    PrefixSnoc(objects, i);
    U32CastAdd(i, 1);
    U32CastAdd(TotalVertexCount(objects[..i]), objects[i].vertexCount);
  }

  /** Encoding a concatenation concatenates the vertex data. */
  lemma {:induction false} VertexBufferAppend(a: seq<Object>, b: seq<Object>)
    ensures VertexBuffer(a + b) == VertexBuffer(a) + VertexBuffer(b)
    decreases |b|
  {
    if b == [] {
      assert a + b == a;
    } else {
      var b' := b[..|b| - 1];
      assert (a + b)[..|a + b| - 1] == a + b';
      VertexBufferAppend(a, b');
    }
  }

  /** With whole vertex records and no 32-bit overflow, the vertex array
      holds exactly 6 floats per counted vertex. */
  lemma {:induction false} VertexBufferLength(objects: seq<Object>)
    requires WholeRecords(objects)
    requires |VertexBuffer(objects)| < U32
    ensures |VertexBuffer(objects)| == VertexStride * TotalVertexCount(objects)
  {
    if objects != [] {
      var init := objects[..|objects| - 1];
      assert WholeRecords(init) by {
        forall i | 0 <= i < |init| ensures |init[i].verts| % VertexStride == 0 {
          assert init[i] == objects[i];
        }
      }
      VertexBufferLength(init);
    }
  }

  /** The vertex array around object i: earlier objects' data, object i's, later objects'. */
  lemma VertexBufferAround(objects: seq<Object>, i: nat)
    requires i < |objects|
    ensures VertexBuffer(objects) == VertexBuffer(objects[..i]) + objects[i].verts + VertexBuffer(objects[i + 1..])
  {
    var upto, rest := objects[..i + 1], objects[i + 1..];
    assert upto + rest == objects;
    VertexBufferAppend(upto, rest);
    assert VertexBuffer(objects) == VertexBuffer(upto) + VertexBuffer(rest);
    PrefixSnoc(objects, i);
  }

  /** Round trip: the slice command i selects from the vertex array is object
      i's vertex data, and command i starts at the exact prefix sum. */
  lemma VertexRoundTrip(objects: seq<Object>, i: nat)
    requires WholeRecords(objects)
    requires |VertexBuffer(objects)| < U32
    requires i < |objects|
    ensures Commands(objects)[i].firstVertex == TotalVertexCount(objects[..i])
    ensures Commands(objects)[i].count == |objects[i].verts| / VertexStride
    ensures VertexSlice(VertexBuffer(objects), Commands(objects)[i]) == Some(objects[i].verts)
  {
    var pre, verts := objects[..i], objects[i].verts;
    VertexBufferAround(objects, i);
    var all := VertexBuffer(objects);
    assert WholeRecords(pre) by {
      forall k | 0 <= k < |pre| ensures |pre[k].verts| % VertexStride == 0 {
        assert pre[k] == objects[k];
      }
    }
    VertexBufferLength(pre);
    var lo := |VertexBuffer(pre)|;
    assert lo == VertexStride * TotalVertexCount(pre) < U32;
    assert VertexStride * objects[i].vertexCount == |verts|;
    assert Commands(objects)[i] == CommandFor(objects[i], TotalVertexCount(pre), i);
    assert all[lo..lo + |verts|] == verts;
  }

  lemma {:induction false} InstanceBufferLength(objects: seq<Object>)
    ensures |InstanceBuffer(objects)| == InstanceStride * |objects|
  {
    if objects != [] {
      InstanceBufferLength(objects[..|objects| - 1]);
    }
  }

  /** Instance slot i of the instance array holds object i's position then colour. */
  lemma {:induction false} InstanceSlotAt(objects: seq<Object>, i: nat)
    requires i < |objects|
    ensures |InstanceBuffer(objects)| == InstanceStride * |objects|
    ensures InstanceBuffer(objects)[InstanceStride * i..InstanceStride * i + InstanceStride] == InstanceRecord(objects[i].data)
  {
    InstanceBufferLength(objects);
    var init := objects[..|objects| - 1];
    InstanceBufferLength(init);
    if i < |init| {
      InstanceSlotAt(init, i);
      assert init[i] == objects[i];
    }
  }

  /** Round trip for instance data: command i selects slot i, which holds object
      i's instance record (as long as i fits in an `unsigned int`). */
  lemma InstanceRoundTrip(objects: seq<Object>, i: nat)
    requires |objects| <= U32
    requires i < |objects|
    ensures Commands(objects)[i].baseInstance == i
    ensures Commands(objects)[i].instanceCount == 1
    ensures InstanceSlot(InstanceBuffer(objects), Commands(objects)[i]) == Some(InstanceRecord(objects[i].data))
  {
    InstanceSlotAt(objects, i);
    var command, instances := Commands(objects)[i], InstanceBuffer(objects);
    assert command.baseInstance == i;
    assert InstanceSlot(instances, command) == Some(instances[InstanceStride * i..InstanceStride * i + InstanceStride]);
  }

  /** The sub-draws together draw every object's vertices: the total of the
      command counts is the total vertex count. */
  lemma {:induction false} CommandsDrawAllVertices(objects: seq<Object>)
    ensures |Commands(objects)| == |objects|
    ensures SumCounts(Commands(objects)) == TotalVertexCount(objects)
  {
    if objects != [] {
      var n := |objects| - 1;
      CommandsSnoc(objects, n);
      PrefixSnoc(objects, n);
      assert objects[..n + 1] == objects;
      var cs := Commands(objects);
      assert cs[..n] == Commands(objects[..n]);
      CommandsDrawAllVertices(objects[..n]);
    }
  }

  /** One 3-vertex triangle and one 6-vertex quad give commands
      {3, 1, 0, 0} and {6, 1, 3, 1}, 54 vertex floats and 12 instance floats. */
  method TriangleAndQuad(data: ObjectData) returns (drawCommands: seq<DrawCommand>, verts: seq<Float>, uniforms: seq<Float>)
    ensures drawCommands == [DrawCommand(3, 1, 0, 0), DrawCommand(6, 1, 3, 1)]
    ensures |verts| == 54 && |uniforms| == 12
  {
    var tri := new Object(seq(18, _ => 0.0), data);
    var quad := new Object(seq(36, _ => 0.0), data);
    var objects := [tri, quad];
    var numVerts;
    drawCommands, verts, uniforms, numVerts := Encode(objects);
    assert objects[..0] == [] && objects[..1] == [tri] && [tri][..0] == [];
    assert VertexBuffer([tri]) == tri.verts;
    assert VertexBuffer(objects) == tri.verts + quad.verts;
    assert InstanceBuffer([tri]) == InstanceRecord(data);
    assert InstanceBuffer(objects) == InstanceRecord(data) + InstanceRecord(data);
  }
}
