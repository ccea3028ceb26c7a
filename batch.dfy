/**
  The batch cache and the per-frame dispatch: `drawObjects` with its
  `static bool firstRun` and (in static mode) `static` command list, the
  `drawObjectBuffers` GPU buffers it fills, and `drawDispatched`
  (src/main.cpp:387-555). GPU buffers are ghost fields holding what was last
  uploaded to them.
*/
module Batch {
  import opened Drawables
  import opened Encoder

  /** The build configuration: `StaticDraw` when `STATIC_DRAW` is defined (it
      implies `NO_REGENERATING_DRAW_CALLS`), `Regenerating` when neither is. */
  datatype DrawMode = StaticDraw | Regenerating

  /** What a GPU buffer holds after uploading `data` into it. An empty upload
      is a no-op: the buffer keeps what it held. */
  function Upload<T>(previous: seq<T>, data: seq<T>): seq<T>
  {
    if data == [] then previous else data
  }

  /** The pipeline context: the statics of `drawObjects` and the buffers they feed. */
  class Pipeline {
    const mode: DrawMode
    var firstRun: bool
    var drawCommands: seq<DrawCommand>
    /** Contents of the vertex, per-instance ("uniforms") and indirect-command buffers. */
    ghost var vertexBuffer: seq<Float>
    ghost var uniformsBuffer: seq<Float>
    ghost var indirectBuffer: seq<DrawCommand>
    /** The draw count given to the last multi-draw call. */
    ghost var drawCount: nat
    /** The object list whose encoding `drawCommands` holds. */
    ghost var encoded: seq<Object>

    ghost predicate Valid()
      reads this
    {
      && drawCommands == Commands(encoded)
      && (mode == StaticDraw && firstRun ==> encoded == [])
      && (mode == StaticDraw ==>
            vertexBuffer == VertexBuffer(encoded) && uniformsBuffer == InstanceBuffer(encoded)
            && indirectBuffer == drawCommands)
      && (VertexBuffer(encoded) != [] ==> vertexBuffer == VertexBuffer(encoded))
      && (encoded != [] ==> uniformsBuffer == InstanceBuffer(encoded) && indirectBuffer == drawCommands)
    }

    /** Whether the next call encodes and uploads the objects it is given. */
    predicate Rebuilds()
      reads this
    {
      mode == Regenerating || firstRun
    }

    constructor (mode: DrawMode)
      ensures Valid() && this.mode == mode && firstRun
      ensures drawCommands == [] && encoded == []
      ensures vertexBuffer == [] && uniformsBuffer == [] && indirectBuffer == [] && drawCount == 0
    {
      this.mode := mode;
      firstRun := true;
      drawCommands := [];
      vertexBuffer, uniformsBuffer, indirectBuffer, drawCount := [], [], [], 0;
      encoded := [];
    }

    /** `drawObjects`: encode and upload when this call rebuilds, then upload the
        command list and issue one multi-draw with one sub-draw per command. */
    method DrawObjects(objects: seq<Object>)
      requires Valid()
      modifies this
      ensures Valid()
      ensures firstRun == (old(firstRun) && mode == Regenerating)
      ensures old(Rebuilds()) ==>
        && encoded == objects && drawCommands == Commands(objects)
        && vertexBuffer == Upload(old(vertexBuffer), VertexBuffer(objects))
        && uniformsBuffer == Upload(old(uniformsBuffer), InstanceBuffer(objects))
      ensures !old(Rebuilds()) ==>
        && encoded == old(encoded) && drawCommands == old(drawCommands)
        && vertexBuffer == old(vertexBuffer) && uniformsBuffer == old(uniformsBuffer)
      ensures indirectBuffer == Upload(old(indirectBuffer), drawCommands)
      ensures drawCount == |drawCommands|
    {
      if Rebuilds() {
        var commands, verts, uniforms, numVerts := Encode(objects);
        if mode == StaticDraw {
          // the static list, empty on the first run, is appended to
          drawCommands := drawCommands + commands;
        } else {
          // a fresh local list each call
          drawCommands := commands;
        }
        encoded := objects;
        vertexBuffer := Upload(vertexBuffer, verts);
        uniformsBuffer := Upload(uniformsBuffer, uniforms);
      }
      if mode == StaticDraw {
        firstRun := false;
      }
      indirectBuffer := Upload(indirectBuffer, drawCommands);
      drawCount := |drawCommands|;
    }

    /** `drawDispatched`: draw the objects submitted this frame, then empty the list. */
    method DrawDispatched(queue: DrawQueue)
      requires Valid()
      modifies this, queue
      ensures Valid() && queue.objects == []
      ensures firstRun == (old(firstRun) && mode == Regenerating)
      ensures old(Rebuilds()) ==>
        && encoded == old(queue.objects) && drawCommands == Commands(old(queue.objects))
        && vertexBuffer == Upload(old(vertexBuffer), VertexBuffer(old(queue.objects)))
        && uniformsBuffer == Upload(old(uniformsBuffer), InstanceBuffer(old(queue.objects)))
      ensures !old(Rebuilds()) ==>
        && encoded == old(encoded) && drawCommands == old(drawCommands)
        && vertexBuffer == old(vertexBuffer) && uniformsBuffer == old(uniformsBuffer)
      ensures indirectBuffer == Upload(old(indirectBuffer), drawCommands)
      ensures drawCount == |drawCommands|
    {
      DrawObjects(queue.objects);
      queue.objects := [];
    }
  }

  /** One frame of the render loop: every object registers itself with `draw`,
      in order, then the frame is dispatched. */
  method RenderFrame(pipeline: Pipeline, queue: DrawQueue, objects: seq<Object>)
    requires pipeline.Valid() && queue.objects == []
    modifies pipeline, queue
    ensures pipeline.Valid() && queue.objects == []
    ensures pipeline.firstRun == (old(pipeline.firstRun) && pipeline.mode == Regenerating)
    ensures old(pipeline.Rebuilds()) ==>
      && pipeline.encoded == objects && pipeline.drawCommands == Commands(objects)
      && pipeline.vertexBuffer == Upload(old(pipeline.vertexBuffer), VertexBuffer(objects))
      && pipeline.uniformsBuffer == Upload(old(pipeline.uniformsBuffer), InstanceBuffer(objects))
    ensures !old(pipeline.Rebuilds()) ==>
      && pipeline.encoded == old(pipeline.encoded)
      && pipeline.drawCommands == old(pipeline.drawCommands)
      && pipeline.vertexBuffer == old(pipeline.vertexBuffer)
      && pipeline.uniformsBuffer == old(pipeline.uniformsBuffer)
    ensures pipeline.indirectBuffer == Upload(old(pipeline.indirectBuffer), pipeline.drawCommands)
    ensures pipeline.drawCount == |pipeline.drawCommands|
  {
    var i := 0;
    while i < |objects|
      invariant 0 <= i <= |objects|
      invariant queue.objects == objects[..i]
      modifies queue
    {
      objects[i].Draw(queue);
      assert objects[..i + 1] == objects[..i] + [objects[i]];
      i := i + 1;
    }
    assert objects[..i] == objects;
    pipeline.DrawDispatched(queue);
  }

  /** Static mode: the first call fixes the batch. A later call with any other
      objects (moved, recoloured, added or removed) draws the first call's
      commands and instance data unchanged. */
  method StaticBatchIsReused(first: seq<Object>, later: seq<Object>)
    returns (firstCommands: seq<DrawCommand>, laterCommands: seq<DrawCommand>, ghost instances: seq<Float>)
    ensures firstCommands == Commands(first)
    ensures laterCommands == firstCommands
    ensures instances == InstanceBuffer(first)
  {
    var pipeline := new Pipeline(StaticDraw);
    pipeline.DrawObjects(first);
    firstCommands := pipeline.drawCommands;
    pipeline.DrawObjects(later);
    laterCommands := pipeline.drawCommands;
    instances := pipeline.uniformsBuffer;
  }

  /** Regenerating mode: two calls on the same objects upload identical
      buffers and draw identical command lists. */
  method RegeneratingIsIdempotent(objects: seq<Object>)
    returns (firstCommands: seq<DrawCommand>, secondCommands: seq<DrawCommand>,
             ghost firstBuffers: (seq<Float>, seq<Float>), ghost secondBuffers: (seq<Float>, seq<Float>))
    ensures firstCommands == secondCommands == Commands(objects)
    ensures firstBuffers == secondBuffers == (VertexBuffer(objects), InstanceBuffer(objects))
  {
    var pipeline := new Pipeline(Regenerating);
    pipeline.DrawObjects(objects);
    firstCommands := pipeline.drawCommands;
    firstBuffers := (pipeline.vertexBuffer, pipeline.uniformsBuffer);
    pipeline.DrawObjects(objects);
    secondCommands := pipeline.drawCommands;
    secondBuffers := (pipeline.vertexBuffer, pipeline.uniformsBuffer);
  }
}
