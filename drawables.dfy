/**
  Drawables: the objects the scene submits each frame, their vertex counts,
  and the process-wide list `g_objects` that `Object::draw` appends to
  (src/main.cpp:168-229).
*/
module Drawables {

  /** A single-precision float. The pipeline only copies these (plus the
      literals 0 and 1 in the light records), so no float arithmetic is modelled. */
  type Float = real

  /** 2^32: `unsigned int` values in the source wrap modulo this. */
  const U32: nat := 0x1_0000_0000

  /** Floats per vertex record: a 3-component position and a 3-component normal. */
  const VertexStride: nat := 6

  /** The conversion `(unsigned int)n` of a size or a counter. */
  function U32Cast(n: nat): (r: nat)
    ensures r < U32
    ensures n < U32 ==> r == n
  {
    n % U32
  }

  /** `(unsigned int)verts.size()/6`: the cast binds before the division, so the
      size is truncated to 32 bits first, then divided rounding down. */
  function VertexCount(verts: seq<Float>): (c: nat)
    ensures c < U32
    ensures VertexStride * c <= U32Cast(|verts|) < VertexStride * c + VertexStride
    ensures |verts| < U32 ==> VertexStride * c <= |verts| < VertexStride * c + VertexStride
    ensures |verts| < U32 && |verts| % VertexStride == 0 ==> VertexStride * c == |verts|
  {
    U32Cast(|verts|) / VertexStride
  }

  datatype Vec3 = Vec3(x: Float, y: Float, z: Float)

  /** Per-object instance data: world position and colour. */
  datatype ObjectData = ObjectData(position: Vec3, color: Vec3)

  /** A drawable object. Nothing in the source changes an object after
      construction, so its members are constants; `vertexCount` is fixed by
      the `Drawable` constructor from the vertex data. */
  class Object {
    const verts: seq<Float>
    const data: ObjectData
    const vertexCount: nat := VertexCount(verts)

    constructor (verts: seq<Float>, data: ObjectData)
      ensures this.verts == verts && this.data == data
      ensures vertexCount == VertexCount(verts)
    {
      this.verts := verts;
      this.data := data;
    }

    /** `Object::draw`: registers this object for the current frame. */
    method Draw(queue: DrawQueue)
      modifies queue
      ensures queue.objects == old(queue.objects) + [this]
    {
      queue.objects := queue.objects + [this];
    }
  }

  /** The global `g_objects`: the objects submitted since the last dispatch. */
  class DrawQueue {
    var objects: seq<Object>

    constructor ()
      ensures objects == []
    {
      objects := [];
    }
  }
}
