/**
 * `TextModel` of `models/text_model.cpp`: a list of glyph vertices and the array
 * buffer they are uploaded to. The vertex layout is not part of this model, so
 * the vertex type is a parameter.
 */
module TextModels {
  import opened Wrappers
  import Gpu

  /** `sizeof(TextVertex)`: the vertex layout is not part of this model, so the size
      is assumed to be 16 bytes; no contract depends on the value. */
  const TextVertexSize: nat := 16

  /** The flags every text buffer is built with. */
  const TextBufferFlags: Gpu.Flags := Gpu.Mutable(Gpu.DynamicDraw, Gpu.WriteOrphaning)

  /** `glDrawArrays(GL_TRIANGLES, first, count)`. */
  datatype DrawArrays = DrawTriangles(first: int, count: int)

  class TextModel<Vertex>
  {
    var vertices: seq<Vertex>
    var buffer: Gpu.Buffer<Vertex>

    /** `TextModel(vertices)`: keeps the vertices and sizes the buffer for exactly
        them, initialised from them. */
    constructor FromVertices(vs: seq<Vertex>)
      ensures vertices == vs
      ensures buffer.target == Gpu.Array && buffer.flags == TextBufferFlags
      ensures buffer.size == |vs| * TextVertexSize && buffer.contents == vs
    {
      vertices := vs;
      buffer := InitialBuffer(vs, |vs|);
    }

    /** `TextModel(count)`: no vertices yet, and room for `count` of them with no
        initial data. */
    constructor WithCapacity(count: nat)
      ensures vertices == []
      ensures buffer.target == Gpu.Array && buffer.flags == TextBufferFlags
      ensures buffer.size == count * TextVertexSize && buffer.contents == []
    {
      vertices := [];
      buffer := InitialBuffer([], count);
    }

    /** `update`: replaces the vertex list, grows the buffer to exactly the vertex
        bytes if it is too small (never shrinking it), and uploads the vertices. */
    method Update(vs: seq<Vertex>)
      modifies this
      ensures vertices == vs
      ensures buffer == Gpu.GrowAndMap(old(buffer), vs, |vs| * TextVertexSize)
      ensures buffer.size >= old(buffer.size) && buffer.size >= |vs| * TextVertexSize
      ensures buffer.contents == vs
    {
      vertices := vs;
      var bytes := |vertices| * TextVertexSize;
      var b := buffer;
      if bytes > b.size {
        b := Gpu.Resize(b, bytes);
      }
      buffer := Gpu.MapData(b, vertices, bytes);
    }

    /** `draw`: nothing for an empty vertex list, else one triangle-list draw of
        every vertex. */
    method Draw() returns (call: Option<DrawArrays>)
      ensures call.None? <==> vertices == []
      ensures call.Some? ==> call.value == DrawTriangles(0, Gpu.ToSizei(|vertices|))
    {
      if vertices == [] {
        return None;
      }
      call := Some(DrawTriangles(0, Gpu.ToSizei(|vertices|)));
    }
  }

  /** `initialize(count)`: an array buffer of `count` vertices' bytes, initialised
      from `vs` (no data when `vs` is empty). */
  function InitialBuffer<Vertex>(vs: seq<Vertex>, count: nat): (b: Gpu.Buffer<Vertex>)
    ensures b.target == Gpu.Array && b.flags == TextBufferFlags
    ensures b.size == count * TextVertexSize && b.contents == vs
  {
    Gpu.Build(Gpu.Array, TextBufferFlags, vs, count * TextVertexSize)
  }
}
