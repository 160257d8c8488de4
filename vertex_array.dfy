/** The OpenGL vertex array: it binds vertex buffers and describes each
    buffer's layout to the GPU as one attribute per layout element. The GL
    driver is not modelled; every GL entry point the core calls is recorded,
    in order, in a call log. */
module VertexArrays {
  import opened Wrappers
  import SDT = ShaderDataTypes
  import BL = BufferLayouts

  /** The GL enumerants a shader data type can map to. */
  datatype GLBaseType = GlFloat | GlInt | GlBool

  datatype GLBoolean = GlFalse | GlTrue

  /** The GL entry points the vertex array issues, with their arguments. */
  datatype GLCall =
    | BindVertexArray(array: nat)
    | BindArrayBuffer(buffer: nat)
    | BindElementArrayBuffer(buffer: nat)
    | EnableVertexAttribArray(index: nat)
    | VertexAttribPointer(index: nat, size: nat, baseType: GLBaseType,
                          normalized: GLBoolean, stride: int, offset: int)

  predicate IsFloatMember(value: SDT.ShaderDataType)
  {
    value == SDT.Float || value == SDT.Float2 || value == SDT.Float3
    || value == SDT.Float4 || value == SDT.Mat3 || value == SDT.Mat4
  }

  /** `shader_data_type_to_opengl_base_type`: an if-chain that compares the
      member with `ShaderDataType.FLOAT`, ..., `ShaderDataType.BOOL` in turn,
      and fails its closing assertion when nothing matched. Each comparison is
      against the run-time member the name denotes. The float vectors and the
      matrices map to `GL_FLOAT`, `BOOL` to `GL_BOOL`, and `NONE` fails the
      assertion. Because `INT`..`INT4` are aliases, the comparisons with them
      are never reached first: no member maps to `GL_INT`. */
  function ShaderDataTypeToOpenGLBaseType(value: SDT.ShaderDataType): (r: Result<GLBaseType>)
    ensures r == Ok(GlFloat) <==> IsFloatMember(value)
    ensures r == Ok(GlBool) <==> value == SDT.Bool
    ensures r.Err? <==> value == SDT.None
    ensures r != Ok(GlInt)
    ensures r.Err? ==> r.error == AssertionError("Unknown ShaderDataType")
  {
    if value == SDT.Member(SDT.Float) then Ok(GlFloat)
    else if value == SDT.Member(SDT.Float2) then Ok(GlFloat)
    else if value == SDT.Member(SDT.Float3) then Ok(GlFloat)
    else if value == SDT.Member(SDT.Float4) then Ok(GlFloat)
    else if value == SDT.Member(SDT.Mat3) then Ok(GlFloat)
    else if value == SDT.Member(SDT.Mat4) then Ok(GlFloat)
    else if value == SDT.Member(SDT.Int) then Ok(GlInt)
    else if value == SDT.Member(SDT.Int2) then Ok(GlInt)
    else if value == SDT.Member(SDT.Int3) then Ok(GlInt)
    else if value == SDT.Member(SDT.Int4) then Ok(GlInt)
    else if value == SDT.Member(SDT.Bool) then Ok(GlBool)
    else Err(AssertionError("Unknown ShaderDataType"))
  }

  /** The base type `add_vertex_buffer` passes for a member that can stand
      in a layout: the mapping never fails on one. */
  function BaseType(t: SDT.SizedType): (r: GLBaseType)
    ensures ShaderDataTypeToOpenGLBaseType(t) == Ok(r)
  {
    ShaderDataTypeToOpenGLBaseType(t).value
  }

  function ToGLBoolean(b: bool): GLBoolean
  {
    if b then GlTrue else GlFalse
  }

  /** The two calls that describe attribute `index`, taken from `element` as
      it stands at the time of the call. */
  function AttributeCalls(index: nat, element: BL.BufferElement, stride: int): seq<GLCall>
    reads element
  {
    [ EnableVertexAttribArray(index),
      VertexAttribPointer(index, SDT.Count(element.sType), BaseType(element.sType),
                          ToGLBoolean(element.normalized), stride, element.offset) ]
  }

  /** The calls that describe the first `n` elements of one layout. */
  function AttributePlan(es: seq<BL.BufferElement>, n: nat, stride: int): seq<GLCall>
    requires n <= |es|
    reads es
  {
    if n == 0 then [] else AttributePlan(es, n - 1, stride) + AttributeCalls(n - 1, es[n - 1], stride)
  }

  /** The plan enables attribute `i` and then points it at element `i`:
      numbering starts at 0 for the layout, the component count is the
      element type's count, the stride is the layout's and the offset is the
      element's. */
  lemma {:induction false} AttributePlanShape(es: seq<BL.BufferElement>, n: nat, stride: int, i: nat)
    requires n <= |es| && i < n
    ensures |AttributePlan(es, n, stride)| == 2 * n
    ensures AttributePlan(es, n, stride)[2 * i] == EnableVertexAttribArray(i)
    ensures AttributePlan(es, n, stride)[2 * i + 1]
            == VertexAttribPointer(i, SDT.Count(es[i].sType), BaseType(es[i].sType),
                                   if es[i].normalized then GlTrue else GlFalse,
                                   stride, es[i].offset)
  {
    if i < n - 1 {
      AttributePlanShape(es, n - 1, stride, i);
    } else if n > 1 {
      AttributePlanLength(es, n - 1, stride);
    }
  }

  lemma {:induction false} AttributePlanLength(es: seq<BL.BufferElement>, n: nat, stride: int)
    requires n <= |es|
    ensures |AttributePlan(es, n, stride)| == 2 * n
  {
    if n > 0 {
      AttributePlanLength(es, n - 1, stride);
    }
  }

  /** Against a layout whose constructor has just run and whose elements are
      distinct, attribute `i` starts at the sum of the sizes before element
      `i`, uses the layout's total size as its stride, and a matrix element
      is described by a single attribute of 3 or 4 components. */
  lemma LayoutAttribute(es: seq<BL.BufferElement>, i: nat)
    requires BL.OffsetsWritten(es, BL.Offsets(es), |es|) && BL.Distinct(es) && i < |es|
    ensures |AttributePlan(es, |es|, BL.TotalSize(es))| == 2 * |es|
    ensures AttributePlan(es, |es|, BL.TotalSize(es))[2 * i + 1]
            == VertexAttribPointer(i, SDT.Count(es[i].sType), BaseType(es[i].sType),
                                   ToGLBoolean(es[i].normalized),
                                   BL.TotalSize(es), BL.SizeBefore(es, i))
    ensures SDT.IsMatrix(es[i].sType) ==>
              AttributePlan(es, |es|, BL.TotalSize(es))[2 * i + 1].size in {3, 4}
  {
    AttributePlanShape(es, |es|, BL.TotalSize(es), i);
    BL.DistinctOffsets(es, BL.Offsets(es), i);
  }

  class IndexBuffer {
    const rendererId: nat
    const count: nat

    /** `OpenGLIndexBuffer(data)`: the handle the driver generated and the
        number of indices. */
    constructor (rendererId: nat, count: nat)
      ensures this.rendererId == rendererId && this.count == count
    {
      this.rendererId := rendererId;
      this.count := count;
    }
  }

  /** `OpenGLVertexBuffer`. Its constructor stores `None` in `_layout`, but the
      `buffer_layout` property reads and writes the attribute `layout`, which
      exists only once the setter has run. */
  class VertexBuffer {
    const rendererId: nat
    var layoutAssigned: bool
    var layout: BL.BufferLayout?

    constructor (rendererId: nat)
      ensures this.rendererId == rendererId && !layoutAssigned && layout == null
    {
      this.rendererId := rendererId;
      layoutAssigned := false;
      layout := null;
    }

    /** The `buffer_layout` getter: `AttributeError` until a layout was set;
        `Ok(null)` after `None` was set. */
    function BufferLayout(): (r: Result<BL.BufferLayout?>)
      reads this
      ensures r.Err? <==> !layoutAssigned
      ensures r.Err? ==> r.error == AttributeError
      ensures r.Ok? ==> r.value == layout
    {
      if layoutAssigned then Ok(layout) else Err(AttributeError)
    }

    /** The `buffer_layout` setter. */
    method SetBufferLayout(value: BL.BufferLayout?)
      modifies this
      ensures layoutAssigned && layout == value
      ensures BufferLayout() == Ok(value)
    {
      layoutAssigned := true;
      layout := value;
    }
  }

  class OpenGLVertexArray {
    const rendererId: nat
    var indexBuffer: IndexBuffer?
    var vertexBuffers: seq<VertexBuffer>
    var calls: seq<GLCall>

    /** `OpenGLVertexArray()`: no buffers yet, and the new array is bound. */
    constructor (rendererId: nat)
      ensures this.rendererId == rendererId
      ensures indexBuffer == null && vertexBuffers == []
      ensures calls == [BindVertexArray(rendererId)]
    {
      this.rendererId := rendererId;
      indexBuffer := null;
      vertexBuffers := [];
      calls := [BindVertexArray(rendererId)];
    }

    /** `add_vertex_buffer`: reading the layout raises `AttributeError` when
        none was set (or `None` was), an empty layout fails the assertion, and
        in both cases nothing is changed. Otherwise the array and the buffer
        are bound, one attribute per element is described, numbered from 0,
        and the buffer is appended to `vertex_buffers`. */
    method AddVertexBuffer(vertexBuffer: VertexBuffer) returns (r: Outcome)
      modifies this`calls, this`vertexBuffers
      ensures r == Raised(AttributeError) <==> !vertexBuffer.layoutAssigned || vertexBuffer.layout == null
      ensures r == Raised(AssertionError("")) <==>
                vertexBuffer.layoutAssigned && vertexBuffer.layout != null
                && |vertexBuffer.layout.elements| == 0
      ensures r.Done? <==>
                vertexBuffer.layoutAssigned && vertexBuffer.layout != null
                && |vertexBuffer.layout.elements| > 0
      ensures r.Raised? ==>
                vertexBuffers == old(vertexBuffers) && calls == old(calls)
      ensures r.Done? ==>
                var layout := vertexBuffer.layout;
                && vertexBuffers == old(vertexBuffers) + [vertexBuffer]
                && calls == old(calls)
                           + [BindVertexArray(rendererId), BindArrayBuffer(vertexBuffer.rendererId)]
                           + AttributePlan(layout.elements, |layout.elements|, layout.stride)
    {
      var got := vertexBuffer.BufferLayout();
      if got.Err? || got.value == null {
        return Raised(AttributeError);
      }
      var layout := got.value;
      if |layout.elements| == 0 {
        return Raised(AssertionError(""));
      }
      calls := calls + [BindVertexArray(rendererId), BindArrayBuffer(vertexBuffer.rendererId)];
      ghost var start := calls;
      var es := layout.elements;
      var index := 0;
      while index < |es|
        invariant 0 <= index <= |es|
        invariant calls == start + AttributePlan(es, index, layout.stride)
        invariant vertexBuffers == old(vertexBuffers)
      {
        calls := calls + AttributeCalls(index, es[index], layout.stride);
        index := index + 1;
      }
      vertexBuffers := vertexBuffers + [vertexBuffer];
      r := Done;
    }

    /** The `index_buffer` setter: binds the array, then binds the given
        buffer (which raises `AttributeError` on `None`), then stores exactly
        that buffer. */
    method SetIndexBuffer(value: IndexBuffer?) returns (r: Outcome)
      modifies this`calls, this`indexBuffer
      ensures value == null ==>
                r == Raised(AttributeError) && indexBuffer == old(indexBuffer)
                && calls == old(calls) + [BindVertexArray(rendererId)]
      ensures value != null ==>
                r == Done && indexBuffer == value
                && calls == old(calls) + [BindVertexArray(rendererId), BindElementArrayBuffer(value.rendererId)]
    {
      calls := calls + [BindVertexArray(rendererId)];
      if value == null {
        return Raised(AttributeError);
      }
      calls := calls + [BindElementArrayBuffer(value.rendererId)];
      indexBuffer := value;
      r := Done;
    }
  }
}
