/** `BufferElement` and `BufferLayout`: the description of one vertex
    buffer's attribute stream. The layout's constructor overwrites every
    element's offset in place with a running byte sum and accumulates the
    stride beside it. */
module BufferLayouts {
  import SDT = ShaderDataTypes

  /** A record whose `offset` the layout that receives it rewrites; the core
      never writes its other fields, so they are constants here. */
  class BufferElement {
    const sType: SDT.SizedType
    const name: string
    var offset: int
    const normalized: bool

    constructor (sType: SDT.SizedType, name: string, offset: int := 0, normalized: bool := false)
      ensures this.sType == sType && this.name == name
      ensures this.offset == offset && this.normalized == normalized
    {
      this.sType := sType;
      this.name := name;
      this.offset := offset;
      this.normalized := normalized;
    }
  }

  /** The sum of the sizes of the first `n` elements. An element's type is
      never rewritten, so this depends on the sequence alone. */
  function SizeBefore(es: seq<BufferElement>, n: nat): nat
    requires n <= |es|
  {
    if n == 0 then 0 else SizeBefore(es, n - 1) + SDT.Size(es[n - 1].sType)
  }

  /** The sum of the sizes of all the elements: what the stride becomes. */
  function TotalSize(es: seq<BufferElement>): nat
  {
    SizeBefore(es, |es|)
  }

  /** The offsets the elements hold now, position by position. */
  function Offsets(es: seq<BufferElement>): (r: seq<int>)
    reads es
    ensures |r| == |es|
  {
    seq(|es|, k requires 0 <= k < |es| reads es => es[k].offset)
  }

  /** The last position below `n` that holds the same element as position
      `k`: an element passed to a layout twice keeps the offset written at
      its last position. */
  function LastPosition(es: seq<BufferElement>, k: nat, n: nat): (j: nat)
    requires k < n <= |es|
    ensures k <= j < n && es[j] == es[k]
    ensures forall m :: j < m < n ==> es[m] != es[k]
  {
    if es[n - 1] == es[k] then n - 1 else LastPosition(es, k, n - 1)
  }

  /** The offsets after writing `v` into the element at position `i`: every
      position holding that same element sees the new value. */
  function WriteOffset(es: seq<BufferElement>, offs: seq<int>, i: nat, v: int): (r: seq<int>)
    requires |offs| == |es| && i < |es|
    ensures |r| == |es|
  {
    seq(|es|, k requires 0 <= k < |es| => if es[k] == es[i] then v else offs[k])
  }

  /** The first `n` positions have been processed: each holds the size of
      everything before the last of those positions holding the same
      element. */
  predicate OffsetsWritten(es: seq<BufferElement>, offs: seq<int>, n: nat)
    requires |offs| == |es| && n <= |es|
  {
    forall k :: 0 <= k < n ==> offs[k] == SizeBefore(es, LastPosition(es, k, n))
  }

  predicate Distinct(es: seq<BufferElement>)
  {
    forall i, j :: 0 <= i < j < |es| ==> es[i] != es[j]
  }

  /** One step of the offset loop keeps the processed prefix correct. */
  lemma {:induction false} WriteOffsetStep(es: seq<BufferElement>, offs: seq<int>, i: nat)
    requires |offs| == |es| && i < |es| && OffsetsWritten(es, offs, i)
    ensures OffsetsWritten(es, WriteOffset(es, offs, i, SizeBefore(es, i)), i + 1)
  {
    var w := WriteOffset(es, offs, i, SizeBefore(es, i));
    forall k | 0 <= k < i + 1
      ensures w[k] == SizeBefore(es, LastPosition(es, k, i + 1))
    {
      if es[k] != es[i] {
        assert LastPosition(es, k, i + 1) == LastPosition(es, k, i);
      }
    }
  }

  class BufferLayout {
    var elements: seq<BufferElement>
    var stride: int

    /** `BufferLayout(*elements)`: keeps the elements in declaration order
        (iteration yields exactly them), starts the stride at 0 and lets
        `CalculateOffsetsAndStride` write the offsets. */
    constructor (elems: seq<BufferElement>)
      modifies elems
      ensures elements == elems
      ensures stride == TotalSize(elems)
      ensures OffsetsWritten(elems, Offsets(elems), |elems|)
    {
      elements := elems;
      stride := 0;
      new;
      CalculateOffsetsAndStride();
    }

    /** Walks the elements in order, writing the running byte sum into each
        element's offset and adding each size to the stride. */
    method CalculateOffsetsAndStride()
      modifies this`stride, elements
      ensures stride == old(stride) + TotalSize(elements)
      ensures OffsetsWritten(elements, Offsets(elements), |elements|)
    {
      var es := elements;
      var offset := 0;
      var i := 0;
      while i < |es|
        invariant 0 <= i <= |es| && elements == es
        invariant offset == SizeBefore(es, i)
        invariant stride == old(stride) + offset
        invariant OffsetsWritten(es, Offsets(es), i)
      {
        var element := es[i];
        ghost var before := Offsets(es);
        element.offset := offset;
        WriteOffsetStep(es, before, i);
        assert Offsets(es) == WriteOffset(es, before, i, offset);
        var size := SDT.Size(element.sType);
        offset := offset + size;
        stride := stride + size;
        i := i + 1;
      }
    }
  }

  /** When no element is passed twice, element `i` ends at offset
      `SizeBefore(es, i)`: the sum of the sizes of the elements before it. */
  lemma DistinctOffsets(es: seq<BufferElement>, offs: seq<int>, i: nat)
    requires |offs| == |es| && OffsetsWritten(es, offs, |es|)
    requires Distinct(es) && i < |es|
    ensures offs[i] == SizeBefore(es, i)
  {
    assert LastPosition(es, i, |es|) == i;
  }

  /** Offsets grow strictly in declaration order, because every size is
      positive. */
  lemma {:induction false} OffsetsIncrease(es: seq<BufferElement>, i: nat, j: nat)
    requires i < j <= |es|
    ensures SizeBefore(es, i) < SizeBefore(es, j)
  {
    if i + 1 < j {
      OffsetsIncrease(es, i, j - 1);
    }
  }

  /** Every element lies inside the stride: its offset plus its size is at
      most the stride, with equality for the last element. */
  lemma {:induction false} ElementWithinStride(es: seq<BufferElement>, i: nat)
    requires i < |es|
    ensures SizeBefore(es, i) + SDT.Size(es[i].sType) <= TotalSize(es)
    ensures i == |es| - 1 ==> SizeBefore(es, i) + SDT.Size(es[i].sType) == TotalSize(es)
  {
    if i + 1 < |es| {
      OffsetsIncrease(es, i + 1, |es|);
    }
  }

  /** An empty layout has stride 0; a non-empty one has a positive stride. */
  lemma {:induction false} StrideSign(es: seq<BufferElement>)
    ensures |es| == 0 <==> TotalSize(es) == 0
  {
    if |es| > 0 {
      OffsetsIncrease(es, 0, |es|);
    }
  }
}
