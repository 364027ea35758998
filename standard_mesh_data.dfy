/**
 * The standard structured mesh: six single-attribute vertex buffers
 * (position, normal, uv0, uv1, color0, light0), each bound to its own
 * attribute slot, plus one index buffer.  Resizing applies one vertex
 * count to all six vertex buffers and an index count to the index buffer;
 * cloning copies them buffer by buffer.
 *
 * VertexResource, IndexResource, VertexResourceBuilder and
 * VertexAttributeBinding are not part of this model: the classes below keep
 * only what the mesh relies on, and the contracts of ReserveElements,
 * ReallocateElements and Copy are assumptions, not derived from their code:
 * reserving keeps the contents and leaves room for at least n elements,
 * reallocating sets the capacity to n and keeps the leading elements that
 * fit, and copying replaces the contents with the other buffer's.
 */
module StandardMesh {

  // Attribute slots
  const VertexIndex: nat := 0
  const NormalIndex: nat := 1
  const Uv0Index: nat := 2
  const Uv1Index: nat := 3
  const Color0Index: nat := 4
  const Light0Index: nat := 5
  const SlotCount: nat := 6

  /** The float attribute formats the mesh uses. */
  datatype AttributeFormat = Vector3F | Vector2F | Color4F

  /** Number of float components of one element of `format`. */
  function ComponentCount(format: AttributeFormat): (n: nat)
    ensures 2 <= n <= 4
    ensures n == 4 <==> format == Color4F
  {
    match format
    case Vector3F => 3
    case Vector2F => 2
    case Color4F => 4
  }

  datatype Attribute = Attribute(slot: nat, format: AttributeFormat)

  /**
   * The format at each slot: 3 floats for position, normal and light0,
   * 2 for the two uv sets, 4 for color0.
   */
  function SlotFormat(slot: nat): (f: AttributeFormat)
    requires slot < SlotCount
    ensures ComponentCount(f) == (if slot == Color0Index then 4 else if slot == Uv0Index || slot == Uv1Index then 2 else 3)
  {
    if slot == Color0Index then Color4F
    else if slot == Uv0Index || slot == Uv1Index then Vector2F
    else Vector3F
  }

  /**
   * `after` is what a reallocation to `n` entries may leave of `before`:
   * at most `n` entries, the first min(|before|, n) of them those of
   * `before`.  Whether growing adds entries is not fixed.
   */
  predicate Reallocated<T(==)>(before: seq<T>, after: seq<T>, n: nat)
  {
    var kept := if |before| < n then |before| else n;
    kept <= |after| <= n && after[..kept] == before[..kept]
  }

  /** Each of the buffers was reallocated to `n` entries. */
  predicate AllReallocated<T(==)>(before: seq<seq<T>>, after: seq<seq<T>>, n: nat)
  {
    |after| == |before| && forall k :: 0 <= k < |before| ==> Reallocated(before[k], after[k], n)
  }

  /** Each capacity is at least `n` and at least what it was. */
  predicate GrownTo(now: seq<nat>, before: seq<nat>, n: nat)
  {
    |now| == |before| && forall k :: 0 <= k < |now| ==> now[k] >= n && now[k] >= before[k]
  }

  /** One element of a vertex buffer, as raw bytes. */
  type Element = seq<bv8>

  /** A growable buffer of vertex elements laid out by its attributes. */
  class VertexResource {
    const attributes: seq<Attribute>
    var elements: seq<Element>
    var capacity: nat

    ghost predicate Valid()
      reads this
    {
      |elements| <= capacity
    }

    constructor (attributes: seq<Attribute>)
      ensures this.attributes == attributes
      ensures Valid() && elements == [] && capacity == 0
    {
      this.attributes := attributes;
      elements, capacity := [], 0;
    }

    /** Assumed: room for `n` elements, nothing written is lost. */
    method ReserveElements(n: nat)
      requires Valid()
      modifies this
      ensures Valid() && elements == old(elements)
      ensures capacity >= n && capacity >= old(capacity)
    {
      if capacity < n {
        capacity := n;
      }
    }

    /** Assumed: capacity exactly `n`, at most `n` elements, the first ones kept. */
    method ReallocateElements(n: nat)
      requires Valid()
      modifies this
      ensures Valid() && capacity == n
      ensures Reallocated(old(elements), elements, n)
    {
      elements := elements[..if |elements| < n then |elements| else n];
      capacity := n;
    }

    /** Assumed: this buffer's elements become those of `other`. */
    method Copy(other: VertexResource)
      requires Valid() && other.Valid() && other != this
      modifies this
      ensures Valid() && elements == other.elements
    {
      elements := other.elements;
      if capacity < |elements| {
        capacity := |elements|;
      }
    }
  }

  /** A growable buffer of vertex indices. */
  class IndexResource {
    var elements: seq<int>
    var capacity: nat

    ghost predicate Valid()
      reads this
    {
      |elements| <= capacity
    }

    constructor ()
      ensures Valid() && elements == [] && capacity == 0
    {
      elements, capacity := [], 0;
    }

    /** Assumed: room for `n` indices, nothing written is lost. */
    method ReserveElements(n: nat)
      requires Valid()
      modifies this
      ensures Valid() && elements == old(elements)
      ensures capacity >= n && capacity >= old(capacity)
    {
      if capacity < n {
        capacity := n;
      }
    }

    /** Assumed: capacity exactly `n`, at most `n` indices, the first ones kept. */
    method ReallocateElements(n: nat)
      requires Valid()
      modifies this
      ensures Valid() && capacity == n
      ensures Reallocated(old(elements), elements, n)
    {
      elements := elements[..if |elements| < n then |elements| else n];
      capacity := n;
    }

    /** Assumed: this buffer's indices become those of `other`. */
    method Copy(other: IndexResource)
      requires Valid() && other.Valid() && other != this
      modifies this
      ensures Valid() && elements == other.elements
    {
      elements := other.elements;
      if capacity < |elements| {
        capacity := |elements|;
      }
    }
  }

  /** A typed accessor for one attribute of a vertex buffer. */
  class VertexAttributeBinding {
    const resource: VertexResource
    const attribute: Attribute

    constructor (resource: VertexResource, attribute: Attribute)
      ensures this.resource == resource && this.attribute == attribute
    {
      this.resource, this.attribute := resource, attribute;
    }
  }

  /**
   * A fresh builder with one attribute added, then built: an empty buffer
   * laid out by that one attribute, and the binding to it.
   */
  method BuildSingle(slot: nat, format: AttributeFormat)
    returns (buffer: VertexResource, binding: VertexAttributeBinding)
    ensures fresh(buffer) && buffer.Valid() && buffer.elements == []
    ensures buffer.attributes == [Attribute(slot, format)]
    ensures binding.resource == buffer && binding.attribute == Attribute(slot, format)
  {
    buffer := new VertexResource([Attribute(slot, format)]);
    binding := new VertexAttributeBinding(buffer, Attribute(slot, format));
  }

  class StandardMeshData {
    const positionBuffer: VertexResource
    const position: VertexAttributeBinding
    const normalBuffer: VertexResource
    const normal: VertexAttributeBinding
    const uv0Buffer: VertexResource
    const uv0: VertexAttributeBinding
    const uv1Buffer: VertexResource
    const uv1: VertexAttributeBinding
    const colorBuffer: VertexResource
    const color0: VertexAttributeBinding
    const lightBuffer: VertexResource
    const light0: VertexAttributeBinding
    const indices: IndexResource

    /** The vertex buffers, in slot order. */
    function VertexBuffers(): seq<VertexResource>
    {
      [positionBuffer, normalBuffer, uv0Buffer, uv1Buffer, colorBuffer, lightBuffer]
    }

    function Bindings(): seq<VertexAttributeBinding>
    {
      [position, normal, uv0, uv1, color0, light0]
    }

    ghost function Repr(): set<object>
    {
      {positionBuffer, normalBuffer, uv0Buffer, uv1Buffer, colorBuffer, lightBuffer, indices}
    }

    /**
     * The fixed layout: six distinct vertex buffers, the k-th holding
     * exactly one attribute, at slot k in that slot's format, and the k-th
     * binding bound to it.
     */
    predicate Layout()
    {
      && positionBuffer != normalBuffer && positionBuffer != uv0Buffer && positionBuffer != uv1Buffer
      && positionBuffer != colorBuffer && positionBuffer != lightBuffer
      && normalBuffer != uv0Buffer && normalBuffer != uv1Buffer && normalBuffer != colorBuffer
      && normalBuffer != lightBuffer
      && uv0Buffer != uv1Buffer && uv0Buffer != colorBuffer && uv0Buffer != lightBuffer
      && uv1Buffer != colorBuffer && uv1Buffer != lightBuffer
      && colorBuffer != lightBuffer
      && positionBuffer.attributes == [Attribute(VertexIndex, Vector3F)]
      && normalBuffer.attributes == [Attribute(NormalIndex, Vector3F)]
      && uv0Buffer.attributes == [Attribute(Uv0Index, Vector2F)]
      && uv1Buffer.attributes == [Attribute(Uv1Index, Vector2F)]
      && colorBuffer.attributes == [Attribute(Color0Index, Color4F)]
      && lightBuffer.attributes == [Attribute(Light0Index, Vector3F)]
      && position.resource == positionBuffer && position.attribute == positionBuffer.attributes[0]
      && normal.resource == normalBuffer && normal.attribute == normalBuffer.attributes[0]
      && uv0.resource == uv0Buffer && uv0.attribute == uv0Buffer.attributes[0]
      && uv1.resource == uv1Buffer && uv1.attribute == uv1Buffer.attributes[0]
      && color0.resource == colorBuffer && color0.attribute == colorBuffer.attributes[0]
      && light0.resource == lightBuffer && light0.attribute == lightBuffer.attributes[0]
    }

    /** The contents of the vertex buffers, in slot order. */
    ghost function VertexContents(): seq<seq<Element>>
      reads Repr()
    {
      [positionBuffer.elements, normalBuffer.elements, uv0Buffer.elements,
       uv1Buffer.elements, colorBuffer.elements, lightBuffer.elements]
    }

    /** The capacities of the vertex buffers, in slot order. */
    ghost function VertexCapacities(): seq<nat>
      reads Repr()
    {
      [positionBuffer.capacity, normalBuffer.capacity, uv0Buffer.capacity,
       uv1Buffer.capacity, colorBuffer.capacity, lightBuffer.capacity]
    }

    ghost predicate Valid()
      reads Repr()
    {
      && Layout()
      && positionBuffer.Valid() && normalBuffer.Valid() && uv0Buffer.Valid()
      && uv1Buffer.Valid() && colorBuffer.Valid() && lightBuffer.Valid()
      && indices.Valid()
    }

    /** Buffer k of VertexBuffers() holds the one attribute of slot k. */
    lemma LayoutBySlot(k: nat)
      requires Layout() && k < SlotCount
      ensures VertexBuffers()[k].attributes == [Attribute(k, SlotFormat(k))]
      ensures Bindings()[k].resource == VertexBuffers()[k]
      ensures Bindings()[k].attribute == Attribute(k, SlotFormat(k))
    {
    }

    constructor ()
      ensures Valid() && fresh(Repr())
      ensures forall b :: b in VertexBuffers() ==> b.elements == []
      ensures indices.elements == []
    {
      var buffer, binding := BuildSingle(VertexIndex, Vector3F);
      positionBuffer, position := buffer, binding;
      buffer, binding := BuildSingle(NormalIndex, Vector3F);
      normalBuffer, normal := buffer, binding;
      buffer, binding := BuildSingle(Uv0Index, Vector2F);
      uv0Buffer, uv0 := buffer, binding;
      buffer, binding := BuildSingle(Uv1Index, Vector2F);
      uv1Buffer, uv1 := buffer, binding;
      buffer, binding := BuildSingle(Color0Index, Color4F);
      colorBuffer, color0 := buffer, binding;
      buffer, binding := BuildSingle(Light0Index, Vector3F);
      lightBuffer, light0 := buffer, binding;
      indices := new IndexResource();
    }

    /**
     * reserve: every vertex buffer gets room for `numVertices` elements and
     * the index buffer room for `numIndices`; no content changes.
     */
    method Reserve(numVertices: nat, numIndices: nat)
      requires Valid()
      modifies Repr()
      ensures Valid()
      ensures VertexContents() == old(VertexContents())
      ensures GrownTo(VertexCapacities(), old(VertexCapacities()), numVertices)
      ensures indices.elements == old(indices.elements)
      ensures indices.capacity >= numIndices && indices.capacity >= old(indices.capacity)
    {
      positionBuffer.ReserveElements(numVertices);
      normalBuffer.ReserveElements(numVertices);
      uv0Buffer.ReserveElements(numVertices);
      uv1Buffer.ReserveElements(numVertices);
      lightBuffer.ReserveElements(numVertices);
      colorBuffer.ReserveElements(numVertices);
      indices.ReserveElements(numIndices);
    }

    /**
     * reallocate: every vertex buffer is resized to exactly `numVerts`
     * elements of capacity and the index buffer to `numIndices`, each
     * keeping its leading contents up to the new size.
     */
    method Reallocate(numVerts: nat, numIndices: nat)
      requires Valid()
      modifies Repr()
      ensures Valid()
      ensures VertexCapacities() == seq(SlotCount, _ => numVerts)
      ensures AllReallocated(old(VertexContents()), VertexContents(), numVerts)
      ensures indices.capacity == numIndices
      ensures Reallocated(old(indices.elements), indices.elements, numIndices)
    {
      positionBuffer.ReallocateElements(numVerts);
      normalBuffer.ReallocateElements(numVerts);
      uv0Buffer.ReallocateElements(numVerts);
      uv1Buffer.ReallocateElements(numVerts);
      lightBuffer.ReallocateElements(numVerts);
      colorBuffer.ReallocateElements(numVerts);
      indices.ReallocateElements(numIndices);
    }

    /** positions: the binding of the position attribute. */
    function Positions(): (b: VertexAttributeBinding)
      requires Layout()
      ensures b.resource == positionBuffer
      ensures b.attribute == Attribute(VertexIndex, Vector3F)
    {
      position
    }

    /** vertexResources: a fresh array of the six vertex buffers, slot k at index k. */
    method VertexResources() returns (r: array<VertexResource>)
      requires Valid()
      ensures fresh(r) && r[..] == VertexBuffers()
      ensures forall k :: 0 <= k < r.Length ==> r[k].attributes == [Attribute(k, SlotFormat(k))]
    {
      r := new VertexResource[6][positionBuffer, normalBuffer, uv0Buffer, uv1Buffer, colorBuffer, lightBuffer];
      forall k | 0 <= k < r.Length
        ensures r[k].attributes == [Attribute(k, SlotFormat(k))]
      {
        LayoutBySlot(k);
      }
    }

    /** indexResource: the index buffer. */
    function IndexBuffer(): (r: IndexResource)
      ensures r == indices && r in Repr()
    {
      indices
    }

    /**
     * clone: a new mesh whose every buffer holds the same contents as the
     * same-named buffer here, sharing no buffer with this mesh.
     */
    method Clone() returns (c: StandardMeshData)
      requires Valid()
      ensures fresh(c) && c.Valid() && fresh(c.Repr())
      ensures c.VertexContents() == VertexContents()
      ensures c.indices.elements == indices.elements
    {
      c := new StandardMeshData();
      c.CopyBuffers(this);
    }

    /** The seven copy calls of clone, made on a freshly constructed mesh. */
    method CopyBuffers(source: StandardMeshData)
      requires Valid() && source.Valid() && Repr() !! source.Repr()
      modifies Repr()
      ensures Valid()
      ensures VertexContents() == source.VertexContents()
      ensures indices.elements == source.indices.elements
    {
      CopyGeometry(source);
      CopyShading(source);
    }

    /** The first four copy calls of clone: positions, normals and both uv sets. */
    method CopyGeometry(source: StandardMeshData)
      requires Valid() && source.Valid() && Repr() !! source.Repr()
      modifies positionBuffer, normalBuffer, uv0Buffer, uv1Buffer
      ensures Valid()
      ensures positionBuffer.elements == source.positionBuffer.elements
      ensures normalBuffer.elements == source.normalBuffer.elements
      ensures uv0Buffer.elements == source.uv0Buffer.elements
      ensures uv1Buffer.elements == source.uv1Buffer.elements
    {
      positionBuffer.Copy(source.positionBuffer);
      normalBuffer.Copy(source.normalBuffer);
      uv0Buffer.Copy(source.uv0Buffer);
      uv1Buffer.Copy(source.uv1Buffer);
    }

    /** The last three copy calls of clone: light, colour and indices. */
    method CopyShading(source: StandardMeshData)
      requires Valid() && source.Valid() && Repr() !! source.Repr()
      modifies lightBuffer, colorBuffer, indices
      ensures Valid()
      ensures lightBuffer.elements == source.lightBuffer.elements
      ensures colorBuffer.elements == source.colorBuffer.elements
      ensures indices.elements == source.indices.elements
    {
      lightBuffer.Copy(source.lightBuffer);
      colorBuffer.Copy(source.colorBuffer);
      indices.Copy(source.indices);
    }
  }

}
