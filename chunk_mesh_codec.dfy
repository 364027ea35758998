/**
 * Persistence of a chunk mesh: for every render type, in enumeration order,
 * the packed vertex words and the packed index words become one byte blob
 * each, and a record is the positional, untagged list of those blobs.
 * Deserialisation decodes every blob back into words, copies them into a
 * freshly allocated buffer four times as long, and hands the buffers out
 * again strictly by position.
 */
module ChunkMeshCodec {
  import opened Wrappers
  import opened Words
  import opened NioBuffers

  /** The render types of a chunk mesh, in enumeration order. */
  datatype RenderType = Opaque | Translucent | Billboard | WaterAndIce

  const RenderTypes: seq<RenderType> := [Opaque, Translucent, Billboard, WaterAndIce]

  type Blob = seq<Byte>

  /** The words of one render type's packed buffers, each up to its limit. */
  datatype Layer = Layer(vertices: seq<Word>, indices: seq<Word>)

  datatype CodecError =
    | DataDiscarded   // IllegalStateException: the mesh's data has been discarded
    | MissingBlob     // IndexOutOfBoundsException: remove(0) on an exhausted list

  // ---------------------------------------------------------------------
  // The record format, as functions on values

  /** The record written for `layers`: vertices then indices, layer by layer. */
  function EncodeLayers(layers: seq<Layer>): (r: seq<Blob>)
    ensures |r| == 2 * |layers|
  {
    if layers == [] then []
    else
      var last := layers[|layers| - 1];
      EncodeLayers(layers[..|layers| - 1]) + [EncodeWords(last.vertices), EncodeWords(last.indices)]
  }

  /** Entry 2k of a record is layer k's vertices, entry 2k+1 its indices. */
  lemma {:induction false} EncodeLayersAt(layers: seq<Layer>, k: nat)
    requires k < |layers|
    ensures EncodeLayers(layers)[2 * k] == EncodeWords(layers[k].vertices)
    ensures EncodeLayers(layers)[2 * k + 1] == EncodeWords(layers[k].indices)
  {
    var init := layers[..|layers| - 1];
    if k < |layers| - 1 {
      EncodeLayersAt(init, k);
      assert init[k] == layers[k];
    }
  }

  /**
   * The buffer deserialisation builds from one blob: the blob's words,
   * followed by three times as many zero words, since the buffer is
   * allocated with 4 int slots per decoded int.
   */
  function Reconstruction(blob: Blob): (r: seq<Word>)
    ensures |r| == 4 * (|blob| / 4)
    ensures r[..|blob| / 4] == DecodeWords(blob)
    ensures forall i :: |blob| / 4 <= i < |r| ==> r[i] == 0
  {
    DecodeWords(blob) + seq(3 * (|blob| / 4), _ => 0)
  }

  /**
   * Hands out `buffers` front to back, two per layer for `n` layers: the
   * first of each pair to the vertices, the second to the indices.  There is
   * no result when the buffers run out first; buffers left over are ignored.
   */
  function TakeLayers(buffers: seq<seq<Word>>, n: nat): (r: Option<seq<Layer>>)
    ensures r.Some? <==> |buffers| >= 2 * n
    ensures r.Some? ==> |r.value| == n
    ensures r.Some? ==> forall k :: 0 <= k < n ==>
      r.value[k] == Layer(buffers[2 * k], buffers[2 * k + 1])
  {
    if n == 0 then Some([])
    else if |buffers| < 2 then None
    else
      match TakeLayers(buffers[2..], n - 1)
      case None => None
      case Some(rest) => Some([Layer(buffers[0], buffers[1])] + rest)
  }

  /** The layers a record deserialises to, or nothing if it has too few blobs. */
  function DecodeRecord(record: seq<Blob>): (r: Option<seq<Layer>>)
    ensures r.Some? <==> |record| >= 2 * |RenderTypes|
    ensures r.Some? ==> |r.value| == |RenderTypes|
  {
    TakeLayers(seq(|record|, j requires 0 <= j < |record| => Reconstruction(record[j])), |RenderTypes|)
  }

  /** The direct buffer built from an encoded run of words starts with those words. */
  lemma ReconstructionOfEncoding(ws: seq<Word>)
    ensures |Reconstruction(EncodeWords(ws))| == 4 * |ws|
    ensures Reconstruction(EncodeWords(ws))[..|ws|] == ws
  {
    var blob := EncodeWords(ws);
    assert |blob| / 4 == |ws|;
    DecodeEncodeWords(ws);
  }

  /** The layer a record deserialises to at index `k`, when it has enough blobs. */
  lemma DecodeRecordAt(record: seq<Blob>, k: nat)
    requires |record| >= 2 * |RenderTypes| && k < |RenderTypes|
    ensures DecodeRecord(record).Some?
    ensures DecodeRecord(record).value[k] == Layer(Reconstruction(record[2 * k]), Reconstruction(record[2 * k + 1]))
  {
    var buffers := seq(|record|, j requires 0 <= j < |record| => Reconstruction(record[j]));
    assert buffers[2 * k] == Reconstruction(record[2 * k]);
    assert buffers[2 * k + 1] == Reconstruction(record[2 * k + 1]);
  }

  /**
   * Round trip: every buffer of the deserialised mesh starts with exactly
   * the words of the serialised mesh's buffer and is four times as long.
   */
  lemma RoundTrip(layers: seq<Layer>, k: nat)
    requires |layers| == |RenderTypes| && k < |layers|
    ensures DecodeRecord(EncodeLayers(layers)).Some?
    ensures var back := DecodeRecord(EncodeLayers(layers)).value[k];
      && |back.vertices| == 4 * |layers[k].vertices|
      && back.vertices[..|layers[k].vertices|] == layers[k].vertices
      && |back.indices| == 4 * |layers[k].indices|
      && back.indices[..|layers[k].indices|] == layers[k].indices
  {
    var record := EncodeLayers(layers);
    EncodeLayersAt(layers, k);
    DecodeRecordAt(record, k);
    ReconstructionOfEncoding(layers[k].vertices);
    ReconstructionOfEncoding(layers[k].indices);
  }

  /** Blobs beyond the first two per render type play no part. */
  lemma SurplusBlobsIgnored(record: seq<Blob>, extra: seq<Blob>)
    requires |record| >= 2 * |RenderTypes|
    ensures DecodeRecord(record + extra) == DecodeRecord(record)
  {
    var longer := record + extra;
    forall k | 0 <= k < |RenderTypes|
      ensures DecodeRecord(longer).value[k] == DecodeRecord(record).value[k]
    {
      DecodeRecordAt(longer, k);
      DecodeRecordAt(record, k);
      assert longer[2 * k] == record[2 * k] && longer[2 * k + 1] == record[2 * k + 1];
    }
    assert DecodeRecord(longer).value == DecodeRecord(record).value;
  }

  /**
   * Serialising what was deserialised does not give the record back: every
   * blob comes out four times as long, the original blob followed by the
   * encoding of zero words.
   */
  lemma ReserializeQuadruples(layers: seq<Layer>, k: nat)
    requires |layers| == |RenderTypes| && k < |layers|
    ensures var record := EncodeLayers(layers);
      var again := EncodeLayers(DecodeRecord(record).value);
      && |again[2 * k]| == 4 * |record[2 * k]|
      && again[2 * k][..|record[2 * k]|] == record[2 * k]
      && |again[2 * k + 1]| == 4 * |record[2 * k + 1]|
      && again[2 * k + 1][..|record[2 * k + 1]|] == record[2 * k + 1]
  {
    RoundTrip(layers, k);
    var back := DecodeRecord(EncodeLayers(layers)).value;
    EncodeLayersAt(layers, k);
    EncodeLayersAt(back, k);
    EncodeWordsPrefix(back[k].vertices, |layers[k].vertices|);
    EncodeWordsPrefix(back[k].indices, |layers[k].indices|);
  }

  // ---------------------------------------------------------------------
  // The mesh and the handler

  /**
   * The part of a chunk mesh the codec touches: per render type (by
   * enumeration index) its final vertex and index buffers, and whether the
   * data is still held.
   */
  class ChunkMesh {
    var hasVertexElements: bool
    var finalVertices: seq<IntBuffer>
    var finalIndices: seq<IntBuffer>

    ghost function Buffers(): set<IntBuffer>
      reads this
    {
      (set b | b in finalVertices) + (set b | b in finalIndices)
    }

    ghost function Storage(): set<object>
      reads this, Buffers()`data
    {
      set b | b in Buffers() :: b.data
    }

    /** Each backing array of a mesh built from `all` belongs to one of those buffers. */
    lemma StorageOf(all: seq<IntBuffer>, o: object) returns (i: nat)
      requires |finalVertices| == |finalIndices| && 2 * |finalVertices| <= |all|
      requires forall m :: 0 <= m < |finalVertices| ==>
        finalVertices[m] == all[2 * m] && finalIndices[m] == all[2 * m + 1]
      requires o in Storage()
      ensures i < |all| && o == all[i].data
    {
      var b :| b in Buffers() && o == b.data;
      if b in finalVertices {
        var m :| 0 <= m < |finalVertices| && b == finalVertices[m];
        i := 2 * m;
      } else {
        var m :| 0 <= m < |finalIndices| && b == finalIndices[m];
        i := 2 * m + 1;
      }
    }

    /**
     * No two of the mesh's buffers are the same object or share a backing
     * array: every render type's vertices and indices have storage of their own.
     */
    ghost predicate Unaliased()
      reads this, Buffers()`data
      requires |finalVertices| == |finalIndices|
    {
      forall k, m :: 0 <= k < |finalVertices| && 0 <= m < |finalVertices| ==>
        && finalVertices[k] != finalIndices[m] && finalVertices[k].data != finalIndices[m].data
        && (k != m ==> finalVertices[k] != finalVertices[m] && finalVertices[k].data != finalVertices[m].data)
        && (k != m ==> finalIndices[k] != finalIndices[m] && finalIndices[k].data != finalIndices[m].data)
    }

    /** One buffer per render type for the vertices and one for the indices. */
    ghost predicate Valid()
      reads this, Buffers()
    {
      && |finalVertices| == |RenderTypes|
      && |finalIndices| == |RenderTypes|
      && forall b :: b in Buffers() ==> b.Valid()
    }

    /** The buffers of the first `n` render types are at their limits. */
    ghost predicate DrainedUpTo(n: nat)
      reads this, Buffers()`position, Buffers()`limit
      requires n <= |finalVertices| && n <= |finalIndices|
    {
      forall j :: 0 <= j < n ==>
        finalVertices[j].position == finalVertices[j].limit && finalIndices[j].position == finalIndices[j].limit
    }

    /** When every render type's buffers are at their limits, every buffer is. */
    lemma AllDrained()
      requires Valid() && DrainedUpTo(|RenderTypes|)
      ensures forall b :: b in Buffers() ==> b.position == b.limit
    {
      forall b | b in Buffers()
        ensures b.position == b.limit
      {
        if b in finalVertices {
          var j :| 0 <= j < |RenderTypes| && finalVertices[j] == b;
        } else {
          var j :| 0 <= j < |RenderTypes| && finalIndices[j] == b;
        }
      }
    }

    /** The words of render type `k`'s buffers, up to their limits. */
    ghost function LayerAt(k: nat): Layer
      reads this, Buffers()`data, Buffers()`limit, Storage()
      requires k < |finalVertices| && k < |finalIndices|
      requires forall b :: b in Buffers() ==> b.limit <= b.data.Length
    {
      Layer(finalVertices[k].Contents(), finalIndices[k].Contents())
    }

    /** The words of the first `n` render types' buffers, in enumeration order. */
    ghost function LayersUpTo(n: nat): (r: seq<Layer>)
      reads this, Buffers()`data, Buffers()`limit, Storage()
      requires n <= |finalVertices| && n <= |finalIndices|
      requires forall b :: b in Buffers() ==> b.limit <= b.data.Length
      ensures |r| == n
      ensures forall k :: 0 <= k < n ==> r[k] == LayerAt(k)
    {
      if n == 0 then [] else LayersUpTo(n - 1) + [LayerAt(n - 1)]
    }

    /** The words of every render type's buffers, in enumeration order. */
    ghost function Layers(): (r: seq<Layer>)
      reads this, Buffers()`data, Buffers()`limit, Storage()
      requires |finalVertices| == |finalIndices| == |RenderTypes|
      requires forall b :: b in Buffers() ==> b.limit <= b.data.Length
    {
      LayersUpTo(|RenderTypes|)
    }

    constructor (vertices: seq<IntBuffer>, indices: seq<IntBuffer>)
      requires |vertices| == |RenderTypes| && |indices| == |RenderTypes|
      ensures hasVertexElements
      ensures finalVertices == vertices && finalIndices == indices
    {
      hasVertexElements := true;
      finalVertices, finalIndices := vertices, indices;
    }
  }

  /**
   * asByteBuffer: a fresh byte buffer of 4 bytes per word up to the input's
   * limit, holding those words big-endian.  The input is rewound first and
   * the bulk put then leaves its position at its limit.
   */
  method AsByteBuffer(input: IntBuffer) returns (result: array<Byte>)
    requires input.Valid()
    modifies input`position
    ensures fresh(result)
    ensures result[..] == EncodeWords(input.Contents())
    ensures input.Valid() && input.position == input.limit
  {
    result := new Byte[input.limit * 4](_ => 0);
    input.Rewind();
    // result.asIntBuffer().put(input): word i goes to bytes 4i .. 4i+3
    forall i | 0 <= i < input.limit * 4 {
      result[i] := EncodeWord(input.data[i / 4])[i % 4];
    }
    input.position := input.limit;
    EncodedBytes(input.Contents(), result[..]);
  }

  lemma EncodedBytes(ws: seq<Word>, bs: seq<Byte>)
    requires |bs| == 4 * |ws|
    requires forall i :: 0 <= i < |bs| ==> bs[i] == EncodeWord(ws[i / 4])[i % 4]
    ensures bs == EncodeWords(ws)
  {
    var r := EncodeWords(ws);
    forall i | 0 <= i < |bs|
      ensures bs[i] == r[i]
    {
      var k, j := i / 4, i % 4;
      assert i == 4 * k + j;
      EncodedSlice(ws, bs, k);
      assert r[4 * k .. 4 * k + 4] == EncodeWord(ws[k]) by {
        EncodeDecodeWord(r[4 * k .. 4 * k + 4]);
      }
      assert bs[i] == bs[4 * k .. 4 * k + 4][j];
      assert r[i] == r[4 * k .. 4 * k + 4][j];
    }
  }

  /**
   * serializeNonNull: refuses a mesh whose data has been discarded;
   * otherwise the record of its layers.  Only buffer positions change:
   * every buffer is left at its limit, as asByteBuffer leaves it.
   */
  method Serialize(mesh: ChunkMesh) returns (r: Result<seq<Blob>, CodecError>)
    requires mesh.Valid()
    modifies mesh.Buffers()`position
    ensures r.Err? <==> !mesh.hasVertexElements
    ensures r.Err? ==> r.error == DataDiscarded
    ensures mesh.Valid() && mesh.Layers() == old(mesh.Layers())
    ensures r.Ok? ==> |r.value| == 2 * |RenderTypes| && r.value == EncodeLayers(mesh.Layers())
    ensures r.Ok? ==> forall b :: b in mesh.Buffers() ==> b.position == b.limit
    ensures r.Err? ==> forall b :: b in mesh.Buffers() ==> b.position == old(b.position)
  {
    if !mesh.hasVertexElements {
      return Err(DataDiscarded);
    }
    ghost var layers := mesh.Layers();
    var data: seq<Blob> := [];
    for k := 0 to |RenderTypes|
      invariant mesh.Valid() && mesh.Layers() == layers
      invariant data == EncodeLayers(layers[..k])
      invariant mesh.DrainedUpTo(k)
    {
      var v, i := EncodeLayer(mesh, k);
      assert v == EncodeWords(layers[k].vertices) && i == EncodeWords(layers[k].indices);
      data := data + [v, i];
      EncodeLayersSnoc(layers, k);
    }
    assert layers[..|RenderTypes|] == layers;
    mesh.AllDrained();
    return Ok(data);
  }

  /** The two asByteBuffer calls of render type `k`: its vertex blob, then its index blob. */
  method EncodeLayer(mesh: ChunkMesh, k: nat) returns (v: Blob, i: Blob)
    requires mesh.Valid() && k < |RenderTypes|
    requires mesh.DrainedUpTo(k)
    modifies {mesh.finalVertices[k], mesh.finalIndices[k]}`position
    ensures mesh.Valid() && mesh.Layers() == old(mesh.Layers())
    ensures v == EncodeWords(mesh.LayerAt(k).vertices) && i == EncodeWords(mesh.LayerAt(k).indices)
    ensures mesh.DrainedUpTo(k + 1)
  {
    ghost var layer := mesh.LayerAt(k);
    v := EncodeMeshBuffer(mesh, mesh.finalVertices[k]);
    assert mesh.LayerAt(k) == layer;
    i := EncodeMeshBuffer(mesh, mesh.finalIndices[k]);
  }

  /** asByteBuffer on one of a mesh's buffers, which leaves the mesh's words as they were. */
  method EncodeMeshBuffer(mesh: ChunkMesh, b: IntBuffer) returns (blob: Blob)
    requires mesh.Valid() && b in mesh.Buffers()
    modifies b`position
    ensures mesh.Valid() && mesh.Layers() == old(mesh.Layers())
    ensures blob == EncodeWords(b.Contents())
    ensures b.position == b.limit
  {
    var bytes := AsByteBuffer(b);
    blob := bytes[..];
  }

  lemma EncodeLayersSnoc(layers: seq<Layer>, k: nat)
    requires k < |layers|
    ensures EncodeLayers(layers[..k + 1])
         == EncodeLayers(layers[..k]) + [EncodeWords(layers[k].vertices), EncodeWords(layers[k].indices)]
  {
    assert layers[..k + 1][..k] == layers[..k];
  }

  /** A buffer as deserialisation leaves it: rewound, its limit at its capacity. */
  ghost predicate Rewound(b: IntBuffer)
    reads b
  {
    b.Valid() && b.position == 0 && b.limit == b.data.Length
  }

  /**
   * deserialize: every blob becomes a direct buffer (in order), then the
   * buffers are handed out by position, two per render type.  Fails when
   * they run out before every render type has both.
   */
  method Deserialize(record: seq<Blob>) returns (r: Result<ChunkMesh, CodecError>)
    ensures r.Ok? <==> |record| >= 2 * |RenderTypes|
    ensures r.Err? ==> r.error == MissingBlob
    ensures r.Ok? ==> var mesh := r.value;
      && fresh(mesh) && mesh.Valid() && mesh.hasVertexElements
      && DecodeRecord(record) == Some(mesh.Layers())
      && mesh.Unaliased() && fresh(mesh.Storage())
      && forall k :: 0 <= k < |RenderTypes| ==>
           && fresh(mesh.finalVertices[k]) && Rewound(mesh.finalVertices[k])
           && fresh(mesh.finalIndices[k]) && Rewound(mesh.finalIndices[k])
  {
    var all := DirectBuffers(record);
    var ok, vertices, indices := PairBuffers(all);
    if !ok {
      return Err(MissingBlob);
    }
    var mesh := Assemble(record, all, vertices, indices);
    return Ok(mesh);
  }

  /**
   * The second loop of deserialize: the buffers are removed from the front
   * of the list two at a time, vertices then indices, one pair per render
   * type.  Fails when the list runs out first.
   */
  method PairBuffers(all: seq<IntBuffer>) returns (ok: bool, vertices: seq<IntBuffer>, indices: seq<IntBuffer>)
    ensures ok <==> |all| >= 2 * |RenderTypes|
    ensures ok ==> |vertices| == |indices| == |RenderTypes|
    ensures ok ==> forall m :: 0 <= m < |RenderTypes| ==> vertices[m] == all[2 * m] && indices[m] == all[2 * m + 1]
  {
    var asBuffers := all;
    vertices, indices := [], [];
    for k := 0 to |RenderTypes|
      invariant |vertices| == |indices| == k
      invariant 2 * k <= |all| && asBuffers == all[2 * k..]
      invariant forall m :: 0 <= m < k ==> vertices[m] == all[2 * m] && indices[m] == all[2 * m + 1]
    {
      if asBuffers == [] {
        return false, vertices, indices;
      }
      vertices := vertices + [asBuffers[0]];
      asBuffers := asBuffers[1..];
      if asBuffers == [] {
        return false, vertices, indices;
      }
      indices := indices + [asBuffers[0]];
      asBuffers := asBuffers[1..];
    }
    return true, vertices, indices;
  }

  /**
   * The mesh of deserialize, its buffers taken two per render type from
   * the front of the direct buffers of a record with enough blobs.
   */
  method Assemble(ghost record: seq<Blob>, ghost all: seq<IntBuffer>, vertices: seq<IntBuffer>, indices: seq<IntBuffer>)
    returns (mesh: ChunkMesh)
    requires |all| == |record| >= 2 * |RenderTypes|
    requires forall i :: 0 <= i < |record| ==>
      Rewound(all[i]) && all[i].Contents() == Reconstruction(record[i])
    requires |vertices| == |indices| == |RenderTypes|
    requires Separate(all)
    requires forall m :: 0 <= m < |RenderTypes| ==> vertices[m] == all[2 * m] && indices[m] == all[2 * m + 1]
    ensures fresh(mesh) && mesh.Valid() && mesh.hasVertexElements
    ensures mesh.finalVertices == vertices && mesh.finalIndices == indices
    ensures mesh.Unaliased() && mesh.Storage() <= ArraysOf(all)
    ensures DecodeRecord(record) == Some(mesh.Layers())
  {
    mesh := new ChunkMesh(vertices, indices);
    // generateVBOs() hands the buffers to the rendering backend: outside the model
    DeserializedLayers(record, all, mesh);
    forall o | o in mesh.Storage()
      ensures o in ArraysOf(all)
    {
      var i := mesh.StorageOf(all, o);
    }
  }

  /** The backing arrays of the buffers. */
  ghost function ArraysOf(bs: seq<IntBuffer>): set<object>
    reads set b | b in bs
  {
    set b | b in bs :: b.data
  }

  /** No two of the buffers are the same object or share a backing array. */
  ghost predicate Separate(bs: seq<IntBuffer>)
    reads set b | b in bs
  {
    forall i, j :: 0 <= i < j < |bs| ==> bs[i] != bs[j] && bs[i].data != bs[j].data
  }

  /** The first loop of deserialize: one direct buffer per blob, in order. */
  method DirectBuffers(record: seq<Blob>) returns (asBuffers: seq<IntBuffer>)
    ensures |asBuffers| == |record|
    ensures forall i :: 0 <= i < |record| ==>
      fresh(asBuffers[i]) && fresh(asBuffers[i].data)
      && Rewound(asBuffers[i]) && asBuffers[i].Contents() == Reconstruction(record[i])
    ensures Separate(asBuffers) && fresh(ArraysOf(asBuffers))
  {
    asBuffers := [];
    for j := 0 to |record|
      invariant |asBuffers| == j
      invariant forall i :: 0 <= i < j ==>
        fresh(asBuffers[i]) && fresh(asBuffers[i].data)
        && Rewound(asBuffers[i]) && asBuffers[i].Contents() == Reconstruction(record[i])
      invariant Separate(asBuffers) && fresh(ArraysOf(asBuffers))
    {
      var directBuffer := ToDirectBuffer(record[j]);
      asBuffers := asBuffers + [directBuffer];
    }
  }

  /**
   * One datum of deserialize: the blob viewed as big-endian words is copied
   * into a fresh buffer with 4 int slots per word, which is then rewound.
   */
  method ToDirectBuffer(blob: Blob) returns (directBuffer: IntBuffer)
    ensures fresh(directBuffer) && fresh(directBuffer.data) && Rewound(directBuffer)
    ensures directBuffer.Contents() == Reconstruction(blob)
  {
    // datum.getAsByteBuffer().asIntBuffer()
    var buffer := new IntBuffer.Wrap(DecodeWords(blob));
    directBuffer := new IntBuffer.Allocate(buffer.limit * 4);
    directBuffer.Put(buffer);
    directBuffer.Rewind();
    assert directBuffer.data[..] == Reconstruction(blob);
  }

  lemma DeserializedLayers(record: seq<Blob>, all: seq<IntBuffer>, mesh: ChunkMesh)
    requires |all| == |record| >= 2 * |RenderTypes|
    requires forall i :: 0 <= i < |all| ==> all[i].Valid() && all[i].Contents() == Reconstruction(record[i])
    requires |mesh.finalVertices| == |mesh.finalIndices| == |RenderTypes|
    requires forall m :: 0 <= m < |RenderTypes| ==>
      mesh.finalVertices[m] == all[2 * m] && mesh.finalIndices[m] == all[2 * m + 1]
    ensures mesh.Valid() && DecodeRecord(record) == Some(mesh.Layers())
  {
    forall b | b in mesh.Buffers()
      ensures b.Valid()
    {
      if b in mesh.finalVertices {
        var m :| 0 <= m < |RenderTypes| && b == mesh.finalVertices[m];
        assert b == all[2 * m];
      } else {
        var m :| 0 <= m < |RenderTypes| && b == mesh.finalIndices[m];
        assert b == all[2 * m + 1];
      }
    }
    var layers := mesh.Layers();
    forall k | 0 <= k < |RenderTypes|
      ensures DecodeRecord(record).value[k] == layers[k]
    {
      DecodeRecordAt(record, k);
      assert layers[k] == mesh.LayerAt(k);
    }
    assert DecodeRecord(record).value == layers;
  }
}
