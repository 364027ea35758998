/**
 * 32-bit words and their big-endian 4-byte form, the byte order that
 * java.nio.ByteBuffer uses unless told otherwise.  A Java `int` is modelled
 * by its bit pattern, a `bv32`.
 */
module Words {

  type Word = bv32
  type Byte = bv8

  /** The 4 bytes of `w`, most significant first. */
  function EncodeWord(w: Word): (r: seq<Byte>)
    ensures |r| == 4
    ensures r[0] as Word == w >> 24
    ensures r[3] as Word == w & 0xFF
  {
    [ (w >> 24) as Byte,
      ((w >> 16) & 0xFF) as Byte,
      ((w >> 8) & 0xFF) as Byte,
      (w & 0xFF) as Byte ]
  }

  /** The word whose big-endian bytes are `b`. */
  function DecodeWord(b: seq<Byte>): (w: Word)
    requires |b| == 4
    ensures w >> 24 == b[0] as Word
    ensures w & 0xFF == b[3] as Word
  {
    (b[0] as Word << 24) | (b[1] as Word << 16) | (b[2] as Word << 8) | b[3] as Word
  }

  lemma DecodeEncodeWord(w: Word)
    ensures DecodeWord(EncodeWord(w)) == w
  {
  }

  lemma EncodeDecodeWord(b: seq<Byte>)
    requires |b| == 4
    ensures EncodeWord(DecodeWord(b)) == b
  {
  }

  /**
   * The bytes of a run of words, 4 per word, each word big-endian:
   * byte i belongs to word i / 4.
   */
  function EncodeWords(ws: seq<Word>): (r: seq<Byte>)
    ensures |r| == 4 * |ws|
    ensures forall k :: 0 <= k < |ws| ==> DecodeWord(r[4 * k .. 4 * k + 4]) == ws[k]
  {
    var r := seq(4 * |ws|, i requires 0 <= i < 4 * |ws| => EncodeWord(ws[i / 4])[i % 4]);
    forall k | 0 <= k < |ws|
      ensures DecodeWord(r[4 * k .. 4 * k + 4]) == ws[k]
    {
      EncodedSlice(ws, r, k);
    }
    r
  }

  lemma EncodedSlice(ws: seq<Word>, r: seq<Byte>, k: nat)
    requires |r| == 4 * |ws| && k < |ws|
    requires forall i :: 0 <= i < |r| ==> r[i] == EncodeWord(ws[i / 4])[i % 4]
    ensures r[4 * k .. 4 * k + 4] == EncodeWord(ws[k])
  {
    forall j | 0 <= j < 4
      ensures r[4 * k + j] == EncodeWord(ws[k])[j]
    {
      assert (4 * k + j) / 4 == k && (4 * k + j) % 4 == j;
    }
  }

  /** The encoding of a run of words starts with the encoding of each of its prefixes. */
  lemma EncodeWordsPrefix(ws: seq<Word>, n: nat)
    requires n <= |ws|
    ensures EncodeWords(ws)[..4 * n] == EncodeWords(ws[..n])
  {
    var r, p := EncodeWords(ws), EncodeWords(ws[..n]);
    forall i | 0 <= i < 4 * n
      ensures r[i] == p[i]
    {
      var k, j := i / 4, i % 4;
      assert i == 4 * k + j && k < n;
      EncodeDecodeWord(r[4 * k .. 4 * k + 4]);
      EncodeDecodeWord(p[4 * k .. 4 * k + 4]);
      assert r[4 * k .. 4 * k + 4] == p[4 * k .. 4 * k + 4];
      assert r[i] == r[4 * k .. 4 * k + 4][j];
      assert p[i] == p[4 * k .. 4 * k + 4][j];
    }
  }

  /**
   * The words a byte run holds when read 4 bytes at a time, big-endian;
   * a trailing group of fewer than 4 bytes is not read.
   */
  function DecodeWords(bs: seq<Byte>): (r: seq<Word>)
    ensures |r| == |bs| / 4
    ensures forall k :: 0 <= k < |r| ==> EncodeWord(r[k]) == bs[4 * k .. 4 * k + 4]
  {
    seq(|bs| / 4, k requires 0 <= k < |bs| / 4 => DecodeWord(bs[4 * k .. 4 * k + 4]))
  }

  /** Reading back what EncodeWords wrote gives the same words. */
  lemma DecodeEncodeWords(ws: seq<Word>)
    ensures DecodeWords(EncodeWords(ws)) == ws
  {
    var bs := EncodeWords(ws);
    assert |bs| / 4 == |ws|;
  }

  /** A byte run of whole words is the encoding of the words it holds. */
  lemma EncodeDecodeWords(bs: seq<Byte>)
    requires |bs| % 4 == 0
    ensures EncodeWords(DecodeWords(bs)) == bs
  {
    var ws := DecodeWords(bs);
    var r := EncodeWords(ws);
    forall k | 0 <= k < |ws|
      ensures r[4 * k .. 4 * k + 4] == bs[4 * k .. 4 * k + 4]
    {
      EncodedSlice(ws, r, k);
    }
    SlicewiseEqual(r, bs, |ws|);
  }

  /** Two runs of n words' bytes that agree word by word are equal. */
  lemma SlicewiseEqual(a: seq<Byte>, b: seq<Byte>, n: nat)
    requires |a| == |b| == 4 * n
    requires forall k :: 0 <= k < n ==> a[4 * k .. 4 * k + 4] == b[4 * k .. 4 * k + 4]
    ensures a == b
  {
    forall i | 0 <= i < |a|
      ensures a[i] == b[i]
    {
      var k, j := i / 4, i % 4;
      assert i == 4 * k + j && k < n;
      assert a[i] == a[4 * k .. 4 * k + 4][j];
      assert b[i] == b[4 * k .. 4 * k + 4][j];
    }
  }
}
