/**
 * The part of java.nio.IntBuffer that the chunk-mesh codec relies on: a
 * fixed-capacity array of words with a position and a limit, the bulk
 * relative `put`, and `rewind`.
 */
module NioBuffers {
  import opened Words

  class IntBuffer {
    var data: array<Word>
    var position: nat
    var limit: nat

    ghost predicate Valid()
      reads this`data, this`limit, this`position
    {
      position <= limit <= data.Length
    }

    /** The words between the start of the buffer and its limit. */
    ghost function Contents(): seq<Word>
      reads this`data, this`limit, data
      requires limit <= data.Length
    {
      data[..limit]
    }

    /** The words between the position and the limit. */
    ghost function Remaining(): seq<Word>
      reads this`data, this`limit, this`position, data
      requires Valid()
    {
      data[position..limit]
    }

    /**
     * A freshly allocated buffer of `capacity` zeroed words, position 0 and
     * limit at capacity (what a direct allocation returns).
     */
    constructor Allocate(capacity: nat)
      ensures Valid() && fresh(data)
      ensures data.Length == capacity && position == 0 && limit == capacity
      ensures forall i :: 0 <= i < capacity ==> data[i] == 0
    {
      data := new Word[capacity](_ => 0);
      position, limit := 0, capacity;
    }

    /** A buffer holding exactly `ws`, position 0, limit at its end. */
    constructor Wrap(ws: seq<Word>)
      ensures Valid() && fresh(data)
      ensures data[..] == ws && position == 0 && limit == |ws|
    {
      data := new Word[|ws|](i requires 0 <= i < |ws| => ws[i]);
      position, limit := 0, |ws|;
    }

    /** IntBuffer.rewind: position back to 0, contents and limit untouched. */
    method Rewind()
      requires Valid()
      modifies this`position
      ensures Valid() && position == 0
    {
      position := 0;
    }

    /**
     * IntBuffer.put(IntBuffer src): the words remaining in `src` are written
     * from this buffer's position on, and both positions advance by their
     * number.  The source throws when they do not fit; its callers here
     * always make them fit.
     */
    method Put(src: IntBuffer)
      requires Valid() && src.Valid()
      requires src != this && src.data != data
      requires src.limit - src.position <= limit - position
      modifies this`position, data, src`position
      ensures Valid() && src.Valid()
      ensures position == old(position) + (old(src.limit) - old(src.position))
      ensures src.position == src.limit
      ensures data[..] == old(data[..position]) + old(src.Remaining()) + old(data[position + (src.limit - src.position)..])
    {
      var n := src.limit - src.position;
      forall i | 0 <= i < n {
        data[position + i] := src.data[src.position + i];
      }
      assert data[..] == old(data[..position]) + old(src.Remaining()) + old(data[position + n..]);
      position := position + n;
      src.position := src.limit;
    }
  }
}
