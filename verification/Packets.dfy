/**
 * Packets over pooled buffers, as objects.
 *
 * A payload is a buffer that others may come to share once it has been put back, so cloning and
 * releasing are stated over the heap: which buffer a packet holds, that nobody else holds it, and
 * what is left of its bytes.  The protocol that moves packets between dispatcher and tasks is the
 * subject of `Dispatch`.
 */
module Packets {
  import opened Bytes

  class ByteBuffer {
    var bytes: seq<byte>

    constructor ()
      ensures bytes == []
    {
      bytes := [];
    }
  }

  class Pool {
    var free: set<ByteBuffer>

    constructor ()
      ensures free == {}
    {
      free := {};
    }

    /** A buffer nobody else holds, filled with a copy of `input`. */
    method CopyFrom(input: seq<byte>) returns (buffer: ByteBuffer)
      modifies this, free
      ensures buffer in old(free) || fresh(buffer)
      ensures free == old(free) - {buffer} && buffer.bytes == input
      ensures forall b :: b in free ==> b.bytes == old(b.bytes)
    {
      if free != {} {
        buffer :| buffer in free;
        free := free - {buffer};
      } else {
        buffer := new ByteBuffer();
      }
      buffer.bytes := input;
    }

    method Put(buffer: ByteBuffer)
      modifies this, buffer
      ensures free == old(free) + {buffer} && buffer.bytes == []
    {
      buffer.bytes := [];
      free := free + {buffer};
    }
  }

  /** The rest of an envelope, held by value: what the payload is and its context. */
  datatype Header = Header(kind: string, meta: map<string, string>)

  class PooledPacket {
    const pool: Pool
    const payload: ByteBuffer
    var header: Header
    var armed: bool
    ghost var releases: nat

    /** An armed packet holds its buffer alone, and was never released. */
    ghost predicate Valid()
      reads this, pool
    {
      (armed ==> payload !in pool.free) && releases == if armed then 0 else 1
    }

    constructor (pool: Pool, payload: ByteBuffer, header: Header)
      requires payload !in pool.free
      ensures this.pool == pool && this.payload == payload && this.header == header && armed && Valid()
    {
      this.pool, this.payload, this.header, armed, releases := pool, payload, header, true, 0;
    }

    /** The release function runs on the first call only. */
    method Release()
      requires Valid()
      modifies this, pool, payload
      ensures Valid() && !armed && releases == 1 && header == old(header)
      ensures pool.free == old(pool.free) + (if old(armed) then {payload} else {})
      ensures !old(armed) ==> payload.bytes == old(payload.bytes)
    {
      if armed {
        pool.Put(payload);
        releases := releases + 1;
        armed := false;
      }
    }

    /** A packet over a buffer of its own with the payload and header of the moment; this one is
        untouched. */
    method Clone() returns (copy: PooledPacket)
      requires Valid() && armed
      modifies pool, pool.free
      ensures fresh(copy) && copy.pool == pool && copy.Valid() && copy.armed
      ensures copy.payload != payload && copy.payload.bytes == old(payload.bytes) && copy.header == header
      ensures copy.payload in old(pool.free) || fresh(copy.payload)
      ensures pool.free == old(pool.free) - {copy.payload}
      ensures Valid() && payload.bytes == old(payload.bytes)
    {
      var buffer := pool.CopyFrom(payload.bytes);
      copy := new PooledPacket(pool, buffer, header);
    }
  }

  /** Fan-out to two tasks: whatever the first does to its clone in place, and after it has released
      it and the pool has lent the buffer on, the original still holds what was received. */
  method RewriteCloneThenRead(p: PooledPacket, rewritten: seq<byte>, header: Header, other: seq<byte>)
    returns (seen: seq<byte>)
    requires p.Valid() && p.armed
    modifies p.pool, p.pool.free
    ensures seen == old(p.payload.bytes) && p.header == old(p.header) && p.Valid() && p.armed
  {
    var clone := p.Clone();
    clone.payload.bytes := rewritten;
    clone.header := header;
    clone.Release();
    assert forall b :: b in p.pool.free ==> b in old(p.pool.free) || fresh(b);
    var lent := p.pool.CopyFrom(other);
    seen := p.payload.bytes;
  }
}
