/** The arena as the store node holds it: one fixed buffer, a bump pointer and a table of chunks. */
module MemoryStore {
  import opened Types
  import opened Store

  class MemoryStore {
    const arena: array<byte>
    var nextOffset: u64
    var allocations: map<u64, ChunkMeta>
    const sha256: Hash

    ghost function View(): Store
      reads this, arena
    {
      Store(arena[..], nextOffset, allocations)
    }

    constructor WithCapacity(capacity: u64, hash: Hash)
      ensures fresh(arena) && arena.Length == capacity && sha256 == hash && IsEmptyStore(View())
    {
      arena := new byte[capacity](_ => 0);
      nextOffset, allocations := 0, map[];
      sha256 := hash;
    }

    method Allocate(len: u64) returns (r: Result<ChunkHandle, StoreError>)
      requires arena.Length <= U64_MAX
      modifies this
      ensures (View(), r) == AllocateChunk(old(View()), len)
    {
      if len == 0 {
        return Err(EmptyChunk);
      }
      var end := CheckedAdd(nextOffset, len);
      if end.None? || end.value > arena.Length {
        return Err(InsufficientCapacity(len, SaturatingSub(arena.Length, nextOffset)));
      }
      var h := ChunkHandle(nextOffset, len);
      allocations := allocations[h.offset := ChunkMeta(len, None)];
      nextOffset := end.value;
      return Ok(h);
    }

    method Write(h: ChunkHandle, bytes: Bytes) returns (r: Result<(), StoreError>)
      requires arena.Length <= U64_MAX && |bytes| <= U64_MAX
      modifies this, arena
      ensures (View(), r) == WriteChunk(sha256, old(View()), h, bytes)
    {
      if h.offset !in allocations || allocations[h.offset].len != h.len {
        return Err(InvalidHandle(h.offset, h.len));
      }
      var end := ChunkEnd(h);
      if end.Err? || end.value > arena.Length {
        return Err(InvalidHandle(h.offset, h.len));
      }
      if |bytes| != h.len {
        return Err(LengthMismatch(h.len, |bytes|));
      }
      CopyIn(h.offset, bytes);
      allocations := allocations[h.offset := allocations[h.offset].(checksum := Some(sha256(bytes)))];
      return Ok(());
    }

    /** Copies the bytes into the buffer, leaving everything outside the region alone. */
    method CopyIn(offset: nat, bytes: Bytes)
      requires offset + |bytes| <= arena.Length
      modifies arena
      ensures arena[..] == Overwritten(old(arena[..]), offset, bytes)
    {
      for i := 0 to |bytes|
        invariant arena[..] == Overwritten(old(arena[..]), offset, bytes[..i])
      {
        arena[offset + i] := bytes[i];
        assert bytes[..i + 1] == bytes[..i] + [bytes[i]];
      }
      assert bytes[..|bytes|] == bytes;
    }

    method WriteAt(h: ChunkHandle, bytes: Bytes) returns (r: Result<(), StoreError>)
      requires arena.Length <= U64_MAX && |bytes| <= U64_MAX
      modifies this, arena
      ensures (View(), r) == WritePreallocated(sha256, old(View()), h, bytes)
    {
      if h.len == 0 {
        return Err(EmptyChunk);
      }
      if |bytes| != h.len {
        return Err(LengthMismatch(h.len, |bytes|));
      }
      var end := ChunkEnd(h);
      if end.Err? {
        return Err(end.error);
      }
      if end.value > arena.Length {
        return Err(InsufficientCapacity(h.len, SaturatingSub(arena.Length, h.offset)));
      }
      allocations := allocations[h.offset := ChunkMeta(h.len, None)];
      nextOffset := if end.value > nextOffset then end.value else nextOffset;
      r := Write(h, bytes);
    }

    method Read(h: ChunkHandle) returns (r: Result<Bytes, StoreError>)
      requires arena.Length <= U64_MAX
      ensures r == ReadChunk(sha256, View(), h)
    {
      if h.offset !in allocations || allocations[h.offset].len != h.len {
        return Err(InvalidHandle(h.offset, h.len));
      }
      var end := ChunkEnd(h);
      if end.Err? || end.value > arena.Length {
        return Err(InvalidHandle(h.offset, h.len));
      }
      if allocations[h.offset].checksum.None? {
        return Err(UnwrittenChunk);
      }
      var bytes := arena[h.offset..end.value];
      assert bytes == View().arena[h.offset..h.offset + h.len];
      if sha256(bytes) != allocations[h.offset].checksum.value {
        return Err(ChecksumMismatch(h.offset));
      }
      return Ok(bytes);
    }
  }
}
