/** The growing byte buffer of buffer.c and the decode loop of broker and client on top of it. */
module Buffers {
  import opened Framing

  const PAGE: nat := 4096

  /** The largest multiple of the page size an unsigned 32-bit size can hold: reserving more makes
      the growth loop wrap around. */
  const MAX_SIZE: nat := 0xFFFF_F000

  class Buffer {
    var length: nat
    var size: nat
    var data: array<byte>

    ghost predicate Valid()
      reads this
    {
      length <= size == data.Length && size % PAGE == 0 && size <= MAX_SIZE
    }

    ghost function Contents(): Bytes
      reads this, data
      requires Valid()
    {
      data[..length]
    }

    /** mbus_buffer_create */
    constructor ()
      ensures Valid() && fresh(data) && Contents() == [] && size == 0
    {
      length, size := 0, 0;
      data := new byte[0];
    }

    /** mbus_buffer_reset */
    method Reset()
      requires Valid()
      modifies this`length
      ensures Valid() && Contents() == []
    {
      length := 0;
    }

    /** mbus_buffer_set_length */
    method SetLength(n: nat) returns (rc: int)
      requires Valid()
      modifies this`length
      ensures Valid() && (rc == 0 <==> n <= size)
      ensures rc == 0 ==> length == n && Contents() == data[..n]
      ensures rc != 0 ==> length == old(length)
    {
      if n > size {
        return -1;
      }
      length := n;
      rc := 0;
    }

    /** mbus_buffer_reserve: whole pages are added until the size is enough. */
    method Reserve(n: nat)
      requires Valid() && n <= MAX_SIZE
      modifies this`size, this`data
      ensures Valid() && n <= size && Contents() == old(Contents())
      ensures size == (if old(size) >= n then old(size) else (n + PAGE - 1) / PAGE * PAGE)
      ensures data == old(data) || fresh(data)
    {
      if size >= n {
        return;
      }
      var wanted := size;
      while wanted < n
        invariant size <= wanted < n + PAGE && wanted % PAGE == 0
      {
        wanted := wanted + PAGE;
      }
      var tmp := new byte[wanted];
      forall k | 0 <= k < length {
        tmp[k] := data[k];
      }
      assert tmp[..length] == data[..length];
      data, size := tmp, wanted;
    }

    /** mbus_buffer_push: append. */
    method Push(bytes: Bytes)
      requires Valid() && length + |bytes| <= MAX_SIZE
      modifies this, data
      ensures Valid() && Contents() == old(Contents()) + bytes
      ensures old(size) <= size && (data == old(data) || fresh(data))
    {
      Reserve(length + |bytes|);
      ghost var before := Contents();
      forall k | 0 <= k < |bytes| {
        data[length + k] := bytes[k];
      }
      assert data[..length] == before;
      length := length + |bytes|;
      assert data[..length] == before + bytes;
    }

    /** mbus_buffer_push_string: one frame, or nothing when the string cannot be compressed. */
    method PushString(codec: Codec, m: Bytes) returns (rc: int)
      requires Valid() && |m| < TWO_31 && |Body(codec, m)| < TWO_31 && 0 !in m
      requires length + 4 + |Body(codec, m)| <= MAX_SIZE
      modifies this, data
      ensures Valid() && (data == old(data) || fresh(data))
      ensures rc == 0 <==> Sendable(codec, m)
      ensures Contents() == old(Contents()) + if rc == 0 then Frame(codec, m) else []
    {
      hide Be32, Frame, Contents;
      if codec.Plain? {
        PushFields(Be32(|m|), [], m);
        FrameOf(codec, m);
        rc := 0;
      } else if m == [] {
        Unchanged(Contents());
        rc := -1;
      } else {
        var compressed := codec.compress(m);
        PushFields(Be32(|compressed| + 4), Be32(|m|), compressed);
        FrameOf(codec, m);
        rc := 0;
      }
    }

    /** The length, the length of the string before compression if there is one, and the bytes. */
    method PushFields(outer: Bytes, inner: Bytes, bytes: Bytes)
      requires Valid() && length + |outer| + |inner| + |bytes| <= MAX_SIZE
      modifies this, data
      ensures Valid() && (data == old(data) || fresh(data))
      ensures Contents() == old(Contents()) + (outer + (inner + bytes))
    {
      ghost var before := Contents();
      Push(outer);
      if inner != [] {
        Push(inner);
      }
      Push(bytes);
      assert before + outer + inner + bytes == before + (outer + (inner + bytes));
    }

    /** mbus_buffer_shift: drop from the front. */
    method Shift(n: nat) returns (rc: int)
      requires Valid()
      modifies this`length, data
      ensures Valid() && data == old(data) && (rc == 0 <==> n <= old(length))
      ensures Contents() == if rc == 0 then old(Contents())[n..] else old(Contents())
    {
      if n == 0 {
        return 0;
      }
      if n > length {
        return -1;
      }
      ghost var before := Contents();
      forall k | 0 <= k < length - n {
        data[k] := data[n + k];
      }
      length := length - n;
      assert data[..length] == before[n..];
      rc := 0;
    }
  }

  const TWO_32: nat := 0x1_0000_0000

  /** Why no more than MAX_SIZE can be reserved: from any size the growth loop can have, it steps to another
      one that is still too small, and so never ends. */
  lemma GrowthEnds(size: nat, n: nat)
    requires size < TWO_32 && size % PAGE == 0 && n < TWO_32
    ensures var next := (size + PAGE) % TWO_32; next < TWO_32 && next % PAGE == 0
    ensures n > MAX_SIZE ==> size < n
    ensures n <= MAX_SIZE && size < n ==> (size + PAGE) % TWO_32 == size + PAGE
  {
    var pages := size / PAGE;
    assert size == PAGE * pages && PAGE * 0x10_0000 == TWO_32;
    assert pages < 0x10_0000;
    if pages + 1 == 0x10_0000 {
      assert (size + PAGE) % TWO_32 == 0;
    } else {
      assert size + PAGE == PAGE * (pages + 1);
    }
  }

  /** The decode loop on the buffer of a connection. The messages it hands on are those of Decode,
      and what it leaves in the buffer is what Decode leaves. */
  method DecodeLoop(buffer: Buffer, codec: Codec) returns (messages: seq<Bytes>, ok: bool)
    requires buffer.Valid()
    modifies buffer, buffer.data
    ensures buffer.Valid() && Decoded(messages, buffer.Contents(), ok) == Decode(codec, old(buffer.Contents()))
  {
    hide DecodeStep;
    messages, ok := [], true;
    ghost var all := buffer.Contents();
    BehindJoins([], [], Decode(codec, all));
    while true
      invariant buffer.Valid() && buffer.data == old(buffer.data)
      invariant Decode(codec, all) == Behind(messages, Decode(codec, buffer.Contents()))
      decreases buffer.length
    {
      var base := buffer.data[..buffer.length];
      var step := DecodeStep(codec, base);
      match step
      case Wait =>
        assert messages + [] == messages;
        return;
      case Broken =>
        assert messages + [] == messages;
        ok := false;
        return;
      case Took(m, rest) =>
        TakeStep(codec, base, m, rest);
        BehindJoins(messages, [m], Decode(codec, rest));
        TookRest(codec, base);
        messages := messages + [m];
        var rc := buffer.Shift(|base| - |rest|);
    }
  }

  lemma Unchanged(b: Bytes)
    ensures b + [] == b
  {
  }

  lemma FrameOf(codec: Codec, m: Bytes)
    requires Sendable(codec, m)
    ensures codec.Plain? ==> Frame(codec, m) == Be32(|m|) + ([] + m)
    ensures codec.Zlib? ==> Frame(codec, m) == Be32(|codec.compress(m)| + 4) + (Be32(|m|) + codec.compress(m))
  {
    hide Be32;
    assert [] + m == m;
  }

  lemma TookRest(codec: Codec, b: Bytes)
    requires DecodeStep(codec, b).Took?
    ensures var rest := DecodeStep(codec, b).rest; |rest| < |b| && rest == b[|b| - |rest|..]
  {
  }
}
