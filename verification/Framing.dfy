/** Length-prefixed frames on a byte stream: what mbus_buffer_push_string writes and what the
    decode loops of broker and client read back, however the stream is cut into pieces. */
module Framing {
  import opened Options

  newtype byte = n: int | 0 <= n < 256

  type Bytes = seq<byte>

  /** The compression method of a connection; zlib is any pair of functions. */
  datatype Codec =
    | Plain
    | Zlib(compress: Bytes -> Bytes, uncompress: (Bytes, nat) -> Option<Bytes>)

  /** What is assumed of zlib: uncompressing a compressed non-empty string gives it back. */
  ghost predicate Inverse(codec: Codec) {
    codec.Zlib? ==>
      forall m: Bytes | m != [] :: codec.compress(m) != [] && codec.uncompress(codec.compress(m), |m|) == Some(m)
  }

  const TWO_31: nat := 0x8000_0000

  function Be32(n: nat): (b: Bytes)
    requires n < 0x1_0000_0000
    ensures |b| == 4
  {
    [(n / 256 / 256 / 256) as byte, (n / 256 / 256 % 256) as byte, (n / 256 % 256) as byte, (n % 256) as byte]
  }

  function FromBe32(b: Bytes): (n: nat)
    requires |b| >= 4
    ensures n < 0x1_0000_0000
  {
    ((b[0] as nat * 256 + b[1] as nat) * 256 + b[2] as nat) * 256 + b[3] as nat
  }

  lemma Be32RoundTrip(n: nat, rest: Bytes)
    requires n < 0x1_0000_0000
    ensures FromBe32(Be32(n) + rest) == n
  {
    var n1, n2, n3 := n / 256, n / 256 / 256, n / 256 / 256 / 256;
    assert n == n1 * 256 + n % 256 && n1 == n2 * 256 + n1 % 256 && n2 == n3 * 256 + n2 % 256;
    assert (Be32(n) + rest)[..4] == Be32(n);
  }

  // ----- encoding -----

  /** What follows the length of a frame. */
  function Body(codec: Codec, m: Bytes): Bytes
    requires |m| < TWO_31
  {
    if codec.Plain? then m else Be32(|m|) + codec.compress(m)
  }

  /** zlib_compress_data refuses the empty string; a length field holds 31 bits. */
  predicate Sendable(codec: Codec, m: Bytes) {
    && (codec.Zlib? ==> m != [])
    && |m| < TWO_31
    && |Body(codec, m)| < TWO_31
    && 0 !in m
  }

  function Frame(codec: Codec, m: Bytes): Bytes
    requires Sendable(codec, m)
  {
    Be32(|Body(codec, m)|) + Body(codec, m)
  }

  predicate AllSendable(codec: Codec, ms: seq<Bytes>) {
    forall i | 0 <= i < |ms| :: Sendable(codec, ms[i])
  }

  function Stream(codec: Codec, ms: seq<Bytes>): Bytes
    requires AllSendable(codec, ms)
  {
    if ms == [] then [] else Frame(codec, ms[0]) + Stream(codec, ms[1..])
  }

  // ----- decoding -----

  /** One turn of the decode loop: wait for more bytes, take a message, or leave with an error. An
      announced length of 2^31 or more is negative in the comparison and ends in Broken too. */
  datatype Step = Wait | Took(message: Bytes, rest: Bytes) | Broken

  /** _strndup: the bytes up to the first NUL. */
  function CString(b: Bytes): (s: Bytes)
    ensures 0 !in b ==> s == b
  {
    if b == [] || b[0] == 0 then [] else [b[0]] + CString(b[1..])
  }

  /** The message in a complete frame; None when it cannot be uncompressed. */
  function Open(codec: Codec, data: Bytes): Option<Bytes> {
    if codec.Plain? then Some(CString(data))
    else if |data| <= 4 then None
    else
      var length := FromBe32(data);
      var r := codec.uncompress(data[4..], length);
      if length >= TWO_31 || length == 0 || r.None? || |r.value| != length then None
      else Some(CString(r.value))
  }

  function DecodeStep(codec: Codec, b: Bytes): (r: Step)
    ensures r.Took? ==> |r.rest| < |b|
  {
    if |b| < 4 then Wait
    else
      var expected := FromBe32(b);
      if expected >= TWO_31 then Broken
      else if |b| - 4 < expected then Wait
      else
        var m := Open(codec, b[4..4 + expected]);
        if m.None? then Broken else Took(m.value, b[4 + expected..])
  }

  /** The messages of a decode loop, the bytes it leaves and whether it ended without an error. */
  datatype Decoded = Decoded(messages: seq<Bytes>, rest: Bytes, ok: bool)

  function Decode(codec: Codec, b: Bytes): Decoded
    decreases |b|
  {
    match DecodeStep(codec, b)
    case Wait => Decoded([], b, true)
    case Broken => Decoded([], b, false)
    case Took(m, rest) => Behind([m], Decode(codec, rest))
  }

  /** Earlier messages in front of those of a later run. */
  function Behind(ms: seq<Bytes>, d: Decoded): Decoded {
    d.(messages := ms + d.messages)
  }

  lemma BehindJoins(ms: seq<Bytes>, ns: seq<Bytes>, d: Decoded)
    ensures Behind([], d) == d
    ensures Behind(ms, Behind(ns, d)) == Behind(ms + ns, d)
  {
    assert [] + d.messages == d.messages;
    assert ms + (ns + d.messages) == ms + ns + d.messages;
  }

  /** Pieces arrive one after the other; after each the loop runs on what has piled up. */
  function Deliver(codec: Codec, pending: Bytes, pieces: seq<Bytes>): Decoded
    decreases |pieces|
  {
    if pieces == [] then Decoded([], pending, true)
    else
      var d := Decode(codec, pending + pieces[0]);
      if !d.ok then d
      else
        Behind(d.messages, Deliver(codec, d.rest, pieces[1..]))
  }

  function Flatten(pieces: seq<Bytes>): Bytes {
    if pieces == [] then [] else pieces[0] + Flatten(pieces[1..])
  }

  // ----- what arrives is what was sent -----

  lemma BodyOpens(codec: Codec, m: Bytes)
    requires Inverse(codec) && Sendable(codec, m)
    ensures Open(codec, Body(codec, m)) == Some(m)
  {
    if codec.Zlib? {
      hide Be32, FromBe32;
      Be32RoundTrip(|m|, codec.compress(m));
      assert Body(codec, m)[4..] == codec.compress(m);
    }
  }

  /** A complete frame is decoded whatever follows it. */
  lemma FrameDecodes(codec: Codec, m: Bytes, rest: Bytes)
    requires Inverse(codec) && Sendable(codec, m)
    ensures DecodeStep(codec, Frame(codec, m) + rest) == Took(m, rest)
  {
    hide Be32, FromBe32, Body, Open;
    var body := Body(codec, m);
    var head := Be32(|body|);
    FrameParts(head, body, rest);
    Be32RoundTrip(|body|, body + rest);
    BodyOpens(codec, m);
    StepTakes(codec, head + (body + rest), |body|, m);
  }

  lemma FrameParts(head: Bytes, body: Bytes, rest: Bytes)
    requires |head| == 4
    ensures var b := head + (body + rest);
      b == (head + body) + rest && b[4..4 + |body|] == body && b[4 + |body|..] == rest && |b| >= 4 + |body|
  {
  }

  lemma StepTakes(codec: Codec, b: Bytes, n: nat, m: Bytes)
    requires |b| >= 4 + n && FromBe32(b) == n < TWO_31 && Open(codec, b[4..4 + n]) == Some(m)
    ensures DecodeStep(codec, b) == Took(m, b[4 + n..])
  {
    hide FromBe32, Open;
  }

  lemma TakeStep(codec: Codec, b: Bytes, m: Bytes, rest: Bytes)
    requires DecodeStep(codec, b) == Took(m, rest)
    ensures Decode(codec, b) == Behind([m], Decode(codec, rest))
  {
    hide DecodeStep;
  }

  lemma {:induction false} StreamDecodes(codec: Codec, ms: seq<Bytes>, rest: Bytes)
    requires Inverse(codec) && AllSendable(codec, ms)
    ensures Decode(codec, Stream(codec, ms) + rest) == Behind(ms, Decode(codec, rest))
    decreases |ms|
  {
    hide DecodeStep, Frame, Sendable, Decode, Behind, Inverse;
    if ms == [] {
      assert Stream(codec, ms) + rest == rest;
      BehindJoins([], [], Decode(codec, rest));
    } else {
      var first, tail := Frame(codec, ms[0]), Stream(codec, ms[1..]) + rest;
      assert Stream(codec, ms) + rest == first + tail;
      FrameDecodes(codec, ms[0], tail);
      TakeStep(codec, first + tail, ms[0], tail);
      StreamDecodes(codec, ms[1..], rest);
      BehindJoins([ms[0]], ms[1..], Decode(codec, rest));
      assert [ms[0]] + ms[1..] == ms;
    }
  }

  /** More bytes do not change a step that was taken. */
  lemma StepStable(codec: Codec, a: Bytes, b: Bytes)
    ensures DecodeStep(codec, a).Took? ==>
      DecodeStep(codec, a + b) == Took(DecodeStep(codec, a).message, DecodeStep(codec, a).rest + b)
    ensures DecodeStep(codec, a).Broken? ==> DecodeStep(codec, a + b).Broken?
  {
    if |a| >= 4 {
      var expected := FromBe32(a);
      if expected <= |a| - 4 {
        assert (a + b)[4..4 + expected] == a[4..4 + expected];
        assert (a + b)[4 + expected..] == a[4 + expected..] + b;
      }
    }
  }

  /** Decoding in two pieces is decoding at once. */
  lemma {:induction false} DecodeSplits(codec: Codec, a: Bytes, b: Bytes)
    requires Decode(codec, a).ok
    ensures Decode(codec, a + b) == Behind(Decode(codec, a).messages, Decode(codec, Decode(codec, a).rest + b))
    decreases |a|
  {
    hide DecodeStep;
    var s := DecodeStep(codec, a);
    if s.Took? {
      StepStable(codec, a, b);
      TakeStep(codec, a, s.message, s.rest);
      TakeStep(codec, a + b, s.message, s.rest + b);
      hide Decode;
      DecodeSplits(codec, s.rest, b);
      var d := Decode(codec, s.rest);
      BehindJoins([s.message], d.messages, Decode(codec, d.rest + b));
    } else {
      BehindJoins([], [], Decode(codec, a + b));
    }
  }

  lemma {:induction false} ErrorStays(codec: Codec, a: Bytes, b: Bytes)
    requires !Decode(codec, a).ok
    ensures !Decode(codec, a + b).ok && Decode(codec, a + b).messages == Decode(codec, a).messages
    decreases |a|
  {
    hide DecodeStep;
    StepStable(codec, a, b);
    var s := DecodeStep(codec, a);
    if s.Took? {
      ErrorStays(codec, s.rest, b);
    }
  }

  lemma {:induction false} RestWaits(codec: Codec, b: Bytes)
    requires Decode(codec, b).ok
    ensures Decode(codec, Decode(codec, b).rest) == Decoded([], Decode(codec, b).rest, true)
    decreases |b|
  {
    hide DecodeStep;
    if DecodeStep(codec, b).Took? {
      RestWaits(codec, DecodeStep(codec, b).rest);
    }
  }

  /** However the bytes are cut, the messages and the outcome are those of the whole, and so is
      what stays in the buffer while no error occurred. */
  lemma {:induction false} ChunkingIrrelevant(codec: Codec, pending: Bytes, pieces: seq<Bytes>)
    requires Decode(codec, pending) == Decoded([], pending, true)
    ensures
      var whole := Decode(codec, pending + Flatten(pieces));
      var d := Deliver(codec, pending, pieces);
      d.messages == whole.messages && d.ok == whole.ok && (d.ok ==> d.rest == whole.rest)
    decreases |pieces|
  {
    if pieces == [] {
      assert pending + Flatten(pieces) == pending;
    } else {
      var a, b := pending + pieces[0], Flatten(pieces[1..]);
      assert pending + Flatten(pieces) == a + b;
      var d := Decode(codec, a);
      if d.ok {
        DecodeSplits(codec, a, b);
        RestWaits(codec, a);
        ChunkingIrrelevant(codec, d.rest, pieces[1..]);
      } else {
        ErrorStays(codec, a, b);
      }
    }
  }

  /** Any messages, sent as frames and cut into any pieces, arrive unchanged and in order; the
      bytes of a frame that is not complete yet stay in the buffer. */
  lemma MessagesArrive(codec: Codec, ms: seq<Bytes>, partial: Bytes, pieces: seq<Bytes>)
    requires Inverse(codec) && AllSendable(codec, ms)
    requires DecodeStep(codec, partial) == Wait
    requires Flatten(pieces) == Stream(codec, ms) + partial
    ensures Deliver(codec, [], pieces) == Decoded(ms, partial, true)
  {
    assert [] + Flatten(pieces) == Flatten(pieces);
    assert Decode(codec, []) == Decoded([], [], true);
    assert Decode(codec, partial) == Decoded([], partial, true);
    ChunkingIrrelevant(codec, [], pieces);
    StreamDecodes(codec, ms, partial);
    assert ms + [] == ms;
  }

  /** A frame that lacks its last bytes is waited for. */
  lemma PartialFrameWaits(codec: Codec, m: Bytes, n: nat)
    requires Sendable(codec, m) && n < |Frame(codec, m)|
    ensures DecodeStep(codec, Frame(codec, m)[..n]) == Wait
  {
    var body := Body(codec, m);
    if n >= 4 {
      Be32RoundTrip(|body|, body[..n - 4]);
      assert Frame(codec, m)[..n] == Be32(|body|) + body[..n - 4];
    }
  }
}
