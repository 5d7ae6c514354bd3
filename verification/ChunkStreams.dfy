/** The reader and the writer of masked chunks; the two keystreams they hold may be the same object. */
module ChunkStreams {
  import opened Common
  import opened ChunkFraming

  /** An endless keystream and how much of it has been used. */
  class Shake {
    const stream: Stream
    var position: nat

    constructor (stream: Stream)
      ensures this.stream == stream && position == 0
    {
      this.stream, position := stream, 0;
    }

    method Next() returns (w: Word)
      modifies this
      ensures position == old(position) + 2 && w == Drawn(stream, old(position))
    {
      w := Drawn(stream, position);
      position := position + 2;
    }
  }

  function KeysOf(padding: Shake?, masking: Shake?): Keys {
    Keys(if padding != null then Some(padding.stream) else None, if masking != null then Some(masking.stream) else None,
         padding != null && masking == padding)
  }

  function PositionOf(padding: Shake?, masking: Shake?): Position
    reads padding, masking
  {
    Position(if padding != null then padding.position
             else 0, if masking != null && masking != padding then masking.position else 0)
  }

  /** Padding first, then the mask. */
  method Draw(padding: Shake?, masking: Shake?) returns (size: nat, mask: Option<Word>)
    modifies padding, masking
    ensures size == PaddingOf(KeysOf(padding, masking), old(PositionOf(padding, masking)))
    ensures mask == MaskOf(KeysOf(padding, masking), old(PositionOf(padding, masking)))
    ensures PositionOf(padding, masking) == Advanced(KeysOf(padding, masking), old(PositionOf(padding, masking)))
  {
    size, mask := 0, None;
    if padding != null {
      var hash := padding.Next();
      size := hash % 64;
    }
    if masking != null {
      var hash := masking.Next();
      mask := Some(hash);
    }
  }

  /** The length field for this much data, and the padding that goes with it. */
  method Header(padding: Shake?, masking: Shake?, size: nat) returns (length: Word, pad: nat)
    modifies padding, masking
    ensures pad == PaddingOf(KeysOf(padding, masking), old(PositionOf(padding, masking)))
    ensures length == Masked(Length(size, pad), MaskOf(KeysOf(padding, masking), old(PositionOf(padding, masking))))
    ensures PositionOf(padding, masking) == Advanced(KeysOf(padding, masking), old(PositionOf(padding, masking)))
  {
    length := Wrap(size);
    var mask;
    pad, mask := Draw(padding, masking);
    length := Wrap(length + pad);
    assert length == Length(size, pad);
    if mask.Some? {
      length := Xor(length, mask.value);
    }
  }

  class Buffer {
    var bytes: seq<Byte>

    constructor (bytes: seq<Byte>)
      ensures this.bytes == bytes
    {
      this.bytes := bytes;
    }
  }

  class StreamChunkWriter {
    const padding: Shake?
    const masking: Shake?
    /** Everything written upstream. */
    var written: seq<Byte>

    constructor (padding: Shake?, masking: Shake?)
      ensures this.padding == padding && this.masking == masking && written == []
    {
      this.padding, this.masking, written := padding, masking, [];
    }

    method Write(data: seq<Byte>, noise: seq<Byte>) returns (n: nat)
      requires |noise| >= MAX_PADDING
      modifies this, padding, masking
      ensures n == |data| && written == old(written) + Frame(KeysOf(padding, masking),
                                                             old(PositionOf(padding, masking)), data, noise)
      ensures PositionOf(padding, masking) == Advanced(KeysOf(padding, masking), old(PositionOf(padding, masking)))
    {
      var length, size := Header(padding, masking, |data|);
      WrittenInParts(written, BigEndian(length), data, noise, size);
      written := written + BigEndian(length);
      written := written + data;
      if size > 0 {
        written := written + noise[..size];
      }
      n := |data|;
    }

    /** The length goes in front of the data in its own buffer and the padding behind it; the same bytes go upstream. */
    method WriteBuffer(buffer: Buffer, noise: seq<Byte>)
      requires |noise| >= MAX_PADDING
      modifies this, buffer, padding, masking
      ensures written == old(written) + Frame(KeysOf(padding, masking), old(PositionOf(padding, masking)),
                                              old(buffer.bytes), noise)
      ensures PositionOf(padding, masking) == Advanced(KeysOf(padding, masking), old(PositionOf(padding, masking)))
    {
      var length, size := Header(padding, masking, |buffer.bytes|);
      buffer.bytes := BigEndian(length) + buffer.bytes;
      if size > 0 {
        buffer.bytes := buffer.bytes + noise[..size];
      }
      written := written + buffer.bytes;
    }

    method WriteWithChecksum(checksum: (Word, Word), data: seq<Byte>, noise: seq<Byte>) returns (n: nat)
      requires |noise| >= MAX_PADDING
      modifies this, padding, masking
      ensures n == |data|
      ensures written == old(written) + FrameWithChecksum(KeysOf(padding, masking), old(PositionOf(padding, masking)),
                                                          checksum, data, noise)
      ensures PositionOf(padding, masking) == Advanced(KeysOf(padding, masking), old(PositionOf(padding, masking)))
    {
      var length, size := Header(padding, masking, 4 + |data|);
      WrittenInParts(written, BigEndian(length) + BigEndian(checksum.0) + BigEndian(checksum.1), data, noise, size);
      Regroup(written, BigEndian(length) + BigEndian(checksum.0), BigEndian(checksum.1));
      Regroup(written, BigEndian(length), BigEndian(checksum.0));
      written := written + BigEndian(length);
      written := written + BigEndian(checksum.0);
      written := written + BigEndian(checksum.1);
      written := written + data;
      if size > 0 {
        written := written + noise[..size];
      }
      n := |data|;
    }
  }

  class StreamChunkReader {
    const padding: Shake?
    const masking: Shake?
    /** What upstream still has to give. */
    var input: seq<Byte>

    constructor (padding: Shake?, masking: Shake?, input: seq<Byte>)
      ensures this.padding == padding && this.masking == masking && this.input == input
    {
      this.padding, this.masking, this.input := padding, masking, input;
    }

    /** Reads one chunk into the front of `p`. */
    method Read(p: array<Byte>) returns (n: nat, failure: Option<Outcome>)
      modifies this, p, padding, masking
      ensures var r := ReadChunk(KeysOf(padding, masking), old(PositionOf(padding, masking)), old(input), p.Length);
              input == r.rest && PositionOf(padding, masking) == r.at && Delivers(r.outcome, p, n, failure)
    {
      if |input| < 2 {
        input := [];
        return 0, Some(Truncated([]));
      }
      ReadStarts(KeysOf(padding, masking), PositionOf(padding, masking), input, p.Length);
      var length := WordAt(input);
      input := input[2..];
      var size, mask := Draw(padding, masking);
      if mask.Some? {
        length := Xor(length, mask.value);
      }
      var rest;
      n, failure, rest := TakeBody(input, p, p.Length, length - size, size, PositionOf(padding, masking));
      input := rest;
    }
  }

  /** A read that finds a length goes on behind it. */
  lemma ReadStarts(k: Keys, at: Position, input: seq<Byte>, capacity: nat)
    requires |input| >= 2
    ensures ReadChunk(k, at, input, capacity)
         == ReadBody(Masked(WordAt(input), MaskOf(k, at)) - PaddingOf(k, at), PaddingOf(k, at), Advanced(k, at),
                     input[2..], capacity)
  {
  }

  /** What the caller of a read sees: the data at the front of the buffer, or why there is none. */
  predicate Delivers(outcome: Outcome, p: array<Byte>, n: nat, failure: Option<Outcome>)
    reads p
  {
    if outcome.Data? then failure == None && n == |outcome.bytes| <= p.Length && p[..n] == outcome.bytes
    else if outcome.Truncated? then failure == Some(outcome) && n == |outcome.got| <= p.Length && p[..n] == outcome.got
    else failure == Some(outcome) && n == 0
  }

  method Fill(p: array<Byte>, bytes: seq<Byte>)
    requires |bytes| <= p.Length
    modifies p
    ensures p[..|bytes|] == bytes && p[|bytes|..] == old(p[|bytes|..])
  {
    for i := 0 to |bytes|
      invariant p[..i] == bytes[..i] && p[|bytes|..] == old(p[|bytes|..])
    {
      p[i] := bytes[i];
    }
  }

  /** The data and the padding, once their length is known, into the first `length` bytes of `p`. */
  method TakeBody(input: seq<Byte>, p: array<Byte>, length: nat, dataLen: int, size: nat, ghost at: Position)
    returns (n: nat, failure: Option<Outcome>, rest: seq<Byte>)
    requires length <= p.Length
    modifies p
    ensures var r := ReadBody(dataLen, size, at, input, length); rest == r.rest && Delivers(r.outcome, p, n, failure)
  {
    if dataLen < 0 {
      return 0, Some(BadLength), input;
    }
    if dataLen == 0 {
      return 0, Some(EndOfStream), input;
    }
    if length < dataLen {
      return 0, Some(ShortBuffer), input;
    }
    if |input| < dataLen + size {
      n := Min(dataLen, |input|);
      Fill(p, input[..n]);
      return n, Some(Truncated(input[..n])), [];
    }
    Fill(p, input[..dataLen]);
    return dataLen, None, input[dataLen + size..];
  }
}
