/**
 How chunks of data are framed: a masked 16-bit length, the data, and a random amount of padding. Padding and mask are
 drawn from keystreams, which may be one and the same.
 */
module ChunkFraming {
  import opened Common

  /** One more than the largest 16-bit number. */
  const WORD: int := 65536
  const MAX_PADDING: int := 64

  type Byte = x: int | 0 <= x < 256 witness 0

  type Word = x: int | 0 <= x < 65536 witness 0

  /** 16-bit arithmetic wraps around. */
  function Wrap(n: int): Word { n % 65536 }

  /** The bytes of a keystream by position. */
  type Stream = nat -> Byte

  // ---------------------------------------------------------------- words

  function BigEndian(w: Word): seq<Byte> {
    [w / 256, w % 256]
  }

  function Composed(high: int, low: int): Word
    requires 0 <= high < 256 && 0 <= low < 256
  {
    high * 256 + low
  }

  function WordAt(bytes: seq<Byte>): Word
    requires |bytes| >= 2
  {
    Composed(bytes[0], bytes[1])
  }

  function XorBits(a: nat, b: nat, n: nat): (r: nat)
    ensures r < Pow2(n)
  {
    if n == 0 then 0 else 2 * XorBits(a / 2, b / 2, n - 1) + (if a % 2 == b % 2 then 0 else 1)
  }

  lemma {:induction false} XorTwice(a: nat, b: nat, n: nat)
    requires a < Pow2(n)
    ensures XorBits(XorBits(a, b, n), b, n) == a
  {
    if n == 0 {
    } else {
      XorTwice(a / 2, b / 2, n - 1);
      var x := XorBits(a, b, n);
      assert x / 2 == XorBits(a / 2, b / 2, n - 1) && x % 2 == (if a % 2 == b % 2 then 0 else 1);
    }
  }

  function Xor(a: Word, b: Word): Word {
    assert Pow2(16) == 65536 by { PowWord(); }
    XorBits(a, b, 16)
  }

  lemma PowWord()
    ensures Pow2(16) == 65536
  {
    assert Pow2(4) == 16 && Pow2(8) == 256 && Pow2(12) == 4096;
  }

  lemma Unmasked(a: Word, mask: Word)
    ensures Xor(Xor(a, mask), mask) == a
  {
    PowWord();
    XorTwice(a, mask, 16);
  }

  // ---------------------------------------------------------------- drawing from the keystreams

  /** `shared` says that padding and mask come from the same keystream. */
  datatype Keys = Keys(padding: Option<Stream>, masking: Option<Stream>, shared: bool) {
    ghost predicate Valid() { shared ==> padding.Some? && masking == padding }
  }

  datatype Position = Position(padding: nat, masking: nat)

  function Drawn(s: Stream, at: nat): Word {
    Composed(s(at), s(at + 1))
  }

  function PaddingOf(k: Keys, at: Position): (n: nat)
    ensures n < MAX_PADDING
  {
    if k.padding.Some? then Drawn(k.padding.value, at.padding) % 64 else 0
  }

  /** The mask is drawn after the padding. */
  function MaskOf(k: Keys, at: Position): Option<Word> {
    if k.masking.None? then None
    else if k.shared then Some(Drawn(k.masking.value, at.padding + 2))
    else Some(Drawn(k.masking.value, at.masking))
  }

  function Advanced(k: Keys, at: Position): Position {
    if k.shared then at.(padding := at.padding + 4)
    else Position(at.padding + (if k.padding.Some? then 2 else 0), at.masking + (if k.masking.Some? then 2 else 0))
  }

  function Masked(length: Word, mask: Option<Word>): Word {
    if mask.Some? then Xor(length, mask.value) else length
  }

  // ---------------------------------------------------------------- one chunk

  /** A 16-bit length wraps around. */
  function Length(size: nat, padding: nat): Word {
    Wrap(size + padding)
  }

  /** `noise` is what the random source yields; no more of it than the padding is used. */
  function Frame(k: Keys, at: Position, data: seq<Byte>, noise: seq<Byte>): seq<Byte>
    requires |noise| >= MAX_PADDING
  {
    BigEndian(Masked(Length(|data|, PaddingOf(k, at)), MaskOf(k, at))) + data + noise[..PaddingOf(k, at)]
  }

  /** A stream that ends early still delivers what there was of the data. */
  datatype Outcome = Data(bytes: seq<Byte>) | EndOfStream | BadLength | ShortBuffer | Truncated(got: seq<Byte>)

  datatype Result = Result(outcome: Outcome, at: Position, rest: seq<Byte>)

  /** Reading the data and its padding once the length is known. */
  function ReadBody(size: int, padding: nat, at: Position, input: seq<Byte>, capacity: nat): Result {
    if size < 0 then Result(BadLength, at, input)
    else if size == 0 then Result(EndOfStream, at, input)
    else if capacity < size then Result(ShortBuffer, at, input)
    else if |input| < size + padding then Result(Truncated(input[..Min(size, |input|)]), at, [])
    else Result(Data(input[..size]), at, input[size + padding..])
  }

  function ReadChunk(k: Keys, at: Position, input: seq<Byte>, capacity: nat): Result {
    if |input| < 2 then Result(Truncated([]), at, [])
    else
      var padding := PaddingOf(k, at);
      var length := Masked(WordAt(input), MaskOf(k, at));
      ReadBody(length - padding, padding, Advanced(k, at), input[2..], capacity)
  }

  /** Whether the length field can carry this much data with this padding. */
  predicate Fits(data: seq<Byte>, padding: nat) {
    0 < |data| && |data| + padding < 65536
  }

  lemma HeaderRead(w: Word, tail: seq<Byte>)
    ensures WordAt(BigEndian(w) + tail) == w && (BigEndian(w) + tail)[2..] == tail
  {
  }

  lemma BodySplit(data: seq<Byte>, padding: seq<Byte>, tail: seq<Byte>)
    ensures (data + padding + tail)[..|data|] == data && (data + padding + tail)[|data| + |padding|..] == tail
  {
  }

  /**
   Reading a chunk back gives the data, leaves what follows and draws as much from the keystreams as writing it did,
   exactly when the data is not empty, fits its 16-bit length together with the padding, and fits the buffer.
   */
  lemma ChunkRoundTrip(k: Keys, at: Position, data: seq<Byte>, noise: seq<Byte>, tail: seq<Byte>, capacity: nat)
    requires |noise| >= MAX_PADDING
    ensures var r := ReadChunk(k, at, Frame(k, at, data, noise) + tail, capacity);
            && r.at == Advanced(k, at)
            && (r.outcome == Data(data) <==> Fits(data, PaddingOf(k, at)) && |data| <= capacity)
            && (r.outcome == Data(data) ==> r.rest == tail)
  {
    var padding := PaddingOf(k, at);
    var length := Length(|data|, padding);
    var masked := Masked(length, MaskOf(k, at));
    var body := data + noise[..padding] + tail;
    BodySplit(data, noise[..padding], tail);
    BodyReturns(data, padding, body, Advanced(k, at), tail, capacity);
    ReadMasked(k, at, length, body, capacity);
    FourParts(BigEndian(masked), data, noise[..padding], tail);
  }

  lemma FourParts(a: seq<Byte>, b: seq<Byte>, c: seq<Byte>, d: seq<Byte>)
    ensures a + b + c + d == a + (b + c + d)
  {
  }

  lemma ReadMasked(k: Keys, at: Position, length: Word, body: seq<Byte>, capacity: nat)
    ensures ReadChunk(k, at, BigEndian(Masked(length, MaskOf(k, at))) + body, capacity)
         == ReadBody(length - PaddingOf(k, at), PaddingOf(k, at), Advanced(k, at), body, capacity)
  {
    HeaderRead(Masked(length, MaskOf(k, at)), body);
    if MaskOf(k, at).Some? {
      Unmasked(length, MaskOf(k, at).value);
    }
  }

  lemma BodyReturns(data: seq<Byte>, padding: nat, body: seq<Byte>, at: Position, tail: seq<Byte>, capacity: nat)
    requires padding < MAX_PADDING && |body| >= |data| + padding
    requires body[..|data|] == data && body[|data| + padding..] == tail
    ensures var r := ReadBody(Length(|data|, padding) - padding, padding, at, body, capacity);
            && r.at == at
            && (r.outcome == Data(data) <==> Fits(data, padding) && |data| <= capacity)
            && (r.outcome == Data(data) ==> r.rest == tail)
  {
    var size := Length(|data|, padding) - padding;
    if Fits(data, padding) {
      assert size == |data|;
    } else {
      assert size != |data| || |data| == 0;
    }
  }

  /** A checksum in front of the data is framed as part of it. */
  function FrameWithChecksum(k: Keys, at: Position, checksum: (Word, Word), data: seq<Byte>,
                             noise: seq<Byte>): seq<Byte>
    requires |noise| >= MAX_PADDING
  {
    BigEndian(Masked(Length(4 + |data|, PaddingOf(k, at)), MaskOf(k, at))) +
    BigEndian(checksum.0) + BigEndian(checksum.1) + data + noise[..PaddingOf(k, at)]
  }

  lemma ChecksumIsData(k: Keys, at: Position, checksum: (Word, Word), data: seq<Byte>, noise: seq<Byte>)
    requires |noise| >= MAX_PADDING
    ensures FrameWithChecksum(k, at, checksum, data, noise)
            == Frame(k, at, BigEndian(checksum.0) + BigEndian(checksum.1) + data, noise)
  {
    var whole := BigEndian(checksum.0) + BigEndian(checksum.1) + data;
    assert |whole| == 4 + |data|;
    assert BigEndian(checksum.0) + BigEndian(checksum.1) + data + noise[..PaddingOf(k, at)]
           == whole + noise[..PaddingOf(k, at)];
  }

  // ---------------------------------------------------------------- whole streams

  function Frames(k: Keys, at: Position, chunks: seq<seq<Byte>>, noise: seq<seq<Byte>>): seq<Byte>
    requires |noise| == |chunks| && forall i :: 0 <= i < |noise| ==> |noise[i]| >= MAX_PADDING
    decreases |chunks|
  {
    if chunks == [] then []
    else Frame(k, at, chunks[0], noise[0]) + Frames(k, Advanced(k, at), chunks[1..], noise[1..])
  }

  function PositionAfter(k: Keys, at: Position, n: nat): Position
    decreases n
  {
    if n == 0 then at else PositionAfter(k, Advanced(k, at), n - 1)
  }

  predicate AllFit(k: Keys, at: Position, chunks: seq<seq<Byte>>)
    decreases |chunks|
  {
    chunks == [] || (Fits(chunks[0], PaddingOf(k, at)) && AllFit(k, Advanced(k, at), chunks[1..]))
  }

  /** Reads `n` chunks, if all of them are there. */
  function ReadAll(k: Keys, at: Position, input: seq<Byte>, n: nat): Option<(seq<seq<Byte>>, Position, seq<Byte>)>
    decreases n
  {
    if n == 0 then Some(([], at, input))
    else
      var first := ReadChunk(k, at, input, WORD);
      if !first.outcome.Data? then None
      else
        match ReadAll(k, first.at, first.rest, n - 1)
        case None => None
        case Some(more) => Some(([first.outcome.bytes] + more.0, more.1, more.2))
  }

  /** What a first chunk that reads back makes of reading the others. */
  lemma ReadAllStep(k: Keys, at: Position, input: seq<Byte>, first: seq<Byte>, next: Position, rest: seq<Byte>, n: nat)
    requires ReadChunk(k, at, input, WORD) == Result(Data(first), next, rest)
    ensures var more := ReadAll(k, next, rest, n);
            ReadAll(k, at, input, 1 + n)
            == if more.None? then None else Some(([first] + more.value.0, more.value.1, more.value.2))
  {
  }

  /** The first of the chunks read is what the first read delivers. */
  lemma ReadAllFirst(k: Keys, at: Position, input: seq<Byte>, n: nat)
    requires n > 0 && ReadAll(k, at, input, n).Some?
    ensures var chunks := ReadAll(k, at, input, n).value.0;
            chunks != [] && ReadChunk(k, at, input, WORD).outcome == Data(chunks[0])
  {
  }

  lemma Regroup(a: seq<Byte>, b: seq<Byte>, c: seq<Byte>)
    ensures a + b + c == a + (b + c)
  {
  }

  /** Written piece by piece or at once, padding or none, the same bytes come out. */
  lemma WrittenInParts(before: seq<Byte>, header: seq<Byte>, data: seq<Byte>, noise: seq<Byte>, padding: nat)
    requires padding <= |noise|
    ensures (if padding > 0 then before + header + data + noise[..padding] else before + header + data)
         == before + (header + data + noise[..padding])
  {
    Regroup(before, header, data);
    Regroup(before, header + data, noise[..padding]);
    if padding == 0 {
      assert header + data + noise[..0] == header + data;
    }
  }

  lemma SplitFrames(k: Keys, at: Position, chunks: seq<seq<Byte>>, noise: seq<seq<Byte>>, tail: seq<Byte>)
    requires chunks != [] && |noise| == |chunks| && forall i :: 0 <= i < |noise| ==> |noise[i]| >= MAX_PADDING
    ensures Frames(k, at, chunks, noise) + tail
         == Frame(k, at, chunks[0], noise[0]) + (Frames(k, Advanced(k, at), chunks[1..], noise[1..]) + tail)
  {
    Regroup(Frame(k, at, chunks[0], noise[0]), Frames(k, Advanced(k, at), chunks[1..], noise[1..]), tail);
  }

  /** A stream whose first chunk reads back does so from there on, or not, as the others do. */
  lemma JoinChunks(k: Keys, at: Position, chunks: seq<seq<Byte>>, input: seq<Byte>, more: seq<Byte>)
    requires chunks != [] && ReadChunk(k, at, input, WORD) == Result(Data(chunks[0]), Advanced(k, at), more)
    ensures ReadsBack(k, at, input, chunks) <==> ReadsBack(k, Advanced(k, at), more, chunks[1..])
    ensures ReadsBack(k, at, input, chunks) ==>
              var all, others := ReadAll(k, at, input, |chunks|), ReadAll(k, Advanced(k, at), more, |chunks| - 1);
              all.value.1 == others.value.1 && all.value.2 == others.value.2
  {
    assert chunks == [chunks[0]] + chunks[1..];
    ReadAllStep(k, at, input, chunks[0], Advanced(k, at), more, |chunks| - 1);
    var others := ReadAll(k, Advanced(k, at), more, |chunks| - 1);
    if others.Some? && [chunks[0]] + others.value.0 == chunks {
      assert others.value.0 == ([chunks[0]] + others.value.0)[1..];
    }
  }

  /** As many chunks as there are can be read, and they are these. */
  predicate ReadsBack(k: Keys, at: Position, input: seq<Byte>, chunks: seq<seq<Byte>>) {
    var all := ReadAll(k, at, input, |chunks|);
    all.Some? && all.value.0 == chunks
  }

  /**
   A stream reads back as written exactly when each of its chunks fits; then to the last byte, with both sides at the
   same place of their keystreams.
   */
  lemma {:induction false} StreamRoundTrip(k: Keys, at: Position, chunks: seq<seq<Byte>>, noise: seq<seq<Byte>>,
                                           tail: seq<Byte>)
    requires |noise| == |chunks| && forall i :: 0 <= i < |noise| ==> |noise[i]| >= MAX_PADDING
    ensures var input := Frames(k, at, chunks, noise) + tail;
            && (ReadsBack(k, at, input, chunks) <==> AllFit(k, at, chunks))
            && (AllFit(k, at, chunks) ==>
                  ReadAll(k, at, input, |chunks|) == Some((chunks, PositionAfter(k, at, |chunks|), tail)))
    decreases |chunks|
  {
    if chunks == [] {
      assert [] + tail == tail;
    } else {
      var input := Frames(k, at, chunks, noise) + tail;
      var more := Frames(k, Advanced(k, at), chunks[1..], noise[1..]) + tail;
      SplitFrames(k, at, chunks, noise, tail);
      ChunkRoundTrip(k, at, chunks[0], noise[0], more, WORD);
      if Fits(chunks[0], PaddingOf(k, at)) {
        StreamRoundTrip(k, Advanced(k, at), chunks[1..], noise[1..], tail);
        JoinChunks(k, at, chunks, input, more);
      } else if ReadsBack(k, at, input, chunks) {
        ReadAllFirst(k, at, input, |chunks|);
      }
    }
  }
}
