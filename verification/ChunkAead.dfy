/** Chunks whose length is sealed under a counting nonce instead of being masked. */
module ChunkAead {
  import opened Common
  import opened ChunkFraming
  import opened ChunkStreams

  const OVERHEAD: int := 16

  /** A sealed length with its tag. */
  const SEALED: int := 2 + OVERHEAD

  datatype Cipher = Cipher(seal: (seq<Byte>, seq<Byte>) -> seq<Byte>,
                           unseal: (seq<Byte>, seq<Byte>) -> Option<seq<Byte>>) {
    /** Opening undoes sealing under the same nonce, and yields nothing of another size. */
    ghost predicate Sound() {
      && (forall nonce, plain :: |plain| == 2 ==>
            |seal(nonce, plain)| == SEALED && unseal(nonce, seal(nonce, plain)) == Some(plain))
      && (forall nonce, text :: |text| == SEALED && unseal(nonce, text).Some? ==> |unseal(nonce, text).value| == 2)
    }
  }

  /** `nonce` is the rest of the nonce behind its two counting bytes. */
  datatype Secret = Secret(cipher: Cipher, nonce: seq<Byte>, padding: Option<Stream>)

  /** How many chunks there have been, modulo 2^16, and how much padding keystream is used. */
  datatype Place = Place(count: Word, padding: nat)

  function NonceOf(s: Secret, count: Word): seq<Byte> {
    BigEndian(count) + s.nonce
  }

  function PadKeys(s: Secret): Keys {
    Keys(s.padding, None, false)
  }

  function PadOf(s: Secret, at: Place): (n: nat)
    ensures n < MAX_PADDING
  {
    PaddingOf(PadKeys(s), Position(at.padding, 0))
  }

  function Next(s: Secret, at: Place): Place {
    Place(Wrap(at.count + 1), Advanced(PadKeys(s), Position(at.padding, 0)).padding)
  }

  /** The sealed number is the size less the overhead, wrapped around. */
  function Field(size: nat, padding: nat): Word {
    Wrap(Length(size, padding) - 16)
  }

  function Restored(field: Word): Word {
    Wrap(field + 16)
  }

  function SealedFrame(s: Secret, at: Place, data: seq<Byte>, noise: seq<Byte>): seq<Byte>
    requires |noise| >= MAX_PADDING
  {
    s.cipher.seal(NonceOf(s, at.count), BigEndian(Field(|data|, PadOf(s, at)))) + data + noise[..PadOf(s, at)]
  }

  datatype SealedOutcome = Plain(outcome: Outcome) | Forged

  datatype SealedResult = SealedResult(outcome: SealedOutcome, at: Place, rest: seq<Byte>)

  /** What follows a length that opened. */
  function BehindLength(s: Secret, at: Place, length: int, body: seq<Byte>, capacity: nat): SealedResult {
    var r := ReadBody(length - PadOf(s, at), PadOf(s, at), Position(Next(s, at).padding, 0), body, capacity);
    SealedResult(Plain(r.outcome), Next(s, at), r.rest)
  }

  /**
   `capacity` is the length of the caller's buffer and `room` its capacity, which holds the sealed length for a moment.
   */
  function ReadSealed(s: Secret, at: Place, input: seq<Byte>, room: nat, capacity: nat): SealedResult {
    if room < SEALED then SealedResult(Plain(ShortBuffer), at, input)
    else if |input| < SEALED then SealedResult(Plain(Truncated([])), at, [])
    else
      var plain := s.cipher.unseal(NonceOf(s, at.count), input[..SEALED]);
      if plain.None? || |plain.value| < 2 then SealedResult(Forged, at.(count := Wrap(at.count + 1)), input[SEALED..])
      else
        BehindLength(s, at, Restored(WordAt(plain.value)), input[SEALED..], capacity)
  }

  /** Taking the overhead off and putting it back loses nothing, whichever way the number wraps. */
  lemma FieldRestores(size: nat, padding: nat)
    ensures Restored(Field(size, padding)) == Length(size, padding)
  {
  }

  lemma ReadOpened(s: Secret, at: Place, text: seq<Byte>, field: Word, body: seq<Byte>, room: nat, capacity: nat)
    requires |text| == SEALED && s.cipher.unseal(NonceOf(s, at.count), text) == Some(BigEndian(field)) && room >= SEALED
    ensures ReadSealed(s, at, text + body, room, capacity) == BehindLength(s, at, Restored(field), body, capacity)
  {
    assert (text + body)[..SEALED] == text && (text + body)[SEALED..] == body;
    assert BigEndian(field) + [] == BigEndian(field);
    HeaderRead(field, []);
  }

  lemma Opens(s: Secret, at: Place, field: Word) returns (text: seq<Byte>)
    requires s.cipher.Sound()
    ensures text == s.cipher.seal(NonceOf(s, at.count), BigEndian(field))
    ensures |text| == SEALED && s.cipher.unseal(NonceOf(s, at.count), text) == Some(BigEndian(field))
  {
    text := s.cipher.seal(NonceOf(s, at.count), BigEndian(field));
    assert |BigEndian(field)| == 2;
  }

  /** A written chunk is its sealed length and what follows. */
  lemma FrameParts(s: Secret, at: Place, data: seq<Byte>, noise: seq<Byte>, tail: seq<Byte>, text: seq<Byte>)
    requires |noise| >= MAX_PADDING
    requires text == s.cipher.seal(NonceOf(s, at.count), BigEndian(Field(|data|, PadOf(s, at))))
    ensures SealedFrame(s, at, data, noise) + tail == text + (data + noise[..PadOf(s, at)] + tail)
  {
    FourParts(text, data, noise[..PadOf(s, at)], tail);
  }

  /** Reading a written chunk comes to what follows its length. */
  lemma ReadsWritten(s: Secret, at: Place, data: seq<Byte>, noise: seq<Byte>, tail: seq<Byte>, room: nat, capacity: nat)
    requires s.cipher.Sound() && |noise| >= MAX_PADDING && room >= SEALED
    ensures ReadSealed(s, at, SealedFrame(s, at, data, noise) + tail, room, capacity)
         == BehindLength(s, at, Length(|data|, PadOf(s, at)), data + noise[..PadOf(s, at)] + tail, capacity)
  {
    var field := Field(|data|, PadOf(s, at));
    var text := Opens(s, at, field);
    FrameParts(s, at, data, noise, tail, text);
    FieldRestores(|data|, PadOf(s, at));
    ReadOpened(s, at, text, field, data + noise[..PadOf(s, at)] + tail, room, capacity);
  }

  /**
   The sealed form reads back in exactly the same cases as the masked one, given a buffer whose capacity holds the
   sealed length.
   */
  lemma SealedRoundTrip(s: Secret, at: Place, data: seq<Byte>, noise: seq<Byte>, tail: seq<Byte>, room: nat,
                        capacity: nat)
    requires s.cipher.Sound() && |noise| >= MAX_PADDING
    ensures var r := ReadSealed(s, at, SealedFrame(s, at, data, noise) + tail, room, capacity);
            && (room >= SEALED ==> r.at == Next(s, at))
            && (r.outcome == Plain(Data(data)) <==>
                  Fits(data, PadOf(s, at)) && |data| <= capacity && room >= SEALED)
            && (r.outcome == Plain(Data(data)) ==> r.rest == tail)
  {
    if room >= SEALED {
      ReadsWritten(s, at, data, noise, tail, room, capacity);
      BehindLengthReturns(s, at, data, noise[..PadOf(s, at)], tail, capacity);
    }
  }

  lemma BehindLengthReturns(s: Secret, at: Place, data: seq<Byte>, pad: seq<Byte>, tail: seq<Byte>, capacity: nat)
    requires |pad| == PadOf(s, at)
    ensures var r := BehindLength(s, at, Length(|data|, PadOf(s, at)), data + pad + tail, capacity);
            && r.at == Next(s, at)
            && (r.outcome == Plain(Data(data)) <==> Fits(data, PadOf(s, at)) && |data| <= capacity)
            && (r.outcome == Plain(Data(data)) ==> r.rest == tail)
  {
    BodySplit(data, pad, tail);
    BodyReturns(data, |pad|, data + pad + tail, Position(Next(s, at).padding, 0), tail, capacity);
  }

  function SealedFrames(s: Secret, at: Place, chunks: seq<seq<Byte>>, noise: seq<seq<Byte>>): seq<Byte>
    requires |noise| == |chunks| && forall i :: 0 <= i < |noise| ==> |noise[i]| >= MAX_PADDING
    decreases |chunks|
  {
    if chunks == [] then []
    else SealedFrame(s, at, chunks[0], noise[0]) + SealedFrames(s, Next(s, at), chunks[1..], noise[1..])
  }

  function PlaceAfter(s: Secret, at: Place, n: nat): Place
    decreases n
  {
    if n == 0 then at else PlaceAfter(s, Next(s, at), n - 1)
  }

  predicate AllSealedFit(s: Secret, at: Place, chunks: seq<seq<Byte>>)
    decreases |chunks|
  {
    chunks == [] || (Fits(chunks[0], PadOf(s, at)) && AllSealedFit(s, Next(s, at), chunks[1..]))
  }

  function ReadAllSealed(s: Secret, at: Place, input: seq<Byte>, n: nat): Option<(seq<seq<Byte>>, Place, seq<Byte>)>
    decreases n
  {
    if n == 0 then Some(([], at, input))
    else
      var first := ReadSealed(s, at, input, WORD, WORD);
      if !(first.outcome.Plain? && first.outcome.outcome.Data?) then None
      else
        match ReadAllSealed(s, first.at, first.rest, n - 1)
        case None => None
        case Some(more) => Some(([first.outcome.outcome.bytes] + more.0, more.1, more.2))
  }

  /** What a first chunk that reads back makes of reading the others. */
  lemma ReadAllSealedStep(s: Secret, at: Place, input: seq<Byte>, first: seq<Byte>, next: Place, rest: seq<Byte>,
                          n: nat)
    requires ReadSealed(s, at, input, WORD, WORD) == SealedResult(Plain(Data(first)), next, rest)
    ensures var more := ReadAllSealed(s, next, rest, n);
            ReadAllSealed(s, at, input, 1 + n)
            == if more.None? then None else Some(([first] + more.value.0, more.value.1, more.value.2))
  {
  }

  /** The first of the chunks read is what the first read delivers. */
  lemma ReadAllSealedFirst(s: Secret, at: Place, input: seq<Byte>, n: nat)
    requires n > 0 && ReadAllSealed(s, at, input, n).Some?
    ensures var chunks := ReadAllSealed(s, at, input, n).value.0;
            chunks != [] && ReadSealed(s, at, input, WORD, WORD).outcome == Plain(Data(chunks[0]))
  {
  }

  /** As many sealed chunks as there are can be read, and they are these. */
  predicate SealedReadsBack(s: Secret, at: Place, input: seq<Byte>, chunks: seq<seq<Byte>>) {
    var all := ReadAllSealed(s, at, input, |chunks|);
    all.Some? && all.value.0 == chunks
  }

  lemma FirstSealed(s: Secret, at: Place, data: seq<Byte>, noise: seq<Byte>, tail: seq<Byte>)
    requires s.cipher.Sound() && |noise| >= MAX_PADDING
    ensures var r := ReadSealed(s, at, SealedFrame(s, at, data, noise) + tail, WORD, WORD);
            && (Fits(data, PadOf(s, at)) ==> r == SealedResult(Plain(Data(data)), Next(s, at), tail))
            && (!Fits(data, PadOf(s, at)) ==> r.outcome != Plain(Data(data)))
  {
    SealedRoundTrip(s, at, data, noise, tail, WORD, WORD);
  }

  /**
   A sealed stream reads back as written exactly when each of its chunks fits; nonces and padding keep step however
   often the count wraps.
   */
  lemma {:induction false} SealedStreamRoundTrip(s: Secret, at: Place, chunks: seq<seq<Byte>>, noise: seq<seq<Byte>>,
                                                 tail: seq<Byte>)
    requires s.cipher.Sound()
    requires |noise| == |chunks| && forall i :: 0 <= i < |noise| ==> |noise[i]| >= MAX_PADDING
    ensures var input := SealedFrames(s, at, chunks, noise) + tail;
            && (SealedReadsBack(s, at, input, chunks) <==> AllSealedFit(s, at, chunks))
            && (AllSealedFit(s, at, chunks) ==>
                  ReadAllSealed(s, at, input, |chunks|) == Some((chunks, PlaceAfter(s, at, |chunks|), tail)))
    decreases |chunks|
  {
    if chunks == [] {
      assert [] + tail == tail;
    } else {
      var input := SealedFrames(s, at, chunks, noise) + tail;
      var more := SealedFrames(s, Next(s, at), chunks[1..], noise[1..]) + tail;
      SplitSealed(s, at, chunks, noise, tail);
      FirstSealed(s, at, chunks[0], noise[0], more);
      if Fits(chunks[0], PadOf(s, at)) {
        SealedStreamRoundTrip(s, Next(s, at), chunks[1..], noise[1..], tail);
        JoinSealed(s, at, chunks, input, more);
      } else if SealedReadsBack(s, at, input, chunks) {
        ReadAllSealedFirst(s, at, input, |chunks|);
      }
    }
  }

  lemma SplitSealed(s: Secret, at: Place, chunks: seq<seq<Byte>>, noise: seq<seq<Byte>>, tail: seq<Byte>)
    requires chunks != [] && |noise| == |chunks| && forall i :: 0 <= i < |noise| ==> |noise[i]| >= MAX_PADDING
    ensures SealedFrames(s, at, chunks, noise) + tail
         == SealedFrame(s, at, chunks[0], noise[0]) + (SealedFrames(s, Next(s, at), chunks[1..], noise[1..]) + tail)
  {
    var first, others := SealedFrame(s, at, chunks[0], noise[0]), SealedFrames(s, Next(s, at), chunks[1..], noise[1..]);
    Regroup(first, others, tail);
  }

  /** A stream whose first chunk reads back does so from there on, or not, as the others do. */
  lemma JoinSealed(s: Secret, at: Place, chunks: seq<seq<Byte>>, input: seq<Byte>, more: seq<Byte>)
    requires chunks != []
    requires ReadSealed(s, at, input, WORD, WORD) == SealedResult(Plain(Data(chunks[0])), Next(s, at), more)
    ensures SealedReadsBack(s, at, input, chunks) <==> SealedReadsBack(s, Next(s, at), more, chunks[1..])
    ensures SealedReadsBack(s, at, input, chunks) ==>
              var all, others := ReadAllSealed(s, at, input, |chunks|),
                                 ReadAllSealed(s, Next(s, at), more, |chunks| - 1);
              all.value.1 == others.value.1 && all.value.2 == others.value.2
  {
    assert chunks == [chunks[0]] + chunks[1..];
    ReadAllSealedStep(s, at, input, chunks[0], Next(s, at), more, |chunks| - 1);
    var others := ReadAllSealed(s, Next(s, at), more, |chunks| - 1);
    if others.Some? && [chunks[0]] + others.value.0 == chunks {
      assert others.value.0 == ([chunks[0]] + others.value.0)[1..];
    }
  }

  lemma {:induction false} CountAfter(s: Secret, at: Place, n: nat)
    ensures PlaceAfter(s, at, n).count == Wrap(at.count + n)
    decreases n
  {
    if n == 0 {
    } else {
      CountAfter(s, Next(s, at), n - 1);
    }
  }

  lemma SameRemainder(a: int, b: int)
    ensures Wrap(a) == Wrap(b) <==> Wrap(a - b) == 0
  {
  }

  /** Two chunks of a stream share a nonce exactly when a multiple of 65536 chunks lies between their beginnings. */
  lemma NoncesRepeat(s: Secret, at: Place, i: nat, j: nat)
    ensures NonceOf(s, PlaceAfter(s, at, i).count) == NonceOf(s, PlaceAfter(s, at, j).count) <==> Wrap(i - j) == 0
  {
    CountAfter(s, at, i);
    CountAfter(s, at, j);
    var a, b := PlaceAfter(s, at, i).count, PlaceAfter(s, at, j).count;
    SameRemainder(at.count + i, at.count + j);
    if NonceOf(s, a) == NonceOf(s, b) {
      assert WordAt(NonceOf(s, a)) == a && WordAt(NonceOf(s, b)) == b;
    }
  }

  // ---------------------------------------------------------------- the writer and the reader

  /** 16-bit arithmetic, one step at a time. */
  method Shortened(size: nat, pad: nat) returns (field: Word)
    ensures field == Field(size, pad)
  {
    field := Wrap(size);
    field := Wrap(field + pad);
    assert field == Length(size, pad);
    field := Wrap(field - 16);
  }

  class AeadChunkWriter {
    const cipher: Cipher
    const padding: Shake?
    /** The whole nonce; its first two bytes are rewritten for every chunk. */
    var nonce: seq<Byte>
    var nonceCount: Word
    var written: seq<Byte>

    constructor (cipher: Cipher, nonce: seq<Byte>, padding: Shake?)
      ensures this.cipher == cipher && this.padding == padding && this.nonce == nonce && nonceCount == 0
              && written == []
    {
      this.cipher, this.padding, this.nonce, nonceCount, written := cipher, padding, nonce, 0, [];
    }

    function Key(): Secret
      reads this
      requires |nonce| >= 2
    {
      Secret(cipher, nonce[2..], if padding != null then Some(padding.stream) else None)
    }

    function At(): Place
      reads this, padding
    {
      Place(nonceCount, if padding != null then padding.position else 0)
    }

    method NextField(size: nat) returns (field: Word, pad: nat)
      requires |nonce| >= 2
      modifies padding
      ensures pad == PadOf(Key(), old(At())) && field == Field(size, pad)
      ensures At() == old(At()).(padding := Next(Key(), old(At())).padding)
    {
      pad := 0;
      if padding != null {
        var hash := padding.Next();
        pad := hash % 64;
      }
      field := Shortened(size, pad);
    }

    /** Seals a length under the next nonce. */
    method Seal(field: Word) returns (sealed: seq<Byte>)
      requires |nonce| >= 2
      modifies `nonce, `nonceCount
      ensures |nonce| == old(|nonce|) && nonce[2..] == old(nonce[2..])
      ensures sealed == cipher.seal(NonceOf(old(Key()), old(nonceCount)), BigEndian(field))
      ensures nonceCount == Wrap(old(nonceCount) + 1)
    {
      nonce := BigEndian(nonceCount) + nonce[2..];
      nonceCount := Wrap(nonceCount + 1);
      sealed := cipher.seal(nonce, BigEndian(field));
    }

    method Write(data: seq<Byte>, noise: seq<Byte>) returns (n: nat)
      requires |nonce| >= 2 && |noise| >= MAX_PADDING
      modifies this, padding
      ensures |nonce| >= 2 && Key() == old(Key()) && At() == Next(old(Key()), old(At()))
      ensures n == |data| && written == old(written) + SealedFrame(old(Key()), old(At()), data, noise)
    {
      var field, pad := NextField(|data|);
      var sealed := Seal(field);
      WrittenInParts(written, sealed, data, noise, pad);
      written := written + sealed;
      written := written + data;
      if pad > 0 {
        written := written + noise[..pad];
      }
      n := |data|;
    }

    /** The same bytes from a buffer with room in front and behind. */
    method WriteBuffer(buffer: Buffer, noise: seq<Byte>)
      requires |nonce| >= 2 && |noise| >= MAX_PADDING
      modifies this, buffer, padding
      ensures |nonce| >= 2 && Key() == old(Key()) && At() == Next(old(Key()), old(At()))
      ensures written == old(written) + SealedFrame(old(Key()), old(At()), old(buffer.bytes), noise)
    {
      var field, pad := NextField(|buffer.bytes|);
      var sealed := Seal(field);
      buffer.bytes := sealed + buffer.bytes;
      if pad > 0 {
        buffer.bytes := buffer.bytes + noise[..pad];
      }
      written := written + buffer.bytes;
    }
  }

  class AeadChunkReader {
    const cipher: Cipher
    const padding: Shake?
    var nonce: seq<Byte>
    var nonceCount: Word
    var input: seq<Byte>

    constructor (cipher: Cipher, nonce: seq<Byte>, padding: Shake?, input: seq<Byte>)
      ensures this.cipher == cipher && this.padding == padding && this.nonce == nonce && nonceCount == 0
              && this.input == input
    {
      this.cipher, this.padding, this.nonce, nonceCount, this.input := cipher, padding, nonce, 0, input;
    }

    function Key(): Secret
      reads this
      requires |nonce| >= 2
    {
      Secret(cipher, nonce[2..], if padding != null then Some(padding.stream) else None)
    }

    function At(): Place
      reads this, padding
    {
      Place(nonceCount, if padding != null then padding.position else 0)
    }

    /** Reads one chunk into the first `length` bytes of `p`; `forged` says that the chunk's own length did not open. */
    method Read(p: array<Byte>, length: nat) returns (n: nat, failure: Option<Outcome>, forged: bool)
      requires |nonce| >= 2 && length <= p.Length
      modifies this, p, padding
      ensures |nonce| >= 2 && Key() == old(Key())
      ensures var r := ReadSealed(old(Key()), old(At()), old(input), p.Length, length);
              && input == r.rest && At() == r.at && forged == r.outcome.Forged?
              && (r.outcome.Plain? ==> Delivers(r.outcome.outcome, p, n, failure))
    {
      if p.Length < SEALED {
        return 0, Some(ShortBuffer), false;
      }
      if |input| < SEALED {
        input := [];
        return 0, Some(Truncated([])), false;
      }
      var text := input[..SEALED];
      input := input[SEALED..];
      nonce := BigEndian(nonceCount) + nonce[2..];
      var plain := cipher.unseal(nonce, text);
      nonceCount := Wrap(nonceCount + 1);
      if plain.None? || |plain.value| < 2 {
        return 0, None, true;
      }
      var whole: int := Restored(WordAt(plain.value));
      var size: nat := 0;
      if padding != null {
        var hash := padding.Next();
        size := hash % 64;
      }
      var rest;
      n, failure, rest := TakeBody(input, p, length, whole - size, size, Position(At().padding, 0));
      input := rest;
      forged := false;
    }
  }
}
