/** Character cards: reading a card out of a JSON file or out of the `tEXt` chunks of
    a PNG image, unwrapping the `chara_card_v2` envelope, validating and applying it,
    and the file-input handler that updates the conversation's system message.
    The PNG is read from the "binary string" `atob` returns, one character per byte;
    its chunk layout is the one of section 5.3 of the PNG Specification (Second
    Edition): a 4-byte big-endian length, a 4-byte type, the data and a 4-byte CRC. */
module CharacterCard {
  import opened Base
  import opened JsValue
  import opened Conversation

  // ---------------------------------------------------------------------------
  // Strings as the handler uses them
  // ---------------------------------------------------------------------------

  /** `s.indexOf(c)`: the first position of `c`, or -1 when there is none. */
  function IndexOf(s: string, c: char): (r: int)
    ensures -1 <= r < |s|
    ensures r == -1 <==> c !in s
    ensures r >= 0 ==> s[r] == c && c !in s[..r]
    decreases |s|
  {
    if s == [] then -1
    else if s[0] == c then 0
    else
      var i := IndexOf(s[1..], c);
      if i == -1 then -1
      else
        assert s[..i + 1] == [s[0]] + s[1..][..i];
        i + 1
  }

  predicate StartsWith(s: string, prefix: string) {
    |prefix| <= |s| && s[..|prefix|] == prefix
  }

  predicate EndsWith(s: string, suffix: string) {
    |suffix| <= |s| && s[|s| - |suffix|..] == suffix
  }

  /** `s.substring(start, end)` for `start <= end`: both bounds are clamped to the
      length of the string. */
  function Substring(s: string, start: nat, end: nat): string
    requires start <= end
  {
    s[Min(start, |s|)..Min(end, |s|)]
  }

  // ---------------------------------------------------------------------------
  // extractTextChunksFromPNG
  // ---------------------------------------------------------------------------

  /** What `atob` returns: every character is one byte. */
  predicate IsBinary(s: string) {
    forall i :: 0 <= i < |s| ==> s[i] as int < 256
  }

  /** `s.charCodeAt(i)` as the shift operators see it: past the end charCodeAt yields
      NaN, which the shift converts to 0. */
  function CodeAt(s: string, i: nat): nat {
    if i < |s| then s[i] as int else 0
  }

  /** The four bytes at `offset` read as an unsigned big-endian number. */
  function Be32Value(s: string, offset: nat): nat {
    CodeAt(s, offset) * 0x100_0000 + CodeAt(s, offset + 1) * 0x1_0000 +
    CodeAt(s, offset + 2) * 0x100 + CodeAt(s, offset + 3)
  }

  /** The conversion of the bitwise operators' result to a signed 32-bit integer. */
  function ToInt32(x: int): int {
    var m := x % 0x1_0000_0000;
    if m < 0x8000_0000 then m else m - 0x1_0000_0000
  }

  /** The chunk length at `offset`: the four bytes shifted into place and or-ed
      together, a signed 32-bit result, which is the big-endian value with the top
      bit taken as the sign. */
  function ReadLength(s: string, offset: nat): (r: int)
    requires IsBinary(s)
    ensures r >= 0 <==> CodeAt(s, offset) < 0x80
    ensures r >= 0 ==> r == Be32Value(s, offset) < 0x8000_0000
  {
    if CodeAt(s, offset) < 0x80 then Be32Value(s, offset) else Be32Value(s, offset) - 0x1_0000_0000
  }

  /** The length read is the or-ed bytes converted to a signed 32-bit integer, and it
      is negative exactly when the first byte is 0x80 or more. */
  lemma ReadLengthIsInt32(s: string, offset: nat)
    requires IsBinary(s)
    ensures ReadLength(s, offset) == ToInt32(Be32Value(s, offset))
    ensures ReadLength(s, offset) < 0 <==> CodeAt(s, offset) >= 0x80
  {
  }

  /** The chunk type, the four characters after the length. */
  function ChunkType(s: string, offset: nat): string {
    Substring(s, offset + 4, offset + 8)
  }

  /** `chunks[keyword] = text` for a `tEXt` chunk's data: the keyword ends at the
      first NUL and the text is the rest; data without a NUL adds nothing. Assigning
      to `__proto__` on a plain object with a string value changes nothing. */
  function AddText(chunks: map<string, string>, textData: string): map<string, string> {
    var nullIndex := IndexOf(textData, '\0');
    if nullIndex == -1 then chunks
    else
      var keyword := textData[..nullIndex];
      if keyword == "__proto__" then chunks
      else chunks[keyword := textData[nullIndex + 1..]]
  }

  /** A keyword free of NUL is split off at its terminator, the text may hold further
      NULs, and a later chunk with the same keyword overwrites the earlier value. */
  lemma AddTextSplitsAtFirstNul(chunks: map<string, string>, keyword: string, text: string)
    requires '\0' !in keyword && keyword != "__proto__"
    ensures AddText(chunks, keyword + ['\0'] + text) == chunks[keyword := text]
  {
    var d := keyword + ['\0'] + text;
    assert d[|keyword|] == '\0';
    assert d[..|keyword|] == keyword;
    assert d[|keyword| + 1..] == text;
  }

  /** A `tEXt` chunk without a NUL separator contributes nothing. */
  lemma AddTextWithoutNul(chunks: map<string, string>, textData: string)
    requires '\0' !in textData
    ensures AddText(chunks, textData) == chunks
  {
  }

  /** A length field of FF FF FF F4 reads as -12, so the step past the chunk,
      12 + length, leaves the offset where it was. Unless the type there is IEND,
      the scan then reads the same chunk again and again and never ends. A length
      below -12 sends the scan back to an earlier offset instead, and a length of
      -11 to -1 moves it forward to a point inside the chunk's own fields. */
  lemma NegativeLengthStalls(s: string, offset: nat)
    requires IsBinary(s) && offset + 4 <= |s|
    requires s[offset] == 0xFF as char && s[offset + 1] == 0xFF as char
    requires s[offset + 2] == 0xFF as char && s[offset + 3] == 0xF4 as char
    ensures ReadLength(s, offset) == -12
    ensures offset + 12 + ReadLength(s, offset) == offset < |s|
    ensures !LengthsSane(s, offset)
  {
    assert CodeAt(s, offset) == 0xFF && CodeAt(s, offset + 3) == 0xF4;
    assert CodeAt(s, offset + 1) == 0xFF && CodeAt(s, offset + 2) == 0xFF;
  }

  /** A length field of FF FF FF FF reads as -1, and the step 12 + length = 11 still
      moves forward. When the data ends eleven characters after the length field,
      the scan steps exactly to the end and stops normally, yet `LengthsSane`
      excludes the file: it asks for more than the scan needs to end. */
  lemma ShortNegativeLengthEnds(s: string, offset: nat)
    requires IsBinary(s) && |s| == offset + 11
    requires s[offset] == 0xFF as char && s[offset + 1] == 0xFF as char
    requires s[offset + 2] == 0xFF as char && s[offset + 3] == 0xFF as char
    ensures ReadLength(s, offset) == -1
    ensures offset < offset + 12 + ReadLength(s, offset) == |s|
    ensures !LengthsSane(s, offset)
  {
    assert CodeAt(s, offset) == 0xFF && CodeAt(s, offset + 3) == 0xFF;
    assert CodeAt(s, offset + 1) == 0xFF && CodeAt(s, offset + 2) == 0xFF;
  }

  /** The chunks the scan passes over from `offset` on, up to the end of the data or
      an IEND chunk, each as its type, its data and the four characters after the
      data (where a writer puts the CRC); None when it meets a negative length. From
      such a length the scan steps back (below -12), stands still (-12) or lands
      inside the chunk it has just read (-11 to -1) instead of past it.
      Section 5.3 of the PNG Specification caps lengths at 2^31 - 1, so a
      conforming file has none. */
  function ChunksFrom(s: string, offset: nat): Option<seq<PngChunk>>
    requires IsBinary(s)
    decreases |s| - offset
  {
    if offset >= |s| then Some([])
    else
      var length := ReadLength(s, offset);
      if length < 0 then None
      else
        var c := PngChunk(ChunkType(s, offset), Substring(s, offset + 8, offset + 8 + length),
                          Substring(s, offset + 8 + length, offset + 12 + length));
        if c.kind == "IEND" then Some([c])
        else
          var rest := ChunksFrom(s, offset + 12 + length);
          if rest.None? then None else Some([c] + rest.value)
  }

  /** Every length the scan reads from `offset` on is non-negative, so every step
      moves the offset past the chunk it has read. */
  predicate LengthsSane(s: string, offset: nat)
    requires IsBinary(s)
  {
    ChunksFrom(s, offset).Some?
  }

  /** The keyword/text pairs the scan collects from `offset` on, starting from
      `chunks`: every `tEXt` chunk it passes over adds its pair, in order. */
  function TextChunksFrom(s: string, offset: nat, chunks: map<string, string>): map<string, string>
    requires IsBinary(s) && LengthsSane(s, offset)
  {
    ExpectedText(ChunksFrom(s, offset).value, chunks)
  }

  /** extractTextChunksFromPNG: from offset 8 (the signature is skipped, not checked)
      the chunks are walked one after another, each `tEXt` chunk adding its pair,
      until the data ends or an IEND chunk has been passed. */
  method ExtractTextChunksFromPNG(binaryData: string) returns (chunks: map<string, string>)
    requires IsBinary(binaryData) && LengthsSane(binaryData, 8)
    ensures chunks == TextChunksFrom(binaryData, 8, map[])
  {
    chunks := map[];
    var offset: nat := 8;
    ghost var goal := TextChunksFrom(binaryData, 8, map[]);
    ghost var rest := ChunksFrom(binaryData, 8).value;
    while offset < |binaryData|
      invariant ChunksFrom(binaryData, offset) == Some(rest)
      invariant ExpectedText(rest, chunks) == goal
      decreases |binaryData| - offset
    {
      var length := ReadLength(binaryData, offset);
      assert length >= 0;
      var kind := Substring(binaryData, offset + 4, offset + 8);
      ghost var before := chunks;
      ghost var data := Substring(binaryData, offset + 8, offset + 8 + length);
      if kind == "tEXt" {
        var textData := Substring(binaryData, offset + 8, offset + 8 + length);
        chunks := AddText(chunks, textData);
      }
      ghost var at := offset;
      offset := offset + 12 + length;
      if kind == "IEND" {
        ScanAtIend(binaryData, at, rest, before, chunks, length, data, goal);
        break;
      }
      ScanPast(binaryData, at, offset, rest, before, chunks, length, kind, data, goal);
      rest := rest[1..];
    }
  }

  // ---------------------------------------------------------------------------
  // The chunk stream a PNG writer lays out, and what the scan recovers from it
  // ---------------------------------------------------------------------------

  /** One chunk: its 4-character type, its data and its 4-byte CRC (which the scan
      never checks). */
  datatype PngChunk = PngChunk(kind: string, data: string, crc: string)

  /** A chunk a writer can lay out: a 4-character type, a 4-character CRC and data
      whose length fits the 31 bits a reader accepts. */
  predicate WellFormedChunk(c: PngChunk) {
    |c.kind| == 4 && |c.crc| == 4 && |c.data| < 0x8000_0000
  }

  /** Every character of the chunk is a byte. */
  predicate BinaryChunk(c: PngChunk) {
    IsBinary(c.kind) && IsBinary(c.data) && IsBinary(c.crc)
  }

  /** A length written as four big-endian bytes. */
  function Be32(n: nat): (r: string)
    requires n < 0x8000_0000
    ensures |r| == 4 && IsBinary(r)
  {
    [(n / 0x100_0000) as char, (n / 0x1_0000 % 0x100) as char, (n / 0x100 % 0x100) as char, (n % 0x100) as char]
  }

  lemma Be32Decodes(n: nat)
    requires n < 0x8000_0000
    ensures (n / 0x100_0000) < 0x80
    ensures (n / 0x100_0000) * 0x100_0000 + (n / 0x1_0000 % 0x100) * 0x1_0000 +
            (n / 0x100 % 0x100) * 0x100 + n % 0x100 == n
  {
    var q1 := n / 0x100;
    var q2 := q1 / 0x100;
    var q3 := q2 / 0x100;
    assert n == q1 * 0x100 + n % 0x100;
    assert q1 == q2 * 0x100 + q1 % 0x100;
    assert q2 == q3 * 0x100 + q2 % 0x100;
    assert n / 0x1_0000 == q2;
    assert n / 0x100_0000 == q3;
  }

  function EncodeChunk(c: PngChunk): (r: string)
    requires WellFormedChunk(c)
    ensures |r| == 12 + |c.data|
  {
    Be32(|c.data|) + c.kind + c.data + c.crc
  }

  /** The chunks laid out one after another. */
  function EncodeChunks(cs: seq<PngChunk>): string
    requires forall i :: 0 <= i < |cs| ==> WellFormedChunk(cs[i])
  {
    if cs == [] then "" else EncodeChunk(cs[0]) + EncodeChunks(cs[1..])
  }

  /** The pairs a reader of the chunk list expects: every `tEXt` chunk up to and
      including the first IEND chunk, in order. */
  function ExpectedText(cs: seq<PngChunk>, chunks: map<string, string>): map<string, string> {
    if cs == [] then chunks
    else
      var next := if cs[0].kind == "tEXt" then AddText(chunks, cs[0].data) else chunks;
      if cs[0].kind == "IEND" then next else ExpectedText(cs[1..], next)
  }

  lemma BinaryAppend(a: string, b: string)
    requires IsBinary(a) && IsBinary(b)
    ensures IsBinary(a + b)
  {
    assert forall i :: |a| <= i < |a + b| ==> (a + b)[i] == b[i - |a|];
  }

  lemma EncodeChunksBinary(cs: seq<PngChunk>)
    requires forall i :: 0 <= i < |cs| ==> WellFormedChunk(cs[i]) && BinaryChunk(cs[i])
    ensures IsBinary(EncodeChunks(cs))
  {
    if cs != [] {
      var c := cs[0];
      BinaryAppend(Be32(|c.data|), c.kind);
      BinaryAppend(Be32(|c.data|) + c.kind, c.data);
      BinaryAppend(Be32(|c.data|) + c.kind + c.data, c.crc);
      EncodeChunksBinary(cs[1..]);
      BinaryAppend(EncodeChunk(c), EncodeChunks(cs[1..]));
    }
  }

  /** The chunk `c`, well formed, is laid out in `s` at `offset`. */
  predicate ChunkAt(s: string, offset: nat, c: PngChunk) {
    && WellFormedChunk(c)
    && offset + 12 + |c.data| <= |s|
    && s[offset..offset + 12 + |c.data|] == EncodeChunk(c)
  }

  /** The chunks `cs`, each well formed, are laid out in `s` one after another, from
      `offset` to the end. */
  ghost predicate EncodedAt(s: string, offset: nat, cs: seq<PngChunk>) {
    && (forall i :: 0 <= i < |cs| ==> WellFormedChunk(cs[i]))
    && offset <= |s|
    && s[offset..] == EncodeChunks(cs)
  }

  /** Chunks laid out from `offset` are the first one at `offset` and the rest after
      it. */
  lemma EncodedRest(s: string, offset: nat, cs: seq<PngChunk>)
    requires EncodedAt(s, offset, cs) && cs != []
    ensures ChunkAt(s, offset, cs[0])
    ensures EncodedAt(s, offset + 12 + |cs[0].data|, cs[1..])
  {
    var e := EncodeChunk(cs[0]);
    var r := EncodeChunks(cs[1..]);
    assert s[offset..] == e + r;
    assert s[offset..offset + |e|] == (e + r)[..|e|] == e;
    assert s[offset + |e|..] == (e + r)[|e|..] == r;
  }

  /** What the scan reads at the start of a chunk laid out in the data: a
      non-negative length, which is the length of the data, and the type. */
  lemma ReadHeaderAt(s: string, offset: nat, c: PngChunk)
    requires IsBinary(s) && ChunkAt(s, offset, c)
    ensures offset < |s| && CodeAt(s, offset) < 0x80
    ensures ReadLength(s, offset) == |c.data|
    ensures ChunkType(s, offset) == c.kind
  {
    var n := |c.data|;
    var e := EncodeChunk(c);
    assert forall i :: 0 <= i < 8 ==> s[offset + i] == e[i];
    Be32Decodes(n);
    assert CodeAt(s, offset) == n / 0x100_0000;
    assert CodeAt(s, offset + 1) == n / 0x1_0000 % 0x100;
    assert CodeAt(s, offset + 2) == n / 0x100 % 0x100;
    assert CodeAt(s, offset + 3) == n % 0x100;
    assert e[4..8] == c.kind;
    assert s[offset + 4..offset + 8] == e[4..8];
  }

  lemma SubSlice(s: string, lo: nat, hi: nat, i: nat, j: nat)
    requires lo <= hi <= |s| && i <= j <= hi - lo
    ensures s[lo..hi][i..j] == s[lo + i..lo + j]
  {
    assert forall k :: 0 <= k < j - i ==> s[lo..hi][i..j][k] == s[lo + i + k];
  }

  /** The data and the CRC of a chunk laid out in the data, where the scan takes
      them from. */
  lemma ReadBodyAt(s: string, offset: nat, c: PngChunk)
    requires ChunkAt(s, offset, c)
    ensures Substring(s, offset + 8, offset + 8 + |c.data|) == c.data
    ensures Substring(s, offset + 8 + |c.data|, offset + 12 + |c.data|) == c.crc
  {
    var n := |c.data|;
    var e := EncodeChunk(c);
    SubSlice(s, offset, offset + 12 + n, 8, 8 + n);
    SubSlice(s, offset, offset + 12 + n, 8 + n, 12 + n);
    assert e[8..8 + n] == c.data;
    assert e[8 + n..12 + n] == c.crc;
  }

  /** The walk stops after an IEND chunk whose length and contents are known. */
  lemma WalkAtIend(s: string, offset: nat, length: nat, c: PngChunk)
    requires IsBinary(s) && offset < |s|
    requires ReadLength(s, offset) == length && ChunkType(s, offset) == c.kind && c.kind == "IEND"
    requires Substring(s, offset + 8, offset + 8 + length) == c.data
    requires Substring(s, offset + 8 + length, offset + 12 + length) == c.crc
    ensures ChunksFrom(s, offset) == Some([c])
  {
  }

  /** Past any other chunk whose length and contents are known, the walk goes on
      from the next chunk. */
  lemma WalkPast(s: string, offset: nat, length: nat, c: PngChunk, rest: seq<PngChunk>)
    requires IsBinary(s) && offset < |s|
    requires ReadLength(s, offset) == length && ChunkType(s, offset) == c.kind && c.kind != "IEND"
    requires Substring(s, offset + 8, offset + 8 + length) == c.data
    requires Substring(s, offset + 8 + length, offset + 12 + length) == c.crc
    requires ChunksFrom(s, offset + 12 + length) == Some(rest)
    ensures ChunksFrom(s, offset) == Some([c] + rest)
  {
  }

  /** A reader of a chunk list goes on past a chunk other than IEND with the pair
      that chunk adds. */
  lemma ExpectedPast(c: PngChunk, rest: seq<PngChunk>, chunks: map<string, string>)
    requires c.kind != "IEND"
    ensures ExpectedText([c] + rest, chunks) ==
      ExpectedText(rest, if c.kind == "tEXt" then AddText(chunks, c.data) else chunks)
  {
    assert ([c] + rest)[0] == c && ([c] + rest)[1..] == rest;
  }

  /** The scan's loop invariant at an IEND chunk: the pairs collected are the ones
      the whole scan yields. */
  lemma ScanAtIend(s: string, offset: nat, rest: seq<PngChunk>, before: map<string, string>,
                   chunks: map<string, string>, length: nat, data: string, goal: map<string, string>)
    requires IsBinary(s) && offset < |s| && ChunksFrom(s, offset) == Some(rest)
    requires ExpectedText(rest, before) == goal
    requires ReadLength(s, offset) == length && ChunkType(s, offset) == "IEND"
    requires Substring(s, offset + 8, offset + 8 + length) == data
    requires chunks == before
    ensures chunks == goal
  {
    var c := PngChunk("IEND", data, Substring(s, offset + 8 + length, offset + 12 + length));
    WalkAtIend(s, offset, length, c);
    assert rest == [c];
  }

  /** The scan's loop invariant carried past any other chunk: the walk from the next
      chunk on is the rest of the list, and the pairs it adds to those collected so
      far are the same `goal`. */
  lemma ScanPast(s: string, offset: nat, next: nat, rest: seq<PngChunk>, before: map<string, string>,
                 chunks: map<string, string>, length: nat, kind: string, data: string,
                 goal: map<string, string>)
    requires IsBinary(s) && offset < |s| && ChunksFrom(s, offset) == Some(rest)
    requires ExpectedText(rest, before) == goal
    requires ReadLength(s, offset) == length && ChunkType(s, offset) == kind && kind != "IEND"
    requires Substring(s, offset + 8, offset + 8 + length) == data && next == offset + 12 + length
    requires chunks == if kind == "tEXt" then AddText(before, data) else before
    ensures rest != [] && ChunksFrom(s, next) == Some(rest[1..])
    ensures ExpectedText(rest[1..], chunks) == goal
  {
    var c := PngChunk(kind, data, Substring(s, offset + 8 + length, offset + 12 + length));
    var tail := ChunksFrom(s, next);
    assert tail.Some? && rest == [c] + tail.value;
    assert rest[1..] == tail.value;
    ExpectedPast(c, tail.value, before);
  }

  /** The chunks of a list up to and including its first IEND chunk. */
  function UpToIend(cs: seq<PngChunk>): (r: seq<PngChunk>)
    ensures |r| <= |cs| && r == cs[..|r|]
    ensures forall i :: 0 <= i < |r| - 1 ==> r[i].kind != "IEND"
  {
    if cs == [] then []
    else if cs[0].kind == "IEND" then [cs[0]]
    else [cs[0]] + UpToIend(cs[1..])
  }

  /** A reader of the list stops at the first IEND chunk as well. */
  lemma {:induction false} ExpectedUpToIend(cs: seq<PngChunk>, chunks: map<string, string>)
    ensures ExpectedText(UpToIend(cs), chunks) == ExpectedText(cs, chunks)
    decreases |cs|
  {
    if cs != [] && cs[0].kind != "IEND" {
      var next := if cs[0].kind == "tEXt" then AddText(chunks, cs[0].data) else chunks;
      var r := [cs[0]] + UpToIend(cs[1..]);
      assert r[0] == cs[0] && r[1..] == UpToIend(cs[1..]);
      ExpectedUpToIend(cs[1..], next);
    }
  }

  /** The walk over a laid-out IEND chunk stops after it. */
  lemma LaidOutAtIend(s: string, offset: nat, c: PngChunk)
    requires IsBinary(s) && ChunkAt(s, offset, c) && c.kind == "IEND"
    ensures ChunksFrom(s, offset) == Some([c])
  {
    ReadHeaderAt(s, offset, c);
    ReadBodyAt(s, offset, c);
    WalkAtIend(s, offset, |c.data|, c);
  }

  /** The walk over any other laid-out chunk reads that chunk and goes on after it. */
  lemma LaidOutPast(s: string, offset: nat, next: nat, c: PngChunk, rest: seq<PngChunk>)
    requires IsBinary(s) && ChunkAt(s, offset, c) && c.kind != "IEND"
    requires next == offset + 12 + |c.data| && ChunksFrom(s, next) == Some(rest)
    ensures ChunksFrom(s, offset) == Some([c] + rest)
  {
    ReadHeaderAt(s, offset, c);
    ReadBodyAt(s, offset, c);
    WalkPast(s, offset, |c.data|, c, rest);
  }

  /** The walk over chunks laid out from `offset` to the end of the data reads only
      non-negative lengths and recovers every chunk up to the first IEND chunk: type,
      data and CRC. */
  lemma {:induction false} WalkLaidOut(s: string, offset: nat, cs: seq<PngChunk>)
    requires IsBinary(s) && EncodedAt(s, offset, cs)
    ensures ChunksFrom(s, offset) == Some(UpToIend(cs))
    decreases |cs|
  {
    if cs != [] {
      var c, tail := cs[0], cs[1..];
      EncodedRest(s, offset, cs);
      if c.kind == "IEND" {
        LaidOutAtIend(s, offset, c);
      } else {
        var next := offset + 12 + |c.data|;
        WalkLaidOut(s, next, tail);
        LaidOutPast(s, offset, next, c, UpToIend(tail));
      }
    }
  }

  /** Round trip: for any 8-character signature, checked or not, the walk over a
      written chunk stream gives back the chunks written, up to the first IEND chunk,
      and the scan returns the `tEXt` pairs among them. */
  lemma ExtractRoundTrip(signature: string, cs: seq<PngChunk>)
    requires |signature| == 8 && IsBinary(signature)
    requires forall i :: 0 <= i < |cs| ==> WellFormedChunk(cs[i]) && BinaryChunk(cs[i])
    ensures IsBinary(signature + EncodeChunks(cs))
    ensures LengthsSane(signature + EncodeChunks(cs), 8)
    ensures ChunksFrom(signature + EncodeChunks(cs), 8) == Some(UpToIend(cs))
    ensures TextChunksFrom(signature + EncodeChunks(cs), 8, map[]) == ExpectedText(cs, map[])
  {
    EncodeChunksBinary(cs);
    BinaryAppend(signature, EncodeChunks(cs));
    assert (signature + EncodeChunks(cs))[8..] == EncodeChunks(cs);
    WalkLaidOut(signature + EncodeChunks(cs), 8, cs);
    ExpectedUpToIend(cs, map[]);
  }

  /** Chunks after the first IEND chunk are never looked at. */
  lemma {:induction false} IgnoredAfterIend(before: seq<PngChunk>, iend: PngChunk, after: seq<PngChunk>,
                                            chunks: map<string, string>)
    requires iend.kind == "IEND"
    ensures ExpectedText(before + [iend] + after, chunks) == ExpectedText(before + [iend], chunks)
    decreases |before|
  {
    if before == [] {
      assert (before + [iend] + after)[0] == iend;
      assert (before + [iend])[0] == iend;
    } else {
      assert (before + [iend] + after)[0] == before[0];
      assert (before + [iend])[0] == before[0];
      assert (before + [iend] + after)[1..] == before[1..] + [iend] + after;
      assert (before + [iend])[1..] == before[1..] + [iend];
      var next := if before[0].kind == "tEXt" then AddText(chunks, before[0].data) else chunks;
      if before[0].kind != "IEND" {
        IgnoredAfterIend(before[1..], iend, after, next);
      }
    }
  }

  // ---------------------------------------------------------------------------
  // validateCharacterCard and applyCharacterCard
  // ---------------------------------------------------------------------------

  /** `spec === 'chara_card_v2' && data`: the card is a v2 envelope. */
  predicate IsV2Envelope(card: Json) {
    Get(card, "spec") == JString("chara_card_v2") && Truthy(Get(card, "data"))
  }

  /** The card's own fields: those under `data` for a v2 envelope, the card itself
      otherwise. */
  function Unwrap(card: Json): Json {
    if IsV2Envelope(card) then Get(card, "data") else card
  }

  /** Only an object has properties, so only an object can be an envelope. The
      card's own fields are then one of its property values, and they are a value
      exactly when the card is: unwrapping never turns a card into nothing. */
  lemma EnvelopeUnwrapped(card: Json)
    ensures IsV2Envelope(card) ==> card.JObject? && "spec" in card.fields && "data" in card.fields
    ensures Truthy(Unwrap(card)) <==> Truthy(card)
    ensures Unwrap(card) == card || (card.JObject? && Unwrap(card) in card.fields.Values)
  {
  }

  /** `data.system_prompt || data.description`. */
  function CardPrompt(data: Json): (r: Json)
    ensures Truthy(r) <==> Truthy(Get(data, "system_prompt")) || Truthy(Get(data, "description"))
    ensures Truthy(Get(data, "system_prompt")) ==> r == Get(data, "system_prompt")
    ensures !Truthy(Get(data, "system_prompt")) ==> r == Get(data, "description")
  {
    Or(Get(data, "system_prompt"), Get(data, "description"))
  }

  /** validateCharacterCard: false for a falsy value or a non-object; otherwise the
      name, or failing that the prompt, of the unwrapped card. */
  function ValidateCharacterCard(card: Json): (r: Json)
    ensures !Truthy(card) || !TypeofObject(card) ==> r == JBool(false)
  {
    if !Truthy(card) || !TypeofObject(card) then JBool(false)
    else
      var data := Unwrap(card);
      Or(Get(data, "name"), CardPrompt(data))
  }

  /** What applyCharacterCard returns. */
  datatype CardInfo = CardInfo(name: Json, systemPrompt: Json, characterData: Json)

  /** applyCharacterCard: the name and prompt of the unwrapped card, and the
      unwrapped card itself. Reading `spec` of null or undefined throws, so the
      card must be neither. */
  function ApplyCharacterCard(card: Json): (r: CardInfo)
    requires !card.JNull? && !card.JUndefined?
    ensures r.characterData == (if IsV2Envelope(card) then Get(card, "data") else card)
    ensures r.name == Get(r.characterData, "name")
    ensures Truthy(r.systemPrompt) <==>
      Truthy(Get(r.characterData, "system_prompt")) || Truthy(Get(r.characterData, "description"))
  {
    var data := Unwrap(card);
    CardInfo(Get(data, "name"), CardPrompt(data), data)
  }

  /** A card object passes validation exactly when applying it yields a name or a
      prompt; a value that is not an object never passes. */
  lemma ValidateMatchesApply(card: Json)
    ensures !TypeofObject(card) || card.JNull? ==> !Truthy(ValidateCharacterCard(card))
    ensures TypeofObject(card) && !card.JNull? ==>
      (Truthy(ValidateCharacterCard(card)) <==>
         Truthy(ApplyCharacterCard(card).name) || Truthy(ApplyCharacterCard(card).systemPrompt))
  {
  }

  /** A v2 envelope is judged by its inner card alone: its outer name and prompt do
      not count. */
  lemma ValidateV2UsesInnerCard(inner: Json, outer: map<string, Json>)
    requires Truthy(inner)
    ensures var card := JObject(outer["spec" := JString("chara_card_v2")]["data" := inner]);
      Truthy(ValidateCharacterCard(card)) <==>
        Truthy(Get(inner, "name")) || Truthy(Get(inner, "system_prompt")) || Truthy(Get(inner, "description"))
  {
    var card := JObject(outer["spec" := JString("chara_card_v2")]["data" := inner]);
    assert Get(card, "spec") == JString("chara_card_v2");
    assert Get(card, "data") == inner;
  }

  // ---------------------------------------------------------------------------
  // The file-input change handler
  // ---------------------------------------------------------------------------

  /** The chosen file, with what the reader produced: the text of a JSON file, or
      the data URL of an image. */
  datatype CardFile = CardFile(name: string, mimeType: string, content: string)

  /** `JSON.parse` and `atob`, each `Err` with its message when it throws. */
  datatype Decoders = Decoders(parseJson: string -> Result<Json, string>, atob: string -> Result<string, string>)

  datatype FileKind = JsonFile | PngFile | Unsupported

  /** A JSON file by type or by name is read as JSON; otherwise an image by type or a
      `.png` by name is read as a PNG; anything else is refused. */
  function KindOf(file: CardFile): FileKind {
    if file.mimeType == "application/json" || EndsWith(file.name, ".json") then JsonFile
    else if StartsWith(file.mimeType, "image/") || EndsWith(file.name, ".png") then PngFile
    else Unsupported
  }

  /** `content.split(',')[1]` as `atob` receives it: the text between the first and
      the second comma, or "undefined" when there is no comma. */
  function Base64Payload(content: string): string {
    var first := IndexOf(content, ',');
    if first == -1 then "undefined"
    else
      var rest := content[first + 1..];
      var second := IndexOf(rest, ',');
      if second == -1 then rest else rest[..second]
  }

  /** The image decodes to binary data whose chunk lengths are sane. */
  ghost predicate PngReadable(file: CardFile, dec: Decoders) {
    var binary := dec.atob(Base64Payload(file.content));
    KindOf(file) == PngFile && binary.Ok? ==> IsBinary(binary.value) && LengthsSane(binary.value, 8)
  }

  /** The `chara` text chunk when it is present and non-empty. */
  function CharaChunk(chunks: map<string, string>): (r: Option<string>)
    ensures r.Some? <==> "chara" in chunks && chunks["chara"] != ""
    ensures r.Some? ==> r.value == chunks["chara"]
  {
    if "chara" in chunks && chunks["chara"] != "" then Some(chunks["chara"]) else None
  }

  /** The card value the `try` block obtains from a file, or the message of what it
      threw. */
  function ReadCard(file: CardFile, dec: Decoders): (r: Result<Json, string>)
    requires PngReadable(file, dec)
    ensures KindOf(file) == Unsupported ==> r == Err("Unsupported file type")
    ensures KindOf(file) == JsonFile ==> r == dec.parseJson(file.content)
    ensures (KindOf(file) == PngFile && dec.atob(Base64Payload(file.content)).Err?) ==>
      r == Err(dec.atob(Base64Payload(file.content)).error)
    ensures (KindOf(file) == PngFile && dec.atob(Base64Payload(file.content)).Ok? &&
             CharaChunk(TextChunksFrom(dec.atob(Base64Payload(file.content)).value, 8, map[])).None?) ==>
      r == Err("No character data found in PNG file")
    ensures r.Ok? ==> KindOf(file) == JsonFile || exists json :: dec.parseJson(json) == r
  {
    match KindOf(file)
    case JsonFile => dec.parseJson(file.content)
    case PngFile =>
      (match dec.atob(Base64Payload(file.content))
       case Err(e) => Err(e)
       case Ok(binary) =>
         match CharaChunk(TextChunksFrom(binary, 8, map[]))
         case None => Err("No character data found in PNG file")
         case Some(chara) =>
           match dec.atob(chara)
           case Err(e) => Err(e)
           case Ok(json) => dec.parseJson(json))
    case Unsupported => Err("Unsupported file type")
  }

  /** A PNG image carrying the base64 JSON of a card in a `chara` text chunk before
      its IEND chunk loads that card. */
  lemma PngCardLoads(file: CardFile, dec: Decoders, signature: string, cs: seq<PngChunk>,
                     chara: string, json: string, card: Json)
    requires KindOf(file) == PngFile
    requires |signature| == 8 && IsBinary(signature)
    requires forall i :: 0 <= i < |cs| ==> WellFormedChunk(cs[i]) && BinaryChunk(cs[i])
    requires dec.atob(Base64Payload(file.content)) == Ok(signature + EncodeChunks(cs))
    requires CharaChunk(ExpectedText(cs, map[])) == Some(chara)
    requires dec.atob(chara) == Ok(json) && dec.parseJson(json) == Ok(card)
    ensures PngReadable(file, dec)
    ensures ReadCard(file, dec) == Ok(card)
  {
    ExtractRoundTrip(signature, cs);
  }

  /** A PNG image whose chunks up to IEND hold no non-empty `chara` text chunk fails
      with the message that no character data was found. */
  lemma PngWithoutCardFails(file: CardFile, dec: Decoders, signature: string, cs: seq<PngChunk>)
    requires KindOf(file) == PngFile
    requires |signature| == 8 && IsBinary(signature)
    requires forall i :: 0 <= i < |cs| ==> WellFormedChunk(cs[i]) && BinaryChunk(cs[i])
    requires dec.atob(Base64Payload(file.content)) == Ok(signature + EncodeChunks(cs))
    requires CharaChunk(ExpectedText(cs, map[])) == None
    ensures PngReadable(file, dec)
    ensures ReadCard(file, dec) == Err("No character data found in PNG file")
  {
    ExtractRoundTrip(signature, cs);
  }

  /** How a change of the file input ends. */
  datatype LoadOutcome =
    | Cleared
    | Loaded(data: Json)
    | NotApplied
    | LoadFailed(message: string)

  class CharacterCardHandler {
    /** `conversationHistory[0]`, or null before `init`. */
    var conversationHistory: SystemMessage?

    constructor ()
      ensures conversationHistory == null
    {
      conversationHistory := null;
    }

    method Init(history: SystemMessage)
      modifies this
      ensures conversationHistory == history
    {
      conversationHistory := history;
    }

    /** The `change` handler once the reader has the file's contents:
        - no file: the system message is reset to the default;
        - a read that throws: the error is reported and nothing changes;
        - a falsy card: nothing happens;
        - otherwise the card is applied, and the system message takes the
          unwrapped card's prompt when that prompt is truthy. */
    method OnFileChange(file: Option<CardFile>, dec: Decoders) returns (outcome: LoadOutcome)
      requires file.Some? ==> PngReadable(file.value, dec)
      modifies conversationHistory
      ensures file.None? ==> outcome == Cleared
      ensures file.None? && conversationHistory != null ==>
        conversationHistory.content == JString(DEFAULT_SYSTEM_PROMPT)
      ensures file.Some? && ReadCard(file.value, dec).Err? ==>
        && outcome == LoadFailed(ReadCard(file.value, dec).error)
        && (conversationHistory != null ==> unchanged(conversationHistory))
      ensures file.Some? && ReadCard(file.value, dec).Ok? && !Truthy(ReadCard(file.value, dec).value) ==>
        && outcome == NotApplied
        && (conversationHistory != null ==> unchanged(conversationHistory))
      ensures file.Some? && ReadCard(file.value, dec).Ok? && Truthy(ReadCard(file.value, dec).value) ==>
        var data := Unwrap(ReadCard(file.value, dec).value);
        && outcome == Loaded(data)
        && (conversationHistory != null ==>
              conversationHistory.content ==
                (if Truthy(CardPrompt(data)) then CardPrompt(data) else old(conversationHistory.content)))
    {
      if file.None? {
        if conversationHistory != null {
          conversationHistory.content := JString(DEFAULT_SYSTEM_PROMPT);
        }
        return Cleared;
      }
      var f := file.value;
      var characterData := JNull;
      var kind := KindOf(f);
      if kind == JsonFile {
        var parsed := dec.parseJson(f.content);
        if parsed.Err? {
          return LoadFailed(parsed.error);
        }
        characterData := parsed.value;
      } else if kind == PngFile {
        var binary := dec.atob(Base64Payload(f.content));
        if binary.Err? {
          return LoadFailed(binary.error);
        }
        var textChunks := ExtractTextChunksFromPNG(binary.value);
        var chara := CharaChunk(textChunks);
        if chara.None? {
          return LoadFailed("No character data found in PNG file");
        }
        var json := dec.atob(chara.value);
        if json.Err? {
          return LoadFailed(json.error);
        }
        var parsed := dec.parseJson(json.value);
        if parsed.Err? {
          return LoadFailed(parsed.error);
        }
        characterData := parsed.value;
      } else {
        return LoadFailed("Unsupported file type");
      }
      if !Truthy(characterData) {
        return NotApplied;
      }
      var info := ApplyCharacterCard(characterData);
      var data := Unwrap(characterData);
      var systemPrompt := CardPrompt(data);
      if Truthy(systemPrompt) && conversationHistory != null {
        conversationHistory.content := systemPrompt;
      }
      outcome := Loaded(data);
    }
  }
}
