/** Voice catalogue and voice-style data loading: a constant table of voices, the
    per-voice asset URL, a durable byte cache with network fallback and write-through
    (getVoiceFile), and the in-memory map of decoded style tables (getVoiceData). */
module Voices {
  import opened Base
  import opened JsValue

  datatype VoiceInfo = VoiceInfo(
    name: string, language: string, gender: string, targetQuality: string, overallGrade: string)

  /** The `VOICES` table, keyed by voice id. */
  const VOICES: map<string, VoiceInfo> :=
    map[
      "af_heart" := VoiceInfo("Heart", "en-us", "Female", "A", "A"),
      "af_alloy" := VoiceInfo("Alloy", "en-us", "Female", "B", "C"),
      "af_aoede" := VoiceInfo("Aoede", "en-us", "Female", "B", "C+"),
      "af_bella" := VoiceInfo("Bella", "en-us", "Female", "A", "A-"),
      "af_jessica" := VoiceInfo("Jessica", "en-us", "Female", "C", "D"),
      "af_kore" := VoiceInfo("Kore", "en-us", "Female", "B", "C+"),
      "af_nicole" := VoiceInfo("Nicole", "en-us", "Female", "B", "B-"),
      "af_nova" := VoiceInfo("Nova", "en-us", "Female", "B", "C"),
      "af_river" := VoiceInfo("River", "en-us", "Female", "C", "D"),
      "af_sarah" := VoiceInfo("Sarah", "en-us", "Female", "B", "C+"),
      "af_sky" := VoiceInfo("Sky", "en-us", "Female", "B", "C-"),
      "am_adam" := VoiceInfo("Adam", "en-us", "Male", "D", "F+"),
      "am_echo" := VoiceInfo("Echo", "en-us", "Male", "C", "D"),
      "am_eric" := VoiceInfo("Eric", "en-us", "Male", "C", "D"),
      "am_fenrir" := VoiceInfo("Fenrir", "en-us", "Male", "B", "C+"),
      "am_liam" := VoiceInfo("Liam", "en-us", "Male", "C", "D"),
      "am_michael" := VoiceInfo("Michael", "en-us", "Male", "B", "C+"),
      "am_onyx" := VoiceInfo("Onyx", "en-us", "Male", "C", "D"),
      "am_puck" := VoiceInfo("Puck", "en-us", "Male", "B", "C+"),
      "am_santa" := VoiceInfo("Santa", "en-us", "Male", "C", "D-"),
      "bf_emma" := VoiceInfo("Emma", "en-gb", "Female", "B", "B-"),
      "bf_isabella" := VoiceInfo("Isabella", "en-gb", "Female", "B", "C"),
      "bm_george" := VoiceInfo("George", "en-gb", "Male", "B", "C"),
      "bm_lewis" := VoiceInfo("Lewis", "en-gb", "Male", "C", "D+"),
      "bf_alice" := VoiceInfo("Alice", "en-gb", "Female", "C", "D"),
      "bf_lily" := VoiceInfo("Lily", "en-gb", "Female", "C", "D"),
      "bm_daniel" := VoiceInfo("Daniel", "en-gb", "Male", "C", "D"),
      "bm_fable" := VoiceInfo("Fable", "en-gb", "Male", "B", "C")
    ]

  /** The language tag the synthesizer derives from a voice id: its first character. */
  function LanguageTag(voice: string): char
    requires |voice| > 0
  {
    voice[0]
  }

  /** A table entry whose id starts with its language tag ('a' for American, 'b' for
      British English) followed by its gender ('f' or 'm'). */
  predicate EntryConsistent(id: string, info: VoiceInfo) {
    && |id| >= 2
    && (LanguageTag(id) == 'a' || LanguageTag(id) == 'b')
    && (LanguageTag(id) == 'a' <==> info.language == "en-us")
    && (LanguageTag(id) == 'b' <==> info.language == "en-gb")
    && (id[1] == 'f' <==> info.gender == "Female")
    && (id[1] == 'm' <==> info.gender == "Male")
  }

  /** Every entry of the table is consistent, so the tag the synthesizer passes to
      the phonemizer always names the entry's language. */
  lemma VoicesTableConsistent()
    ensures forall id :: id in VOICES ==> EntryConsistent(id, VOICES[id])
  {
  }

  const VOICE_DATA_URL: string :=
    "https://huggingface.co/onnx-community/Kokoro-82M-v1.0-ONNX/resolve/main/voices"

  /** The asset URL of a voice, which is also its key in the durable cache. */
  function VoiceFileUrl(id: string): string {
    VOICE_DATA_URL + "/" + id + ".bin"
  }

  /** Distinct voices have distinct asset URLs, so the durable cache never serves
      one voice's bytes for another. */
  lemma {:induction false} VoiceFileUrlInjective(a: string, b: string)
    requires VoiceFileUrl(a) == VoiceFileUrl(b)
    ensures a == b
  {
    var p := |VOICE_DATA_URL + "/"|;
    assert VoiceFileUrl(a) == (VOICE_DATA_URL + "/") + (a + ".bin");
    assert VoiceFileUrl(b) == (VOICE_DATA_URL + "/") + (b + ".bin");
    assert a + ".bin" == VoiceFileUrl(a)[p..];
    assert b + ".bin" == VoiceFileUrl(b)[p..];
    assert |a| == |b|;
    assert a == (a + ".bin")[..|a|];
    assert b == (b + ".bin")[..|b|];
  }

  // ---------------------------------------------------------------------------
  // Bytes to samples

  /** The samples of a buffer whose length is a multiple of four, four bytes each. */
  function DecodeFloat32s(bytes: seq<byte>): (r: seq<Float32>)
    requires |bytes| % 4 == 0
    decreases |bytes|
  {
    if |bytes| == 0 then []
    else [Float32(bytes[0], bytes[1], bytes[2], bytes[3])] + DecodeFloat32s(bytes[4..])
  }

  /** The bytes a sequence of samples occupies in memory. */
  function EncodeFloat32s(fs: seq<Float32>): (r: seq<byte>)
    decreases |fs|
  {
    if |fs| == 0 then []
    else [fs[0].b0, fs[0].b1, fs[0].b2, fs[0].b3] + EncodeFloat32s(fs[1..])
  }

  lemma {:induction false} EncodeLength(fs: seq<Float32>)
    ensures |EncodeFloat32s(fs)| == 4 * |fs|
    decreases |fs|
  {
    if |fs| > 0 { EncodeLength(fs[1..]); }
  }

  /** Reading back the bytes of some samples gives the same samples. */
  lemma {:induction false} DecodeEncode(fs: seq<Float32>)
    ensures |EncodeFloat32s(fs)| % 4 == 0
    ensures DecodeFloat32s(EncodeFloat32s(fs)) == fs
    decreases |fs|
  {
    EncodeLength(fs);
    if |fs| > 0 {
      var e := EncodeFloat32s(fs);
      DecodeEncode(fs[1..]);
      assert e[4..] == EncodeFloat32s(fs[1..]);
    }
  }

  /** Decoding drops no byte: a buffer of `4n` bytes is exactly `n` samples. */
  lemma {:induction false} EncodeDecode(bytes: seq<byte>)
    requires |bytes| % 4 == 0
    ensures |DecodeFloat32s(bytes)| == |bytes| / 4
    ensures EncodeFloat32s(DecodeFloat32s(bytes)) == bytes
    decreases |bytes|
  {
    if |bytes| > 0 {
      EncodeDecode(bytes[4..]);
      assert bytes == bytes[..4] + bytes[4..];
    }
  }

  /** `new Float32Array(buffer)`, which throws a RangeError when the byte length is
      not a multiple of four. */
  function Float32Array(bytes: seq<byte>): (r: Result<seq<Float32>, string>)
    ensures r.Ok? <==> |bytes| % 4 == 0
    ensures r.Ok? ==> |r.value| == |bytes| / 4 && EncodeFloat32s(r.value) == bytes
  {
    if |bytes| % 4 != 0 then Err("byte length of Float32Array should be a multiple of 4")
    else EncodeDecode(bytes); Ok(DecodeFloat32s(bytes))
  }

  /** What getVoiceData makes of what getVoiceFile returned: the error passes through,
      the buffer becomes samples, and an empty sample array is an error. */
  function VoiceDataFromFile(voice: string, file: Result<seq<byte>, string>): (r: Result<seq<Float32>, string>)
  {
    match file
    case Err(e) => Err(e)
    case Ok(bytes) =>
      match Float32Array(bytes)
      case Err(e) => Err(e)
      case Ok(buffer) =>
        if |buffer| == 0 then Err("Voice data for \"" + voice + "\" is empty")
        else Ok(buffer)
  }

  /** Only non-empty sample arrays come out of a load, and every non-empty sample array
      stored as a file loads back unchanged. */
  lemma VoiceDataFromFileSpec(voice: string, file: Result<seq<byte>, string>, fs: seq<Float32>)
    ensures VoiceDataFromFile(voice, file).Ok? ==> |VoiceDataFromFile(voice, file).value| > 0
    ensures VoiceDataFromFile(voice, file).Ok? <==>
      file.Ok? && |file.value| % 4 == 0 && |file.value| > 0
    ensures |fs| > 0 ==> VoiceDataFromFile(voice, Ok(EncodeFloat32s(fs))) == Ok(fs)
  {
    if file.Ok? && |file.value| % 4 == 0 {
      EncodeDecode(file.value);
    }
    DecodeEncode(fs);
    EncodeLength(fs);
  }

  // ---------------------------------------------------------------------------
  // Durable cache and network

  /** The "kokoro-voices" bucket of the browser's Cache Storage. Whether opening it,
      looking a URL up in it, and storing into it succeed is a property of the
      environment, fixed per bucket. */
  class BlobCache {
    var entries: map<string, seq<byte>>
    const opens: bool
    const matches: bool
    const puts: bool

    constructor (entries: map<string, seq<byte>>, opens: bool, matches: bool, puts: bool)
      ensures this.entries == entries && this.opens == opens
      ensures this.matches == matches && this.puts == puts
    {
      this.entries := entries;
      this.opens := opens;
      this.matches := matches;
      this.puts := puts;
    }
  }

  datatype HttpResponse = HttpResponse(ok: bool, status: nat, statusText: string, body: seq<byte>)

  /** `fetch`: what the server answers for each URL (`Err` when the request itself
      rejects), and the log of requests made. */
  class Network {
    const server: string -> Result<HttpResponse, string>
    var requested: seq<string>

    constructor (server: string -> Result<HttpResponse, string>)
      ensures this.server == server && requested == []
    {
      this.server := server;
      requested := [];
    }

    method Fetch(url: string) returns (r: Result<HttpResponse, string>)
      modifies this
      ensures requested == old(requested) + [url] && r == server(url)
    {
      requested := requested + [url];
      r := server(url);
    }
  }

  /** The bytes a durable-cache lookup yields, if the bucket opens, the lookup
      succeeds and holds the URL. `matches` false stands both for a lookup that
      rejects and for a cached response whose body cannot be read: either way the
      code falls through to the network. */
  function CacheHit(cache: BlobCache, url: string): Option<seq<byte>>
    reads cache
  {
    if cache.opens && cache.matches && url in cache.entries then Some(cache.entries[url]) else None
  }

  /** The result of getVoiceFile once it has fallen through to the network. */
  function FetchOutcome(id: string, response: Result<HttpResponse, string>): (r: Result<seq<byte>, string>)
  {
    match response
    case Err(e) => Err(e)
    case Ok(resp) =>
      if !resp.ok then
        Err("Failed to fetch voice file for \"" + id + "\": " + NatToString(resp.status) + " " + resp.statusText)
      else if |resp.body| == 0 then Err("Voice file for \"" + id + "\" is empty")
      else Ok(resp.body)
  }

  /** A network load succeeds exactly for an ok response with a non-empty body, and
      then yields that body. */
  lemma FetchOutcomeSpec(id: string, response: Result<HttpResponse, string>)
    ensures FetchOutcome(id, response).Ok? <==>
      response.Ok? && response.value.ok && |response.value.body| > 0
    ensures FetchOutcome(id, response).Ok? ==> FetchOutcome(id, response).value == response.value.body
  {
  }

  /** getVoiceFile: the durable cache first, then the network; a cache that fails to
      open or to answer is skipped, a network result is written through (best effort)
      whenever the bucket opened. */
  method GetVoiceFile(id: string, cache: BlobCache, network: Network) returns (r: Result<seq<byte>, string>)
    modifies cache, network
    ensures old(CacheHit(cache, VoiceFileUrl(id))).Some? ==>
      && r == Ok(old(CacheHit(cache, VoiceFileUrl(id))).value)
      && unchanged(cache, network)
    ensures old(CacheHit(cache, VoiceFileUrl(id))).None? ==>
      && network.requested == old(network.requested) + [VoiceFileUrl(id)]
      && r == FetchOutcome(id, network.server(VoiceFileUrl(id)))
      && cache.entries ==
           (if r.Ok? && cache.opens && cache.puts then old(cache.entries)[VoiceFileUrl(id) := r.value]
            else old(cache.entries))
  {
    var url := VoiceFileUrl(id);
    var bucketOpen := false;
    if cache.opens {
      bucketOpen := true;
      if cache.matches && url in cache.entries {
        r := Ok(cache.entries[url]);
        return;
      }
    }

    var response := network.Fetch(url);
    if response.Err? {
      r := Err(response.error);
      return;
    }
    if !response.value.ok {
      r := Err("Failed to fetch voice file for \"" + id + "\": " +
               NatToString(response.value.status) + " " + response.value.statusText);
      return;
    }
    var buffer := response.value.body;
    if |buffer| == 0 {
      r := Err("Voice file for \"" + id + "\" is empty");
      return;
    }
    if bucketOpen && cache.puts {
      cache.entries := cache.entries[url := buffer];
    }
    r := Ok(buffer);
  }

  /** The module-level `VOICE_CACHE` map of decoded style tables. */
  class VoiceStore {
    var voiceCache: map<string, seq<Float32>>

    /** No empty table is ever cached. */
    ghost predicate Valid()
      reads this
    {
      forall v :: v in voiceCache ==> |voiceCache[v]| > 0
    }

    constructor ()
      ensures Valid() && voiceCache == map[]
    {
      voiceCache := map[];
    }

    /** getVoiceData: a cached table is returned as it is, without touching the
        durable cache or the network; otherwise the file is loaded and decoded, and
        only a successful non-empty load enters the map. */
    method GetVoiceData(voice: string, cache: BlobCache, network: Network)
      returns (r: Result<seq<Float32>, string>, ghost file: Result<seq<byte>, string>)
      requires Valid()
      modifies this, cache, network
      ensures Valid()
      ensures r.Ok? ==> |r.value| > 0
      ensures voice in old(voiceCache) ==>
        r == Ok(old(voiceCache)[voice]) && unchanged(this, cache, network)
      ensures voice !in old(voiceCache) ==>
        && file == (if old(CacheHit(cache, VoiceFileUrl(voice))).Some?
                    then Ok(old(CacheHit(cache, VoiceFileUrl(voice))).value)
                    else FetchOutcome(voice, network.server(VoiceFileUrl(voice))))
        && r == VoiceDataFromFile(voice, file)
        && voiceCache == (if r.Ok? then old(voiceCache)[voice := r.value] else old(voiceCache))
      ensures voice !in old(voiceCache) && old(CacheHit(cache, VoiceFileUrl(voice))).Some? ==>
        unchanged(cache, network)
      ensures voice !in old(voiceCache) && old(CacheHit(cache, VoiceFileUrl(voice))).None? ==>
        && network.requested == old(network.requested) + [VoiceFileUrl(voice)]
        && cache.entries ==
             (if file.Ok? && cache.opens && cache.puts then old(cache.entries)[VoiceFileUrl(voice) := file.value]
              else old(cache.entries))
    {
      if voice in voiceCache {
        r := Ok(voiceCache[voice]);
        file := Err("");
        return;
      }
      var loaded := GetVoiceFile(voice, cache, network);
      file := loaded;
      if loaded.Err? {
        r := Err(loaded.error);
        return;
      }
      var decoded := Float32Array(loaded.value);
      if decoded.Err? {
        r := Err(decoded.error);
        return;
      }
      var buffer := decoded.value;
      if |buffer| == 0 {
        r := Err("Voice data for \"" + voice + "\" is empty");
        return;
      }
      voiceCache := voiceCache[voice := buffer];
      r := Ok(buffer);
    }
  }
}
