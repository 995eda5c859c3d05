/** The speech synthesizer's `generate`: voice check, token count, choice of one
    256-value style vector from the voice's style table, and the model call. The
    phonemizer, the tokenizer and the neural model are foreign code and are passed in
    as functions; the voice's style table is passed in as getVoiceData's outcome. */
module Kokoro {
  import opened Base
  import Voices

  const STYLE_DIM: nat := 256
  const SAMPLE_RATE: nat := 24000

  datatype GenerateError =
    | VoiceNotFound(voice: string)
    | VoiceDataUnavailable(message: string)
    | VoiceDataEmpty(voice: string)
    | VoiceDataTooSmall(voice: string, length: nat)
    | StyleSizeMismatch(length: nat, offset: nat)
    | ModelFailed(message: string)

  /** `RawAudio(waveform, sampling_rate)`. */
  datatype RawAudio = RawAudio(audio: seq<Float32>, samplingRate: nat)

  /** The quantities `generate` computes while choosing a style vector; `clamped` is
      whether it logs the "exceeds maximum available offset" warning. */
  datatype StyleSelection = StyleSelection(
    maxStyles: nat, requestedOffset: nat, maxOffset: nat, offset: nat, clamped: bool, style: seq<Float32>)

  /** The foreign collaborators. `inputLength(text, lang)` is the last dimension of
      the `input_ids` tensor the tokenizer returns for the phonemized text (padding
      included); `model` is the synthesis model, `Err` when it throws. */
  datatype Backend = Backend(
    inputLength: (string, char) -> nat,
    model: (string, char, seq<Float32>, real) -> Result<seq<Float32>, string>)

  /** `Math.max(len - 2, 0)`: the token count without the two padding tokens. */
  function NumTokens(inputLength: nat): (r: nat)
    ensures r <= inputLength && inputLength <= r + 2
    ensures r == 0 || r + 2 == inputLength
  {
    var n := Max(inputLength - 2, 0);
    n
  }

  /** `TypedArray.prototype.slice(start, end)` for non-negative bounds: both are
      clamped to the length, and an empty slice results when `end <= start`. */
  function TypedSlice<T>(s: seq<T>, start: nat, end: nat): (r: seq<T>)
  {
    var from := Min(start, |s|);
    var to := Max(from, Min(end, |s|));
    s[from..to]
  }

  /** The style-vector selection of `generate`, with its two data checks and its
      final length check. */
  function SelectStyle(voice: string, data: seq<Float32>, numTokens: nat): Result<StyleSelection, GenerateError>
  {
    if |data| == 0 then Err(VoiceDataEmpty(voice))
    else
      var maxStyles := |data| / STYLE_DIM;
      if maxStyles == 0 then Err(VoiceDataTooSmall(voice, |data|))
      else
        var requestedOffset := numTokens * STYLE_DIM;
        var maxOffset := (maxStyles - 1) * STYLE_DIM;
        var offset := Min(requestedOffset, maxOffset);
        var clamped := requestedOffset > maxOffset;
        var style := TypedSlice(data, offset, offset + STYLE_DIM);
        if |style| != STYLE_DIM then Err(StyleSizeMismatch(|style|, offset))
        else Ok(StyleSelection(maxStyles, requestedOffset, maxOffset, offset, clamped, style))
  }

  /** With at least one full style in the table the selection always succeeds: the
      offset is a multiple of 256 between 0 and the last style's offset, it is the
      requested style or the last one, and the vector is the full 256 values there. */
  lemma StyleSelectionBounds(voice: string, data: seq<Float32>, numTokens: nat)
    requires |data| >= STYLE_DIM
    ensures SelectStyle(voice, data, numTokens).Ok?
    ensures var sel := SelectStyle(voice, data, numTokens).value;
      && sel.maxStyles == |data| / STYLE_DIM >= 1
      && sel.maxOffset == (sel.maxStyles - 1) * STYLE_DIM
      && 0 <= sel.offset <= sel.maxOffset
      && sel.offset % STYLE_DIM == 0
      && sel.offset == Min(numTokens, sel.maxStyles - 1) * STYLE_DIM
      && sel.offset + STYLE_DIM <= |data|
      && |sel.style| == STYLE_DIM
      && sel.style == data[sel.offset..sel.offset + STYLE_DIM]
  {
    var maxStyles := |data| / STYLE_DIM;
    assert maxStyles * STYLE_DIM <= |data|;
    var offset := Min(numTokens * STYLE_DIM, (maxStyles - 1) * STYLE_DIM);
    assert offset == Min(numTokens, maxStyles - 1) * STYLE_DIM;
    assert offset + STYLE_DIM <= maxStyles * STYLE_DIM;
    assert offset % STYLE_DIM == 0 by {
      var k := Min(numTokens, maxStyles - 1);
      assert offset == k * STYLE_DIM;
    }
  }

  /** The selection fails exactly when the table holds less than one style: an empty
      table and a too-small table each have their own error, and the length check
      after slicing can never fail. */
  lemma StyleSelectionErrors(voice: string, data: seq<Float32>, numTokens: nat)
    ensures SelectStyle(voice, data, numTokens).Err? <==> |data| < STYLE_DIM
    ensures |data| == 0 ==> SelectStyle(voice, data, numTokens) == Err(VoiceDataEmpty(voice))
    ensures 0 < |data| < STYLE_DIM ==>
      SelectStyle(voice, data, numTokens) == Err(VoiceDataTooSmall(voice, |data|))
    ensures !SelectStyle(voice, data, numTokens).Err? || !SelectStyle(voice, data, numTokens).error.StyleSizeMismatch?
  {
    if |data| >= STYLE_DIM {
      StyleSelectionBounds(voice, data, numTokens);
    }
  }

  /** The clamp warning is logged exactly when the requested style, number
      `numTokens + 1`, lies beyond the last style of the table. */
  lemma ClampWarningIff(voice: string, data: seq<Float32>, numTokens: nat)
    requires SelectStyle(voice, data, numTokens).Ok?
    ensures var sel := SelectStyle(voice, data, numTokens).value;
      && (sel.clamped <==> sel.requestedOffset > sel.maxOffset)
      && (sel.clamped <==> numTokens + 1 > sel.maxStyles)
  {
    var maxStyles := |data| / STYLE_DIM;
    assert numTokens * STYLE_DIM > (maxStyles - 1) * STYLE_DIM <==> numTokens > maxStyles - 1;
  }

  /** A table of exactly one style asked for its sixth style: the offset clamps to 0,
      the warning is logged and the vector is still 256 values long. */
  lemma OneStyleTable(voice: string, data: seq<Float32>)
    requires |data| == STYLE_DIM
    ensures SelectStyle(voice, data, 5).Ok?
    ensures SelectStyle(voice, data, 5).value.offset == 0
    ensures SelectStyle(voice, data, 5).value.clamped
    ensures SelectStyle(voice, data, 5).value.style == data
  {
  }

  /** `KokoroTTS.generate(text, { voice, speed })`. */
  function Generate(text: string, voice: string, speed: real, backend: Backend,
                    voiceData: Result<seq<Float32>, string>): (r: Result<RawAudio, GenerateError>)
    ensures voice !in Voices.VOICES ==> r == Err(VoiceNotFound(voice))
    ensures r.Ok? ==>
      && voice in Voices.VOICES
      && voiceData.Ok? && |voiceData.value| >= STYLE_DIM
      && r.value.samplingRate == SAMPLE_RATE
  {
    if voice !in Voices.VOICES then Err(VoiceNotFound(voice))
    else
      Voices.VoicesTableConsistent();
      var language := Voices.LanguageTag(voice);
      var numTokens := NumTokens(backend.inputLength(text, language));
      match voiceData
      case Err(message) => Err(VoiceDataUnavailable(message))
      case Ok(data) =>
        match SelectStyle(voice, data, numTokens)
        case Err(e) => Err(e)
        case Ok(sel) =>
          match backend.model(text, language, sel.style, speed)
          case Err(message) => Err(ModelFailed(message))
          case Ok(waveform) => Ok(RawAudio(waveform, SAMPLE_RATE))
  }

  /** For a known voice with at least one style loaded, generation fails only when the
      model itself fails; the model is given the text in the voice's language and a
      full-length style vector. */
  lemma GenerateSucceeds(text: string, voice: string, speed: real, backend: Backend, data: seq<Float32>)
    requires voice in Voices.VOICES && |data| >= STYLE_DIM
    ensures Voices.EntryConsistent(voice, Voices.VOICES[voice])
    ensures var language := Voices.LanguageTag(voice);
      var sel := SelectStyle(voice, data, NumTokens(backend.inputLength(text, language)));
      && sel.Ok? && |sel.value.style| == STYLE_DIM
      && Generate(text, voice, speed, backend, Ok(data)) ==
           match backend.model(text, language, sel.value.style, speed)
           case Err(message) => Err(ModelFailed(message))
           case Ok(waveform) => Ok(RawAudio(waveform, SAMPLE_RATE))
  {
    Voices.VoicesTableConsistent();
    var language := Voices.LanguageTag(voice);
    StyleSelectionBounds(voice, data, NumTokens(backend.inputLength(text, language)));
  }
}
