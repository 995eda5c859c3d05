# EchoMate speech path and character cards, in Dafny

This project models the browser-side core of EchoMate, a voice chat page that
speaks the assistant's replies and can load "character cards". It covers seven
parts:

- **Worker (`worker.js`).** The synthesis worker's generation queue. It is a FIFO of
  `(chunk, voice)` requests and is drained one synthesis at a time. Each request
  posts `stream` or `error`, and `complete` is posted once the queue is empty.
- **Kokoro (`kokoro.js`).** The synthesizer's `generate`. This covers the voice
  check, the token count, the choice of one 256-value style vector from the voice's
  style table, and the model call.
- **Voices (`voices.js`).** The voice catalogue and its asset URLs. Voice files are
  loaded through a durable cache with network fallback and write-through. Decoded
  style tables are kept in an in-memory map.
- **Player (`AudioPlayer.js`).** The page's audio player. It has a queue of buffers,
  and an asynchronous play loop whose two awaits are explicit event methods.
- **Tts (`tts.js`).** `textToSpeech` strips asterisks, emoji and markdown markers,
  then posts one `generate` request. The page's dispatch of worker messages is
  also here.
- **CharacterCard (`character-card.js`).** The scan of a PNG's chunk stream for
  `tEXt` keyword/text pairs. Also the unwrapping, validation and application of a
  `chara_card_v2` card, and the file-input handler that updates the conversation's
  system message.
- **CharacterTab (`character-tab.js`).** The character tab's form of eight text
  fields: load, clear, apply and the modification check. Also the comma-separated
  tag list.

Shared modules:

- **Base:** Option and Result, bytes, and opaque single-precision samples.
- **JsValue:** the JavaScript values a card holds, with truthiness, `||`, property
  lookup and string conversion.
- **Messages:** the worker's closed set of statuses.
- **Conversation:** the shared system message, `conversationHistory[0]`.

Each piece of source that keeps state is modelled as a class whose methods update
its fields:

- the generation queue
- the audio player
- the voice map
- both handlers, whose forms are records

Pure parts are functions with lemmas about them:

- style selection
- text cleanup
- tag parsing
- card validation

The PNG scan is a method with a loop. It is proved equal to a function over the
chunks it passes.

**PNG round trip.** A chunk stream laid out per section 5.3 of the PNG
Specification (Second Edition) is read back by the walk up to its first IEND chunk.
The walk recovers each chunk's type, data and CRC. The scan then returns exactly
the `tEXt` pairs of those chunks, split at the keyword's NUL terminator as in
section 11.3.4.3.

**Behaviour of the code that a reader might not expect, kept as written:**

- Voice data is accepted once it holds at least one 256-value style. Nothing checks
  that its length is a multiple of 256 (`js/kokoro.js:85-88`).
- The worker's `error` message carries only the exception's message, with no chunk
  index (`js/worker.js:35`).
- There is no generation epoch. A synthesis already started still streams its audio
  after `stop`.
- `stop()` does not silence a buffer whose run is still waiting for the audio
  context to resume (`js/AudioPlayer.js:27-42`, `57-72`). That source was made
  current but never started, so its `stop()` throws InvalidStateError. The error is
  caught and the source stays current. When `resume()` resolves, the run starts the
  source, so the buffer is heard after `stop()` returned with the queue empty.
  `Player.StopWhileResuming` shows this sequence.
- `hasModifications` compares the form with the top-level properties of the stored
  card (`js/character-tab.js:250-263`). For a `chara_card_v2` envelope these are the
  envelope's, while the form was filled from its `data`. The handler's
  `HasModifications` keeps this comparison. The unwrapping comparison is the
  separate `CharacterTab.Modified` (see "## Findings").

## Model

| member | source | states |
|---|---|---|
| Worker.Reply | js/worker.js:29-36 | A settled synthesis answers with a `stream` of the chunk's text or an `error` with the exception's message. |
| Worker.Tagged | js/worker.js:65-67 | The requests made from a message's chunks, one per chunk and in order, each with the message's voice. |
| Worker.GenerationQueue.constructor | js/worker.js:14-59 | The worker starts with an empty queue, is not processing, and has posted `device` then `ready`. The `ready` message carries the voice table `VOICES` and the device. |
| Worker.GenerationQueue.ProcessQueue | js/worker.js:21-29 | Does nothing and posts nothing when already processing or when the queue is empty. Otherwise it sets the flag and takes the queue head as the one in-flight request. The invariant (queue = submitted minus started; in flight exactly while the flag is set; one answer per finished request, in order) is kept. |
| Worker.GenerationQueue.PostReply | js/worker.js:27-38 | Exactly one `stream` (carrying the chunk text) or `error` is posted for the in-flight request, and the flag is cleared. |
| Worker.GenerationQueue.Settle | js/worker.js:27-44 | After the reply, a failure does not stop the draining: with requests left, the next head starts. `complete` is posted exactly when the queue is then empty, and every submitted request has then been answered. |
| Worker.GenerationQueue.OnMessage | js/worker.js:61-70 | All split chunks join the tail of the queue in order, tagged with the message's voice, then processQueue runs once. While a synthesis is in flight this only grows the queue. |
| Worker.DrainedAccounting | js/worker.js:21-44 | Once idle with an empty queue, the number of `stream` and `error` messages equals the number of chunks enqueued, and the k-th answers the k-th chunk. |
| Player.MonoBuffer | js/AudioPlayer.js:13-15 | The queued buffer is mono, at 24000 Hz, and holds exactly the given samples. |
| Player.AudioPlayer.constructor | js/AudioPlayer.js:5-10 | The player starts idle with an empty queue and no current source. |
| Player.AudioPlayer.TakeHead | js/AudioPlayer.js:26-34 | A new source takes the head of the queue and becomes `currentSource`. It starts at once unless the context is suspended. |
| Player.AudioPlayer.PlayAudioQueue | js/AudioPlayer.js:20-34 | Returns with nothing changed while playing or with an empty queue. Otherwise it sets `isPlaying` and plays the head. It keeps "one run of the loop exactly while playing". |
| Player.AudioPlayer.QueueAudio | js/AudioPlayer.js:12-17 | The mono buffer joins the tail of the queue. Playback starts with the queue head if the player was idle. Empty samples make `createBuffer` throw before anything is queued, and the player is left unchanged. |
| Player.AudioPlayer.ResumeResolved | js/AudioPlayer.js:31-43 | Once the context has resumed, the run's source starts and the run waits for its end. Only a context that is not closed can resume; on a closed one the rejection is `AwaitRejected`. |
| Player.AudioPlayer.SourceEnded | js/AudioPlayer.js:37-53 | `onended` clears `currentSource`. Only then is the next head taken. With the queue empty, the run ends and `isPlaying` becomes false. |
| Player.AudioPlayer.AwaitRejected | js/AudioPlayer.js:49-53 | A rejected await ends the run and clears `isPlaying`. The queue and `currentSource` are untouched. |
| Player.AudioPlayer.Stop | js/AudioPlayer.js:57-72 | Always leaves the queue empty and `isPlaying` false. A current source that was started is stopped and cleared. A current source that was never started stays current, because its `stop()` throws InvalidStateError and the error is caught. When idle, only the queue and the flag change. |
| Player.AudioPlayer.Close | js/AudioPlayer.js:75-79 | Closes the context only if it is not already closed, so repeated calls close it once. |
| Player.StopWhileResuming | js/AudioPlayer.js:20-72 | On a suspended context, `queueAudio` then `stop()` then the resolution of `resume()` starts the stopped buffer: it is heard although the queue is empty. |
| Kokoro.NumTokens | js/kokoro.js:71-74 | The token count is the input length minus the two padding tokens, floored at 0. |
| Kokoro.SelectStyle | js/kokoro.js:80-104 | The style selection of `generate`: the empty-data and too-small checks, the clamped offset with its warning, the slice and the final size check. Its properties are stated by the three lemmas below. |
| Kokoro.StyleSelectionBounds | js/kokoro.js:85-104 | With at least 256 values, selection succeeds. The offset is a multiple of 256 between 0 and the last style's offset, equal to `min(numTokens, maxStyles - 1) * 256`, and the style is the 256 values there. |
| Kokoro.StyleSelectionErrors | js/kokoro.js:80-104 | Selection fails exactly when there are fewer than 256 values: empty data and too-small data have their own errors. The size-mismatch error is unreachable. |
| Kokoro.ClampWarningIff | js/kokoro.js:91-97 | The clamp warning fires exactly when the requested offset exceeds the maximum, that is, when style `numTokens + 1` is past the last. |
| Kokoro.OneStyleTable | js/kokoro.js:91-104 | A one-style table asked for its sixth style clamps to offset 0, warns, and still yields all 256 values. |
| Kokoro.Generate | js/kokoro.js:57-116 | An unknown voice fails with VoiceNotFound before anything else. Any success had a known voice and at least 256 values of voice data, and is at 24000 Hz. |
| Kokoro.GenerateSucceeds | js/kokoro.js:64-116 | For a known voice with one style or more, generation fails only if the model fails. The model receives the voice id's first character as language, and a 256-value style. |
| Voices.VoicesTableConsistent | js/voices.js:1-206 | Every id in `VOICES` starting with `a` is `en-us`, and every id starting with `b` is `en-gb`. The second letter gives the gender. |
| Voices.VoiceFileUrlInjective | js/voices.js:216 | The asset URL is `VOICE_DATA_URL/id.bin`. Distinct voices get distinct URLs. |
| Voices.DecodeEncode | js/voices.js:271 | Reading the bytes of samples as a Float32Array gives back the same samples. |
| Voices.Float32Array | js/voices.js:271 | `new Float32Array(buffer)` succeeds exactly when the byte length is a multiple of four. It then holds a quarter as many samples as there are bytes, and writing them back as bytes gives the buffer again. |
| Voices.LanguageTag | js/kokoro.js:64 | The language passed to the phonemizer is the voice id's first character. `VoicesTableConsistent` shows it is `a` exactly for the American and `b` exactly for the British voices of the table. |
| Voices.EncodeDecode | js/voices.js:271 | A buffer of 4n bytes is exactly n samples, and no byte is dropped. |
| Voices.VoiceDataFromFile | js/voices.js:270-280 | What `getVoiceData` makes of a loaded file: a load error passes through, the bytes become samples, and empty samples are an error. VoiceDataFromFileSpec states when it succeeds. |
| Voices.VoiceDataFromFileSpec | js/voices.js:270-280 | A load succeeds exactly for a non-empty file whose byte length is a multiple of four, and only ever gives non-empty data. Stored samples load back unchanged. |
| Voices.Network.Fetch | js/voices.js:230 | A request is recorded and answered by the server. |
| Voices.FetchOutcome | js/voices.js:230-240 | The network path of `getVoiceFile`: a failed fetch, a non-ok status and an empty body are errors with the source's messages. FetchOutcomeSpec states when it succeeds. |
| Voices.FetchOutcomeSpec | js/voices.js:230-240 | The network path succeeds exactly for an ok response with a non-empty body, and then yields that body. |
| Voices.GetVoiceFile | js/voices.js:215-257 | A durable-cache hit returns its bytes with no fetch. Otherwise exactly one fetch of the voice URL is made. Write-through happens only if the bucket opened and `put` works, and only for a successful load. |
| Voices.VoiceStore.constructor | js/voices.js:259 | The voice map starts empty. |
| Voices.VoiceStore.GetVoiceData | js/voices.js:260-285 | A cached voice is returned unchanged, with no cache or network access. Otherwise the map gains the voice only on a successful non-empty load, and no empty table is ever cached. |
| Tts.Strip | js/tts.js:48-49 | A global replace by "" of a one-character pattern keeps exactly the characters not matched, and is never longer than its input. |
| Tts.StripAppend | js/tts.js:48-49 | Stripping works piece by piece, so kept characters keep their order. |
| Tts.StripNothing | js/tts.js:58 | Text with nothing to strip is unchanged. |
| Tts.RemoveEmojis | js/tts.js:40-50 | `removeEmojis`: a global replace by "" of the code points in the regex's ranges. RemoveEmojisExactly states what it keeps. |
| Tts.RemoveEmojisExactly | js/tts.js:40-50 | removeEmojis deletes exactly the code points in the emoji ranges and keeps every other one, in order. |
| Tts.RemoveStars | js/tts.js:58 | `replaceAll("*", "")`: the result holds exactly the characters of the text other than `*`, and a text without `*` comes back unchanged. |
| Tts.FindClose | js/tts.js:64-67 | The lazy group ends at the first closing marker, provided no line terminator comes before it. Otherwise there is no match. |
| Tts.ReplacePairs | js/tts.js:64-67 | A marker rewrite never lengthens the text and adds no character. |
| Tts.ReplacePairsIdentity | js/tts.js:58-65 | With no marker character present, a rewrite is the identity. |
| Tts.ReplacePairsMatched | js/tts.js:66-67 | A pair of markers around one line of text is replaced by that text, and the rewrite continues after the pair. |
| Tts.ReplacePairsNotAcrossLines | js/tts.js:66-67 | A pair of markers whose text crosses a line break is left in place. |
| Tts.CleanText | js/tts.js:58-67 | The cleaned text has no emoji and no `*`, is never longer than the input, and adds no character. |
| Tts.CleanTextSkipsEmphasis | js/tts.js:58-65 | After `replaceAll("*", "")`, the bold and italic rewrites are the identity. |
| Tts.Speaker.constructor | js/tts.js:5-10 | The page starts with nothing posted, the model not ready, and an idle player. |
| Tts.Speaker.TextToSpeech | js/tts.js:52-72 | With missing or empty text or voice, nothing is posted and undefined is returned. Otherwise exactly one `generate` request with the cleaned text is posted, and that text is returned. The audio player is not touched. |
| Tts.Missing | js/tts.js:53 | `!text`: an argument that is not missing is a present, non-empty string. |
| Tts.Speaker.OnMessageReceived | js/tts.js:12-32 | `ready` resolves the readiness promise and `stream` queues its audio. A non-empty chunk leaves the player exactly as `queueAudio` does: the buffer joins the tail, and an idle player starts a run with the queue head. An empty `stream` chunk throws inside `queueAudio` and leaves the player unchanged. Every other status changes nothing. |
| JsValue.Or | js/character-card.js:59 | `a \|\| b` is one of its two operands, and is truthy iff either operand is. |
| CharacterCard.IndexOf | js/character-card.js:37 | `indexOf` gives the first position of the character, or -1 exactly when it is absent. |
| CharacterCard.ReadLength | js/character-card.js:28-31 | The length read is non-negative iff the first byte is below 0x80, and then it is the big-endian value of the four bytes. |
| CharacterCard.ReadLengthIsInt32 | js/character-card.js:28-31 | The length is the or-ed shifted bytes taken as a signed 32-bit integer. |
| CharacterCard.AddTextSplitsAtFirstNul | js/character-card.js:35-42 | A `tEXt` chunk contributes `keyword → text`, split at the first NUL. A repeated keyword keeps the last value. |
| CharacterCard.AddTextWithoutNul | js/character-card.js:37-38 | A `tEXt` chunk without a NUL contributes nothing. |
| CharacterCard.AddText | js/character-card.js:35-42 | The effect of one `tEXt` chunk on the pairs: split at the first NUL, nothing without one, and an assignment to `__proto__` is ignored. The two lemmas above state its cases. |
| CharacterCard.NegativeLengthStalls | js/character-card.js:27-45 | A length field of FF FF FF F4 reads as -12, the step `12 + length` leaves the offset where it was, and the walk finds no chunk list from there. |
| CharacterCard.ShortNegativeLengthEnds | js/character-card.js:27-45 | A length field of FF FF FF FF reads as -1. Eleven characters before the end, the step `12 + length` lands exactly on the end, so the scan stops, yet `LengthsSane` rejects the file. |
| CharacterCard.ChunksFrom | js/character-card.js:27-47 | The chunks the loop passes from an offset, up to the end of the data or the first IEND, and none when a negative length is met. WalkLaidOut and ExtractRoundTrip state what it recovers. |
| CharacterCard.ExtractTextChunksFromPNG | js/character-card.js:23-50 | The loop, starting at offset 8 and advancing by `12 + length`, returns exactly the pairs of the `tEXt` chunks that the walk passes, in order, up to and including an IEND chunk. |
| CharacterCard.ReadHeaderAt | js/character-card.js:28-33 | At a laid-out chunk, the scan reads its data length and its type. |
| CharacterCard.ReadBodyAt | js/character-card.js:36 | At a laid-out chunk, the scan's substrings are its data and its CRC. |
| CharacterCard.WalkAtIend | js/character-card.js:45-46 | The walk stops after an IEND chunk. |
| CharacterCard.WalkPast | js/character-card.js:45 | After any other chunk, the walk moves on by `12 + length`. |
| CharacterCard.UpToIend | js/character-card.js:46 | The chunks passed are a prefix of the stream, and only the last of them can be IEND. |
| CharacterCard.ExpectedUpToIend | js/character-card.js:46 | Collecting pairs up to the first IEND is the same as collecting them from the whole list. |
| CharacterCard.WalkLaidOut | js/character-card.js:25-47 | Over a stream of well-formed chunks, every length read is non-negative. The walk recovers every chunk up to the first IEND: type, data and CRC. |
| CharacterCard.ExtractRoundTrip | js/character-card.js:23-50 | For any unchecked 8-byte signature followed by a written chunk stream, the scan returns the `tEXt` pairs of the chunks written, up to the first IEND. |
| CharacterCard.IgnoredAfterIend | js/character-card.js:46 | Chunks after the first IEND never contribute. |
| CharacterCard.CardPrompt | js/character-card.js:59 | The prompt is `system_prompt` when truthy, else `description`. It is truthy iff either is. |
| CharacterCard.ValidateCharacterCard | js/character-card.js:80-96 | False for a falsy value or a non-object. |
| CharacterCard.ApplyCharacterCard | js/character-card.js:52-73 | Returns the unwrapped card (the `data` of a `chara_card_v2` envelope) with its name, and a prompt that is truthy iff `system_prompt` or `description` is. |
| CharacterCard.IsV2Envelope | js/character-card.js:54-57 | `spec === 'chara_card_v2' && data`, the same test as in validateCharacterCard (86-89), handleSave (147-150) and js/character-tab.js:59-62. `EnvelopeUnwrapped` shows only an object with both properties passes it. |
| CharacterCard.Unwrap | js/character-card.js:54-57 | The card's own fields: `data` for a v2 envelope, the card otherwise. `EnvelopeUnwrapped` shows the result is the card or one of its property values, and is truthy exactly when the card is. |
| CharacterCard.EnvelopeUnwrapped | js/character-card.js:54-57 | Only an object with `spec` and `data` properties is an envelope. Unwrapping yields the card or one of its property values, and is truthy exactly when the card is. |
| CharacterCard.ValidateMatchesApply | js/character-card.js:52-96 | An object passes validation iff applying it yields a truthy name or prompt. A non-object or null never passes. |
| CharacterCard.ValidateV2UsesInnerCard | js/character-card.js:85-95 | A v2 envelope is judged only by its inner card's name, system_prompt and description. |
| CharacterCard.KindOf | js/character-card.js:127-129 | JSON by type or `.json` name first, then image by type or `.png` name, otherwise unsupported. ReadCard states the outcome for each. |
| CharacterCard.Base64Payload | js/character-card.js:130 | `split(',')[1]`: the text between the first and second comma, or `undefined` with no comma. |
| CharacterCard.ReadCard | js/character-card.js:124-141 | A file that is JSON by type or name yields what `JSON.parse` makes of its text. A PNG whose base64 payload `atob` rejects fails with that error. A PNG whose scan finds no non-empty `chara` pair fails with "No character data found in PNG file". Any other success is a `JSON.parse` result. A file that is neither JSON nor an image (by type) or `.png` (by name) fails with "Unsupported file type". |
| CharacterCard.CharaChunk | js/character-card.js:134-135 | `textChunks.chara` is used exactly when the `chara` pair is present and its text is not empty; the value is that text. |
| CharacterCard.PngCardLoads | js/character-card.js:129-135 | A PNG carrying a card's base64 JSON in a `chara` text chunk before its IEND chunk loads that card. |
| CharacterCard.PngWithoutCardFails | js/character-card.js:129-138 | A PNG whose chunks up to IEND hold no non-empty `chara` pair fails with "No character data found in PNG file". |
| CharacterCard.CharacterCardHandler.constructor | js/character-card.js:7-10 | The handler starts without a conversation history. |
| CharacterCard.CharacterCardHandler.Init | js/character-card.js:17-21 | The handler holds the history's system message. |
| CharacterCard.CharacterCardHandler.OnFileChange | js/character-card.js:99-177 | With no file, the system message is reset to the default. A read error or a falsy card changes nothing. A loaded card replaces the system message only with a truthy prompt of the unwrapped card. |
| CharacterTab.TrimStart | js/character-tab.js:129 | `trimStart` returns a suffix that does not begin with white space, and everything it cuts off in front is white space. |
| CharacterTab.TrimEnd | js/character-tab.js:129 | `trimEnd` returns a prefix that does not end with white space, and everything it cuts off behind is white space. |
| CharacterTab.TrimIsTrimmed | js/character-tab.js:129 | What `trim` leaves has no white space at either end. |
| CharacterTab.TrimKeepsOut | js/character-tab.js:129 | `trim` adds no character. |
| CharacterTab.TrimTrimmed | js/character-tab.js:129 | Trimmed text is unchanged by `trim`, even behind one leading space. |
| CharacterTab.Split | js/character-tab.js:129 | `split(',')` yields at least one piece. |
| CharacterTab.SplitPiecesFree | js/character-tab.js:129 | No piece of a split holds the separator. |
| CharacterTab.JoinSplit | js/character-tab.js:129 | Joining the pieces with the separator gives the text back. |
| CharacterTab.CleanTagsCanonical | js/character-tab.js:129 | Trimming comma-free pieces and dropping the empties leaves non-empty, trimmed, comma-free tags. |
| CharacterTab.ParseTags | js/character-tab.js:129 | `split(',').map(trim).filter(tag => tag)` on the tags field. ParseTagsCanonical and ParseJoinTags state its properties. |
| CharacterTab.ParseTagsCanonical | js/character-tab.js:129 | Every parsed tag is non-empty, trimmed and free of commas. |
| CharacterTab.SplitJoined | js/character-tab.js:74 | Splitting a `", "`-joined list at the commas gives the first tag and each further tag behind its space. |
| CharacterTab.ParseJoinTags | js/character-tab.js:129 | Joining canonical tags with `", "` (as loading does) and parsing the result (as applying does) gives the tags back. |
| CharacterTab.ParseTagsIdempotent | js/character-tab.js:129 | Parsing, joining and parsing again gives the same tags. |
| CharacterTab.CardRecordFields | js/character-tab.js:121-130 | The applied record holds each form field under its key and the parsed tags. It has no `spec`. |
| CharacterTab.LoadedForm | js/character-tab.js:64-75 | The eight values the form shows for the unwrapped card, each `value \|\| ''` and array tags joined with `", "`. |
| CharacterTab.CardTags | js/character-tab.js:250-252 | The tags as the form shows them (also js/character-tab.js:74): a string, or the truthy non-array value itself; a falsy value shows as the empty string. |
| CharacterTab.FormRecord | js/character-tab.js:121-130 | The record built from the form is never taken for a v2 envelope, so it is its own unwrapped card, and its tags read back as the parsed tags joined with ", ". |
| CharacterTab.ModifiedAsWritten | js/character-tab.js:250-263 | `hasModifications` as written: a stored card is present and some field differs from the stored card's own top-level value. |
| CharacterTab.LoadedFormUnmodified | js/character-tab.js:56-75 | Right after loading a card with text fields, the corrected check finds no modification, whether or not the card is a v2 envelope. |
| CharacterTab.AsWrittenUnmodifiedWithoutEnvelope | js/character-tab.js:250-263 | For a non-v2 card with text fields, the check as written agrees with the corrected one, and is false right after loading. |
| CharacterTab.AsWrittenAgreesWithoutEnvelope | js/character-tab.js:250-263 | Against a stored value that is not a v2 envelope, the check as written equals the unwrapping one. |
| CharacterTab.EnvelopeReportedModified | js/character-tab.js:56-75 | Any freshly loaded v2 envelope whose inner card has a non-empty string name, and whose envelope has no truthy name, is reported modified by the check as written. |
| CharacterTab.V2CardReportedModified | js/character-tab.js:254-263 | A freshly loaded v2 card is reported modified by the check as written, but not by the corrected one. |
| CharacterTab.RecordModifiedIff | js/character-tab.js:239-263 | Against a record built from the form, the form differs exactly in a non-canonical tags field, or in an empty prompt beside a description. |
| CharacterTab.AppliedFormModifiedIff | js/character-tab.js:236-264 | Right after apply, a modification is reported exactly when the tags field is not in `", "`-joined canonical form, or the prompt is empty while the description is not. On the applied record the check as written and the unwrapping one agree. |
| CharacterTab.CharacterTabHandler.constructor | js/character-tab.js:7-10 | The tab starts with no card and an empty form. |
| CharacterTab.CharacterTabHandler.Init | js/character-tab.js:16-19 | The handler holds the history's system message, and nothing else changes. |
| CharacterTab.CharacterTabHandler.HasModifications | js/character-tab.js:236-263 | Never true with no card loaded. It compares the form with the stored card itself, envelope and all; for a stored value that is not a v2 envelope this equals the unwrapping comparison `Modified`. |
| CharacterTab.CharacterTabHandler.ClearCharacterFields | js/character-tab.js:178-209 | Empties all eight fields, resets the system message to "You are a helpful assistant.", and forgets the card. |
| CharacterTab.CharacterTabHandler.UpdateFromCharacterCard | js/character-tab.js:50-81 | A falsy card acts exactly as clear. Otherwise the card itself is stored and the form shows its unwrapped fields (`system_prompt \|\| description \|\| ''`, array tags joined by `", "`). A card that is not a v2 envelope and has text fields then shows no modification. A v2 envelope is checked against the envelope, and one whose inner card has a non-empty name while the envelope has none is reported modified straight away. |
| CharacterTab.CharacterTabHandler.ApplyCharacterChanges | js/character-tab.js:119-154 | The form becomes the stored record with parsed tags. The system message changes only for a non-empty prompt. The record has no `spec`, so `hasModifications` as written reports a modification right after exactly in the cases AppliedFormModifiedIff names. |
| CharacterTab.CharacterTabHandler.OnSystemPromptInput | js/character-tab.js:36-43 | The typed prompt becomes the field's value. The system message takes it only when it is non-empty. |

## Left out

- Text segmentation (`splitTextSmart`), phonemization, the tokenizer and the
  neural model are foreign code. They are function parameters, and nothing is
  assumed about their results beyond their types.
- Browser APIs (Web Audio, Cache Storage, `fetch`, `FileReader`, `atob`,
  `JSON.parse`) are abstract:
  - the cache and the network are small classes;
  - `atob` and `JSON.parse` are functions that may fail;
  - the audio context's state is a field.
- Sample and style values are opaque four-byte floats. Only lengths, offsets and
  order are reasoned about.
- Logging, jQuery DOM writes, avatar display, the apply feedback timer and the
  `onCharacterLoaded` callback are not modelled. The clamp warning is a field of
  the selection result.
- Model loading and device detection in the worker are not modelled. The device is
  a constructor argument, and `progress` and load-failure messages are not
  produced.
- Async interleaving is limited to the explicit event methods. After `stop`, a
  suspended run of the play loop can coexist with a new one. Only "every operation
  except `stop` preserves one run while playing" is proved, not global no-overlap.
- Concurrent loads of the same voice are not coalesced by the code, and the model
  does not add coalescing.
- JSON numbers are integers. Card values that are floating-point numbers are not
  modelled.
- `speed` is passed to the model unchanged. The default voice `"af"` of `generate`
  is not modelled, and voices are always passed explicitly.
- CharacterCard.ExtractTextChunksFromPNG: requires that every length the scan reads
  has a first byte below 0x80. With a first byte of 0x80 or more, JavaScript's
  signed `<<` makes the length negative. A length of -12 leaves the offset where it
  was, and the loop never terminates (see "## Findings"). A length below -12 steps
  the offset backwards. A length of -11 to -1 moves it forward to a point inside the
  chunk just read. The requirement therefore also excludes some files on which the
  scan does end, such as one whose last length field is FF FF FF FF eleven
  characters before the end (`ShortNegativeLengthEnds`); what the scan collects
  from such files is not modelled. Section 5.3 of the PNG Specification caps
  lengths at 2^31 - 1. `ReadCard` and `OnFileChange` inherit this requirement for
  PNG files.
- Tts.Speaker.TextToSpeech: arguments are strings or absent. A non-string truthy
  argument, on which `replaceAll` would throw, is not modelled.

## Findings

| source | as written | input that shows it | evidently intended | confidence | as-written member | corrected member |
|---|---|---|---|---|---|---|
| js/character-tab.js:250-263 | `hasModifications` compares the form with the top-level properties of `currentCharacterData`. For a `chara_card_v2` card that is the envelope, while `updateFromCharacterCard` filled the form from its `data`. | Load `{spec: "chara_card_v2", data: {name: "Ann"}}`, then check without editing: the name field "Ann" differs from the envelope's missing name, so the check reports a modification. | Compare against the unwrapped card, so a freshly loaded card is never reported modified. | high on reading the code; not executed | CharacterTab.V2CardReportedModified | CharacterTab.LoadedFormUnmodified |
| js/character-card.js:27-45 | The chunk length is built with the signed `<<`, so a first byte of 0x80 or more gives a negative length. Nothing checks it before `offset += 12 + length`. | A PNG with a non-IEND chunk whose length bytes are FF FF FF F4: the length is -12, the offset does not move, and the `while` loop reads that chunk forever, so the upload handler hangs. | Only lengths of at most 2^31 - 1 are walked, so every step moves forward past the chunk and the scan ends. | high on reading the code; not executed | CharacterCard.NegativeLengthStalls | CharacterCard.ExtractTextChunksFromPNG |
