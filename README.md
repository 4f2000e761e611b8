# Bing Speech and LUIS client core, in Dafny

This project models the client side of the Bing Speech WebSocket protocol in a
Unity3D sample, together with the small LUIS (Language Understanding) query
queue and intent/entity matcher that consume its recognised phrases.

- `WavData` (`wav_data.dfy`) models `WavDataUtility`.
  - It encodes 16-bit PCM samples as RIFF/WAVE bytes, with or without the 44-byte header. It decodes such bytes back.
  - The encoder's byte stream is a local sequence that each step extends. The decoder's sample buffer is an `array` that a loop fills.
  - The byte-exact header layout, the header-less suffix and the decode/encode round trip are proved.
- `BingSpeech` (`bing_speech.dfy`) models `BingSpeechService`.
  - Pure parts:
    - the `Name: Value\r\n` header block built by a `StringBuilder` loop;
    - the binary audio frame (big-endian header length, ASCII header, WAV bytes);
    - the endpoint URL and `CheckHeader`.
  - The session is the class `BingSpeechService`, whose fields the handlers update. Its invariant `Valid` states two things:
    - the timers run only while the socket is started, and stay within their 180 s and 600 s ceilings;
    - the microphone is attached only once speech.config has been sent.
- `SpeechMessages` (`speech_messages.dfy`) models `SpeechMessageHandler.OnData`.
  - It scans the `^Path:([A-z\.]+)` and `^X-RequestId:([A-z0-9]+)` lines and takes the body from the first `{`.
  - It routes to at most one event, or to the exception the handler throws.
- `Luis` (`luis_app.dfy`) models `LUISApp` as a class:
  - the FIFO queue with its substring dedupe;
  - the per-frame dispatch under a concurrency limit and a transaction delay;
  - the request counter and the HTTP 429 throttle;
  - the endpoint check in `Start`.
- `LuisResults` (`luis_results.dfy`) models `LUISResultHandler`. It chooses at most one `Response.Invoke` for a LUIS result, by case-insensitive first-match searches over actions, entities and targets.
- `Bytes` (`bytes.dfy`) holds the .NET byte views the code relies on:
  - `BitConverter` little-endian integers;
  - C# 32-bit wrap-around and truncating division;
  - `Encoding.ASCII`.
- `Results` (`results.dfy`) holds `Option` and `Result`.

Behaviours of the code that the model reproduces as they are:

- Character classes:
  - `[A-z]` spans the characters 65 to 122, so it admits `[ \ ] ^ _` and the backquote.
  - The header lines this client writes have a space after the colon, which the inbound patterns do not accept. The header writer and the inbound scanner are therefore not inverses.
- A message without `{` makes `Substring(IndexOf("{"))` throw before the empty-field check runs.
- Size fields and format checks:
  - The size fields count `samples`, not `samples * channels`. They match the output only for mono data.
  - The decoder's format-code and bit-depth checks are `Debug.AssertFormat` calls, which only log. Decoding goes on whatever those fields hold, so a relabelled bit depth still decodes.
- Session flags:
  - `isSpeechConfigSent` is never cleared. Reopening the socket attaches the microphone once more instead of resending the configuration.
  - `ConfigureEndpoint` changes the socket URI but not the `languageMode` field.
- Socket events:
  - A socket close only detaches the microphone; the timers keep running.
  - A socket error only stops the timers; the microphone stays attached.
- Request ids and audio:
  - A request id is minted lazily on the first audio send, and again on `turn.end` or `NewTurn`. Nothing else mints one.
  - `SendAudio` does not check that speech.config has been sent.

Time is counted in integer ticks of a millisecond (`Luis.TicksPerSecond`). A fresh GUID, the ISO 8601 clock reading, the gazed object and the decoded JSON fields are parameters.

## Model

| member | source | states |
|---|---|---|
| Bytes.Wrap32 | Assets/BingSpeech/WavDataUtility.cs:32 | C# unchecked int arithmetic: the result is the 32-bit int congruent to the input modulo 2^32, and equals the input whenever it already fits |
| Bytes.DivTrunc | Assets/BingSpeech/WavDataUtility.cs:216 | C# integer division: non-negative and floor-like for a non-negative dividend, truncated toward zero for a negative one |
| Bytes.ReadLE16 | Assets/BingSpeech/WavDataUtility.cs:86 | reading back the two little-endian bytes of a UInt16 gives the value |
| Bytes.ReadBE16 | Assets/BingSpeech/BingSpeechService.cs:254-258 | reading back the reversed (big-endian) bytes of a UInt16 gives the value |
| Bytes.ReadInt16LE | Assets/BingSpeech/WavDataUtility.cs:147 | reading back the two bytes of an Int16 gives the value |
| Bytes.ReadLE32 | Assets/BingSpeech/WavDataUtility.cs:64 | reading back the four bytes of GetBytes(int) gives the value wrapped to 32 bits |
| Bytes.Ascii | Assets/BingSpeech/WavDataUtility.cs:59 | Encoding.ASCII.GetBytes: one byte per character, the code of every ASCII character and '?' (0x3F) for every other character |
| Bytes.AsciiString | Assets/BingSpeech/WavDataUtility.cs:175 | Encoding.ASCII.GetString: one character per byte, the byte's own character below 0x80 and '?' for every byte from 0x80 on |
| WavData.BytesPerSample | Assets/BingSpeech/WavDataUtility.cs:159-161 | the bytes per sample are the bit depth divided by 8, rounded down |
| WavData.WavFileHeader | Assets/BingSpeech/WavDataUtility.cs:54-73 | the RIFF descriptor is 12 bytes: "RIFF", fileSize - 8 as a little-endian int, "WAVE" |
| WavData.WavFileFormat | Assets/BingSpeech/WavDataUtility.cs:75-105 | the fmt chunk is 24 bytes: "fmt ", 16, format 1, channels, sample rate, byte rate = rate·channels·bytes per sample, block align = channels·bytes per sample, bit depth |
| WavData.DataChunkHeader | Assets/BingSpeech/WavDataUtility.cs:112-121 | the data chunk header is 8 bytes: "data" and samples·2 as a little-endian int |
| WavData.Pcm16Sample | Assets/BingSpeech/WavDataUtility.cs:146-149 | the i-th Int16 read from the encoded samples is the i-th sample, so samples are written in order with nothing interleaved |
| WavData.Pcm16Append | Assets/BingSpeech/WavDataUtility.cs:146-149 | encoding a concatenation of sample runs gives the concatenation of their encodings |
| WavData.ConvertAudioClipDataToInt16ByteArray | Assets/BingSpeech/WavDataUtility.cs:139-157 | the loop writes exactly the little-endian Int16 encoding of every sample, in input order |
| WavData.WriteWavData | Assets/BingSpeech/WavDataUtility.cs:107-130 | the data id and size are written only with the header, followed by the encoded samples; the length is 2 per sample, plus 8 with the header |
| WavData.FromAudioClipData | Assets/BingSpeech/WavDataUtility.cs:26-52 | the stream is the descriptor, the fmt chunk and the data chunk with the header, or the samples alone without it; a channel count that overflows UInt16 fails |
| WavData.WavFileLength | Assets/BingSpeech/WavDataUtility.cs:28-32 | the output length is 2 bytes per input sample, plus 44 with the header |
| WavData.FileSizeMatchesOnlyForMono | Assets/BingSpeech/WavDataUtility.cs:28-47 | the output length equals the asserted fileSize if and only if the data holds exactly `samples` values |
| WavData.FormatLayout | Assets/BingSpeech/WavDataUtility.cs:54-105 | in the encoded file, the RIFF descriptor and every fmt field read back at offsets 0 to 35 |
| WavData.DataLayout | Assets/BingSpeech/WavDataUtility.cs:107-124 | in the encoded file, "data" is at offset 36, samples·2 at offset 40, and the encoded samples from offset 44 on |
| WavData.WavHeaderLayout | Assets/BingSpeech/WavDataUtility.cs:34-42 | the 44-byte header reads back at its fixed offsets, followed by the samples |
| WavData.HeaderlessIsSuffix | Assets/BingSpeech/WavDataUtility.cs:34-42 | header-less output is header-ful output without its first 44 bytes |
| WavData.StreamedChunksConcatenate | Assets/BingSpeech/WavDataUtility.cs:107-124 | a first chunk with the header followed by later chunks without it is the header-ful encoding of all the chunks' samples, but with RIFF and data size fields that count only the first chunk |
| WavData.IsRiffBytes | Assets/BingSpeech/WavDataUtility.cs:173-176 | the ASCII string of the first four bytes is "RIFF" if and only if those bytes are the ASCII of "RIFF" |
| WavData.SamplesAt | Assets/BingSpeech/WavDataUtility.cs:224-230 | n values, the i-th being the Int16 at offset + 2i |
| WavData.ConvertedSamples | Assets/BingSpeech/WavDataUtility.cs:205-235 | without a header, the whole buffer gives length/2 samples from offset 0; with one, the sample count is the truncated half of the size read at the offset, the samples start four bytes later, and a non-negative count whose reads fit in the buffer always succeeds |
| WavData.Convert16BitByteArrayToAudioClipData | Assets/BingSpeech/WavDataUtility.cs:205-235 | the loop fills the sample array with the values ConvertedSamples describes, or fails as the reads past the buffer or the negative length would |
| WavData.DecodeWav | Assets/BingSpeech/WavDataUtility.cs:165-203 | fewer than four bytes throw; a buffer not starting with "RIFF" gives 1 channel, 16000 Hz and length/2 samples from offset 0; a RIFF buffer gives the channels at offset 22 and the rate at offset 24 |
| WavData.ToAudioClip | Assets/BingSpeech/WavDataUtility.cs:165-203 | the step-by-step decoder returns what DecodeWav describes |
| WavData.EncodedFormatAsserted | Assets/BingSpeech/WavDataUtility.cs:183-191 | the encoder's own header passes the format-code and bit-depth checks the decoder logs |
| WavData.DecodeCanonicalHeader | Assets/BingSpeech/WavDataUtility.cs:193-198 | with a 16-byte fmt chunk, the data size is read at offset 40 and size/2 samples from offset 44 |
| WavData.EncodedSamples | Assets/BingSpeech/WavDataUtility.cs:220-230 | the samples read from offset 44 of the encoded file are the input samples |
| WavData.RoundTrip | Assets/BingSpeech/WavDataUtility.cs:165-203 | decoding the encoder's output with header gives back the channel count, the sample rate and every sample |
| WavData.DecodeIgnoresFormatFields | Assets/BingSpeech/WavDataUtility.cs:183-191 | two buffers that differ only in the format code and bit depth decode alike |
| WavData.BitDepthNotEnforced | Assets/BingSpeech/WavDataUtility.cs:189-191 | a header relabelled with any bit depth still decodes to the original samples |
| SpeechMessages.Run | Assets/BingSpeech/Handlers/SpeechMessageHandler.cs:20 | the greedy `+` run: a stretch of class characters at i that is followed by the end or a character outside the class |
| SpeechMessages.FirstMatch | Assets/BingSpeech/Handlers/SpeechMessageHandler.cs:20 | the leftmost line start where the key is followed by a class character, or none |
| SpeechMessages.Scan | Assets/BingSpeech/Handlers/SpeechMessageHandler.cs:20-29 | the capture is empty if and only if no line matches; otherwise it is the whole greedy class run after the key on the leftmost matching line |
| SpeechMessages.IndexOfBrace | Assets/BingSpeech/Handlers/SpeechMessageHandler.cs:36 | the first '{', or -1 exactly when there is none |
| SpeechMessages.Body | Assets/BingSpeech/Handlers/SpeechMessageHandler.cs:36 | the suffix of the text that starts at its first '{' |
| SpeechMessages.Route | Assets/BingSpeech/Handlers/SpeechMessageHandler.cs:38-62 | an event exactly when path, id and body are non-empty and the path is handled; the event carries the id; a parsed path whose body does not parse throws |
| SpeechMessages.OnData | Assets/BingSpeech/Handlers/SpeechMessageHandler.cs:12-63 | no '{' throws; a parsed path with an unparsable body throws; otherwise one event exactly when the path is handled and the request id is non-empty, carrying that id |
| SpeechMessages.OnDataEvents | Assets/BingSpeech/Handlers/SpeechMessageHandler.cs:44-59 | hypothesis gives its text with isPhrase false, phrase gives DisplayText with isPhrase iff status is "Success", start and end give the offset, turn.start an empty tag, turn.end only the id |
| SpeechMessages.RunIsMaximal | Assets/BingSpeech/Handlers/SpeechMessageHandler.cs:20 | a run of class characters followed by the end or a non-class character is the whole capture |
| SpeechMessages.ScanAtStart | Assets/BingSpeech/Handlers/SpeechMessageHandler.cs:20 | a match on the first line is the one captured |
| SpeechMessages.ScanLeadingLine | Assets/BingSpeech/Handlers/SpeechMessageHandler.cs:26-29 | a first line of key and class characters yields exactly those characters |
| SpeechMessages.PathClassAdmitsPunctuation | Assets/BingSpeech/Handlers/SpeechMessageHandler.cs:20 | `A-z` admits '_' and '^' in a captured path |
| BingSpeech.HeaderLinesLength | Assets/BingSpeech/BingSpeechService.cs:197-203 | each header line adds its key, its value and four characters |
| BingSpeech.HeaderLinesAppend | Assets/BingSpeech/BingSpeechService.cs:197-203 | the lines of two header lists are the lines of each in order |
| BingSpeech.GenerateHeader | Assets/BingSpeech/BingSpeechService.cs:197-206 | the header is `Key: Value\r\n` for every header in argument order, then one `\r\n` |
| BingSpeech.GenerateMessage | Assets/BingSpeech/BingSpeechService.cs:192-195 | the message is the header block followed by the body |
| BingSpeech.HeaderBlockEndsWithBlankLine | Assets/BingSpeech/BingSpeechService.cs:202-204 | a non-empty header block ends with CR LF CR LF |
| BingSpeech.AudioHeaderText | Assets/BingSpeech/BingSpeechService.cs:244-249 | the audio header lines are Path: audio, X-RequestId, X-Timestamp, Content-Type: audio/x-wav, in that order |
| BingSpeech.AudioHeaderLength | Assets/BingSpeech/BingSpeechService.cs:244-253 | the audio header is 72 characters plus the request id and the timestamp |
| BingSpeech.SpacedPathLineDoesNotMatch | Assets/BingSpeech/BingSpeechService.cs:201 | a `Path: value` line as written here is not matched by the inbound `^Path:[A-z.]` pattern |
| BingSpeech.AudioMessage | Assets/BingSpeech/BingSpeechService.cs:251-261 | a header over 65535 bytes throws; otherwise the frame is the big-endian header length, the ASCII header, and the unchanged data |
| BingSpeech.SplitAudioMessage | Assets/BingSpeech/BingSpeechService.cs:253-261 | the receiver's split: the prefix, a header as long as the prefix says, then the rest |
| BingSpeech.AudioMessageRoundTrip | Assets/BingSpeech/BingSpeechService.cs:251-261 | splitting a frame gives back the ASCII header and the data |
| BingSpeech.AudioFrameFits | Assets/BingSpeech/BingSpeechService.cs:253-254 | with a GUID id and a round-trip timestamp the header length conversion never throws |
| BingSpeech.MintedIdIsScanned | Assets/BingSpeech/BingSpeechService.cs:160-163 | a minted 32-digit id on an `X-RequestId:` line is captured whole by the inbound pattern |
| BingSpeech.CheckHeader | Assets/BingSpeech/BingSpeechService.cs:269-281 | fewer than four bytes throw; otherwise true exactly when the bytes start with "RIFF" |
| BingSpeech.EncodedFilePassesCheckHeader | Assets/BingSpeech/BingSpeechService.cs:269-281 | the encoder's output with header passes CheckHeader |
| BingSpeech.LanguageName | Assets/BingSpeech/LanguageMode.cs:5-35 | every language name is two letters, '_', two letters |
| BingSpeech.ReplaceChar | Assets/BingSpeech/BingSpeechService.cs:106 | each occurrence of one character is replaced and everything else kept |
| BingSpeech.LanguageNameInjective | Assets/BingSpeech/LanguageMode.cs:5-35 | no two language modes have the same name |
| BingSpeech.EndpointNamesLanguage | Assets/BingSpeech/BingSpeechService.cs:106-107 | the endpoint is the fixed URL followed by the language tag with '-' for '_'; the tag gives back the name of exactly one language, the one configured |
| BingSpeech.BingSpeechService.constructor | Assets/BingSpeech/BingSpeechService.cs:51-66 | the field initialisers and Start: the endpoint for the language, no request id, nothing started, sent or attached |
| BingSpeech.BingSpeechService.ConfigureEndpoint | Assets/BingSpeech/BingSpeechService.cs:99-109 | only the socket URI changes, to the endpoint for the language |
| BingSpeech.BingSpeechService.StartTimers | Assets/BingSpeech/BingSpeechService.cs:283-287 | the socket is started and both timers are 0 |
| BingSpeech.BingSpeechService.CancelTimers | Assets/BingSpeech/BingSpeechService.cs:289-293 | the socket is stopped and both timers are 0 |
| BingSpeech.BingSpeechService.ResetIdleTimer | Assets/BingSpeech/BingSpeechService.cs:295-297 | only the idle timer changes, to 0 |
| BingSpeech.BingSpeechService.SubscribeMic | Assets/BingSpeech/BingSpeechService.cs:87-91 | one more microphone attachment |
| BingSpeech.BingSpeechService.UnsubscribeMic | Assets/BingSpeech/BingSpeechService.cs:93-97 | one attachment fewer, if any |
| BingSpeech.BingSpeechService.Update | Assets/BingSpeech/BingSpeechService.cs:68-79 | nothing happens unless started; both timers advance by delta; the session closes exactly when idle > 180 s or total > 600 s; the invariant is kept |
| BingSpeech.BingSpeechService.Close | Assets/BingSpeech/BingSpeechService.cs:319-323 | timers stopped and zeroed, one microphone attachment removed |
| BingSpeech.BingSpeechService.SendSpeechConfig | Assets/BingSpeech/BingSpeechService.cs:165-180 | the speech.config message goes out exactly when it was not sent before; otherwise the microphone is attached |
| BingSpeech.BingSpeechService.SendSpeechConfigCallback | Assets/BingSpeech/BingSpeechService.cs:182-190 | a successful send sets the flag for good and attaches the microphone; a failed one changes nothing |
| BingSpeech.BingSpeechService.NewTurn | Assets/BingSpeech/BingSpeechService.cs:234-237 | the request id is replaced by the fresh one |
| BingSpeech.BingSpeechService.SendAudio | Assets/BingSpeech/BingSpeechService.cs:239-267 | an id is minted only when there is none, so sends in one turn share it; the frame is the audio framing of the ordered header and the data |
| BingSpeech.BingSpeechService.OnWebSocketOpen | Assets/BingSpeech/BingSpeechService.cs:329-333 | timers started at 0; speech.config sent exactly when not sent before, else the microphone is attached again |
| BingSpeech.BingSpeechService.OnWebSocketClose | Assets/BingSpeech/BingSpeechService.cs:335-339 | only one microphone attachment is removed; the timers keep their values |
| BingSpeech.BingSpeechService.OnWebSocketError | Assets/BingSpeech/BingSpeechService.cs:374-378 | timers stopped and zeroed; the microphone stays attached |
| BingSpeech.BingSpeechService.QueuePhrase | Assets/BingSpeech/BingSpeechService.cs:356-365 | a phrase without '{' or with an unparsable body throws; otherwise a non-empty DisplayText is offered to the LUIS queue under its dedupe rule |
| BingSpeech.BingSpeechService.OnWebSocketMessage | Assets/BingSpeech/BingSpeechService.cs:341-372 | every message zeroes the idle timer and nothing else; an empty text stops there; turn.end renews the request id; a phrase reaches the LUIS queue, or throws as QueuePhrase does; no other LUIS field changes |
| Luis.Contains | Assets/UnityLUIS/LUISApp.cs:71 | string.Contains: true exactly when the substring occurs somewhere |
| Luis.AnyContained | Assets/UnityLUIS/LUISApp.cs:71 | true exactly when some queued string occurs in the query |
| Luis.QueueHasNoDuplicates | Assets/UnityLUIS/LUISApp.cs:70-76 | a queue built by the dedupe holds no query twice |
| Luis.AppendKeepsInvariant | Assets/UnityLUIS/LUISApp.cs:65-77 | appending keeps the queue invariant if and only if the query is non-empty and contains no queued string |
| Luis.LuisApp.constructor | Assets/UnityLUIS/LUISApp.cs:12-25 | the inspector fields, an empty queue, no requests, timer 0, enabled |
| Luis.LuisApp.Start | Assets/UnityLUIS/LUISApp.cs:32-51 | started exactly when the endpoint ends in "q="; an empty or other endpoint disables; a one-character one throws; started primes the timer with the delay |
| Luis.LuisApp.AddQueryToQueue | Assets/UnityLUIS/LUISApp.cs:65-77 | an empty query or one containing a queued string leaves the queue; any other is appended at the tail; the invariant is kept |
| Luis.LuisApp.Query | Assets/UnityLUIS/LUISApp.cs:80-92 | a non-empty query counts one more request and requests endpoint + query; an empty one changes nothing |
| Luis.LuisApp.Update | Assets/UnityLUIS/LUISApp.cs:53-63 | the timer advances; the head is dispatched exactly when fewer requests than allowed are in flight, the queue is non-empty and the delay has passed; then it is removed and the timer reset |
| Luis.LuisApp.GetQueryCompleted | Assets/UnityLUIS/LUISApp.cs:91-117 | every completion uncounts its request once; a 429 sets the limit to 1 and the delay to 1.2 s; a parsed body is handed on |
| LuisResults.UpperAscii | Assets/UnityLUIS/Handlers/LUISResultHandler.cs:25 | lower-case ASCII letters fold to upper case, everything else is kept |
| LuisResults.EqualsIgnoreCaseIsEquivalence | Assets/UnityLUIS/Handlers/LUISResultHandler.cs:25 | the case-insensitive comparison is reflexive, symmetric and transitive |
| LuisResults.FirstIndex | Assets/UnityLUIS/Handlers/LUISResultHandler.cs:45-50 | a foreach with break: the first element satisfying the test, and none exactly when no element does |
| LuisResults.GetEntityFromLUISResult | Assets/UnityLUIS/Handlers/LUISResultHandler.cs:116-125 | the first entity whose type or resolution values equal the type ignoring case; none exactly when no entity does |
| LuisResults.FindAction | Assets/UnityLUIS/Handlers/LUISResultHandler.cs:43-55 | the first action whose intent equals the top scoring intent ignoring case; none exactly when no action does |
| LuisResults.PerformAction | Assets/UnityLUIS/Handlers/LUISResultHandler.cs:110-114 | an invocation with the target and entity exactly when the Response is set |
| LuisResults.OnLUISQueryResult | Assets/UnityLUIS/Handlers/LUISResultHandler.cs:37-107 | null targets or actions, or no matching action, invoke nothing; an invocation uses the first matching action's response and the property entity, and needs a target entity |
| LuisResults.ThisTargetGoesToGaze | Assets/UnityLUIS/Handlers/LUISResultHandler.cs:72-96 | a "this" entity sends the action only to the gazed object, and without GlobalScope only when it is a registered target |
| LuisResults.NamedTargetIsFirstMatch | Assets/UnityLUIS/Handlers/LUISResultHandler.cs:98-106 | any other entity sends the action to the first target answering to its text or resolution values |
| LuisResults.EverySearchSucceeds | Assets/UnityLUIS/Handlers/LUISResultHandler.cs:37-107 | when every search finds its match and the Response is set, exactly one invocation happens |
| LuisResults.ThisSynonymsIgnoreCase | Assets/UnityLUIS/Handlers/LUISResultHandler.cs:20 | "This", "IT" and "Object" name the gazed object and "these" does not |

## Left out

- Network, files and the token:
  - the WebSocket transport: connect, `SendText`, `SendBytes`, `DisconnectWebSocket`, attaching and detaching handlers;
  - the token request, `RequestTokenAndConnect`, `SetHeadersAndConnect` and `Connect`;
  - `SendStreamingAssetsFile` and `LoadStreamingAssetFileBytes`.
  These are network and file I/O. Frames and messages are returned instead of sent.
- `FromAudioClip` (both overloads) and the float↔Int16 conversion. `AudioClip.GetData` and floating point are outside the model: samples are already-quantised Int16 values, and the decoder returns Int16 values rather than dividing by 32767.
- `WriteBytesToMemoryStream` and the running `count` totals. The stream is a byte sequence whose length the contracts state.
- JSON: `JsonUtility` parsing (`ParseSpeech*` and the LUIS body) is a parameter that gives the decoded fields or rejects the body. `SpeechConfig` and its `ToString` body are passed in as text; Assets/BingSpeech/Models/SpeechConfig.cs is not part of this model.
- `GetId` and `GetXTimestamp` are parameters. A GUID in "N" format is taken to be 32 lower-case hexadecimal digits.
- Unity engine inputs:
  - `Time.deltaTime` is an integer tick count;
  - `FindCurrentGazedTarget` (a physics raycast) is the `gazed` parameter;
  - GameObjects and the inspector-bound UnityEvents are opaque ids.
- Event plumbing: the static delegates `OnRecordedData`, `OnRecordingStopped` and `OnLUISQueryResult`, `RaiseOnReceivedData`, `OnData` handlers, `OnEnable`/`OnDisable`, `ReceivedWavBytes` and `GetQueryComplete`. Microphone subscription is a counter, and OnData returns the event it would raise.
- Logging and configuration: `Debug.Log*` output, the AutoConnect and `isAttached` warnings in `ConfigureEndpoint`, and `RunSampleQueries`.
- `BingSpeech.CheckHeader` is modelled but not called from `SendAudio`, because that call is commented out in the source.
- Luis.LuisApp.Query: the query is not passed through `Uri.EscapeDataString`; the request is the endpoint followed by the raw query.
- Luis.LuisApp.GetQueryCompleted: `requestsCount` is an unbounded count that requires a request in flight. The source's `uint` would wrap below zero, but every completion follows a `Query` that counted it.
- LuisResults.UpperAscii: `OrdinalIgnoreCase` folds non-ASCII letters too; only the ASCII letters are folded here.
- WavData.DecodeWav: the result is the arguments handed to `AudioClip.Create` and `SetData`. Unity's `AudioClip.Create` throws for a clip with no samples, no channels or a non-positive frequency, and that rejection is not modelled. `ToAudioClip` and `RoundTrip` likewise return `Success` for such clips.
- WavData.DecodeWav: for a RIFF buffer its contract states the channels and rate read. `RoundTrip` and `DecodeCanonicalHeader` state the samples for the encoder's own layout; samples after a non-16-byte fmt chunk are described only by `ConvertedSamples`.
