/**
 * BingSpeechService: the client side of the Bing Speech WebSocket protocol.
 * Text messages are a block of `Name: Value` header lines ended by a blank
 * line, followed by a body; audio frames are a two-byte big-endian header
 * length, the ASCII header and the WAV bytes. A session sends speech.config
 * once, mints a request id lazily, renews it on turn.end, and closes after
 * 180 s without an inbound message or 600 s in all.
 *
 * Seconds are integer ticks of a millisecond. A fresh GUID and the ISO 8601
 * clock reading are parameters; bytes handed to the socket are returned.
 */
module BingSpeech {
  import opened Results
  import opened Bytes
  import opened WavData
  import opened SpeechMessages
  import opened Luis

  datatype KeyValue = KeyValue(key: string, value: string)

  const CarriageReturn: string := "\r\n"

  /** String.Format("{0}: {1}", Key, Value) and the line end. */
  function HeaderLine(h: KeyValue): string {
    h.key + ": " + h.value + CarriageReturn
  }

  /** The header lines in argument order. */
  function HeaderLines(headers: seq<KeyValue>): string {
    if headers == [] then ""
    else HeaderLines(headers[..|headers| - 1]) + HeaderLine(headers[|headers| - 1])
  }

  lemma {:induction false} HeaderLinesLength(headers: seq<KeyValue>)
    ensures |HeaderLines(headers)| == 4 * |headers| + KeysAndValuesLength(headers)
  {
    if headers != [] {
      HeaderLinesLength(headers[..|headers| - 1]);
    }
  }

  function KeysAndValuesLength(headers: seq<KeyValue>): nat {
    if headers == [] then 0
    else KeysAndValuesLength(headers[..|headers| - 1]) + |headers[|headers| - 1].key| + |headers[|headers| - 1].value|
  }

  lemma {:induction false} HeaderLinesAppend(a: seq<KeyValue>, b: seq<KeyValue>)
    ensures HeaderLines(a + b) == HeaderLines(a) + HeaderLines(b)
    decreases |b|
  {
    if b == [] {
      assert a + b == a;
    } else {
      var b' := b[..|b| - 1];
      assert (a + b)[..|a + b| - 1] == a + b';
      assert (a + b)[|a + b| - 1] == b[|b| - 1];
      HeaderLinesAppend(a, b');
      calc {
        HeaderLines(a + b);
        HeaderLines(a + b') + HeaderLine(b[|b| - 1]);
        HeaderLines(a) + HeaderLines(b') + HeaderLine(b[|b| - 1]);
        HeaderLines(a) + HeaderLines(b);
      }
    }
  }

  /** GenerateHeader: appends each line to a StringBuilder, then the blank line. */
  method GenerateHeader(headers: seq<KeyValue>) returns (header: string)
    ensures header == HeaderLines(headers) + CarriageReturn
  {
    var sb := "";
    var i := 0;
    while i < |headers|
      invariant 0 <= i <= |headers|
      invariant sb == HeaderLines(headers[..i])
    {
      assert headers[..i + 1][..i] == headers[..i];
      sb := sb + HeaderLine(headers[i]);
      i := i + 1;
    }
    assert headers[..|headers|] == headers;
    header := sb + CarriageReturn;
  }

  /** GenerateMessage: the header block followed by the body. */
  method GenerateMessage(body: string, headers: seq<KeyValue>) returns (message: string)
    ensures message == HeaderLines(headers) + CarriageReturn + body
  {
    var header := GenerateHeader(headers);
    message := header + body;
  }

  /** A non-empty header block ends with a blank line: CR LF CR LF. */
  lemma HeaderBlockEndsWithBlankLine(headers: seq<KeyValue>)
    requires |headers| > 0
    ensures var block := HeaderLines(headers) + CarriageReturn;
      |block| >= 4 && block[|block| - 4..] == "\r\n\r\n"
  {
    var block := HeaderLines(headers) + CarriageReturn;
    var last := HeaderLine(headers[|headers| - 1]);
    assert HeaderLines(headers) == HeaderLines(headers[..|headers| - 1]) + last;
    assert block[|block| - 4..] == last[|last| - 2..] + CarriageReturn;
  }

  /** The headers of the audio message, in the order they are sent. */
  function AudioHeaders(requestId: string, timestamp: string): seq<KeyValue> {
    [KeyValue("Path", "audio"), KeyValue("X-RequestId", requestId),
     KeyValue("X-Timestamp", timestamp), KeyValue("Content-Type", "audio/x-wav")]
  }

  /** The headers of the speech.config message, in the order they are sent. */
  function SpeechConfigHeaders(timestamp: string): seq<KeyValue> {
    [KeyValue("Path", "speech.config"), KeyValue("Content-Type", "application/json; charset=utf-8"),
     KeyValue("X-Timestamp", timestamp)]
  }

  /** The audio header block is the Path, X-RequestId, X-Timestamp and
      Content-Type lines, in that order, then the blank line. */
  lemma AudioHeaderText(requestId: string, timestamp: string)
    ensures HeaderLines(AudioHeaders(requestId, timestamp)) + CarriageReturn
      == HeaderLine(KeyValue("Path", "audio")) + HeaderLine(KeyValue("X-RequestId", requestId))
         + HeaderLine(KeyValue("X-Timestamp", timestamp)) + HeaderLine(KeyValue("Content-Type", "audio/x-wav"))
         + CarriageReturn
  {
    var hs := AudioHeaders(requestId, timestamp);
    assert hs[..1][..0] == [] && hs[..2][..1] == hs[..1] && hs[..3][..2] == hs[..2] && hs[..3] == hs[..|hs| - 1];
    assert HeaderLines(hs[..1]) == HeaderLine(hs[0]);
    assert HeaderLines(hs[..2]) == HeaderLine(hs[0]) + HeaderLine(hs[1]);
    assert HeaderLines(hs[..3]) == HeaderLine(hs[0]) + HeaderLine(hs[1]) + HeaderLine(hs[2]);
  }

  /** The audio header block's length: 72 characters besides the request
      id and the timestamp. */
  lemma AudioHeaderLength(requestId: string, timestamp: string)
    ensures |HeaderLines(AudioHeaders(requestId, timestamp)) + CarriageReturn| == 72 + |requestId| + |timestamp|
  {
    AudioHeaderText(requestId, timestamp);
  }

  /** The server's pattern for the path line, `^Path:` then a class
      character, does not match a line this client writes: the space after
      the colon is outside `[A-z.]`. */
  lemma SpacedPathLineDoesNotMatch(value: string, rest: string)
    ensures !MatchesAt(HeaderLine(KeyValue("Path", value)) + rest, 0, PathKey, PathChars)
  {
    var text := HeaderLine(KeyValue("Path", value)) + rest;
    assert text[5] == ' ';
  }

  // Audio frames

  datatype FrameError =
    /** Convert.ToUInt16 threw: the header is longer than 65535 bytes. */
    | HeaderTooLong

  /** The header size as two big-endian bytes, the ASCII header, the data. */
  function AudioMessage(header: string, data: seq<byte>): (r: Result<seq<byte>, FrameError>)
    ensures r.Failure? <==> |header| > 0xFFFF
    ensures r.Success? ==>
      && |r.value| == 2 + |header| + |data|
      && ReadU16BE(r.value, 0) == |header|
      && r.value[2..2 + |header|] == Ascii(header)
      && r.value[2 + |header|..] == data
  {
    if |header| > 0xFFFF then Failure(HeaderTooLong)
    else
      ReadBE16(|header|);
      var frame := BE16(|header|) + Ascii(header) + data;
      assert frame[..2] == BE16(|header|);
      Success(frame)
  }

  /** How the receiver takes a frame apart: the length prefix, then that
      many header bytes, then the data. */
  function SplitAudioMessage(frame: seq<byte>): (r: Option<(seq<byte>, seq<byte>)>)
    ensures r.Some? ==> |frame| >= 2 && frame == frame[..2] + r.value.0 + r.value.1
    ensures r.Some? ==> |r.value.0| == ReadU16BE(frame, 0)
  {
    if |frame| < 2 then None
    else
      var n := ReadU16BE(frame, 0);
      if 2 + n > |frame| then None
      else
        assert frame == frame[..2] + frame[2..2 + n] + frame[2 + n..];
        Some((frame[2..2 + n], frame[2 + n..]))
  }

  /** Taking a frame apart gives back the ASCII header and the data. */
  lemma AudioMessageRoundTrip(header: string, data: seq<byte>)
    requires |header| <= 0xFFFF
    ensures SplitAudioMessage(AudioMessage(header, data).value) == Some((Ascii(header), data))
  {
  }

  /** GetId's "N" format: 32 lower-case hexadecimal digits. */
  predicate IsRequestId(id: string) {
    |id| == 32 && forall i :: 0 <= i < |id| ==> ('0' <= id[i] <= '9' || 'a' <= id[i] <= 'f')
  }

  /** With a GUID request id and a round-trip ("o") timestamp the header
      is far below the 65535-byte limit, so framing never throws. */
  lemma AudioFrameFits(requestId: string, timestamp: string, data: seq<byte>)
    requires IsRequestId(requestId) && |timestamp| == 28
    ensures AudioMessage(HeaderLines(AudioHeaders(requestId, timestamp)) + CarriageReturn, data).Success?
  {
    AudioHeaderLength(requestId, timestamp);
  }

  /** A request id this client mints is read back whole by the
      `^X-RequestId:([A-z0-9]+)` pattern on the server's echo line. */
  lemma MintedIdIsScanned(id: string, rest: string)
    requires IsRequestId(id)
    requires rest == [] || !InClass(rest[0], RequestIdChars)
    ensures ScanRequestId(RequestIdKey + id + rest) == id
  {
    ScanLeadingLine(RequestIdKey, id, rest, RequestIdChars);
  }

  /** CheckHeader: whether the first four bytes spell "RIFF"; Array.Copy
      throws on fewer than four bytes. */
  function CheckHeader(data: seq<byte>): (r: Result<bool, DecodeError>)
    ensures r.Failure? <==> |data| < 4
    ensures r.Success? ==> (r.value <==> data[..4] == Ascii("RIFF"))
  {
    if |data| < 4 then Failure(ReadOutOfRange)
    else
      IsRiffBytes(data);
      Success(IsRiff(data))
  }

  /** The encoder's output with a WAV header passes CheckHeader. */
  lemma EncodedFilePassesCheckHeader(data: seq<int16>, channels: uint16, frequency: int)
    requires ValidChannels(channels)
    ensures CheckHeader(WavFile(data, |data|, channels, frequency, true).value) == Success(true)
  {
    WavHeaderLayout(data, |data|, channels, frequency);
    IsRiffBytes(WavFile(data, |data|, channels, frequency, true).value);
  }

  // Endpoint

  datatype LanguageMode =
    | ar_EG | ca_ES | da_DK | de_DE | en_AU | en_CA | en_GB | en_IN | en_NZ | en_US
    | es_ES | es_MX | fi_FI | fr_CA | fr_FR | hi_IN | it_IT | ja_JP | ko_KR | nb_NO
    | nl_NL | pl_PL | pt_BR | pt_PT | ru_RU | sv_SE | zh_CN | zh_HK | zh_TW

  /** LanguageMode.ToString(). */
  function LanguageName(l: LanguageMode): (r: string)
    ensures |r| == 5 && r[2] == '_'
    ensures forall i :: 0 <= i < 5 && i != 2 ==> ('a' <= r[i] <= 'z' || 'A' <= r[i] <= 'Z')
  {
    match l
    case ar_EG => "ar_EG" case ca_ES => "ca_ES" case da_DK => "da_DK" case de_DE => "de_DE"
    case en_AU => "en_AU" case en_CA => "en_CA" case en_GB => "en_GB" case en_IN => "en_IN"
    case en_NZ => "en_NZ" case en_US => "en_US" case es_ES => "es_ES" case es_MX => "es_MX"
    case fi_FI => "fi_FI" case fr_CA => "fr_CA" case fr_FR => "fr_FR" case hi_IN => "hi_IN"
    case it_IT => "it_IT" case ja_JP => "ja_JP" case ko_KR => "ko_KR" case nb_NO => "nb_NO"
    case nl_NL => "nl_NL" case pl_PL => "pl_PL" case pt_BR => "pt_BR" case pt_PT => "pt_PT"
    case ru_RU => "ru_RU" case sv_SE => "sv_SE" case zh_CN => "zh_CN" case zh_HK => "zh_HK"
    case zh_TW => "zh_TW"
  }

  /** string.Replace(from, to) for single characters. */
  function ReplaceChar(s: string, from: char, to: char): (r: string)
    ensures |r| == |s|
    ensures forall i :: 0 <= i < |s| ==> r[i] == (if s[i] == from then to else s[i])
  {
    seq(|s|, i requires 0 <= i < |s| => if s[i] == from then to else s[i])
  }

  const EndpointPrefix: string :=
    "wss://speech.platform.bing.com/speech/recognition/interactive/cognitiveservices/v1?format=simple&language="

  function Endpoint(language: LanguageMode): string {
    EndpointPrefix + ReplaceChar(LanguageName(language), '_', '-')
  }

  /** No two language modes share a name. */
  lemma LanguageNameInjective(a: LanguageMode, b: LanguageMode)
    ensures LanguageName(a) == LanguageName(b) ==> a == b
  {
  }

  /** The endpoint ends in the language tag with '-' for '_', and the tag
      gives the language back: no other language has that name. */
  lemma EndpointNamesLanguage(language: LanguageMode)
    ensures var uri := Endpoint(language);
      var tag := uri[|EndpointPrefix|..];
      && uri[..|EndpointPrefix|] == EndpointPrefix
      && |tag| == 5 && tag[2] == '-' && '_' !in tag
      && ReplaceChar(tag, '-', '_') == LanguageName(language)
      && forall l :: LanguageName(l) == ReplaceChar(tag, '-', '_') ==> l == language
  {
    var uri := Endpoint(language);
    var tag := uri[|EndpointPrefix|..];
    assert tag == ReplaceChar(LanguageName(language), '_', '-');
    forall l | LanguageName(l) == LanguageName(language)
      ensures l == language
    {
      LanguageNameInjective(l, language);
    }
  }

  // The session

  const MaxIdleDuration: nat := 180 * TicksPerSecond
  const MaxDuration: nat := 600 * TicksPerSecond

  /** What handling an inbound message led to. */
  datatype MessageOutcome =
    /** An empty text: nothing further happens. */
    | Ignored
    /** The text is raised to the OnData handlers. */
    | Forwarded
    /** A speech.phrase for LUIS without a '{' or with a body JsonUtility
        rejects threw before the handlers ran. */
    | Threw

  class BingSpeechService {
    var languageMode: LanguageMode
    var webSocketUri: string
    var requestId: string
    var isSocketStarted: bool
    var isSpeechConfigSent: bool
    var timer: nat
    var idleTimer: nat
    /** How many times ReceivedWavBytes is attached to the recorder. */
    var micSubscriptions: nat
    var luisApp: LuisApp?

    /** Timers run only while the socket is started and stay within their
        ceilings; the microphone is attached only once speech.config is
        sent. */
    ghost predicate Valid()
      reads this, luisApp
    {
      && idleTimer <= timer
      && (!isSocketStarted ==> timer == 0 && idleTimer == 0)
      && timer <= MaxDuration && idleTimer <= MaxIdleDuration
      && (micSubscriptions > 0 ==> isSpeechConfigSent)
      && (luisApp != null ==> luisApp.Valid())
    }

    /** The field initialisers and Start: the endpoint for the configured
        language and the LUIS component found beside this one. */
    constructor (languageMode: LanguageMode, luisApp: LuisApp?)
      requires luisApp != null ==> luisApp.Valid()
      ensures Valid()
      ensures this.languageMode == languageMode && webSocketUri == Endpoint(languageMode)
      ensures this.luisApp == luisApp
      ensures requestId == "" && !isSocketStarted && !isSpeechConfigSent
      ensures timer == 0 && idleTimer == 0 && micSubscriptions == 0
    {
      this.languageMode := languageMode;
      webSocketUri := Endpoint(languageMode);
      requestId := "";
      isSocketStarted := false;
      isSpeechConfigSent := false;
      timer := 0;
      idleTimer := 0;
      micSubscriptions := 0;
      this.luisApp := luisApp;
    }

    /** Points the socket at the endpoint for a language; the languageMode
        field itself is left as it was. */
    method ConfigureEndpoint(language: LanguageMode)
      modifies this
      ensures webSocketUri == Endpoint(language)
      ensures unchanged(`languageMode, `requestId, `isSocketStarted, `isSpeechConfigSent, `timer, `idleTimer,
                        `micSubscriptions, `luisApp)
    {
      webSocketUri := Endpoint(language);
    }

    method StartTimers()
      modifies this
      ensures isSocketStarted && timer == 0 && idleTimer == 0
      ensures unchanged(`languageMode, `webSocketUri, `requestId, `isSpeechConfigSent, `micSubscriptions, `luisApp)
    {
      isSocketStarted := true;
      timer := 0;
      idleTimer := 0;
    }

    method CancelTimers()
      modifies this
      ensures !isSocketStarted && timer == 0 && idleTimer == 0
      ensures unchanged(`languageMode, `webSocketUri, `requestId, `isSpeechConfigSent, `micSubscriptions, `luisApp)
    {
      isSocketStarted := false;
      timer := 0;
      idleTimer := 0;
    }

    method ResetIdleTimer()
      modifies this
      ensures idleTimer == 0
      ensures unchanged(`languageMode, `webSocketUri, `requestId, `isSocketStarted, `isSpeechConfigSent, `timer,
                        `micSubscriptions, `luisApp)
    {
      idleTimer := 0;
    }

    /** Delegate `+=`: attaching twice delivers the data twice. */
    method SubscribeMic()
      modifies this
      ensures micSubscriptions == old(micSubscriptions) + 1
      ensures unchanged(`languageMode, `webSocketUri, `requestId, `isSocketStarted, `isSpeechConfigSent, `timer,
                        `idleTimer, `luisApp)
    {
      micSubscriptions := micSubscriptions + 1;
    }

    /** Delegate `-=`: removes one attachment, if any. */
    method UnsubscribeMic()
      modifies this
      ensures micSubscriptions == if old(micSubscriptions) > 0 then old(micSubscriptions) - 1 else 0
      ensures unchanged(`languageMode, `webSocketUri, `requestId, `isSocketStarted, `isSpeechConfigSent, `timer,
                        `idleTimer, `luisApp)
    {
      if micSubscriptions > 0 {
        micSubscriptions := micSubscriptions - 1;
      }
    }

    /** One frame: both timers advance while the socket is started, and the
        session closes once either passes its ceiling. */
    method Update(delta: nat) returns (closed: bool)
      requires Valid()
      modifies this
      ensures Valid()
      ensures closed <==> (old(isSocketStarted)
        && (old(idleTimer) + delta > MaxIdleDuration || old(timer) + delta > MaxDuration))
      ensures closed ==> (!isSocketStarted && timer == 0 && idleTimer == 0
        && micSubscriptions == if old(micSubscriptions) > 0 then old(micSubscriptions) - 1 else 0)
      ensures !closed && old(isSocketStarted) ==>
        isSocketStarted && timer == old(timer) + delta && idleTimer == old(idleTimer) + delta
        && micSubscriptions == old(micSubscriptions)
      ensures !old(isSocketStarted) ==> unchanged(this)
      ensures unchanged(`languageMode, `webSocketUri, `requestId, `isSpeechConfigSent, `luisApp)
    {
      if !isSocketStarted {
        return false;
      }
      idleTimer := idleTimer + delta;
      timer := timer + delta;
      if idleTimer > MaxIdleDuration || timer > MaxDuration {
        Close();
        return true;
      }
      return false;
    }

    /** Stops the timers and detaches the microphone; the socket is then
        disconnected. */
    method Close()
      modifies this
      ensures !isSocketStarted && timer == 0 && idleTimer == 0
      ensures micSubscriptions == if old(micSubscriptions) > 0 then old(micSubscriptions) - 1 else 0
      ensures unchanged(`languageMode, `webSocketUri, `requestId, `isSpeechConfigSent, `luisApp)
    {
      CancelTimers();
      UnsubscribeMic();
    }

    /** Sends speech.config once per component: when it was already sent the
        microphone is attached again instead. */
    method SendSpeechConfig(configBody: string, timestamp: string) returns (message: Option<string>)
      requires Valid()
      modifies this
      ensures Valid()
      ensures message.Some? <==> !old(isSpeechConfigSent)
      ensures message.Some? ==>
        message.value == HeaderLines(SpeechConfigHeaders(timestamp)) + CarriageReturn + configBody
        && micSubscriptions == old(micSubscriptions)
      ensures message.None? ==> micSubscriptions == old(micSubscriptions) + 1
      ensures unchanged(`languageMode, `webSocketUri, `requestId, `isSocketStarted, `isSpeechConfigSent, `timer,
                        `idleTimer, `luisApp)
    {
      if isSpeechConfigSent {
        SubscribeMic();
        return None;
      }
      var text := GenerateMessage(configBody, SpeechConfigHeaders(timestamp));
      message := Some(text);
    }

    /** The send completed: on success the flag is set for good and the
        microphone is attached. */
    method SendSpeechConfigCallback(isSent: bool)
      requires Valid()
      modifies this
      ensures Valid()
      ensures isSpeechConfigSent == (old(isSpeechConfigSent) || isSent)
      ensures micSubscriptions == if isSent then old(micSubscriptions) + 1 else old(micSubscriptions)
      ensures unchanged(`languageMode, `webSocketUri, `requestId, `isSocketStarted, `timer, `idleTimer, `luisApp)
    {
      if !isSent {
        return;
      }
      isSpeechConfigSent := true;
      SubscribeMic();
    }

    /** A new request id for the next turn. */
    method NewTurn(freshId: string)
      modifies this
      ensures requestId == freshId
      ensures unchanged(`languageMode, `webSocketUri, `isSocketStarted, `isSpeechConfigSent, `timer, `idleTimer,
                        `micSubscriptions, `luisApp)
    {
      requestId := freshId;
    }

    /** Mints a request id only when there is none, so every send of a turn
        carries the same id, and frames the audio. */
    method SendAudio(data: seq<byte>, freshId: string, timestamp: string) returns (frame: Result<seq<byte>, FrameError>)
      modifies this
      ensures requestId == if old(requestId) == "" then freshId else old(requestId)
      ensures frame == AudioMessage(HeaderLines(AudioHeaders(requestId, timestamp)) + CarriageReturn, data)
      ensures unchanged(`languageMode, `webSocketUri, `isSocketStarted, `isSpeechConfigSent, `timer, `idleTimer,
                        `micSubscriptions, `luisApp)
    {
      if requestId == "" {
        requestId := freshId;
      }
      var header := GenerateHeader(AudioHeaders(requestId, timestamp));
      frame := AudioMessage(header, data);
    }

    /** The socket opened: the timers start and speech.config goes out
        unless it was sent before. */
    method OnWebSocketOpen(configBody: string, timestamp: string) returns (message: Option<string>)
      requires Valid()
      modifies this
      ensures Valid()
      ensures isSocketStarted && timer == 0 && idleTimer == 0
      ensures message.Some? <==> !old(isSpeechConfigSent)
      ensures message.Some? ==> message.value == HeaderLines(SpeechConfigHeaders(timestamp)) + CarriageReturn + configBody
      ensures micSubscriptions == if old(isSpeechConfigSent) then old(micSubscriptions) + 1 else old(micSubscriptions)
      ensures unchanged(`languageMode, `webSocketUri, `requestId, `isSpeechConfigSent, `luisApp)
    {
      StartTimers();
      message := SendSpeechConfig(configBody, timestamp);
    }

    /** The socket closed: only the microphone is detached; the timers keep
        running until Update or an error stops them. */
    method OnWebSocketClose()
      requires Valid()
      modifies this
      ensures Valid()
      ensures micSubscriptions == if old(micSubscriptions) > 0 then old(micSubscriptions) - 1 else 0
      ensures unchanged(`languageMode, `webSocketUri, `requestId, `isSocketStarted, `isSpeechConfigSent, `timer,
                        `idleTimer, `luisApp)
    {
      UnsubscribeMic();
    }

    /** A socket error stops the timers; the microphone stays attached. */
    method OnWebSocketError()
      requires Valid()
      modifies this
      ensures Valid()
      ensures !isSocketStarted && timer == 0 && idleTimer == 0
      ensures unchanged(`languageMode, `webSocketUri, `requestId, `isSpeechConfigSent, `micSubscriptions, `luisApp)
    {
      CancelTimers();
    }

    /** The speech.phrase hand-off: the body's DisplayText, when not
        empty, is offered to the LUIS queue. Substring(-1) throws without a
        '{', and reading the field of a body that did not parse throws. */
    method QueuePhrase(text: string, json: string -> Option<SpeechJson>) returns (threw: bool)
      requires luisApp != null && luisApp.Valid()
      modifies luisApp
      ensures luisApp.Valid()
      ensures threw <==> '{' !in text || json(Body(text)).None?
      ensures luisApp.queue == if threw then old(luisApp.queue) else
        var query := json(Body(text)).value.displayText;
        if query == "" || AnyContained(old(luisApp.queue), query) then old(luisApp.queue)
        else old(luisApp.queue) + [query]
      ensures unchanged(luisApp`endpoint, luisApp`enabled, luisApp`maxConcurrentRequests, luisApp`requestsCount,
                        luisApp`transactionDelay, luisApp`timer)
    {
      if '{' !in text {
        return true;
      }
      var phrase := json(Body(text));
      if phrase.None? {
        return true;
      }
      if phrase.value.displayText != "" {
        luisApp.AddQueryToQueue(phrase.value.displayText);
      }
      return false;
    }

    /** An inbound message: renews the idle timer, starts a new turn on
        turn.end, and hands a recognised phrase to LUIS. */
    method OnWebSocketMessage(text: string, json: string -> Option<SpeechJson>, freshId: string)
      returns (outcome: MessageOutcome)
      requires Valid()
      modifies this, luisApp
      ensures Valid()
      ensures idleTimer == 0
      ensures outcome == Ignored <==> text == ""
      ensures outcome == Threw <==>
        text != "" && ScanPath(text) == "speech.phrase" && luisApp != null
        && ('{' !in text || json(Body(text)).None?)
      ensures requestId == if text != "" && ScanPath(text) == "turn.end" then freshId else old(requestId)
      ensures unchanged(`languageMode, `webSocketUri, `isSocketStarted, `isSpeechConfigSent, `timer,
                        `micSubscriptions, `luisApp)
      ensures luisApp != null ==>
        luisApp.queue == if outcome != Forwarded || ScanPath(text) != "speech.phrase" then old(luisApp.queue) else
          var query := json(Body(text)).value.displayText;
          if query == "" || AnyContained(old(luisApp.queue), query) then old(luisApp.queue)
          else old(luisApp.queue) + [query]
      ensures luisApp != null ==>
        unchanged(luisApp`endpoint, luisApp`enabled, luisApp`maxConcurrentRequests, luisApp`requestsCount,
                  luisApp`transactionDelay, luisApp`timer)
    {
      ResetIdleTimer();
      if text == "" {
        return Ignored;
      }
      var path := ScanPath(text);
      if path == "turn.end" {
        NewTurn(freshId);
      } else if path == "speech.phrase" && luisApp != null {
        var threw := QueuePhrase(text, json);
        if threw {
          return Threw;
        }
      }
      return Forwarded;
    }
  }
}
