/**
 * SpeechMessageHandler.OnData: extracts the path, the request id and the
 * JSON body from an inbound text message and raises at most one event.
 *
 * The two header patterns, `^Path:([A-z\.]+)` and `^X-RequestId:([A-z0-9]+)`
 * with multiline anchoring, are written out as line scanners. `^` matches
 * at the start of the text and after every '\n'; the class `A-z` spans the
 * characters 'A' (65) to 'z' (122), which includes `[ \ ] ^ _` and the
 * backquote. JSON decoding is a parameter: `json` gives the fields the
 * decoder reads from a body.
 */
module SpeechMessages {
  import opened Results

  const PathKey: string := "Path:"
  const RequestIdKey: string := "X-RequestId:"

  datatype CharClass = PathChars | RequestIdChars

  /** `[A-z\.]` for paths, `[A-z0-9]` for request ids. */
  predicate InClass(c: char, k: CharClass) {
    ('A' <= c <= 'z')
    || (k == PathChars && c == '.')
    || (k == RequestIdChars && '0' <= c <= '9')
  }

  /** Position p is where `^` matches in multiline mode. */
  predicate LineStart(text: string, p: int) {
    p == 0 || (0 < p <= |text| && text[p - 1] == '\n')
  }

  /** At p a line begins with key followed by at least one class character. */
  predicate MatchesAt(text: string, p: int, key: string, k: CharClass) {
    0 <= p && LineStart(text, p) && p + |key| < |text|
    && text[p..p + |key|] == key && InClass(text[p + |key|], k)
  }

  /** The greedy `+` run: the longest stretch of class characters at i. */
  function Run(text: string, i: nat, k: CharClass): (r: string)
    requires i <= |text|
    ensures i + |r| <= |text| && r == text[i..i + |r|]
    ensures forall j :: 0 <= j < |r| ==> InClass(r[j], k)
    ensures i + |r| == |text| || !InClass(text[i + |r|], k)
    decreases |text| - i
  {
    if i < |text| && InClass(text[i], k) then [text[i]] + Run(text, i + 1, k) else ""
  }

  /** The leftmost position at or after p where the pattern matches. */
  function FirstMatch(text: string, key: string, k: CharClass, p: nat): (r: Option<nat>)
    requires p <= |text|
    ensures r.Some? ==> p <= r.value <= |text| && MatchesAt(text, r.value, key, k)
    ensures r.Some? ==> forall q :: p <= q < r.value ==> !MatchesAt(text, q, key, k)
    ensures r.None? ==> forall q :: p <= q <= |text| ==> !MatchesAt(text, q, key, k)
    decreases |text| - p
  {
    if MatchesAt(text, p, key, k) then Some(p)
    else if p == |text| then None
    else FirstMatch(text, key, k, p + 1)
  }

  /** r is the whole class run after the key on the leftmost matching line,
      which starts at p. */
  predicate CapturedAt(text: string, key: string, k: CharClass, p: int, r: string) {
    && 0 <= p <= |text| && MatchesAt(text, p, key, k)
    && (forall q :: 0 <= q < p ==> !MatchesAt(text, q, key, k))
    && p + |key| + |r| <= |text| && text[p + |key|..p + |key| + |r|] == r
    && (p + |key| + |r| == |text| || !InClass(text[p + |key| + |r|], k))
  }

  /** The first capture group of the leftmost match, or "" without a match. */
  function Scan(text: string, key: string, k: CharClass): (r: string)
    ensures r == "" <==> forall q :: 0 <= q <= |text| ==> !MatchesAt(text, q, key, k)
    ensures forall j :: 0 <= j < |r| ==> InClass(r[j], k)
    ensures r != "" ==> exists p :: CapturedAt(text, key, k, p, r)
  {
    match FirstMatch(text, key, k, 0)
    case None => ""
    case Some(p) =>
      var r := Run(text, p + |key|, k);
      assert CapturedAt(text, key, k, p, r);
      r
  }

  function ScanPath(text: string): string {
    Scan(text, PathKey, PathChars)
  }

  function ScanRequestId(text: string): string {
    Scan(text, RequestIdKey, RequestIdChars)
  }

  /** string.IndexOf("{"): the first '{', or -1. */
  function IndexOfBrace(text: string): (r: int)
    ensures -1 <= r < |text|
    ensures r == -1 <==> '{' !in text
    ensures r >= 0 ==> text[r] == '{' && '{' !in text[..r]
  {
    if text == [] then -1
    else if text[0] == '{' then 0
    else
      var rest := IndexOfBrace(text[1..]);
      assert text == [text[0]] + text[1..];
      if rest == -1 then -1
      else
        assert text[..rest + 1] == [text[0]] + text[1..][..rest];
        rest + 1
  }

  /** The fields JsonUtility fills from a speech.* body. */
  datatype SpeechJson = SpeechJson(text: string, displayText: string, recognitionStatus: string, offset: int)

  /** The event arguments OnData raises. */
  datatype SpeechEvent =
    | SpeechMessage(requestId: string, text: string, isPhrase: bool)
    | SpeechStart(requestId: string, offset: int)
    | SpeechEnd(requestId: string, offset: int)
    | TurnStart(requestId: string, serviceTag: string)
    | TurnEnd(requestId: string)

  datatype HandlerError =
    /** text.Substring(-1) threw: the message has no '{'. */
    | MissingBody
    /** JsonUtility rejected the body, the parse helper gave null and the
        field access threw. */
    | MalformedBody

  /** The paths whose body is parsed. */
  const ParsedPaths: set<string> := {"speech.hypothesis", "speech.phrase", "speech.startDetected", "speech.endDetected"}

  const HandledPaths: set<string> := ParsedPaths + {"turn.start", "turn.end"}

  /** The body: the text from its first '{'. */
  function Body(text: string): (r: string)
    requires '{' in text
    ensures 0 < |r| <= |text| && r[0] == '{' && '{' !in text[..|text| - |r|]
    ensures text == text[..|text| - |r|] + r
  {
    var start := IndexOfBrace(text);
    assert text == text[..start] + text[start..];
    text[start..]
  }

  /** The if-chain on the path, once the header fields and the body are
      known. */
  function Route(path: string, requestId: string, body: string, json: string -> Option<SpeechJson>)
    : (r: Result<Option<SpeechEvent>, HandlerError>)
    ensures r.Failure? ==> r.error == MalformedBody
    ensures r.Failure? <==> path in ParsedPaths && requestId != "" && body != "" && json(body).None?
    ensures r.Success? && r.value.Some? ==> path in HandledPaths && r.value.value.requestId == requestId != ""
    ensures r.Success? ==> (r.value.Some? <==> path in HandledPaths && requestId != "" && body != "")
  {
    if path == "" || requestId == "" || body == "" then Success(None)
    else if path in ParsedPaths && json(body).None? then Failure(MalformedBody)
    else if path == "speech.hypothesis" then Success(Some(SpeechMessage(requestId, json(body).value.text, false)))
    else if path == "speech.phrase" then
      var phrase := json(body).value;
      Success(Some(SpeechMessage(requestId, phrase.displayText, phrase.recognitionStatus == "Success")))
    else if path == "speech.startDetected" then Success(Some(SpeechStart(requestId, json(body).value.offset)))
    else if path == "speech.endDetected" then Success(Some(SpeechEnd(requestId, json(body).value.offset)))
    else if path == "turn.start" then Success(Some(TurnStart(requestId, "")))
    else if path == "turn.end" then Success(Some(TurnEnd(requestId)))
    else Success(None)
  }

  /** The event raised for a message, none when the header is incomplete or
      the path unhandled, or the exception thrown when there is no body or
      the body does not parse. */
  function OnData(text: string, json: string -> Option<SpeechJson>): (r: Result<Option<SpeechEvent>, HandlerError>)
    ensures r == Failure(MissingBody) <==> '{' !in text
    ensures r == Failure(MalformedBody) <==>
      '{' in text && ScanPath(text) in ParsedPaths && ScanRequestId(text) != "" && json(Body(text)).None?
    ensures r.Success? && r.value.Some? ==>
      ScanPath(text) in HandledPaths && r.value.value.requestId == ScanRequestId(text) != ""
    ensures r.Success? ==> (r.value.Some? <==> ScanPath(text) in HandledPaths && ScanRequestId(text) != "")
  {
    if '{' !in text then Failure(MissingBody)
    else Route(ScanPath(text), ScanRequestId(text), Body(text), json)
  }

  /** What each handled path raises: the message text and whether it is a
      recognised phrase, the offsets, an empty service tag. */
  lemma OnDataEvents(text: string, json: string -> Option<SpeechJson>)
    requires '{' in text && ScanRequestId(text) != ""
    requires ScanPath(text) in ParsedPaths ==> json(Body(text)).Some?
    ensures var id := ScanRequestId(text);
      var r := OnData(text, json);
      && (ScanPath(text) == "speech.hypothesis" ==>
           r == Success(Some(SpeechMessage(id, json(Body(text)).value.text, false))))
      && (ScanPath(text) == "speech.phrase" ==>
           r == Success(Some(SpeechMessage(id, json(Body(text)).value.displayText,
                                           json(Body(text)).value.recognitionStatus == "Success"))))
      && (ScanPath(text) == "speech.startDetected" ==> r == Success(Some(SpeechStart(id, json(Body(text)).value.offset))))
      && (ScanPath(text) == "speech.endDetected" ==> r == Success(Some(SpeechEnd(id, json(Body(text)).value.offset))))
      && (ScanPath(text) == "turn.start" ==> r == Success(Some(TurnStart(id, ""))))
      && (ScanPath(text) == "turn.end" ==> r == Success(Some(TurnEnd(id))))
  {
    assert OnData(text, json) == Route(ScanPath(text), ScanRequestId(text), Body(text), json);
  }

  /** The run at i is exactly v when v is all class characters and is
      followed by the end of the text or a character outside the class. */
  lemma RunIsMaximal(text: string, i: nat, v: string, k: CharClass)
    requires i + |v| <= |text| && text[i..i + |v|] == v
    requires forall j :: 0 <= j < |v| ==> InClass(v[j], k)
    requires i + |v| == |text| || !InClass(text[i + |v|], k)
    ensures Run(text, i, k) == v
  {
  }

  /** A match at the start of the text is the leftmost one. */
  lemma ScanAtStart(text: string, key: string, k: CharClass)
    requires MatchesAt(text, 0, key, k)
    ensures Scan(text, key, k) == Run(text, |key|, k)
  {
    assert FirstMatch(text, key, k, 0) == Some(0);
  }

  /** A text whose first line is the key followed by a run of class
      characters captures exactly that run. */
  lemma ScanLeadingLine(key: string, v: string, rest: string, k: CharClass)
    requires |v| > 0 && forall j :: 0 <= j < |v| ==> InClass(v[j], k)
    requires rest == [] || !InClass(rest[0], k)
    ensures Scan(key + v + rest, key, k) == v
  {
    var text := key + v + rest;
    assert text[0..|key|] == key;
    assert text[|key|..|key| + |v|] == v;
    assert rest != [] ==> text[|key| + |v|] == rest[0];
    assert MatchesAt(text, 0, key, k);
    ScanAtStart(text, key, k);
    RunIsMaximal(text, |key|, v, k);
  }

  /** `A-z` admits '_' and '^': a path written with them is captured whole. */
  lemma PathClassAdmitsPunctuation()
    ensures ScanPath("Path:a_b^c\r\n") == "a_b^c"
  {
    ScanLeadingLine(PathKey, "a_b^c", "\r\n", PathChars);
    assert PathKey + "a_b^c" + "\r\n" == "Path:a_b^c\r\n";
  }
}
