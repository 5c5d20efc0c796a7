/**
 * The backend's `POST /generate` handler (`generate_lecture` in
 * backend/main.py) around the slide loop: the API-key check, duration to
 * slide count, the extraction of the JSON object from the language model's
 * reply, and the error responses.
 *
 * The language model (a function from the prompt's values to its reply),
 * `json.loads`, the lecture id (built from the clock and a random UUID), the
 * availability of the speech engine and which `tts.save` calls raise are
 * inputs.
 */
module LectureGeneration {
  import opened Wrappers
  import opened Text
  import opened LectureAssembly

  // ------------------------------------------------------------ slide count

  /** The table of slide counts per duration. */
  const SlideCounts: map<string, nat> := map["short" := 3, "medium" := 5, "long" := 7]

  /** `slide_counts.get(request.duration, 3)`. */
  function SlideCount(duration: string): (n: nat)
    ensures n == 5 <==> duration == "medium"
    ensures n == 7 <==> duration == "long"
    ensures n == 3 <==> duration != "medium" && duration != "long"
  {
    if duration in SlideCounts then SlideCounts[duration] else 3
  }

  // ----------------------------------------------------------- JSON extraction

  /** The index of the first `c` in `s`. */
  function FirstIndex(s: string, c: char): (r: Option<nat>)
    ensures r.None? <==> c !in s
    ensures r.Some? ==> r.value < |s| && s[r.value] == c && forall k :: 0 <= k < r.value ==> s[k] != c
  {
    if s == [] then None
    else if s[0] == c then Some(0)
    else match FirstIndex(s[1..], c)
      case None => None
      case Some(i) => Some(i + 1)
  }

  /** The index of the last `c` in `s`. */
  function LastIndex(s: string, c: char): (r: Option<nat>)
    ensures r.None? <==> c !in s
    ensures r.Some? ==> r.value < |s| && s[r.value] == c && forall k :: r.value < k < |s| ==> s[k] != c
  {
    if s == [] then None
    else if s[|s| - 1] == c then Some(|s| - 1)
    else
      var r := LastIndex(s[..|s| - 1], c);
      assert c !in s[..|s| - 1] ==> c !in s by { assert s == s[..|s| - 1] + [s[|s| - 1]]; }
      r
  }

  /** The braces the JSON object is delimited by, U+007B and U+007D. */
  const OpenBrace: char := 0x7B as char
  const CloseBrace: char := 0x7D as char

  /**
   * The regular-expression search for an opening brace, anything, and a
   * closing brace: the greedy match starts at the first opening brace and
   * backtracks to the last closing one; when no closing brace follows the
   * first opening one, no later start can succeed either, so the search
   * finds nothing.
   */
  function JsonSpan(text: string): (r: Option<string>)
    ensures r.Some? <==> exists i, j :: 0 <= i < j < |text| && text[i] == OpenBrace && text[j] == CloseBrace
    ensures r.Some? ==>
      exists i, j :: (&& 0 <= i < j < |text| && text[i] == OpenBrace && text[j] == CloseBrace
                      && r.value == text[i..j + 1]
                      && (forall k :: 0 <= k < i ==> text[k] != OpenBrace)
                      && (forall k :: j < k < |text| ==> text[k] != CloseBrace))
  {
    match (FirstIndex(text, OpenBrace), LastIndex(text, CloseBrace))
    case (Some(i), Some(j)) => if i < j then Some(text[i..j + 1]) else None
    case (None, _) => None
    case (_, None) => None
  }

  // ---------------------------------------------------------------- errors

  /** An `HTTPException` raised by the handler. */
  datatype HttpError = HttpError(status: int, detail: string)

  const MissingKeyDetail := "GEMINI_API_KEY not set. Set it with: $env:GEMINI_API_KEY='your-key'"
  const QuotaDetail := "Gemini API quota exceeded. Try: 1) Wait a few minutes and retry, 2) Check your API key at https://aistudio.google.com, 3) Ensure you're using a valid free-tier key"
  const NoJsonMessage := "No JSON found in response"

  /**
   * The response for an exception raised while calling the model, extracting
   * or parsing its JSON: 429 when the message mentions "429" or "quota",
   * otherwise 500 carrying the message.
   */
  function GenerationFailure(message: string): (e: HttpError)
    ensures e.status == 429 <==> Contains(message, "429") || Contains(Lower(message), "quota")
    ensures e.status == 429 ==> e.detail == QuotaDetail
    ensures e.status != 429 ==> e.status == 500 && e.detail == "Gemini API error: " + message
  {
    if Contains(message, "429") || Contains(Lower(message), "quota") then HttpError(429, QuotaDetail)
    else HttpError(500, "Gemini API error: " + message)
  }

  /** Any message with "429" in it, wherever it appears, gives the quota response. */
  lemma FailureOn429(a: string, b: string)
    ensures GenerationFailure(a + "429" + b) == HttpError(429, QuotaDetail)
  {
    ContainsMiddle(a, "429", b);
  }

  /** So does any message with the word "quota" in it, in any mix of upper and lower case. */
  lemma FailureOnQuota(a: string, q: string, b: string)
    requires Lower(q) == "quota"
    ensures GenerationFailure(a + q + b) == HttpError(429, QuotaDetail)
  {
    LowerAppend(a + q, b);
    LowerAppend(a, q);
    ContainsMiddle(Lower(a), "quota", Lower(b));
  }

  /** A message with no digit 4 and no letter q in either case is a 500 carrying the message. */
  lemma FailureWithoutQuota(message: string)
    requires '4' !in message && 'q' !in message && 'Q' !in message
    ensures GenerationFailure(message) == HttpError(500, "Gemini API error: " + message)
  {
    ContainsHasChar(message, "429", '4');
    ContainsHasChar(Lower(message), "quota", 'q');
    forall i | 0 <= i < |message|
      ensures Lower(message)[i] != 'q'
    {
      assert message[i] != 'q' && message[i] != 'Q';
    }
  }

  /**
   * A reply without a JSON object is not a quota error but a 500 whose detail
   * is "Gemini API error: No JSON found in response".
   */
  lemma NoJsonFailure()
    ensures GenerationFailure(NoJsonMessage) == HttpError(500, "Gemini API error: " + NoJsonMessage)
  {
    hide GenerationFailure;
    FailureWithoutQuota(NoJsonMessage);
  }

  // ------------------------------------------------------------ the handler

  datatype LectureRequest = LectureRequest(topic: string, duration: string, voice: string, style: string)

  /** The four values `LECTURE_PROMPT` is formatted with. */
  datatype PromptFields = PromptFields(topic: string, style: string, duration: string, slideCount: nat)

  /** What the language-model call produced: its text, or the message of the exception it raised. */
  datatype ModelReply = Reply(text: string) | Raised(message: string)

  /** The parsed JSON object; only its `slides` key is read. */
  datatype RawLecture = RawLecture(slides: Option<seq<RawSlide>>)

  datatype LectureResponse = LectureResponse(lectureId: string, topic: string,
                                             slides: seq<SlideRecord>, script: seq<string>)

  /** A successful generation: the response and the files and speech requests made on the way. */
  datatype Generated = Generated(response: LectureResponse, files: seq<SlideFile>, calls: seq<TtsCall>)

  /** The prompt values of a request: its topic, style and duration and the duration's slide count. */
  function PromptOf(request: LectureRequest): (p: PromptFields)
    ensures p.topic == request.topic && p.style == request.style && p.duration == request.duration
    ensures p.slideCount == SlideCount(request.duration)
  {
    PromptFields(request.topic, request.style, request.duration, SlideCount(request.duration))
  }

  /** The prompt asks for 3 slides for a short lecture, 5 for a medium one, 7 for a long one and 3 otherwise. */
  lemma PromptSlideCounts(request: LectureRequest)
    ensures request.duration == "short" ==> PromptOf(request).slideCount == 3
    ensures request.duration == "medium" ==> PromptOf(request).slideCount == 5
    ensures request.duration == "long" ==> PromptOf(request).slideCount == 7
    ensures request.duration !in SlideCounts ==> PromptOf(request).slideCount == 3
  {
  }

  /**
   * `generate_lecture`: a missing or empty key is a 500; an exception from
   * the model call, a reply without a `{...}` span or a span `json.loads`
   * rejects goes through `GenerationFailure`; otherwise the parsed slides
   * (none when the key is absent) are assembled, their footers counting out
   * of the number of parsed slides.
   */
  method GenerateLecture(request: LectureRequest, apiKey: Option<string>,
                         model: PromptFields -> ModelReply, parse: string -> Result<RawLecture, string>,
                         lectureId: string, ttsAvailable: bool, saveFails: set<int>)
    returns (r: Result<Generated, HttpError>)
    ensures (apiKey.None? || apiKey == Some("")) ==> r == Err(HttpError(500, MissingKeyDetail))
    ensures apiKey.Some? && apiKey != Some("") && model(PromptOf(request)).Raised? ==>
      r == Err(GenerationFailure(model(PromptOf(request)).message))
    ensures apiKey.Some? && apiKey != Some("") && model(PromptOf(request)).Reply? ==>
      var span := JsonSpan(model(PromptOf(request)).text);
      && (span.None? ==> r == Err(GenerationFailure(NoJsonMessage)))
      && (span.Some? && parse(span.value).Err? ==> r == Err(GenerationFailure(parse(span.value).error)))
      && (span.Some? && parse(span.value).Ok? ==>
            var raw := parse(span.value).value.slides.GetOr([]);
            r == Ok(Generated(LectureResponse(lectureId, request.topic,
                                              SlideRecords(lectureId, raw, |raw|, ttsAvailable, saveFails),
                                              Scripts(raw, |raw|)),
                              SlideFiles(raw, |raw|, |raw|),
                              TtsCalls(raw, |raw|, ttsAvailable, request.voice))))
  {
    if apiKey.None? || apiKey == Some("") {
      return Err(HttpError(500, MissingKeyDetail));
    }
    var slideCount := SlideCount(request.duration);
    var text: string;
    match model(PromptFields(request.topic, request.style, request.duration, slideCount)) {
      case Raised(m) => return Err(GenerationFailure(m));
      case Reply(t) => text := t;
    }
    var span := JsonSpan(text);
    if span.None? {
      return Err(GenerationFailure(NoJsonMessage));
    }
    var data: RawLecture;
    match parse(span.value) {
      case Err(m) => return Err(GenerationFailure(m));
      case Ok(d) => data := d;
    }
    var slides, scripts, files, calls := AssembleSlides(lectureId, request.voice, data.slides.GetOr([]),
                                                         ttsAvailable, saveFails);
    r := Ok(Generated(LectureResponse(lectureId, request.topic, slides, scripts), files, calls));
  }
}
