/**
 * The slide loop of the backend's `POST /generate` handler (`generate_lecture`
 * in backend/main.py): slide i of the parsed reply is numbered i+1, gets an
 * SVG file, is narrated by the text-to-speech engine when that engine is
 * available and the script is not blank, and becomes one record of the
 * response.
 *
 * Whether the speech engine loaded and which `tts.save` calls raise are
 * inputs: `ttsAvailable` and the set `saveFails` of slide numbers whose save
 * raises.
 */
module LectureAssembly {
  import opened Wrappers
  import opened Text
  import opened SlideSvg

  /** One element of the parsed `slides` list; an absent key is None. */
  datatype RawSlide = RawSlide(title: Option<string>, bullets: Option<seq<string>>,
                               script: Option<string>, imagePrompt: Option<string>)

  /** One slide of the response. */
  datatype SlideRecord = SlideRecord(slideNum: int, title: string, bullets: seq<string>,
                                     imagePrompt: string, svgUrl: string, audioUrl: Option<string>)

  /** An SVG file written to the lecture's slide directory. */
  datatype SlideFile = SlideFile(name: string, content: string)

  /** A call `tts.save(text, path, voice=voice)` for slide `slideNum`. */
  datatype TtsCall = TtsCall(slideNum: int, text: string, voice: string)

  /** The text handed to the speech engine: each `[PAUSE]` becomes `...`. */
  function CleanScript(script: string): string
  {
    ReplaceAll(script, "[PAUSE]", "...")
  }

  function SvgUrl(lectureId: string, slideNum: int): string
  {
    "/generated/slides/" + lectureId + "/slide_" + IntToString(slideNum) + ".svg"
  }

  function AudioUrl(lectureId: string, slideNum: int): string
  {
    "/generated/audio/" + lectureId + "/audio_" + IntToString(slideNum) + ".wav"
  }

  /** `tts and script_clean.strip()`: narration is attempted. */
  predicate AttemptsAudio(script: string, ttsAvailable: bool)
  {
    ttsAvailable && !IsBlank(CleanScript(script))
  }

  /** The response record of input slide `raw`, numbered `slideNum`. */
  function SlideRecordAt(lectureId: string, raw: RawSlide, slideNum: int,
                         ttsAvailable: bool, saveFails: set<int>): SlideRecord
  {
    var audio := if AttemptsAudio(raw.script.GetOr(""), ttsAvailable) && slideNum !in saveFails
                 then Some(AudioUrl(lectureId, slideNum)) else None;
    SlideRecord(slideNum, raw.title.GetOr(""), raw.bullets.GetOr([]), raw.imagePrompt.GetOr(""),
                SvgUrl(lectureId, slideNum), audio)
  }

  /** The SVG file of input slide `raw`; a missing title is drawn as "Slide n". */
  function SlideFileAt(raw: RawSlide, slideNum: int, total: int): SlideFile
  {
    var title := raw.title.GetOr("Slide " + IntToString(slideNum));
    SlideFile("slide_" + IntToString(slideNum) + ".svg",
              SlideDocument(EscapeChain(Prefix(title, TitleWidth)),
                            RenderBullets(BulletLayout(raw.bullets.GetOr([]))), slideNum, total))
  }

  /** The speech request for slide `slideNum`, if one is made. */
  function TtsCallAt(raw: RawSlide, slideNum: int, ttsAvailable: bool, voice: string): seq<TtsCall>
  {
    var script := raw.script.GetOr("");
    if AttemptsAudio(script, ttsAvailable) then [TtsCall(slideNum, CleanScript(script), voice)] else []
  }

  /** The response records of the first `n` slides of `raw`, numbered from 1, in order. */
  function SlideRecords(lectureId: string, raw: seq<RawSlide>, n: nat, ttsAvailable: bool,
                        saveFails: set<int>): seq<SlideRecord>
    requires n <= |raw|
  {
    if n == 0 then []
    else SlideRecords(lectureId, raw, n - 1, ttsAvailable, saveFails)
         + [SlideRecordAt(lectureId, raw[n - 1], n, ttsAvailable, saveFails)]
  }

  /** The raw scripts of the first `n` slides of `raw`. */
  function Scripts(raw: seq<RawSlide>, n: nat): seq<string>
    requires n <= |raw|
  {
    if n == 0 then [] else Scripts(raw, n - 1) + [raw[n - 1].script.GetOr("")]
  }

  /** Slide k's file (0-based), as a function of k. */
  function SlideFileFn(raw: seq<RawSlide>, total: int): int --> SlideFile
  {
    k requires 0 <= k < |raw| => SlideFileAt(raw[k], k + 1, total)
  }

  /** The SVG files of the first `n` slides of `raw`, each footer counting out of `total`. */
  function SlideFiles(raw: seq<RawSlide>, n: nat, total: int): seq<SlideFile>
    requires n <= |raw|
  {
    seq(n, SlideFileFn(raw, total))
  }

  /** The speech requests made for the first `n` slides of `raw`, in slide order. */
  function TtsCalls(raw: seq<RawSlide>, n: nat, ttsAvailable: bool, voice: string): seq<TtsCall>
    requires n <= |raw|
  {
    if n == 0 then [] else TtsCalls(raw, n - 1, ttsAvailable, voice) + TtsCallAt(raw[n - 1], n, ttsAvailable, voice)
  }

  /** Extending a comprehension by one element. */
  lemma SeqSnoc<T>(n: nat, f: int --> T, s: seq<T>, x: T)
    requires forall k :: 0 <= k <= n ==> f.requires(k)
    requires s == seq(n, f) && x == f(n)
    ensures s + [x] == seq(n + 1, f)
  {
  }

  // ------------------------------------------------------------ the loop body

  /**
   * The first half of the loop body for slide i (0-based): generate the SVG
   * of slide i+1 of `total` and write it as `slide_{i+1}.svg`, appending the
   * file to those already written.
   */
  method WriteSlide(raw: seq<RawSlide>, i: nat, totalSlides: int, files: seq<SlideFile>)
    returns (files': seq<SlideFile>)
    requires i < |raw| && files == SlideFiles(raw, i, totalSlides)
    ensures files' == SlideFiles(raw, i + 1, totalSlides)
  {
    hide SlideDocument;
    var slideData, slideNum := raw[i], i + 1;
    var svgContent := GenerateSlideSvg(slideData.title.GetOr("Slide " + IntToString(slideNum)),
                                       slideData.bullets.GetOr([]), slideNum, totalSlides);
    var file := SlideFile("slide_" + IntToString(slideNum) + ".svg", svgContent);
    SeqSnoc(i, SlideFileFn(raw, totalSlides), files, file);
    files' := files + [file];
  }

  /**
   * The rest of the loop body for slide i (0-based): keep its raw script
   * (`[PAUSE]` markers intact), request narration of the cleaned script only
   * when the engine is available and that script is not blank, and append
   * the record, whose audio URL is set only when the request's save did not
   * raise.
   */
  method NarrateSlide(lectureId: string, voice: string, raw: seq<RawSlide>, i: nat,
                      ttsAvailable: bool, saveFails: set<int>,
                      slides: seq<SlideRecord>, scripts: seq<string>, calls: seq<TtsCall>)
    returns (slides': seq<SlideRecord>, scripts': seq<string>, calls': seq<TtsCall>)
    requires i < |raw|
    requires slides == SlideRecords(lectureId, raw, i, ttsAvailable, saveFails)
    requires scripts == Scripts(raw, i)
    requires calls == TtsCalls(raw, i, ttsAvailable, voice)
    ensures slides' == SlideRecords(lectureId, raw, i + 1, ttsAvailable, saveFails)
    ensures scripts' == Scripts(raw, i + 1)
    ensures calls' == TtsCalls(raw, i + 1, ttsAvailable, voice)
  {
    var slideData, slideNum := raw[i], i + 1;
    var script := slideData.script.GetOr("");
    var scriptClean := ReplaceAll(script, "[PAUSE]", "...");
    scripts' := scripts + [script];
    var audioUrl := None;
    calls' := calls;
    if ttsAvailable && !IsBlank(scriptClean) {
      calls' := calls + [TtsCall(slideNum, scriptClean, voice)];
      if slideNum !in saveFails {
        audioUrl := Some(AudioUrl(lectureId, slideNum));
      }
    }
    slides' := slides + [SlideRecord(slideNum, slideData.title.GetOr(""), slideData.bullets.GetOr([]),
                                     slideData.imagePrompt.GetOr(""), SvgUrl(lectureId, slideNum), audioUrl)];
  }

  /**
   * The loop over the parsed slides: slide i (0-based) is numbered i+1, every
   * footer counts out of the number of parsed slides, and everything a slide
   * produces is appended in input order.
   */
  method AssembleSlides(lectureId: string, voice: string, raw: seq<RawSlide>,
                        ttsAvailable: bool, saveFails: set<int>)
    returns (slides: seq<SlideRecord>, scripts: seq<string>, files: seq<SlideFile>, calls: seq<TtsCall>)
    ensures slides == SlideRecords(lectureId, raw, |raw|, ttsAvailable, saveFails)
    ensures scripts == Scripts(raw, |raw|)
    ensures files == SlideFiles(raw, |raw|, |raw|)
    ensures calls == TtsCalls(raw, |raw|, ttsAvailable, voice)
  {
    hide SlideDocument;
    slides, scripts, files, calls := [], [], [], [];
    var totalSlides := |raw|;
    var i := 0;
    while i < |raw|
      invariant 0 <= i <= |raw|
      invariant slides == SlideRecords(lectureId, raw, i, ttsAvailable, saveFails)
      invariant scripts == Scripts(raw, i)
      invariant files == SlideFiles(raw, i, totalSlides)
      invariant calls == TtsCalls(raw, i, ttsAvailable, voice)
    {
      files := WriteSlide(raw, i, totalSlides, files);
      slides, scripts, calls := NarrateSlide(lectureId, voice, raw, i, ttsAvailable, saveFails, slides, scripts, calls);
      i := i + 1;
    }
  }

  // ------------------------------------------------------------ what the loop produces

  lemma {:induction false} IsBlankAppend(a: string, b: string)
    ensures IsBlank(a + b) <==> IsBlank(a) && IsBlank(b)
  {
    if IsBlank(a) && IsBlank(b) {
      forall i | 0 <= i < |a + b| ensures IsPySpace((a + b)[i]) {
        if i >= |a| { assert (a + b)[i] == b[i - |a|]; } else { assert (a + b)[i] == a[i]; }
      }
    }
    if IsBlank(a + b) {
      forall i | 0 <= i < |a| ensures IsPySpace(a[i]) { assert (a + b)[i] == a[i]; }
      forall i | 0 <= i < |b| ensures IsPySpace(b[i]) { assert (a + b)[|a| + i] == b[i]; }
    }
  }

  /**
   * Rewriting `[PAUSE]` never changes whether a script is blank: a script
   * made only of pause markers still gets narration ("...").
   */
  lemma {:induction false} CleanScriptBlank(s: string)
    ensures IsBlank(CleanScript(s)) <==> IsBlank(s)
    decreases |s|
  {
    var pat := "[PAUSE]";
    if |s| < |pat| {
    } else if s[..|pat|] == pat {
      var rest := ReplaceAll(s[|pat|..], pat, "...");
      assert CleanScript(s) == "..." + rest;
      assert !IsPySpace((("..." + rest))[0]);
      assert s[0] == '[';
    } else {
      var rest := ReplaceAll(s[1..], pat, "...");
      assert CleanScript(s) == [s[0]] + rest;
      CleanScriptBlank(s[1..]);
      IsBlankAppend([s[0]], rest);
      IsBlankAppend([s[0]], s[1..]);
      assert s == [s[0]] + s[1..];
    }
  }

  /**
   * Record k of the response is slide k+1 of the input: numbered k+1, with the
   * SVG URL of slide k+1, and with an audio URL exactly when the engine is
   * available, the raw script is not blank and that slide's save did not raise.
   */
  lemma {:induction false} SlideRecordsAt(lectureId: string, raw: seq<RawSlide>, n: nat, ttsAvailable: bool,
                                          saveFails: set<int>, k: nat)
    requires k < n <= |raw|
    ensures var records := SlideRecords(lectureId, raw, n, ttsAvailable, saveFails);
      && |records| == n
      && records[k] == SlideRecordAt(lectureId, raw[k], k + 1, ttsAvailable, saveFails)
      && records[k].slideNum == k + 1
      && records[k].svgUrl == SvgUrl(lectureId, k + 1)
      && (records[k].audioUrl.Some? <==> ttsAvailable && !IsBlank(raw[k].script.GetOr("")) && k + 1 !in saveFails)
      && (records[k].audioUrl.Some? ==> records[k].audioUrl.value == AudioUrl(lectureId, k + 1))
  {
    SlideRecordsLength(lectureId, raw, n, ttsAvailable, saveFails);
    if k < n - 1 {
      SlideRecordsAt(lectureId, raw, n - 1, ttsAvailable, saveFails, k);
    }
    CleanScriptBlank(raw[k].script.GetOr(""));
  }

  lemma {:induction false} SlideRecordsLength(lectureId: string, raw: seq<RawSlide>, n: nat, ttsAvailable: bool,
                                              saveFails: set<int>)
    requires n <= |raw|
    ensures |SlideRecords(lectureId, raw, n, ttsAvailable, saveFails)| == n
  {
    if n > 0 {
      SlideRecordsLength(lectureId, raw, n - 1, ttsAvailable, saveFails);
    }
  }

  /** Entry k of the script list is slide k's raw script, `[PAUSE]` markers intact. */
  lemma {:induction false} ScriptsAt(raw: seq<RawSlide>, n: nat, k: nat)
    requires k < n <= |raw|
    ensures |Scripts(raw, n)| == n && Scripts(raw, n)[k] == raw[k].script.GetOr("")
  {
    ScriptsLength(raw, n);
    if k < n - 1 {
      ScriptsAt(raw, n - 1, k);
    }
  }

  lemma {:induction false} ScriptsLength(raw: seq<RawSlide>, n: nat)
    requires n <= |raw|
    ensures |Scripts(raw, n)| == n
  {
    if n > 0 {
      ScriptsLength(raw, n - 1);
    }
  }

  /**
   * File k is `slide_{k+1}.svg`, the very file the record's SVG URL names, and
   * its footer reads "Slide k+1/total".
   */
  lemma SlideFilesAt(raw: seq<RawSlide>, n: nat, total: int, k: nat)
    requires k < n <= |raw|
    ensures var files := SlideFiles(raw, n, total);
      && |files| == n
      && files[k] == SlideFileAt(raw[k], k + 1, total)
  {
    hide SlideDocument;
  }

  /** Slide n's file is `slide_{n}.svg`, the very file the record's SVG URL names. */
  lemma SlideFileName(lectureId: string, raw: RawSlide, slideNum: int, total: int)
    ensures SlideFileAt(raw, slideNum, total).name == "slide_" + IntToString(slideNum) + ".svg"
    ensures SvgUrl(lectureId, slideNum) == "/generated/slides/" + lectureId + "/" + SlideFileAt(raw, slideNum, total).name
  {
    hide SlideDocument;
  }

  /** Every slide file's footer reads "Slide n/total". */
  lemma SlideFileFooter(raw: RawSlide, slideNum: int, total: int)
    ensures Contains(SlideFileAt(raw, slideNum, total).content, FooterLabel(slideNum, total))
  {
    var title := raw.title.GetOr("Slide " + IntToString(slideNum));
    FooterShowsPosition(EscapeChain(Prefix(title, TitleWidth)),
                        RenderBullets(BulletLayout(raw.bullets.GetOr([]))), slideNum, total);
  }

  /**
   * Every speech request is for one of the first n slides, in the request's
   * voice, with that slide's cleaned script, and only when narration was
   * attempted for it; the requests go out in increasing slide order.
   */
  lemma {:induction false} TtsCallsSound(raw: seq<RawSlide>, n: nat, ttsAvailable: bool, voice: string)
    requires n <= |raw|
    ensures var calls := TtsCalls(raw, n, ttsAvailable, voice);
      && |calls| <= n
      && (forall c :: c in calls ==>
            && 1 <= c.slideNum <= n
            && c.voice == voice
            && c.text == CleanScript(raw[c.slideNum - 1].script.GetOr(""))
            && AttemptsAudio(raw[c.slideNum - 1].script.GetOr(""), ttsAvailable))
      && (forall a, b :: 0 <= a < b < |calls| ==> calls[a].slideNum < calls[b].slideNum)
  {
    if n > 0 {
      TtsCallsSound(raw, n - 1, ttsAvailable, voice);
      var prev := TtsCalls(raw, n - 1, ttsAvailable, voice);
      var last := TtsCallAt(raw[n - 1], n, ttsAvailable, voice);
      assert TtsCalls(raw, n, ttsAvailable, voice) == prev + last;
      forall c | c in prev + last ensures c in prev || c in last { }
    }
  }

  /** Slide k+1 gets a speech request exactly when narration is attempted for its script. */
  lemma {:induction false} TtsCallsComplete(raw: seq<RawSlide>, n: nat, ttsAvailable: bool, voice: string, k: nat)
    requires k < n <= |raw|
    ensures var script := raw[k].script.GetOr("");
      TtsCall(k + 1, CleanScript(script), voice) in TtsCalls(raw, n, ttsAvailable, voice)
      <==> AttemptsAudio(script, ttsAvailable)
  {
    TtsCallsSound(raw, n, ttsAvailable, voice);
    if AttemptsAudio(raw[k].script.GetOr(""), ttsAvailable) {
      TtsCallsIncludes(raw, n, ttsAvailable, voice, k);
    }
  }

  lemma {:induction false} TtsCallsIncludes(raw: seq<RawSlide>, n: nat, ttsAvailable: bool, voice: string, k: nat)
    requires k < n <= |raw|
    requires AttemptsAudio(raw[k].script.GetOr(""), ttsAvailable)
    ensures TtsCall(k + 1, CleanScript(raw[k].script.GetOr("")), voice) in TtsCalls(raw, n, ttsAvailable, voice)
  {
    var prev := TtsCalls(raw, n - 1, ttsAvailable, voice);
    var last := TtsCallAt(raw[n - 1], n, ttsAvailable, voice);
    assert TtsCalls(raw, n, ttsAvailable, voice) == prev + last;
    if k < n - 1 {
      TtsCallsIncludes(raw, n - 1, ttsAvailable, voice, k);
    } else {
      assert last == [TtsCall(k + 1, CleanScript(raw[k].script.GetOr("")), voice)];
    }
  }

  /** A record carries an audio URL only for a slide whose narration was requested. */
  lemma AudioOnlyWhenRequested(lectureId: string, raw: seq<RawSlide>, ttsAvailable: bool, saveFails: set<int>,
                               voice: string, k: nat)
    requires k < |raw|
    ensures |SlideRecords(lectureId, raw, |raw|, ttsAvailable, saveFails)| == |raw|
    ensures SlideRecords(lectureId, raw, |raw|, ttsAvailable, saveFails)[k].audioUrl.Some? ==>
      TtsCall(k + 1, CleanScript(raw[k].script.GetOr("")), voice) in TtsCalls(raw, |raw|, ttsAvailable, voice)
  {
    SlideRecordsAt(lectureId, raw, |raw|, ttsAvailable, saveFails, k);
    TtsCallsComplete(raw, |raw|, ttsAvailable, voice, k);
  }
}
