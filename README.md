# AetherLearn lectures, modelled in Dafny

AetherLearn turns a topic into a narrated slide lecture and plays it in a
3D classroom. This project models the sequential logic at its core and
proves properties of that model:

- **Backend** (`backend/main.py`):
  - `generate_slide_svg`, the SVG slide builder: title cut, bullet cut, XML escaping, layout, footer;
  - the duration-to-slide-count table;
  - the greedy `{...}` extraction from the language model's reply;
  - the error responses of `POST /generate`;
  - the slide loop that numbers the slides, writes their SVG files, requests narration and builds the response.

  Modules: `SlideSvg` (slide_svg.dfy), `LectureAssembly` (lecture_assembly.dfy), `LectureGeneration` (lecture_generation.dfy).
- **Classroom** (`frontend/src/components/Classroom.tsx`), module `ClassroomScene`:
  - the drawing calls `createSlideTexture` makes on the whiteboard canvas;
  - the animation-clip policy: the speaking clip, the idle clip, and "fade all out, start one";
  - the scene record as a class, covering the setup guard, the frame loop, the teardown, both model loaders, the whiteboard update effect and the `isPlaying` effect.
- **Player** (`frontend/src/components/LecturePlayer.tsx`), module `LecturePlayer`:
  - the playback cursor as a class with the audio element as a second class;
  - it is proved to follow value functions, one per user action or media event, with the effects run after each handler whose dependencies changed.
- **App** (`frontend/src/App.tsx`), module `AppShell`: the view/lecture state machine, its render guards and the demo lecture.

Shared pieces:
- `Wrappers` holds Option and Result.
- `Text` holds the string operations with Python or JavaScript meaning: slicing, `str.replace`, `str.strip`, `includes`, `toLowerCase` (also Python's `str.lower()`) and integer formatting.
- `LectureData` holds the frontend's lecture type.

Inputs that come from outside the code are parameters:
- the language model, as a function from the prompt's four values to a reply or an exception message;
- `json.loads`, as a function from text to a parsed lecture or an error message;
- the lecture id;
- whether the speech engine loaded, and the set of slide numbers whose `tts.save` raises;
- the frame ids `requestAnimationFrame` returns;
- the clip names of the loaded lecturer model.

The model follows the code in these player behaviours, some of which one might expect to work otherwise:
- Nothing requires a lecture to have a slide. The model allows an empty lecture, and the cursor then stays at 0 (`LecturePlayer.InBounds`).
- The audio-source effect depends on `isPlaying` and `isMuted`. Muting therefore does not just silence the clip, and pressing play does not resume where the clip paused. On a slide with audio, toggling either flag assigns `src` again, which reloads the clip from position 0. `LecturePlayer.PlayToggleEffect` and `LecturePlayer.MuteToggleEffect` state this.
- A slide index out of range is not clamped: `goToSlide` ignores it (`LecturePlayer.GoToSlideEffect`).
- Moving to another slide that has audio while playing starts the new clip from 0. No explicit resume is needed: the audio-source effect plays it because `currentSlide` changed (`LecturePlayer.GoToSlideEffect`).

## Model

| member | source | states |
|---|---|---|
| SlideSvg.EscapeChainIsEscapeXml | backend/main.py:100 | the three chained replaces, `&` first, equal escaping each character on its own |
| SlideSvg.EscapeXmlNoAngles | backend/main.py:100 | escaped text holds no raw `<` or `>` |
| SlideSvg.UnescapeEscapeXml | backend/main.py:100 | decoding the three entities gives back the original text, so produced entities are never escaped twice |
| SlideSvg.AmpLastDoubleEscapes | backend/main.py:100 | replacing `&` last would turn `<` into `&amp;lt;`; the order used gives `&lt;` |
| SlideSvg.BulletLayoutAt | backend/main.py:97-104 | exactly min(n, 5) bullets for n input bullets, none for an empty list, in input order; bullet k has its circle at cy = 180+55k+8 and its text at y = 180+55k+15; the text decodes to the first 60 characters plus `...` when longer, else the bullet unchanged; no raw `<`/`>` |
| SlideSvg.TitleText | backend/main.py:107 | the title is cut to its first 40 characters before escaping, with no ellipsis; the escaped title decodes to that cut and holds no `<`/`>` |
| SlideSvg.FooterShowsPosition | backend/main.py:131 | the slide document contains `Slide {slide_num}/{total}` |
| SlideSvg.BuildContentSvg | backend/main.py:96-104 | the loop over `content[:5]`, stepping `y` by 55, produces the rendering of the bullet layout |
| SlideSvg.GenerateSlideSvg | backend/main.py:92-133 | the result is the fixed template around the escaped cut title, the bullet markup and the footer for the slide's position |
| LectureGeneration.SlideCount | backend/main.py:179-180 | short gives 3, medium 5, long 7, any other duration 3, each in both directions |
| LectureGeneration.FirstIndex | backend/main.py:196 | the first position of a character, or none exactly when it is absent |
| LectureGeneration.LastIndex | backend/main.py:196 | the last position of a character, or none exactly when it is absent |
| LectureGeneration.JsonSpan | backend/main.py:196-198 | a span exists iff some `{` precedes some `}`; the span runs from the first `{` to the last `}` |
| LectureGeneration.FailureOn429 | backend/main.py:202-208 | a message with "429" anywhere in it gives the 429 quota response |
| LectureGeneration.FailureOnQuota | backend/main.py:202-208 | a message containing "quota" in any mix of upper and lower case gives the 429 quota response |
| LectureGeneration.FailureWithoutQuota | backend/main.py:202-209 | a message with no `4` and no `q` or `Q` in it gives 500 with detail "Gemini API error: " + message |
| LectureGeneration.NoJsonFailure | backend/main.py:196-209 | a reply with no JSON object gives 500 "Gemini API error: No JSON found in response", not the quota response |
| LectureGeneration.PromptOf | backend/main.py:179-190 | the prompt gets the request's topic, style and duration, and the slide count `SlideCount` gives for that duration |
| LectureGeneration.PromptSlideCounts | backend/main.py:179-190 | the prompt asks for 3 slides for "short", 5 for "medium", 7 for "long" and 3 for any other duration |
| LectureGeneration.GenerateLecture | backend/main.py:170-267 | a missing or empty key gives 500; a model exception, a reply with no JSON span, or a JSON error is classified by GenerationFailure; otherwise the response holds the assembled records and scripts, with footers counted out of the number of parsed slides |
| LectureAssembly.WriteSlide | backend/main.py:229-237 | writes `slide_{i+1}.svg` with the SVG of slide i |
| LectureAssembly.NarrateSlide | backend/main.py:240-260 | appends the raw script, the speech request when one is made, and the slide's record |
| LectureAssembly.AssembleSlides | backend/main.py:218-260 | the loop produces exactly the records, scripts, files and speech requests of all parsed slides, in order |
| LectureAssembly.CleanScriptBlank | backend/main.py:241-245 | rewriting `[PAUSE]` as `...` leaves a script blank exactly when it was blank |
| LectureAssembly.SlideRecordsAt | backend/main.py:225-260 | one record per input slide; record k has slide_num k+1 and svg_url `/generated/slides/{id}/slide_{k+1}.svg`; its audio_url is set iff TTS is available, the script is not blank and the save did not raise, and then it is `/generated/audio/{id}/audio_{k+1}.wav` |
| LectureAssembly.SlideRecordsLength | backend/main.py:219-260 | as many records as input slides |
| LectureAssembly.ScriptsAt | backend/main.py:240-242 | script k is the raw script of slide k, `[PAUSE]` kept (empty when absent) |
| LectureAssembly.ScriptsLength | backend/main.py:220-242 | as many scripts as input slides |
| LectureAssembly.SlideFilesAt | backend/main.py:229-237 | file k is the SVG of slide k, numbered k+1 |
| LectureAssembly.SlideFileName | backend/main.py:236-258 | the file is named `slide_{n}.svg`, and the record's svg_url points at that file in the lecture's directory |
| LectureAssembly.SlideFileFooter | backend/main.py:229-234 | each written slide's footer shows its number out of the total |
| LectureAssembly.TtsCallsSound | backend/main.py:245-248 | every speech request is for an existing slide, uses the request's voice and that slide's cleaned script, and happens only when narration is attempted; requests go in slide order |
| LectureAssembly.TtsCallsComplete | backend/main.py:245-248 | slide k+1 gets a speech request iff narration is attempted for its script |
| LectureAssembly.TtsCallsIncludes | backend/main.py:245-248 | an attempted narration appears among the requests |
| LectureAssembly.AudioOnlyWhenRequested | backend/main.py:244-249 | a record with an audio URL had a speech request |
| ClassroomScene.DrawnBullet | frontend/src/components/Classroom.tsx:69 | a bullet of at most 50 characters is drawn verbatim; a longer one as its first 50 characters then `...` |
| ClassroomScene.CreateSlideTexture | frontend/src/components/Classroom.tsx:28-81 | the loop over `bullets.slice(0, 5)` with the running `y` draws exactly this layout on a 1024x576 canvas |
| ClassroomScene.BulletOpsAt | frontend/src/components/Classroom.tsx:59-72 | bullet k's dot is at (70, 180+60k+8) and its text at (95, 180+60k+15) |
| ClassroomScene.TextureLayout | frontend/src/components/Classroom.tsx:34-78 | 5 + 2·min(5, n) calls; the title cut to 40 characters centred at (512, 95); each shown bullet placed as above; the footer "AetherLearn AI" last |
| ClassroomScene.BulletTexts | frontend/src/components/Classroom.tsx:60-72 | the bullet calls draw the shown bullets' texts in order |
| ClassroomScene.DrawnTexts | frontend/src/components/Classroom.tsx:54-78 | the texts drawn, in order, are exactly the cut title, the first five bullets as shown, and the footer |
| ClassroomScene.FindIndex | frontend/src/components/Classroom.tsx:104-110 | `find` stops at the first name that passes, and finds none iff no name passes |
| ClassroomScene.SpeakingClipPolicy | frontend/src/components/Classroom.tsx:104-106 | `speaking.001` wins; else the first name containing "speaking" in any case; else the first containing "talk"; the result is one of the names and undefined iff no name passes any test |
| ClassroomScene.IdleClipPolicy | frontend/src/components/Classroom.tsx:109-111 | the first name containing "breathing"; else the first reading "idle"; else the first name; defined iff there is a name, and then one of them |
| ClassroomScene.ClipToStartPolicy | frontend/src/components/Classroom.tsx:120-128 | while playing, the speaking clip when it resolved, else the idle clip when truthy; the result, if any, is a non-empty name present in the record |
| ClassroomScene.SwitchStartsOne | frontend/src/components/Classroom.tsx:117-128 | the switch keeps the clip set; only the chosen clip fades in, and it runs; the other clips only fade out |
| ClassroomScene.KeysAfter | frontend/src/components/Classroom.tsx:226-233 | after the clips are stored, the keys are the old keys and the clip names |
| ClassroomScene.KeysAfterFacts | frontend/src/components/Classroom.tsx:226-233 | storing clips keeps the old keys in place and first, and lists every name once |
| ClassroomScene.Filled | frontend/src/components/Classroom.tsx:226-230 | the actions are then keyed by the old names and the clip names |
| ClassroomScene.FilledFacts | frontend/src/components/Classroom.tsx:226-230 | every loaded clip gets a fresh action; other entries are kept |
| ClassroomScene.LoadedStartsIdle | frontend/src/components/Classroom.tsx:226-241 | after the lecturer loads, of its clips exactly the truthy best idle clip is running, and no fade is started |
| ClassroomScene.SceneRecord.constructor | frontend/src/components/Classroom.tsx:163-172 | the new record has no mixer, no animations, no frame and no whiteboard |
| ClassroomScene.SceneRecord.AddClips | frontend/src/components/Classroom.tsx:223-230 | a mixer is made, and each clip's fresh action is stored under its name |
| ClassroomScene.SceneRecord.PlayBestIdle | frontend/src/components/Classroom.tsx:233-241 | the best idle clip is played when it is truthy |
| ClassroomScene.SceneRecord.Switch | frontend/src/components/Classroom.tsx:117-128 | the actions become the switched actions, and nothing else changes |
| ClassroomScene.Classroom.constructor | frontend/src/components/Classroom.tsx:15-25 | no record and no pending frame |
| ClassroomScene.Classroom.Setup | frontend/src/components/Classroom.tsx:131-261 | with no container, or with a record already present, nothing changes; otherwise a fresh record is made, one frame is rendered and the next is requested, and that request is the only one pending |
| ClassroomScene.Classroom.FireFrame | frontend/src/components/Classroom.tsx:253-260 | the firing request is the record's last one; the next frame's id is recorded and becomes the only pending request, and one frame is rendered; once the record is null nothing is pending, so no frame can fire and the no-record guard of `animate` is never reached |
| ClassroomScene.Classroom.Teardown | frontend/src/components/Classroom.tsx:276-286 | the last request is cancelled when its id is truthy; the record becomes null and no frame request is left pending |
| ClassroomScene.Classroom.ClassroomLoaded | frontend/src/components/Classroom.tsx:179-205 | with a record, the whiteboard exists and is textured with the setup's slide, if there was one |
| ClassroomScene.Classroom.LecturerLoaded | frontend/src/components/Classroom.tsx:212-247 | with clips and a record, the clips are stored and the best idle clip is played; `onLoaded` is always called |
| ClassroomScene.Classroom.UpdateWhiteboard | frontend/src/components/Classroom.tsx:84-92 | with a whiteboard and a slide, the old texture is disposed of before the slide's new texture is bound; otherwise nothing changes |
| ClassroomScene.Classroom.SwitchAnimation | frontend/src/components/Classroom.tsx:95-129 | with no record or no animations nothing changes; otherwise the switch is applied |
| LecturePlayer.ScriptPanelFollowsCursor | frontend/src/components/LecturePlayer.tsx:215 | for a lecture with one script per slide, in every state reached from the first render: the current slide's script, or "No script available" exactly when it is empty; always the placeholder for a lecture without slides |
| LecturePlayer.ScriptPanelAfterGoTo | frontend/src/components/LecturePlayer.tsx:86-94 | after going to slide i, the panel shows script i, or "No script available" when it is empty |
| LecturePlayer.SettledKeepsCells | frontend/src/components/LecturePlayer.tsx:35-84 | the effects change only the audio element, never the state cells |
| LecturePlayer.MountedInBounds | frontend/src/components/LecturePlayer.tsx:25-84 | the first render is at slide 0, not playing, not muted, with the audio paused at 0 and loaded with slide 0's clip when it has one |
| LecturePlayer.GoToSlideEffect | frontend/src/components/LecturePlayer.tsx:86-94 | an index in range becomes the cursor with the flags kept and the audio rewound; a changed slide with audio then plays from 0 if playing; any other index changes nothing |
| LecturePlayer.EndedAdvances | frontend/src/components/LecturePlayer.tsx:42-45 | before the last slide, the cursor advances by exactly 1 and playing is kept; the next clip loads from 0 |
| LecturePlayer.EndedAtLastSlide | frontend/src/components/LecturePlayer.tsx:46-48 | on the last slide, playing stops, the cursor stays and the audio is paused |
| LecturePlayer.RestartResets | frontend/src/components/LecturePlayer.tsx:96-103 | from any state: slide 0, not playing, the audio paused at 0 |
| LecturePlayer.MuteToggleEffect | frontend/src/components/LecturePlayer.tsx:79-84 | only `isMuted` flips; `audio.muted` follows it; the slide and playing state are untouched |
| LecturePlayer.PlayToggleEffect | frontend/src/components/LecturePlayer.tsx:147-149 | disabled until the classroom loads; then it flips `isPlaying`, and the audio plays exactly while that is set |
| LecturePlayer.StepInBounds | frontend/src/components/LecturePlayer.tsx:86-103 | every action and event keeps the cursor on a slide |
| LecturePlayer.RunInBounds | frontend/src/components/LecturePlayer.tsx:25-103 | under any sequence of actions and events, 0 ≤ currentSlide < totalSlides (or 0 for an empty lecture) |
| LecturePlayer.EndedRun | frontend/src/components/LecturePlayer.tsx:42-49 | while playing, k ended events advance k slides, or stop on the last slide once they reach past it |
| LecturePlayer.EndedStays | frontend/src/components/LecturePlayer.tsx:46-48 | once stopped on the last slide, further ended events change neither the cursor nor the playing flag |
| LecturePlayer.ThreeSlideLecture | frontend/src/components/LecturePlayer.tsx:42-49 | in a 3-slide lecture, load, play and 3 ended events end at slide 2 with playback stopped |
| LecturePlayer.AudioElement.constructor | frontend/src/components/LecturePlayer.tsx:36-38 | `new Audio()` has no source, is not muted, and is paused at 0 |
| LecturePlayer.AudioElement.SetSource | frontend/src/components/LecturePlayer.tsx:55 | assigning `src` loads the clip: it is paused at 0, and `muted` is kept |
| LecturePlayer.AudioElement.SetMuted | frontend/src/components/LecturePlayer.tsx:56 | only `muted` changes |
| LecturePlayer.AudioElement.Play | frontend/src/components/LecturePlayer.tsx:59 | the element is no longer paused, and nothing else changes |
| LecturePlayer.AudioElement.Pause | frontend/src/components/LecturePlayer.tsx:75 | the element is paused, and nothing else changes |
| LecturePlayer.AudioElement.Rewind | frontend/src/components/LecturePlayer.tsx:91 | `currentTime` becomes 0, and nothing else changes |
| LecturePlayer.Player.constructor | frontend/src/components/LecturePlayer.tsx:24-84 | the mounted player is in the `Mounted` state |
| LecturePlayer.Player.SyncSource | frontend/src/components/LecturePlayer.tsx:54-61 | for a slide with audio: `src` set, `muted` synced, playing iff `isPlaying`; otherwise `src` is left as it was |
| LecturePlayer.Player.RunEffects | frontend/src/components/LecturePlayer.tsx:35-84 | runs the effects whose dependencies changed, in order |
| LecturePlayer.Player.GoToSlide | frontend/src/components/LecturePlayer.tsx:86-94 | follows `GoTo` and keeps the bounds invariant |
| LecturePlayer.Player.HandleEnded | frontend/src/components/LecturePlayer.tsx:42-49 | follows `OnEnded` and keeps the bounds invariant |
| LecturePlayer.Player.Restart | frontend/src/components/LecturePlayer.tsx:96-103 | follows `Restarted` and keeps the bounds invariant |
| LecturePlayer.Player.TogglePlay | frontend/src/components/LecturePlayer.tsx:147-149 | follows `PlayToggled` and keeps the bounds invariant |
| LecturePlayer.Player.ToggleMute | frontend/src/components/LecturePlayer.tsx:169-170 | follows `MuteToggled` and keeps the bounds invariant |
| LecturePlayer.Player.PreviousSlide | frontend/src/components/LecturePlayer.tsx:138-140 | disabled on slide 0; otherwise goes to the previous slide |
| LecturePlayer.Player.NextSlide | frontend/src/components/LecturePlayer.tsx:160-162 | disabled on the last slide; otherwise goes to the next slide |
| LecturePlayer.Player.OnClassroomLoaded | frontend/src/components/LecturePlayer.tsx:121 | sets `classroomLoaded` and nothing else |
| AppShell.Render | frontend/src/App.tsx:55-190 | Back is shown iff view ≠ home; the generate screen shows iff view = generate; the player shows iff view = player and a lecture is present, and then with that lecture |
| AppShell.OneScreen | frontend/src/App.tsx:69-190 | in every reachable state exactly one main screen is rendered |
| AppShell.DemoLectureShape | frontend/src/App.tsx:104-153 | the demo has 3 slides numbered 1..3, one script entry per slide, no audio_url and 4 bullets per slide |
| AppShell.App.constructor | frontend/src/App.tsx:25-26 | starts on home with no lecture |
| AppShell.App.LectureGenerated | frontend/src/App.tsx:28-31 | from any view: the player view with the given lecture |
| AppShell.App.Back | frontend/src/App.tsx:33-36 | from any state: home with no lecture |
| AppShell.App.OpenGenerate | frontend/src/App.tsx:89-90 | from home, the generate view with the lecture kept |
| AppShell.App.Demo | frontend/src/App.tsx:103-154 | from home, the player view with the demo lecture |

## Left out

- The language model call, `json.loads`, the regex engine, the prompt text (`LECTURE_PROMPT`), `datetime`/`uuid` for the lecture id, directory creation and file writing, and the speech engine. These are I/O or nondeterminism. They appear as parameters, and a written file is a (name, content) value.
- JSON values of unexpected types: a `slides` value that is `null` or not a list, a `slides` entry that is not an object, a `slides` entry whose `title` or `script` is `null` or not a string, or a non-list `bullets`. Keys are present with a string value (or list of strings) or absent. The first two would raise outside the `try` at backend/main.py:221-225 (`len` of `None`, `.get` on a non-object), an unhandled error the server answers with 500.
- `list_lectures`, `root`, `health`, `configure_gemini` and `get_tts`: routing, directory scanning and engine loading.
- Three.js itself: scene, camera, lights, GLTF loading, mixer timing and weights, pixels, the resize handler, `renderer.dispose`, and DOM insertion and removal. An action is only "running" plus its fade direction. A texture is the list of drawing calls made on its canvas.
- `Object.keys` moves integer-like keys ahead of the others. The model keeps insertion order, which is right for non-numeric clip names.
- `toLowerCase` and Python's `str.lower()` (the quota test in backend/main.py:204) are modelled on ASCII letters only. This is exact for finding "quota", whose letters are ASCII. JavaScript lengths count UTF-16 units, while the model counts characters.
- The default values of the request fields (`duration` "short", `voice` "af_sky", `style` "educational", backend/main.py:55-57): the model takes a request with all four fields present, as the frontend always sends them.
- Logging: the `print` of a failed speech synthesis (backend/main.py:251) and the frontend's `console.log` and `console.error` calls.
- `ClassroomScene.Classroom`: `requestAnimationFrame` ids are taken to be non-zero, as browsers issue them. So the invariant that exactly one frame request is pending while a record exists (none once it is torn down) assumes `frameId` and `nextId` are not 0.
- React scheduling: batching, renders between a handler and its effects, and the re-mounting of the classroom's setup effect on every player render (new `onLoaded` and `slideContent` values).
- `AppShell.App.Back`: unmounting the player is not modelled on its audio element. The player's effect cleanup (frontend/src/components/LecturePlayer.tsx:63-65) only removes the `ended` listener and never pauses the element, so narration that is playing when Back is pressed keeps playing after the player is gone.
- The promise returned by `audio.play()` and its rejection; the media element's `ended` flag; play position beyond the `TimePasses` event; floating-point time.
- `LecturePlayer.Player`: the player's lecture is taken as fixed for the life of a mounted player. App.tsx renders the player without a `key`, and a late `onGenerated` can replace the lecture while the player stays mounted. That replacement is not modelled. React would then keep `currentSlide`, which may be out of range for the new lecture. `LecturePlayer.RunInBounds` holds only for steps over one fixed lecture.
- `LecturePlayer.Player`: the `ended` event is modelled as a handler run on the current state. The listener captured at the last effect run is not modelled separately. The two coincide because that effect re-runs whenever `currentSlide` changes.
- The rendered markup of the player and the home screen, apart from the guards and the script text.
- frontend/src/components/GenerateLecture.tsx, frontend/src/components/LoadingScreen.tsx, backend/generate_demo_audio.py, backend/test_api.py and frontend/vite.config.ts are not part of this model.
