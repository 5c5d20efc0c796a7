/**
 * The playback controller of frontend/src/components/LecturePlayer.tsx: the
 * slide cursor, the playing and muted flags, and the one `Audio` element the
 * three effects drive.
 *
 * React is modelled as sequential steps: a handler changes state, the
 * component re-renders, and then the effects whose dependencies changed run
 * in declaration order (the audio-source effect, the play/pause effect, the
 * mute effect). The audio element follows the HTML media rules the
 * component relies on: assigning `src` runs the load algorithm (the element
 * pauses and its position returns to 0), `play()` and `pause()` set
 * `paused`, and reaching the end of a clip pauses it before `ended` fires.
 *
 * The value functions (`Mounted`, `GoTo`, `OnEnded`, ...) say what each step
 * does; the class `LecturePlayer.Player` performs the steps in place and is
 * proved to follow them.
 */
module LecturePlayer {
  import opened Wrappers
  import opened LectureData

  // ------------------------------------------------------------ states as values

  /** What the model tracks of the `HTMLAudioElement`. */
  datatype AudioState = AudioState(src: string, muted: bool, paused: bool, currentTime: real)

  /** The component's state cells and its audio element. */
  datatype PlayerState = PlayerState(currentSlide: int, isPlaying: bool, isMuted: bool,
                                     classroomLoaded: bool, audio: AudioState)

  /** `slide?.audio_url` for the slide at `i`. */
  function AudioUrlAt(lecture: Lecture, i: int): Option<string>
  {
    if 0 <= i < |lecture.slides| then lecture.slides[i].audioUrl else None
  }

  /** `if (slide?.audio_url)`: the current slide has a non-empty audio URL. */
  predicate HasAudio(lecture: Lecture, i: int)
  {
    AudioUrlAt(lecture, i).Some? && AudioUrlAt(lecture, i).value != ""
  }

  /**
   * The audio-source effect: for a slide with audio, `src` is assigned (the
   * clip is loaded, paused at 0), `muted` is synced and the clip is played
   * when `isPlaying`; a slide without audio leaves the element alone.
   */
  function SourceSynced(lecture: Lecture, s: PlayerState): AudioState
  {
    if HasAudio(lecture, s.currentSlide) then
      AudioState(AudioUrlAt(lecture, s.currentSlide).value, s.isMuted, !s.isPlaying, 0.0)
    else s.audio
  }

  /**
   * The effects after a handler took the state from `before` to `after`:
   * the audio-source effect when the slide, `isPlaying` or `isMuted`
   * changed, then play/pause when `isPlaying` changed, then mute when
   * `isMuted` changed.
   */
  function Settled(lecture: Lecture, before: PlayerState, after: PlayerState): PlayerState
  {
    var slideChanged := before.currentSlide != after.currentSlide;
    var playChanged := before.isPlaying != after.isPlaying;
    var muteChanged := before.isMuted != after.isMuted;
    var a1 := if slideChanged || playChanged || muteChanged then SourceSynced(lecture, after) else after.audio;
    var a2 := if playChanged then a1.(paused := !after.isPlaying) else a1;
    var a3 := if muteChanged then a2.(muted := after.isMuted) else a2;
    after.(audio := a3)
  }

  /** The first render: slide 0, paused, unmuted, a new element, and every effect run once. */
  function Mounted(lecture: Lecture): PlayerState
  {
    var s := PlayerState(0, false, false, false, AudioState("", false, true, 0.0));
    var a1 := SourceSynced(lecture, s);
    s.(audio := a1.(paused := true, muted := false))
  }

  /** `goToSlide(index)`: in range, the slide is set and the audio paused and rewound; otherwise nothing. */
  function GoTo(lecture: Lecture, s: PlayerState, index: int): PlayerState
  {
    if 0 <= index < |lecture.slides| then
      Settled(lecture, s, s.(currentSlide := index, audio := s.audio.(paused := true, currentTime := 0.0)))
    else s
  }

  /** The clip plays to its end (pausing the element), then `handleEnded` advances or stops. */
  function OnEnded(lecture: Lecture, s: PlayerState): PlayerState
  {
    var done := s.(audio := s.audio.(paused := true));
    if s.currentSlide < |lecture.slides| - 1 then Settled(lecture, done, done.(currentSlide := s.currentSlide + 1))
    else Settled(lecture, done, done.(isPlaying := false))
  }

  /** `restart`: slide 0, not playing, the audio paused and rewound. */
  function Restarted(lecture: Lecture, s: PlayerState): PlayerState
  {
    Settled(lecture, s, s.(currentSlide := 0, isPlaying := false,
                           audio := s.audio.(paused := true, currentTime := 0.0)))
  }

  /** The play/pause button, which is disabled until the classroom has loaded. */
  function PlayToggled(lecture: Lecture, s: PlayerState): PlayerState
  {
    if s.classroomLoaded then Settled(lecture, s, s.(isPlaying := !s.isPlaying)) else s
  }

  /** The mute button. */
  function MuteToggled(lecture: Lecture, s: PlayerState): PlayerState
  {
    Settled(lecture, s, s.(isMuted := !s.isMuted))
  }

  /** The previous button, disabled on the first slide. */
  function Previous(lecture: Lecture, s: PlayerState): PlayerState
  {
    if s.currentSlide == 0 then s else GoTo(lecture, s, s.currentSlide - 1)
  }

  /** The next button, disabled on the last slide. */
  function Next(lecture: Lecture, s: PlayerState): PlayerState
  {
    if s.currentSlide == |lecture.slides| - 1 then s else GoTo(lecture, s, s.currentSlide + 1)
  }

  /** The classroom's `onLoaded` callback; no effect depends on the flag. */
  function ClassroomReady(s: PlayerState): PlayerState
  {
    s.(classroomLoaded := true)
  }

  /** Playback time passes: a playing clip advances by `dt` seconds. */
  function Elapsed(s: PlayerState, dt: real): PlayerState
  {
    if s.audio.paused then s else s.(audio := s.audio.(currentTime := s.audio.currentTime + dt))
  }

  /** `lecture.script[currentSlide] || 'No script available'`. */
  function ScriptText(lecture: Lecture, s: PlayerState): (text: string)
    ensures 0 <= s.currentSlide < |lecture.script| && lecture.script[s.currentSlide] != "" ==>
              text == lecture.script[s.currentSlide]
    ensures !(0 <= s.currentSlide < |lecture.script| && lecture.script[s.currentSlide] != "") ==>
              text == "No script available"
  {
    if 0 <= s.currentSlide < |lecture.script| && lecture.script[s.currentSlide] != "" then lecture.script[s.currentSlide]
    else "No script available"
  }

  // ------------------------------------------------------------ properties of the steps

  /** The cursor is on a slide, or at 0 for a lecture without slides. */
  predicate InBounds(lecture: Lecture, s: PlayerState)
  {
    0 <= s.currentSlide && (s.currentSlide < |lecture.slides| || s.currentSlide == 0)
  }

  /** One user action or media event. */
  datatype Event = GoToSlide(index: int) | Ended | Restart | TogglePlay | ToggleMute
                 | PreviousSlide | NextSlide | ClassroomLoaded | TimePasses(dt: real)

  function Step(lecture: Lecture, s: PlayerState, e: Event): PlayerState
  {
    match e
    case GoToSlide(i) => GoTo(lecture, s, i)
    case Ended => OnEnded(lecture, s)
    case Restart => Restarted(lecture, s)
    case TogglePlay => PlayToggled(lecture, s)
    case ToggleMute => MuteToggled(lecture, s)
    case PreviousSlide => Previous(lecture, s)
    case NextSlide => Next(lecture, s)
    case ClassroomLoaded => ClassroomReady(s)
    case TimePasses(dt) => Elapsed(s, dt)
  }

  /** The state after `events`, in order. */
  function Run(lecture: Lecture, s: PlayerState, events: seq<Event>): PlayerState
    decreases |events|
  {
    if events == [] then s else Run(lecture, Step(lecture, s, events[0]), events[1..])
  }

  /** The effects only touch the audio element. */
  lemma SettledKeepsCells(lecture: Lecture, before: PlayerState, after: PlayerState)
    ensures var r := Settled(lecture, before, after);
      r.currentSlide == after.currentSlide && r.isPlaying == after.isPlaying
      && r.isMuted == after.isMuted && r.classroomLoaded == after.classroomLoaded
  {
  }

  /** Every step keeps the cursor in bounds. */
  lemma StepInBounds(lecture: Lecture, s: PlayerState, e: Event)
    requires InBounds(lecture, s)
    ensures InBounds(lecture, Step(lecture, s, e))
  {
    match e
    case GoToSlide(i) =>
      SettledKeepsCells(lecture, s, s.(currentSlide := i, audio := s.audio.(paused := true, currentTime := 0.0)));
    case Ended =>
    case Restart =>
    case TogglePlay =>
    case ToggleMute =>
    case PreviousSlide =>
    case NextSlide =>
    case ClassroomLoaded =>
    case TimePasses(dt) =>
  }

  /** The bounds invariant: from the first render, any sequence of steps keeps the cursor on a slide. */
  lemma {:induction false} RunInBounds(lecture: Lecture, s: PlayerState, events: seq<Event>)
    requires InBounds(lecture, s)
    ensures InBounds(lecture, Run(lecture, s, events))
    decreases |events|
  {
    if events != [] {
      StepInBounds(lecture, s, events[0]);
      RunInBounds(lecture, Step(lecture, s, events[0]), events[1..]);
    }
  }

  /**
   * The script panel in every state the player reaches from its first render,
   * for a lecture with one script per slide: the current slide's script, or
   * "No script available" exactly when that script is empty, and always for
   * a lecture without slides.
   */
  lemma ScriptPanelFollowsCursor(lecture: Lecture, events: seq<Event>)
    requires |lecture.script| == |lecture.slides|
    ensures var s := Run(lecture, Mounted(lecture), events);
      && (|lecture.slides| == 0 ==> ScriptText(lecture, s) == "No script available")
      && (|lecture.slides| > 0 ==>
           && 0 <= s.currentSlide < |lecture.script|
           && (lecture.script[s.currentSlide] != "" ==> ScriptText(lecture, s) == lecture.script[s.currentSlide])
           && (lecture.script[s.currentSlide] == "" ==> ScriptText(lecture, s) == "No script available"))
  {
    MountedInBounds(lecture);
    RunInBounds(lecture, Mounted(lecture), events);
  }

  /** Going to slide `i` shows that slide's script, or the placeholder when it is empty. */
  lemma ScriptPanelAfterGoTo(lecture: Lecture, s: PlayerState, i: int)
    requires |lecture.script| == |lecture.slides| && 0 <= i < |lecture.slides|
    ensures lecture.script[i] != "" ==> ScriptText(lecture, GoTo(lecture, s, i)) == lecture.script[i]
    ensures lecture.script[i] == "" ==> ScriptText(lecture, GoTo(lecture, s, i)) == "No script available"
  {
    GoToSlideEffect(lecture, s, i);
  }

  lemma MountedInBounds(lecture: Lecture)
    ensures var s := Mounted(lecture);
      && InBounds(lecture, s) && s.currentSlide == 0 && !s.isPlaying && !s.isMuted && !s.classroomLoaded
      && s.audio.paused && s.audio.currentTime == 0.0 && !s.audio.muted
      && (HasAudio(lecture, 0) ==> s.audio.src == lecture.slides[0].audioUrl.value)
      && (!HasAudio(lecture, 0) ==> s.audio.src == "")
  {
  }

  /**
   * `goToSlide`: an index in range becomes the cursor with the playing and
   * muted flags kept; the audio ends up rewound to 0, paused unless the
   * slide changed to one with audio while playing, in which case that
   * slide's clip is loaded and playing. Any other index changes nothing.
   */
  lemma GoToSlideEffect(lecture: Lecture, s: PlayerState, index: int)
    ensures var r := GoTo(lecture, s, index);
      && (!(0 <= index < |lecture.slides|) ==> r == s)
      && (0 <= index < |lecture.slides| ==>
           && r.currentSlide == index && r.isPlaying == s.isPlaying && r.isMuted == s.isMuted
           && r.classroomLoaded == s.classroomLoaded && r.audio.currentTime == 0.0
           && (index != s.currentSlide && HasAudio(lecture, index) ==>
                r.audio == AudioState(lecture.slides[index].audioUrl.value, s.isMuted, !s.isPlaying, 0.0))
           && (index == s.currentSlide || !HasAudio(lecture, index) ==>
                r.audio == s.audio.(paused := true, currentTime := 0.0)))
  {
  }

  /**
   * The end of a clip on a slide before the last advances the cursor by one
   * and keeps playing; the next slide's clip, if it has one, is loaded from
   * its start and plays while `isPlaying`.
   */
  lemma EndedAdvances(lecture: Lecture, s: PlayerState)
    requires s.currentSlide < |lecture.slides| - 1
    ensures var r := OnEnded(lecture, s);
      && r.currentSlide == s.currentSlide + 1 && r.isPlaying == s.isPlaying && r.isMuted == s.isMuted
      && (HasAudio(lecture, r.currentSlide) ==>
           r.audio == AudioState(AudioUrlAt(lecture, r.currentSlide).value, s.isMuted, !s.isPlaying, 0.0))
      && (!HasAudio(lecture, r.currentSlide) ==> r.audio == s.audio.(paused := true))
  {
  }

  /** The end of a clip on the last slide stops playback and keeps the cursor; the audio is left paused. */
  lemma EndedAtLastSlide(lecture: Lecture, s: PlayerState)
    requires s.currentSlide >= |lecture.slides| - 1
    ensures var r := OnEnded(lecture, s);
      && r.currentSlide == s.currentSlide && !r.isPlaying && r.isMuted == s.isMuted
      && r.audio.paused
      && (s.isPlaying && HasAudio(lecture, s.currentSlide) ==> r.audio.currentTime == 0.0)
  {
  }

  /** `restart` always lands on slide 0, not playing, with the audio paused at 0. */
  lemma RestartResets(lecture: Lecture, s: PlayerState)
    ensures var r := Restarted(lecture, s);
      && r.currentSlide == 0 && !r.isPlaying && r.isMuted == s.isMuted
      && r.audio.paused && r.audio.currentTime == 0.0
  {
  }

  /**
   * The mute button flips `isMuted` and the element's `muted` and leaves
   * the slide and the playing flag alone. Because the audio-source effect
   * also depends on `isMuted`, a slide with audio is reloaded from its start.
   */
  lemma MuteToggleEffect(lecture: Lecture, s: PlayerState)
    ensures var r := MuteToggled(lecture, s);
      && r.isMuted == !s.isMuted && r.audio.muted == r.isMuted
      && r.currentSlide == s.currentSlide && r.isPlaying == s.isPlaying
      && r.classroomLoaded == s.classroomLoaded
      && (HasAudio(lecture, s.currentSlide) ==> r.audio.currentTime == 0.0 && r.audio.paused == !s.isPlaying)
      && (!HasAudio(lecture, s.currentSlide) ==> r.audio == s.audio.(muted := r.isMuted))
  {
  }

  /**
   * Once the classroom has loaded, the play button flips `isPlaying` and the
   * element plays exactly while it is set; before that the button does
   * nothing. Resuming a slide with audio starts its clip again from 0,
   * since the audio-source effect reloads it.
   */
  lemma PlayToggleEffect(lecture: Lecture, s: PlayerState)
    ensures var r := PlayToggled(lecture, s);
      && (!s.classroomLoaded ==> r == s)
      && (s.classroomLoaded ==>
           && r.isPlaying == !s.isPlaying && r.audio.paused == !r.isPlaying
           && r.currentSlide == s.currentSlide && r.isMuted == s.isMuted
           && (HasAudio(lecture, s.currentSlide) ==> r.audio.currentTime == 0.0)
           && (!HasAudio(lecture, s.currentSlide) ==> r.audio.currentTime == s.audio.currentTime))
  {
  }

  /**
   * While playing, `k` ended events move the cursor `k` slides on when that
   * stays before the last slide; once they reach past it, the cursor rests
   * on the last slide and playback has stopped.
   */
  lemma {:induction false} EndedRun(lecture: Lecture, s: PlayerState, k: nat)
    requires 0 <= s.currentSlide < |lecture.slides| && s.isPlaying
    ensures var r := Run(lecture, s, seq(k, _ => Ended));
      && (s.currentSlide + k < |lecture.slides| ==> r.currentSlide == s.currentSlide + k && r.isPlaying)
      && (s.currentSlide + k >= |lecture.slides| ==> r.currentSlide == |lecture.slides| - 1 && !r.isPlaying)
    decreases k
  {
    var events := seq(k, _ => Ended);
    if k > 0 {
      var next := OnEnded(lecture, s);
      assert events[1..] == seq(k - 1, _ => Ended);
      if s.currentSlide < |lecture.slides| - 1 {
        EndedAdvances(lecture, s);
        EndedRun(lecture, next, k - 1);
      } else {
        EndedAtLastSlide(lecture, s);
        EndedStays(lecture, next, k - 1);
      }
    }
  }

  /** Once stopped on the last slide, further ended events change neither the cursor nor the flag. */
  lemma {:induction false} EndedStays(lecture: Lecture, s: PlayerState, k: nat)
    requires s.currentSlide == |lecture.slides| - 1 && !s.isPlaying
    ensures var r := Run(lecture, s, seq(k, _ => Ended));
      r.currentSlide == s.currentSlide && !r.isPlaying
    decreases k
  {
    if k > 0 {
      assert seq(k, _ => Ended)[1..] == seq(k - 1, _ => Ended);
      EndedAtLastSlide(lecture, s);
      EndedStays(lecture, OnEnded(lecture, s), k - 1);
    }
  }

  /**
   * A three-slide lecture: once the classroom has loaded, play and then three
   * ended events leave the cursor on the third slide with playback stopped.
   */
  lemma ThreeSlideLecture(lecture: Lecture)
    requires |lecture.slides| == 3
    ensures var r := Run(lecture, Mounted(lecture), [ClassroomLoaded, TogglePlay, Ended, Ended, Ended]);
      r.currentSlide == 2 && !r.isPlaying
  {
    var events := [ClassroomLoaded, TogglePlay, Ended, Ended, Ended];
    var s := Step(lecture, Step(lecture, Mounted(lecture), ClassroomLoaded), TogglePlay);
    assert events[1..][1..] == seq(3, _ => Ended);
    EndedRun(lecture, s, 3);
  }

  // ------------------------------------------------------------ the component

  /** The `Audio()` element held in `audioRef`. */
  class AudioElement {
    var src: string
    var muted: bool
    var paused: bool
    var currentTime: real

    function State(): AudioState
      reads this
    {
      AudioState(src, muted, paused, currentTime)
    }

    /** `new Audio()`: no source, not muted, paused at 0. */
    constructor ()
      ensures State() == AudioState("", false, true, 0.0)
    {
      src, muted, paused, currentTime := "", false, true, 0.0;
    }

    /** Assigning `src` runs the load algorithm: the element pauses and rewinds. */
    method SetSource(url: string)
      modifies this
      ensures State() == old(State()).(src := url, paused := true, currentTime := 0.0)
    {
      src, paused, currentTime := url, true, 0.0;
    }

    method SetMuted(m: bool)
      modifies this
      ensures State() == old(State()).(muted := m)
    {
      muted := m;
    }

    /** `play()`; the promise it returns is not modelled. */
    method Play()
      modifies this
      ensures State() == old(State()).(paused := false)
    {
      paused := false;
    }

    method Pause()
      modifies this
      ensures State() == old(State()).(paused := true)
    {
      paused := true;
    }

    method Rewind()
      modifies this
      ensures State() == old(State()).(currentTime := 0.0)
    {
      currentTime := 0.0;
    }
  }

  /** A mounted `LecturePlayer` for one lecture. */
  class Player {
    const lecture: Lecture
    const audio: AudioElement
    var currentSlide: int
    var isPlaying: bool
    var isMuted: bool
    var classroomLoaded: bool

    function State(): PlayerState
      reads this, audio
    {
      PlayerState(currentSlide, isPlaying, isMuted, classroomLoaded, audio.State())
    }

    ghost predicate Valid()
      reads this, audio
    {
      InBounds(lecture, State())
    }

    /** The audio-source effect. */
    method SyncSource()
      modifies audio
      ensures audio.State() == SourceSynced(lecture, old(State()))
    {
      var url := AudioUrlAt(lecture, currentSlide);
      if url.Some? && url.value != "" {
        audio.SetSource(url.value);
        audio.SetMuted(isMuted);
        if isPlaying {
          audio.Play();
        }
      }
    }

    /** The effects that run after a handler moved the state on from `before`. */
    method RunEffects(before: PlayerState)
      modifies audio
      ensures State() == Settled(lecture, before, old(State()))
    {
      if before.currentSlide != currentSlide || before.isPlaying != isPlaying || before.isMuted != isMuted {
        SyncSource();
      }
      if before.isPlaying != isPlaying {
        if isPlaying {
          audio.Play();
        } else {
          audio.Pause();
        }
      }
      if before.isMuted != isMuted {
        audio.SetMuted(isMuted);
      }
    }

    /** The first render and its effects. */
    constructor (lecture: Lecture)
      ensures this.lecture == lecture && State() == Mounted(lecture) && Valid() && fresh(audio)
    {
      this.lecture := lecture;
      currentSlide, isPlaying, isMuted, classroomLoaded := 0, false, false, false;
      audio := new AudioElement();
      new;
      SyncSource();
      audio.Pause();
      audio.SetMuted(false);
    }

    method GoToSlide(index: int)
      requires Valid()
      modifies this, audio
      ensures Valid() && State() == GoTo(lecture, old(State()), index)
    {
      StepInBounds(lecture, State(), Event.GoToSlide(index));
      if 0 <= index < |lecture.slides| {
        var before := State();
        currentSlide := index;
        audio.Pause();
        audio.Rewind();
        RunEffects(before);
      }
    }

    /** The element reaches the end of its clip and fires `ended`. */
    method HandleEnded()
      requires Valid()
      modifies this, audio
      ensures Valid() && State() == OnEnded(lecture, old(State()))
    {
      StepInBounds(lecture, State(), Ended);
      audio.Pause();
      var before := State();
      if currentSlide < |lecture.slides| - 1 {
        currentSlide := currentSlide + 1;
      } else {
        isPlaying := false;
      }
      RunEffects(before);
    }

    method Restart()
      requires Valid()
      modifies this, audio
      ensures Valid() && State() == Restarted(lecture, old(State()))
    {
      StepInBounds(lecture, State(), Event.Restart);
      var before := State();
      currentSlide := 0;
      isPlaying := false;
      audio.Pause();
      audio.Rewind();
      RunEffects(before);
    }

    method TogglePlay()
      requires Valid()
      modifies this, audio
      ensures Valid() && State() == PlayToggled(lecture, old(State()))
    {
      StepInBounds(lecture, State(), Event.TogglePlay);
      if classroomLoaded {
        var before := State();
        isPlaying := !isPlaying;
        RunEffects(before);
      }
    }

    method ToggleMute()
      requires Valid()
      modifies this, audio
      ensures Valid() && State() == MuteToggled(lecture, old(State()))
    {
      StepInBounds(lecture, State(), Event.ToggleMute);
      var before := State();
      isMuted := !isMuted;
      RunEffects(before);
    }

    method PreviousSlide()
      requires Valid()
      modifies this, audio
      ensures Valid() && State() == Previous(lecture, old(State()))
    {
      if currentSlide != 0 {
        GoToSlide(currentSlide - 1);
      }
    }

    method NextSlide()
      requires Valid()
      modifies this, audio
      ensures Valid() && State() == Next(lecture, old(State()))
    {
      if currentSlide != |lecture.slides| - 1 {
        GoToSlide(currentSlide + 1);
      }
    }

    method OnClassroomLoaded()
      requires Valid()
      modifies this
      ensures Valid() && State() == ClassroomReady(old(State()))
    {
      classroomLoaded := true;
    }
  }
}
