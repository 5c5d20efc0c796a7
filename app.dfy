/**
 * The top-level screen switch of frontend/src/App.tsx: two state cells, the
 * current view and the lecture being shown, which the handlers overwrite,
 * and the guards that decide what the page renders.
 */
module AppShell {
  import opened Wrappers
  import opened LectureData

  datatype View = Home | Generate | Player

  /** What one render of `App` shows. */
  datatype Page = Page(backButton: bool, homeScreen: bool, generateScreen: bool, player: Option<Lecture>)

  /**
   * The render guards: the Back button unless on the home view, the home
   * and generate screens on their views, and the player only on the player
   * view and only with a lecture.
   */
  function Render(view: View, lecture: Option<Lecture>): (page: Page)
    ensures page.backButton <==> view != Home
    ensures page.homeScreen <==> view == Home
    ensures page.generateScreen <==> view == Generate
    ensures page.player.Some? <==> view == Player && lecture.Some?
    ensures page.player.Some? ==> page.player == lecture
  {
    Page(view != Home, view == Home, view == Generate,
         if view == Player then lecture else None)
  }

  /** The states the handlers can reach: the player view always has a lecture. */
  predicate Reachable(view: View, lecture: Option<Lecture>)
  {
    view == Player ==> lecture.Some?
  }

  /** In every reachable state exactly one screen is rendered. */
  lemma OneScreen(view: View, lecture: Option<Lecture>)
    requires Reachable(view, lecture)
    ensures var page := Render(view, lecture);
      (if page.homeScreen then 1 else 0) + (if page.generateScreen then 1 else 0)
      + (if page.player.Some? then 1 else 0) == 1
  {
  }

  /** The lecture the demo card loads: three narrated slides without audio. */
  function DemoLecture(): Lecture
  {
    Lecture("demo", "Demo: How AetherLearn Works",
      seq(3, i => DemoSlide(i + 1)), seq(3, i => DemoNarration(i + 1)))
  }

  /** The demo's slide `n`: its title and bullets, no SVG and no audio. */
  function DemoSlide(n: int): Slide
  {
    Slide(n, DemoTitle(n), DemoBullets(n), "", None)
  }

  function DemoTitle(n: int): string
  {
    if n == 1 then "Welcome to AetherLearn" else if n == 2 then "How It Works" else "Powered by Advanced AI"
  }

  /** The bullets of the demo's slide `n`. */
  function DemoBullets(n: int): seq<string>
  {
    if n == 1 then
      [ "AI-powered lecture generation",
        "Immersive 3D classroom environment",
        "Natural text-to-speech narration",
        "Interactive visual learning" ]
    else if n == 2 then
      [ "1. Enter any topic you want to learn",
        "2. AI generates script and slides",
        "3. Kokoro TTS creates natural voice",
        "4. Watch in immersive 3D classroom" ]
    else
      [ "Google Gemini for content generation",
        "Kokoro ONNX for realistic speech",
        "Three.js for 3D graphics",
        "FastAPI backend, React frontend" ]
  }

  /** The demo's narration for slide `n`. */
  function DemoNarration(n: int): string
  {
    if n == 1 then
      "Welcome to AetherLearn! This is a revolutionary AI-powered learning platform that transforms any topic into an immersive 3D classroom experience."
    else if n == 2 then
      "Here is how it works: Simply enter a topic, and our AI generates both a lecture script and visual slides. Then, our text-to-speech engine creates natural narration."
    else
      "The platform is powered by cutting-edge AI technologies including Google Gemini for intelligent content generation and Kokoro for human-like speech synthesis."
  }

  /**
   * The demo lecture's slides are numbered 1, 2, 3 in order, there is one
   * script entry per slide, and no slide has audio.
   */
  lemma DemoLectureShape()
    ensures var d := DemoLecture();
      && |d.slides| == 3 && |d.script| == |d.slides|
      && (forall i :: 0 <= i < |d.slides| ==> d.slides[i].slideNum == i + 1)
      && (forall i :: 0 <= i < |d.slides| ==> d.slides[i].audioUrl.None?)
      && (forall i :: 0 <= i < |d.slides| ==> |d.slides[i].bullets| == 4)
  {
    hide DemoTitle, DemoNarration;
  }

  /** The `App` component's state. */
  class App {
    var view: View
    var lecture: Option<Lecture>

    predicate Valid()
      reads this
    {
      Reachable(view, lecture)
    }

    /** The first render: the home view and no lecture. */
    constructor ()
      ensures Valid() && view == Home && lecture == None
    {
      view, lecture := Home, None;
    }

    /**
     * `handleLectureGenerated`: the generate screen's callback shows the
     * lecture in the player. It can arrive on any view, since the request
     * it answers may finish after the user has gone back.
     */
    method LectureGenerated(data: Lecture)
      requires Valid()
      modifies this
      ensures Valid() && view == Player && lecture == Some(data)
    {
      lecture := Some(data);
      view := Player;
    }

    /** `handleBack`, from the Back button or the logo: home, with the lecture dropped. */
    method Back()
      requires Valid()
      modifies this
      ensures Valid() && view == Home && lecture == None
    {
      view := Home;
      lecture := None;
    }

    /** The "Generate Lecture" card, rendered only on the home view. */
    method OpenGenerate()
      requires Valid()
      modifies this
      ensures Valid()
      ensures old(view) == Home ==> view == Generate && lecture == old(lecture)
      ensures old(view) != Home ==> unchanged(this)
    {
      if view == Home {
        view := Generate;
      }
    }

    /** The "Try Demo" card, rendered only on the home view: the player with the demo lecture. */
    method Demo()
      requires Valid()
      modifies this
      ensures Valid()
      ensures old(view) == Home ==> view == Player && lecture == Some(DemoLecture())
      ensures old(view) != Home ==> unchanged(this)
    {
      hide DemoLecture;
      if view == Home {
        lecture := Some(DemoLecture());
        view := Player;
      }
    }
  }
}
