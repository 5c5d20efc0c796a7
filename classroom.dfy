/**
 * The logic of the 3D classroom component (frontend/src/components/Classroom.tsx):
 * what `createSlideTexture` draws on the whiteboard canvas and where, which
 * animation clip is started when narration starts or stops, and the life of
 * the scene record (set up once, filled by the two model loaders, driven by
 * the frame loop, cleared by the teardown).
 *
 * Three.js itself (scene graph, camera, lights, GLTF loading, the mixer's
 * timing, pixels) is not modelled: a canvas is the sequence of drawing calls
 * made on it, an animation action is whether it runs and how it fades, and
 * a loaded model is the list of its clip names.
 */
module ClassroomScene {
  import opened Wrappers
  import opened Text

  // ------------------------------------------------------------ the slide texture

  const CanvasWidth := 1024
  const CanvasHeight := 576
  /** At most this many bullets are drawn. */
  const DrawnBulletLimit := 5
  /** The drawn title is cut to this many characters, without an ellipsis. */
  const TitleChars := 40
  /** A longer bullet is cut to this many characters and gets "...". */
  const BulletChars := 50
  /** The running `y` of the first bullet, and its step. */
  const FirstBulletY := 180
  const BulletSpacing := 60

  /** A canvas fill or stroke style. */
  datatype Paint = Color(css: string) | Gradient(from: string, to: string)

  datatype Align = Left | Center

  /** One drawing call made on the 2D context (arcs are full circles). */
  datatype CanvasOp =
    | FillRect(paint: Paint, x: int, y: int, width: int, height: int)
    | StrokeRect(paint: Paint, lineWidth: int, x: int, y: int, width: int, height: int)
    | FillCircle(paint: Paint, cx: int, cy: int, radius: int)
    | FillText(paint: Paint, font: string, align: Align, text: string, x: int, y: int)

  /** A `CanvasTexture` over a canvas of the given size, drawn by `ops` in order. */
  datatype SlideTexture = SlideTexture(width: int, height: int, ops: seq<CanvasOp>)

  /** The slide shown on the whiteboard: the `slideContent` prop. */
  datatype SlideContent = SlideContent(title: string, bullets: seq<string>)

  /** `bullet.length > 50 ? bullet.substring(0, 50) + '...' : bullet`. */
  function DrawnBullet(bullet: string): (text: string)
    ensures |bullet| <= BulletChars ==> text == bullet
    ensures |bullet| > BulletChars ==> |text| == BulletChars + 3 && text[..BulletChars] == bullet[..BulletChars]
                                       && text[BulletChars..] == "..."
  {
    if |bullet| > BulletChars then bullet[..BulletChars] + "..." else bullet
  }

  /** Background gradient, border, title band and the centred title. */
  function Heading(title: string): seq<CanvasOp>
  {
    [ FillRect(Gradient("#1e1b4b", "#312e81"), 0, 0, CanvasWidth, CanvasHeight),
      StrokeRect(Color("#4338ca"), 4, 20, 20, 984, 536),
      FillRect(Color("rgba(67, 56, 202, 0.3)"), 40, 40, 944, 80),
      FillText(Color("#ffffff"), "bold 36px Arial", Center, Prefix(title, TitleChars), 512, 95) ]
  }

  /** The dot and the text of one bullet drawn at running position `y`. */
  function BulletDraw(bullet: string, y: int): seq<CanvasOp>
  {
    [ FillCircle(Color("#818cf8"), 70, y + 8, 8),
      FillText(Color("#e0e0e0"), "24px Arial", Left, DrawnBullet(bullet), 95, y + 15) ]
  }

  /** The drawing calls of the first `n` of `bullets`, the k-th (0-based) at y = 180 + 60k. */
  function BulletOps(bullets: seq<string>, n: nat): seq<CanvasOp>
    requires n <= |bullets|
  {
    if n == 0 then []
    else BulletOps(bullets, n - 1) + BulletDraw(bullets[n - 1], FirstBulletY + BulletSpacing * (n - 1))
  }

  /** Everything `createSlideTexture(title, bullets)` draws, in order. */
  function TextureOps(title: string, bullets: seq<string>): seq<CanvasOp>
  {
    var shown := Prefix(bullets, DrawnBulletLimit);
    Heading(title) + BulletOps(shown, |shown|)
    + [FillText(Color("#6366f1"), "16px Arial", Center, "AetherLearn AI", 512, 540)]
  }

  /**
   * `createSlideTexture`: the fixed background and title, then a loop over
   * the first five bullets that draws each at the running `y` and steps `y`
   * by 60, then the footer.
   */
  method CreateSlideTexture(title: string, bullets: seq<string>) returns (texture: SlideTexture)
    ensures texture == SlideTexture(CanvasWidth, CanvasHeight, TextureOps(title, bullets))
  {
    var ops := Heading(title);
    var shown := Prefix(bullets, 5);
    var y := 180;
    var i := 0;
    while i < |shown|
      invariant 0 <= i <= |shown|
      invariant y == FirstBulletY + BulletSpacing * i
      invariant ops == Heading(title) + BulletOps(shown, i)
    {
      var bullet := shown[i];
      ops := ops + [FillCircle(Color("#818cf8"), 70, y + 8, 8)];
      var text := if |bullet| > 50 then bullet[..50] + "..." else bullet;
      ops := ops + [FillText(Color("#e0e0e0"), "24px Arial", Left, text, 95, y + 15)];
      y := y + 60;
      i := i + 1;
    }
    ops := ops + [FillText(Color("#6366f1"), "16px Arial", Center, "AetherLearn AI", 512, 540)];
    texture := SlideTexture(1024, 576, ops);
  }

  /** The bullet part: two calls per bullet, the dot 8 and the baseline 15 below the running `y`. */
  lemma {:induction false} BulletOpsAt(bullets: seq<string>, n: nat, k: nat)
    requires k < n <= |bullets|
    ensures |BulletOps(bullets, n)| == 2 * n
    ensures BulletOps(bullets, n)[2 * k] == FillCircle(Color("#818cf8"), 70, 180 + 60 * k + 8, 8)
    ensures BulletOps(bullets, n)[2 * k + 1]
            == FillText(Color("#e0e0e0"), "24px Arial", Left, DrawnBullet(bullets[k]), 95, 180 + 60 * k + 15)
  {
    BulletOpsLength(bullets, n - 1);
    if k < n - 1 {
      BulletOpsAt(bullets, n - 1, k);
    }
  }

  lemma {:induction false} BulletOpsLength(bullets: seq<string>, n: nat)
    requires n <= |bullets|
    ensures |BulletOps(bullets, n)| == 2 * n
  {
    if n > 0 {
      BulletOpsLength(bullets, n - 1);
    }
  }

  /**
   * The layout of the texture: the title cut to 40 characters centred at
   * (512, 95), then for each of the first five bullets a dot at (70, y + 8)
   * and its text at (95, y + 15) with y = 180 + 60k, then the footer
   * "AetherLearn AI" centred at (512, 540).
   */
  lemma TextureLayout(title: string, bullets: seq<string>, k: nat)
    ensures var ops := TextureOps(title, bullets);
      var count := if |bullets| < 5 then |bullets| else 5;
      && |ops| == 5 + 2 * count
      && ops[3] == FillText(Color("#ffffff"), "bold 36px Arial", Center, Prefix(title, 40), 512, 95)
      && |Prefix(title, 40)| == (if |title| < 40 then |title| else 40)
      && ops[|ops| - 1] == FillText(Color("#6366f1"), "16px Arial", Center, "AetherLearn AI", 512, 540)
      && (k < count ==>
           && ops[4 + 2 * k] == FillCircle(Color("#818cf8"), 70, 180 + 60 * k + 8, 8)
           && ops[5 + 2 * k] == FillText(Color("#e0e0e0"), "24px Arial", Left, DrawnBullet(bullets[k]),
                                         95, 180 + 60 * k + 15))
  {
    var shown := Prefix(bullets, DrawnBulletLimit);
    BulletOpsLength(shown, |shown|);
    if k < |shown| {
      BulletOpsAt(shown, |shown|, k);
      assert shown[k] == bullets[k];
    }
  }

  /** The strings drawn by `ops`, in drawing order. */
  function TextsOf(ops: seq<CanvasOp>): seq<string>
  {
    if ops == [] then []
    else (if ops[0].FillText? then [ops[0].text] else []) + TextsOf(ops[1..])
  }

  lemma {:induction false} TextsOfAppend(a: seq<CanvasOp>, b: seq<CanvasOp>)
    ensures TextsOf(a + b) == TextsOf(a) + TextsOf(b)
  {
    if a != [] {
      assert (a + b)[1..] == a[1..] + b;
      TextsOfAppend(a[1..], b);
    } else {
      assert a + b == b;
    }
  }

  lemma TextsOfOne(op: CanvasOp)
    ensures TextsOf([op]) == if op.FillText? then [op.text] else []
  {
    assert [op][1..] == [];
  }

  /** The texts of the bullets as drawn. */
  function DrawnBullets(bullets: seq<string>, n: nat): seq<string>
    requires n <= |bullets|
  {
    if n == 0 then [] else DrawnBullets(bullets, n - 1) + [DrawnBullet(bullets[n - 1])]
  }

  /** Of the heading's four calls only the title draws text. */
  lemma HeadingTexts(title: string)
    ensures TextsOf(Heading(title)) == [Prefix(title, TitleChars)]
  {
    var head := Heading(title);
    assert head == [head[0]] + [head[1]] + [head[2]] + [head[3]];
    hide TextsOf;
    TextsOfAppend([head[0]] + [head[1]] + [head[2]], [head[3]]);
    TextsOfAppend([head[0]] + [head[1]], [head[2]]);
    TextsOfAppend([head[0]], [head[1]]);
    TextsOfOne(head[0]);
    TextsOfOne(head[1]);
    TextsOfOne(head[2]);
    TextsOfOne(head[3]);
  }

  /** A bullet's dot draws no text; its text call draws the bullet as shown. */
  lemma BulletDrawTexts(bullet: string, y: int)
    ensures TextsOf(BulletDraw(bullet, y)) == [DrawnBullet(bullet)]
  {
    var draw := BulletDraw(bullet, y);
    assert draw == [draw[0]] + [draw[1]];
    hide TextsOf;
    TextsOfAppend([draw[0]], [draw[1]]);
    TextsOfOne(draw[0]);
    TextsOfOne(draw[1]);
  }

  lemma {:induction false} BulletTexts(bullets: seq<string>, n: nat)
    requires n <= |bullets|
    ensures TextsOf(BulletOps(bullets, n)) == DrawnBullets(bullets, n)
  {
    if n > 0 {
      hide TextsOf, BulletDraw;
      var y := FirstBulletY + BulletSpacing * (n - 1);
      BulletTexts(bullets, n - 1);
      TextsOfAppend(BulletOps(bullets, n - 1), BulletDraw(bullets[n - 1], y));
      BulletDrawTexts(bullets[n - 1], y);
    }
  }

  /**
   * Exactly these strings are drawn, in this order: the title's first 40
   * characters, the first five bullets (each as `DrawnBullet` shows it), and
   * "AetherLearn AI".
   */
  lemma DrawnTexts(title: string, bullets: seq<string>)
    ensures var shown := Prefix(bullets, 5);
      TextsOf(TextureOps(title, bullets)) == [Prefix(title, 40)] + DrawnBullets(shown, |shown|) + ["AetherLearn AI"]
  {
    hide TextsOf, Heading, BulletOps, DrawnBullets;
    var shown := Prefix(bullets, DrawnBulletLimit);
    var head, body := Heading(title), BulletOps(shown, |shown|);
    var footer := FillText(Color("#6366f1"), "16px Arial", Center, "AetherLearn AI", 512, 540);
    TextsOfAppend(head + body, [footer]);
    TextsOfAppend(head, body);
    HeadingTexts(title);
    BulletTexts(shown, |shown|);
    TextsOfOne(footer);
  }

  // ------------------------------------------------------------ clip resolution

  /** Index i is the first of `names` that satisfies `p`. */
  ghost predicate FirstWhere(names: seq<string>, p: string -> bool, i: int)
  {
    0 <= i < |names| && p(names[i]) && forall j :: 0 <= j < i ==> !p(names[j])
  }

  lemma FirstWhereUnique(names: seq<string>, p: string -> bool, i: int, j: int)
    requires FirstWhere(names, p, i) && FirstWhere(names, p, j)
    ensures i == j
  {
  }

  /** The index `names.find(p)` stops at. */
  function FindIndex(names: seq<string>, p: string -> bool): (r: Option<nat>)
    ensures r.None? <==> forall i :: 0 <= i < |names| ==> !p(names[i])
    ensures r.Some? ==> FirstWhere(names, p, r.value)
  {
    if names == [] then None
    else if p(names[0]) then Some(0)
    else match FindIndex(names[1..], p)
      case None => None
      case Some(i) => Some(i + 1)
  }

  /** `names.find(p)`: the first name satisfying `p`, or undefined. */
  function Find(names: seq<string>, p: string -> bool): Option<string>
  {
    match FindIndex(names, p)
    case None => None
    case Some(i) => Some(names[i])
  }

  /** A JavaScript value of type `string | undefined` is truthy: defined and not empty. */
  predicate Truthy(v: Option<string>)
  {
    v.Some? && v.value != ""
  }

  /** `a || b` on two values of type `string | undefined`. */
  function Or(a: Option<string>, b: Option<string>): Option<string>
  {
    if Truthy(a) then a else b
  }

  predicate IsSpeakingClip(name: string) { name == "speaking.001" }
  predicate MentionsSpeaking(name: string) { Contains(Lower(name), "speaking") }
  predicate MentionsTalk(name: string) { Contains(Lower(name), "talk") }
  predicate MentionsBreathing(name: string) { Contains(Lower(name), "breathing") }
  predicate IsIdleClip(name: string) { name == "Idle" || Lower(name) == "idle" }

  /** The clip played while the lecturer speaks (`activeAnim`). */
  function SpeakingClip(names: seq<string>): Option<string>
  {
    Or(Or(Find(names, IsSpeakingClip), Find(names, MentionsSpeaking)), Find(names, MentionsTalk))
  }

  /** The clip played while idle (`idleAnim`, `bestIdle`). */
  function IdleClip(names: seq<string>): Option<string>
  {
    Or(Or(Find(names, MentionsBreathing), Find(names, IsIdleClip)), if names == [] then None else Some(names[0]))
  }

  /** No clip test accepts the empty name. */
  lemma NoTestMatchesEmpty()
    ensures !IsSpeakingClip("") && !MentionsSpeaking("") && !MentionsTalk("")
    ensures !MentionsBreathing("") && !IsIdleClip("")
  {
    assert Lower("") == "";
  }

  /**
   * The speaking clip is `speaking.001` when present, else the first name
   * containing "speaking" (ignoring case), else the first containing "talk";
   * it is always one of the names, and it is undefined exactly when no name
   * passes any of the three tests.
   */
  lemma SpeakingClipPolicy(names: seq<string>)
    ensures var r := SpeakingClip(names);
      && (r.Some? ==> r.value in names && r.value != "")
      && (r.None? <==> forall i :: 0 <= i < |names| ==>
            !IsSpeakingClip(names[i]) && !MentionsSpeaking(names[i]) && !MentionsTalk(names[i]))
      && ("speaking.001" in names ==> r == Some("speaking.001"))
      && (forall i :: "speaking.001" !in names && FirstWhere(names, MentionsSpeaking, i) ==> r == Some(names[i]))
      && (forall i :: ("speaking.001" !in names && (forall j :: 0 <= j < |names| ==> !MentionsSpeaking(names[j]))
                       && FirstWhere(names, MentionsTalk, i)) ==> r == Some(names[i]))
  {
    NoTestMatchesEmpty();
    hide MentionsSpeaking, MentionsTalk;
    var exact, speaking, talk := FindIndex(names, IsSpeakingClip), FindIndex(names, MentionsSpeaking),
                                 FindIndex(names, MentionsTalk);
    forall i | "speaking.001" !in names && FirstWhere(names, MentionsSpeaking, i)
      ensures SpeakingClip(names) == Some(names[i])
    {
      FirstWhereUnique(names, MentionsSpeaking, i, speaking.value);
    }
    forall i | FirstWhere(names, MentionsTalk, i) ensures talk == Some(i) {
      FirstWhereUnique(names, MentionsTalk, i, talk.value);
    }
    if "speaking.001" in names {
      assert exact.Some? && names[exact.value] == "speaking.001";
    }
  }

  /**
   * The idle clip is the first name containing "breathing" (ignoring case),
   * else the first that reads "idle" in any case, else the first name; it is
   * defined exactly when there is a name, and it is then one of them.
   */
  lemma IdleClipPolicy(names: seq<string>)
    ensures var r := IdleClip(names);
      && (r.Some? <==> names != [])
      && (r.Some? ==> r.value in names)
      && (forall i :: FirstWhere(names, MentionsBreathing, i) ==> r == Some(names[i]))
      && (forall i :: ((forall j :: 0 <= j < |names| ==> !MentionsBreathing(names[j]))
                       && FirstWhere(names, IsIdleClip, i)) ==> r == Some(names[i]))
      && ((forall j :: 0 <= j < |names| ==> !MentionsBreathing(names[j]) && !IsIdleClip(names[j]))
          ==> r == if names == [] then None else Some(names[0]))
  {
    NoTestMatchesEmpty();
    hide MentionsBreathing, IsIdleClip;
    var breathing, idle := FindIndex(names, MentionsBreathing), FindIndex(names, IsIdleClip);
    forall i | FirstWhere(names, MentionsBreathing, i) ensures breathing == Some(i) {
      FirstWhereUnique(names, MentionsBreathing, i, breathing.value);
    }
    forall i | FirstWhere(names, IsIdleClip, i) ensures idle == Some(i) {
      FirstWhereUnique(names, IsIdleClip, i, idle.value);
    }
  }

  /**
   * The clip the `isPlaying` effect starts: the speaking clip while playing
   * when one resolved, otherwise the idle clip when it is truthy, otherwise
   * none (an idle fallback named "" is falsy and starts nothing).
   */
  function ClipToStart(names: seq<string>, isPlaying: bool): Option<string>
  {
    if isPlaying && Truthy(SpeakingClip(names)) then SpeakingClip(names)
    else if Truthy(IdleClip(names)) then IdleClip(names)
    else None
  }

  lemma ClipToStartPolicy(names: seq<string>, isPlaying: bool)
    ensures var r := ClipToStart(names, isPlaying);
      && (r.Some? ==> r.value in names && r.value != "")
      && (isPlaying && SpeakingClip(names).Some? ==> r == SpeakingClip(names))
      && (!(isPlaying && SpeakingClip(names).Some?) ==> r == if Truthy(IdleClip(names)) then IdleClip(names) else None)
      && (names != [] && names[0] != "" ==> r.Some?)
  {
    SpeakingClipPolicy(names);
    IdleClipPolicy(names);
  }

  // ------------------------------------------------------------ animation actions

  /** Where an action's weight is heading. */
  datatype Fade = Steady | FadingIn | FadingOut

  /** An `AnimationAction`: whether it was started with `play()`, and its fade. */
  datatype Action = Action(running: bool, fade: Fade)

  /** A fresh `mixer.clipAction(clip)`. */
  const NewAction := Action(false, Steady)

  /**
   * The actions after the switch: every action fades out, then the chosen
   * clip is `reset()` (its fade cancelled), faded in and played.
   */
  function Switched(actions: map<string, Action>, names: seq<string>, isPlaying: bool): map<string, Action>
  {
    var faded := map n | n in actions :: actions[n].(fade := FadingOut);
    match ClipToStart(names, isPlaying)
    case Some(c) => faded[c := Action(true, FadingIn)]
    case None => faded
  }

  /**
   * "Fade all out, start exactly one": the switch keeps the clip set, the
   * chosen clip is running and fading in, and every other clip is only
   * faded out.
   */
  lemma SwitchStartsOne(actions: map<string, Action>, names: seq<string>, isPlaying: bool)
    requires forall n :: n in actions <==> n in names
    ensures var r := Switched(actions, names, isPlaying);
      && r.Keys == actions.Keys
      && (forall n :: n in r ==> (r[n].fade == FadingIn <==> ClipToStart(names, isPlaying) == Some(n)))
      && (forall n :: n in r && ClipToStart(names, isPlaying) == Some(n) ==> r[n] == Action(true, FadingIn))
      && (forall n :: n in r && ClipToStart(names, isPlaying) != Some(n) ==> r[n] == actions[n].(fade := FadingOut))
  {
    ClipToStartPolicy(names, isPlaying);
  }

  /** Object.keys order after inserting the names of `clips[..n]`: a new key goes last. */
  function KeysAfter(keys: seq<string>, clips: seq<string>, n: nat): (r: seq<string>)
    requires n <= |clips|
    ensures forall s :: s in r <==> s in keys || s in clips[..n]
  {
    if n == 0 then keys
    else
      var before := KeysAfter(keys, clips, n - 1);
      assert clips[..n] == clips[..n - 1] + [clips[n - 1]];
      if clips[n - 1] in before then before else before + [clips[n - 1]]
  }

  /** No name occurs twice. */
  predicate Distinct(names: seq<string>)
  {
    forall i, j :: 0 <= i < j < |names| ==> names[i] != names[j]
  }

  /**
   * Filling the animations record keeps the existing keys in place, adds
   * each new clip name once, and ends with exactly the old keys and the
   * clip names.
   */
  lemma {:induction false} KeysAfterFacts(keys: seq<string>, clips: seq<string>, n: nat)
    requires n <= |clips| && Distinct(keys)
    ensures var r := KeysAfter(keys, clips, n);
      && Distinct(r)
      && keys <= r
  {
    if n > 0 {
      KeysAfterFacts(keys, clips, n - 1);
      assert clips[..n] == clips[..n - 1] + [clips[n - 1]];
    }
  }

  /** The actions after `mixer.clipAction(clip)` was stored for each of `clips[..n]`, in order. */
  function Filled(actions: map<string, Action>, clips: seq<string>, n: nat): (r: map<string, Action>)
    requires n <= |clips|
    ensures forall s :: s in r <==> s in actions || s in clips[..n]
  {
    if n == 0 then actions
    else
      assert clips[..n] == clips[..n - 1] + [clips[n - 1]];
      Filled(actions, clips, n - 1)[clips[n - 1] := NewAction]
  }

  /** Every loaded clip gets a fresh action; every other entry is kept as it was. */
  lemma {:induction false} FilledFacts(actions: map<string, Action>, clips: seq<string>, n: nat)
    requires n <= |clips|
    ensures var r := Filled(actions, clips, n);
      && (forall s :: s in clips[..n] ==> r[s] == NewAction)
      && (forall s :: s in actions && s !in clips[..n] ==> r[s] == actions[s])
  {
    if n > 0 {
      FilledFacts(actions, clips, n - 1);
      assert clips[..n] == clips[..n - 1] + [clips[n - 1]];
    }
  }

  /** `animations[bestIdle].play()` when the best idle clip is truthy. */
  function StartIdle(actions: map<string, Action>, names: seq<string>): map<string, Action>
    requires forall n :: n in actions <==> n in names
  {
    var best := IdleClip(names);
    if Truthy(best) then
      IdleClipPolicy(names);
      actions[best.value := actions[best.value].(running := true)]
    else actions
  }

  /**
   * After the lecturer loads, of its clips exactly the best idle one is
   * running (none when that name is ""), and the fades are untouched.
   */
  lemma LoadedStartsIdle(actions: map<string, Action>, clips: seq<string>, names: seq<string>)
    requires forall n :: n in actions <==> n in names
    ensures var keys := KeysAfter(names, clips, |clips|);
      var r := StartIdle(Filled(actions, clips, |clips|), keys);
      && r.Keys == Filled(actions, clips, |clips|).Keys
      && (forall n :: n in clips ==> r[n].fade == Steady && (r[n].running <==> IdleClip(keys) == Some(n) && n != ""))
  {
    hide IdleClip;
    var keys := KeysAfter(names, clips, |clips|);
    var filled := Filled(actions, clips, |clips|);
    FilledFacts(actions, clips, |clips|);
    assert clips[..|clips|] == clips;
    IdleClipPolicy(keys);
    var best := IdleClip(keys);
    if Truthy(best) {
      assert StartIdle(filled, keys) == filled[best.value := filled[best.value].(running := true)];
    } else {
      assert StartIdle(filled, keys) == filled;
    }
  }

  // ------------------------------------------------------------ the scene record

  /** Every field of a scene record, as one value. */
  datatype RecordState = RecordState(hasMixer: bool, clipNames: seq<string>, actions: map<string, Action>,
                                     animationId: Option<int>, hasWhiteboard: bool,
                                     boardMap: Option<SlideTexture>, disposed: seq<SlideTexture>)

  /**
   * `sceneRef.current`: whether a mixer was made, the animation record (its
   * keys in `Object.keys` order and its actions), the last frame request,
   * whether the whiteboard exists, the texture bound to its material, and the
   * textures disposed of so far.
   */
  class SceneRecord {
    var hasMixer: bool
    var clipNames: seq<string>
    var actions: map<string, Action>
    var animationId: Option<int>
    var hasWhiteboard: bool
    var boardMap: Option<SlideTexture>
    var disposed: seq<SlideTexture>

    /** The key order lists each action's name once, and a clip implies a mixer. */
    ghost predicate Valid()
      reads this
    {
      && Distinct(clipNames)
      && (forall n :: n in actions <==> n in clipNames)
      && (clipNames != [] ==> hasMixer)
    }

    ghost function State(): RecordState
      reads this
    {
      RecordState(hasMixer, clipNames, actions, animationId, hasWhiteboard, boardMap, disposed)
    }

    /** Each clip's fresh action stored under the clip's name, a new key going last. */
    method AddClips(clips: seq<string>)
      requires Valid()
      modifies this
      ensures Valid()
      ensures State() == old(State()).(hasMixer := true, clipNames := KeysAfter(old(clipNames), clips, |clips|),
                                       actions := Filled(old(actions), clips, |clips|))
    {
      hasMixer := true;
      for i := 0 to |clips|
        invariant clipNames == KeysAfter(old(clipNames), clips, i)
        invariant actions == Filled(old(actions), clips, i)
        invariant hasMixer && animationId == old(animationId) && hasWhiteboard == old(hasWhiteboard)
        invariant boardMap == old(boardMap) && disposed == old(disposed)
      {
        actions := actions[clips[i] := NewAction];
        if clips[i] !in clipNames {
          clipNames := clipNames + [clips[i]];
        }
      }
      KeysAfterFacts(old(clipNames), clips, |clips|);
      assert clips[..|clips|] == clips;
    }

    /** `animations[bestIdle].play()` when the best idle clip is truthy. */
    method PlayBestIdle()
      requires Valid()
      modifies this
      ensures Valid()
      ensures State() == old(State()).(actions := StartIdle(old(actions), old(clipNames)))
    {
      IdleClipPolicy(clipNames);
      var best := IdleClip(clipNames);
      if Truthy(best) {
        actions := actions[best.value := actions[best.value].(running := true)];
      }
    }

    /** Every action fades out; the clip to start is reset, faded in and played. */
    method Switch(isPlaying: bool)
      requires Valid()
      modifies this
      ensures Valid()
      ensures State() == old(State()).(actions := Switched(old(actions), old(clipNames), isPlaying))
    {
      var clip := ClipToStart(clipNames, isPlaying);
      SwitchStartsOne(actions, clipNames, isPlaying);
      actions := map n | n in actions :: actions[n].(fade := FadingOut);
      if clip.Some? {
        actions := actions[clip.value := Action(true, FadingIn)];
      }
    }

    /** The record the setup effect stores: no mixer, no animations, no frame, no whiteboard. */
    constructor ()
      ensures Valid()
      ensures State() == RecordState(false, [], map[], None, false, None, [])
    {
      hasMixer, clipNames, actions, animationId := false, [], map[], None;
      hasWhiteboard, boardMap, disposed := false, None, [];
    }
  }

  /**
   * The component's refs and the host around it: the scene record (null
   * before setup and after teardown), the frame requests not yet run or
   * cancelled, how many frames were rendered and how many times `onLoaded`
   * was called.
   */
  class Classroom {
    var record: SceneRecord?
    var pending: multiset<int>
    var framesRendered: nat
    var loadedNotices: nat

    /**
     * At most one render loop: while a record exists it is well formed and
     * its last frame request, a non-zero id, is the only one pending; without
     * a record nothing is pending.
     */
    ghost predicate Valid()
      reads this, record
    {
      && (record != null ==>
            && record.Valid() && record.animationId.Some? && record.animationId.value != 0
            && pending == multiset{record.animationId.value})
      && (record == null ==> pending == multiset{})
    }

    constructor ()
      ensures Valid() && record == null && pending == multiset{} && framesRendered == 0 && loadedNotices == 0
    {
      record, pending, framesRendered, loadedNotices := null, multiset{}, 0, 0;
    }

    /**
     * The setup effect: nothing happens without a container or when a record
     * already exists; otherwise a fresh record is stored and the first
     * `animate()` renders a frame and requests the next one (`frameId`).
     */
    method Setup(containerPresent: bool, frameId: int)
      requires Valid() && frameId != 0
      modifies this
      ensures Valid()
      ensures !containerPresent || old(record) != null ==> unchanged(this)
      ensures containerPresent && old(record) == null ==>
        && fresh(record)
        && record.State() == RecordState(false, [], map[], Some(frameId), false, None, [])
        && pending == multiset{frameId}
        && framesRendered == old(framesRendered) + 1
        && loadedNotices == old(loadedNotices)
    {
      if !containerPresent || record != null {
        return;
      }
      record := new SceneRecord();
      // the first call of `animate`
      record.animationId := Some(frameId);
      pending := pending + multiset{frameId};
      framesRendered := framesRendered + 1;
    }

    /**
     * A pending frame request `id` runs `animate`: with no record it stops,
     * rendering nothing and requesting nothing; otherwise it requests the
     * next frame (`nextId`) and renders.
     */
    method FireFrame(id: int, nextId: int)
      requires Valid() && id in pending && nextId != 0
      modifies this, record
      ensures Valid() && record == old(record) && loadedNotices == old(loadedNotices)
      ensures old(record) == null ==>
        pending == old(pending) - multiset{id} && framesRendered == old(framesRendered)
      ensures old(record) != null ==>
        && id == old(record.animationId.value)
        && record.State() == old(record.State()).(animationId := Some(nextId))
        && pending == multiset{nextId}
        && framesRendered == old(framesRendered) + 1
    {
      pending := pending - multiset{id};
      if record == null {
        return;
      }
      record.animationId := Some(nextId);
      pending := pending + multiset{nextId};
      framesRendered := framesRendered + 1;
    }

    /**
     * The teardown: the last frame request is cancelled when its id is
     * truthy (non-zero), and the record is dropped.
     */
    method Teardown()
      requires Valid()
      modifies this
      ensures Valid() && record == null && pending == multiset{}
      ensures framesRendered == old(framesRendered) && loadedNotices == old(loadedNotices)
      ensures old(record) != null && old(record.animationId) != Some(0) ==>
        pending == old(pending) - multiset{old(record.animationId.value)}
      ensures old(record) == null || old(record.animationId) == Some(0) ==> pending == old(pending)
    {
      if record != null && record.animationId.Some? && record.animationId.value != 0 {
        pending := pending - multiset{record.animationId.value};
      }
      record := null;
    }

    /**
     * The classroom model loaded: a new whiteboard with a new material goes
     * into the current record, textured with the setup's slide when there was one.
     */
    method ClassroomLoaded(slideContent: Option<SlideContent>)
      requires Valid()
      modifies record
      ensures Valid()
      ensures record != null ==>
        record.State() == old(record.State()).(
          hasWhiteboard := true,
          boardMap := if slideContent.Some? then
                        Some(SlideTexture(CanvasWidth, CanvasHeight,
                                          TextureOps(slideContent.value.title, slideContent.value.bullets)))
                      else None)
    {
      if record != null {
        record.hasWhiteboard := true;
        record.boardMap := None;
        if slideContent.Some? {
          var texture := CreateSlideTexture(slideContent.value.title, slideContent.value.bullets);
          record.boardMap := Some(texture);
        }
      }
    }

    /**
     * The lecturer model loaded with clips named `clips`: when it has clips
     * and a record exists, a mixer is made, each clip's fresh action is
     * stored under its name, and the best idle clip is played; `onLoaded`
     * is called in every case.
     */
    method LecturerLoaded(clips: seq<string>)
      requires Valid()
      modifies this, record
      ensures Valid() && record == old(record) && loadedNotices == old(loadedNotices) + 1
      ensures pending == old(pending) && framesRendered == old(framesRendered)
      ensures record != null && clips == [] ==> record.State() == old(record.State())
      ensures record != null && clips != [] ==>
        var keys := KeysAfter(old(record.clipNames), clips, |clips|);
        record.State() == old(record.State()).(
          hasMixer := true, clipNames := keys,
          actions := StartIdle(Filled(old(record.actions), clips, |clips|), keys))
    {
      if clips != [] && record != null {
        record.AddClips(clips);
        record.PlayBestIdle();
      }
      loadedNotices := loadedNotices + 1;
    }

    /**
     * The whiteboard-update effect: with a whiteboard and a slide, the slide's
     * texture is drawn, the previous one (if any) is disposed of, and the new
     * one is bound; otherwise nothing changes.
     */
    method UpdateWhiteboard(slideContent: Option<SlideContent>)
      requires Valid()
      modifies record
      ensures Valid()
      ensures record != null && record.hasWhiteboard && slideContent.Some? ==>
        var texture := SlideTexture(CanvasWidth, CanvasHeight,
                                    TextureOps(slideContent.value.title, slideContent.value.bullets));
        record.State() == old(record.State()).(
          boardMap := Some(texture),
          disposed := old(record.disposed) + if old(record.boardMap).Some? then [old(record.boardMap).value] else [])
      ensures record != null && !(old(record.hasWhiteboard) && slideContent.Some?) ==>
        record.State() == old(record.State())
    {
      if record != null && record.hasWhiteboard && slideContent.Some? {
        var texture := CreateSlideTexture(slideContent.value.title, slideContent.value.bullets);
        if record.boardMap.Some? {
          record.disposed := record.disposed + [record.boardMap.value];
        }
        record.boardMap := Some(texture);
      }
    }

    /**
     * The `isPlaying` effect: with no record or no animations nothing
     * happens; otherwise every action fades out and the clip to start (see
     * `SwitchStartsOne`) is reset, faded in and played.
     */
    method SwitchAnimation(isPlaying: bool)
      requires Valid()
      modifies record
      ensures Valid()
      ensures record != null && record.clipNames == [] ==> record.State() == old(record.State())
      ensures record != null && record.clipNames != [] ==>
        record.State() == old(record.State()).(
          actions := Switched(old(record.actions), record.clipNames, isPlaying))
    {
      if record != null && record.clipNames != [] {
        record.Switch(isPlaying);
      }
    }
  }
}
