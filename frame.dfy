/**
 * The Game scene's state as a value, and what one update() call and one
 * carrot collection do to it. The scene class in GameScene is proved to
 * follow these definitions; the lemmas here state what the game promises
 * about them.
 */
module Frame {
  import opened Options
  import opened ScoreText
  import opened Pools
  import opened Recycler
  import opened Controller
  import opened LossDetector

  /** Everything the scene's logic reads or writes. */
  datatype World = World(
    platforms: seq<Pos>,
    clouds: seq<Pos>,
    carrots: seq<Carrot>,
    player: Player,
    collected: nat,
    scoreText: string,
    finalScore: Option<string>,  // the registry's 'final-score' entry
    ended: bool)                 // the switch to the game-over scene was signalled

  /** The player's body after the physics step that precedes update(). */
  datatype Body = Body(x: real, y: real, vy: real, touchingDown: bool)

  /** What one update() call reads from outside the scene's own state. */
  datatype FrameInput = FrameInput(
    scrollY: real,
    body: Body,
    left: bool,
    right: bool,
    platformOffsets: seq<int>,
    platformXs: seq<int>,
    cloudOffsets: seq<int>,
    halfWidth: real,        // the player's displayWidth * 0.5
    platformHeight: real)   // a platform's displayHeight

  /** The input has one draw per pool member in range, and a real sprite width. */
  predicate InputFits(w: World, input: FrameInput) {
    && |w.platforms| > 0
    && PlatformDraws(input.platformOffsets, input.platformXs, |w.platforms|)
    && CloudDraws(input.cloudOffsets, |w.clouds|)
    && input.halfWidth >= 0.0
  }

  /**
   * The scene's invariant: fixed pool sizes, a score text that shows the
   * counter, and, once this run has ended, a final score that this run
   * recorded, showing a count no larger than the current one. Before the
   * end, the registry may still hold a previous run's score.
   */
  predicate Consistent(w: World) {
    && |w.platforms| == PlatformCount
    && |w.clouds| == CloudCount
    && w.scoreText == ScoreLabel(w.collected)
    && (w.ended ==>
          && w.finalScore.Some?
          && ScoreCount(w.finalScore.value).Some?
          && ScoreCount(w.finalScore.value).value <= w.collected)
  }

  /** The player is more than the loss margin below every platform of the pool. */
  predicate BehindEvery(playerY: real, ps: seq<Pos>) {
    forall i :: 0 <= i < |ps| ==> FallenBehind(playerY, ps[i].y)
  }

  /** One update(): platforms, clouds, controller, wrap, loss check, in that order. */
  function Step(w: World, input: FrameInput): (r: World)
    requires InputFits(w, input)
    ensures |r.platforms| == |w.platforms| && |r.clouds| == |w.clouds|
    ensures forall i :: 0 <= i < |r.platforms| ==> !PlatformBelow(r.platforms[i], input.scrollY)
    ensures forall i :: 0 <= i < |r.clouds| ==> !CloudBelow(r.clouds[i], input.scrollY)
    ensures ActiveCount(r.carrots) == ActiveCount(w.carrots) + RecycledCount(w.platforms, input.scrollY, |w.platforms|)
    ensures r.collected == w.collected && r.scoreText == w.scoreText
    ensures r.player.y == input.body.y
    ensures InBand(r.player.x, input.halfWidth, GameWidth)
    ensures r.ended <==> w.ended || BehindEvery(r.player.y, r.platforms)
    ensures BehindEvery(r.player.y, r.platforms) ==> r.finalScore == Some(w.scoreText)
    ensures !BehindEvery(r.player.y, r.platforms) ==> r.finalScore == w.finalScore
  {
    CheckLoss(Advance(w, input))
  }

  /** The part of update() before the loss check: recycle both pools, then steer and wrap the player. */
  function Advance(w: World, input: FrameInput): (r: World)
    requires InputFits(w, input)
    ensures |r.platforms| == |w.platforms| && |r.clouds| == |w.clouds|
    ensures r.collected == w.collected && r.scoreText == w.scoreText
    ensures r.finalScore == w.finalScore && r.ended == w.ended
  {
    var scrollY := input.scrollY;
    var ps := PlatformPass(w.platforms, scrollY, input.platformOffsets, input.platformXs);
    var cs := SpawnPass(w.carrots, w.platforms, scrollY, input.platformOffsets, input.platformXs,
                        input.platformHeight);
    var clouds := CloudPass(w.clouds, scrollY, input.cloudOffsets);
    var body := input.body;
    var p := Controlled(w.player.(x := body.x, y := body.y, vy := body.vy),
                        body.touchingDown, input.left, input.right);
    var p' := p.(x := Wrap(p.x, input.halfWidth, GameWidth));
    w.(platforms := ps, clouds := clouds, carrots := cs, player := p')
  }

  /**
   * The loss check at the end of update(): the run ends, and the current text
   * becomes the final score, exactly when the player is more than the loss
   * margin below every platform; otherwise nothing changes.
   */
  function CheckLoss(w: World): (r: World)
    requires |w.platforms| > 0
    ensures BehindEvery(w.player.y, w.platforms) ==>
      r == w.(finalScore := Some(w.scoreText), ended := true)
    ensures !BehindEvery(w.player.y, w.platforms) ==> r == w
  {
    if FallenBehind(w.player.y, MaxY(w.platforms)) then
      w.(finalScore := Some(w.scoreText), ended := true)
    else w
  }

  /**
   * Every platform the frame recycles ends the frame with its own carrot on
   * top of its new position (x, y - platformHeight): a slot that was not live
   * before the frame, made live by that platform's spawn, and used by no
   * other recycled platform.
   */
  lemma StepSpawnsOnRecycled(w: World, input: FrameInput)
    requires InputFits(w, input)
    ensures var r := Step(w, input);
      exists slot ::
        && |slot| == |w.platforms|
        && SpawnSlots(w.carrots, r.carrots, w.platforms, r.platforms, input.scrollY, input.platformHeight, slot)
  {
    var a := Advance(w, input);
    assert Step(w, input).platforms == a.platforms && Step(w, input).carrots == a.carrots;
    SpawnPrefixSlots(w.carrots, w.platforms, input.scrollY, input.platformOffsets, input.platformXs,
                     input.platformHeight, |w.platforms|);
  }

  /**
   * handleCollectCarrot: the carrot is deactivated, the counter goes up by
   * exactly one and the text is rewritten with the plural label. The active
   * flag is not consulted.
   */
  function Collect(w: World, k: nat): (r: World)
    requires k < |w.carrots|
    ensures |r.carrots| == |w.carrots| && !r.carrots[k].active
    ensures forall j :: 0 <= j < |w.carrots| && j != k ==> r.carrots[j] == w.carrots[j]
    ensures ActiveCount(r.carrots) == ActiveCount(w.carrots) - Live(w.carrots[k])
    ensures r.collected == w.collected + 1
    ensures r.scoreText == ScoreLabel(r.collected)
    ensures ScoreCount(r.scoreText) == Some(r.collected)
    ensures r.platforms == w.platforms && r.clouds == w.clouds && r.player == w.player
    ensures r.finalScore == w.finalScore && r.ended == w.ended
  {
    var c := w.carrots[k].(active := false);
    ActiveCountUpdate(w.carrots, k, c);
    var n := w.collected + 1;
    ScoreLabelRoundTrip(n);
    w.(carrots := w.carrots[k := c], collected := n, scoreText := CollectedPrefix + Decimal(n))
  }

  /**
   * The overlap dispatch of the physics engine: it reports only carrots whose
   * body is enabled, that is, live ones.
   */
  function OnOverlap(w: World, k: nat): World
    requires k < |w.carrots|
  {
    if w.carrots[k].active then Collect(w, k) else w
  }

  /** A collected carrot scores once: a second overlap with it changes nothing. */
  lemma OverlapIdempotent(w: World, k: nat)
    requires k < |w.carrots|
    ensures OnOverlap(OnOverlap(w, k), k) == OnOverlap(w, k)
    ensures OnOverlap(w, k).collected == w.collected + Live(w.carrots[k])
  {
  }

  /** Collecting the same carrot twice without the engine's guard scores twice. */
  lemma CollectIgnoresActive(w: World, k: nat)
    requires k < |w.carrots|
    ensures Collect(Collect(w, k), k).collected == w.collected + 2
  {
  }

  /** The x draws create() uses: one per platform in [80, 400], one per cloud in [0, 480]. */
  predicate SpawnDraws(platformXs: seq<int>, cloudXs: seq<int>) {
    && |platformXs| == PlatformCount && |cloudXs| == CloudCount
    && (forall i :: 0 <= i < |platformXs| ==> 80 <= platformXs[i] <= 400)
    && (forall i :: 0 <= i < |cloudXs| ==> 0 <= cloudXs[i] <= 480)
  }

  /**
   * The state after init() and create(): counter 0, platform i at y 150 * i,
   * cloud i at y 250 * i, each at its drawn x. Neither method touches the
   * registry, so its final-score entry is whatever a previous run left there.
   */
  function InitialWorld(platformXs: seq<int>, cloudXs: seq<int>, registry: Option<string>): (r: World)
    requires SpawnDraws(platformXs, cloudXs)
    ensures Consistent(r)
    ensures r.collected == 0 && r.scoreText == "Carrot: 0" && r.finalScore == registry && !r.ended
    ensures ActiveCount(r.carrots) == 0
    ensures forall i :: 0 <= i < PlatformCount ==> r.platforms[i] == Pos(platformXs[i] as real, 150.0 * i as real)
    ensures forall i :: 0 <= i < CloudCount ==> r.clouds[i] == Pos(cloudXs[i] as real, 250.0 * i as real)
    ensures r.player == Player(240.0, 320.0, 0.0, 0.0, Stand)
    ensures !BehindEvery(r.player.y, r.platforms)
  {
    var platforms := seq(PlatformCount, i requires 0 <= i < PlatformCount => Pos(platformXs[i] as real, 150.0 * i as real));
    var clouds := seq(CloudCount, i requires 0 <= i < CloudCount => Pos(cloudXs[i] as real, 250.0 * i as real));
    assert platforms[4].y == 600.0;
    World(platforms, clouds, [], Player(240.0, 320.0, 0.0, 0.0, Stand), 0, InitialText, registry, false)
  }

  /** update() keeps the scene's invariant. */
  lemma StepConsistent(w: World, input: FrameInput)
    requires Consistent(w) && InputFits(w, input)
    ensures Consistent(Step(w, input))
  {
  }

  /** A collection keeps the scene's invariant. */
  lemma CollectConsistent(w: World, k: nat)
    requires Consistent(w) && k < |w.carrots|
    ensures Consistent(Collect(w, k))
  {
  }

  /** Every input of a run fits pools of the given sizes. */
  predicate RunFits(ins: seq<FrameInput>, platformCount: nat, cloudCount: nat) {
    forall i :: 0 <= i < |ins| ==>
      && PlatformDraws(ins[i].platformOffsets, ins[i].platformXs, platformCount)
      && CloudDraws(ins[i].cloudOffsets, cloudCount)
      && ins[i].halfWidth >= 0.0
  }

  /** A sequence of update() calls with no collection in between. */
  function Run(w: World, ins: seq<FrameInput>): (r: World)
    requires |w.platforms| > 0 && RunFits(ins, |w.platforms|, |w.clouds|)
    ensures |r.platforms| == |w.platforms| && |r.clouds| == |w.clouds|
    decreases |ins|
  {
    if ins == [] then w else Run(Step(w, ins[0]), ins[1..])
  }

  /** A frame with ground contact and no horizontal input. */
  predicate GroundedIdle(input: FrameInput) {
    input.body.touchingDown && !input.left && !input.right
  }

  /**
   * Continuous ground contact without input: the score never changes, and
   * every frame ends bouncing upward with the jump texture and no horizontal
   * velocity.
   */
  lemma {:induction false} GroundedRunBounces(w: World, ins: seq<FrameInput>)
    requires |w.platforms| > 0 && RunFits(ins, |w.platforms|, |w.clouds|)
    requires |ins| > 0 && forall i :: 0 <= i < |ins| ==> GroundedIdle(ins[i])
    ensures var r := Run(w, ins);
      && r.collected == w.collected && r.scoreText == w.scoreText
      && r.player.vx == 0.0 && r.player.vy == JumpVelocity && r.player.texture == Jump
    decreases |ins|
  {
    var w' := Step(w, ins[0]);
    if |ins| > 1 {
      GroundedRunBounces(w', ins[1..]);
    }
  }
}
