/**
 * The Game scene as the source keeps it: fixed pools of platform and cloud
 * sprites updated in place, a carrot group, the player sprite, the carrot
 * counter and its text, and the registry's final-score entry. Every method
 * is proved to follow the matching value-level definition.
 */
module GameScene {
  import opened Options
  import opened ScoreText
  import opened Pools
  import opened Recycler
  import opened Controller
  import opened LossDetector
  import opened Frame

  class Game {
    const platforms: array<Pos>
    const clouds: array<Pos>
    var carrots: seq<Carrot>
    var player: Player
    var carrotCollected: nat
    var scoreText: string
    var finalScore: Option<string>
    var ended: bool

    /** The scene's state as a value. */
    ghost function Snapshot(): World
      reads this, platforms, clouds
    {
      World(platforms[..], clouds[..], carrots, player, carrotCollected, scoreText, finalScore, ended)
    }

    ghost predicate Valid()
      reads this, platforms, clouds
    {
      platforms != clouds && Consistent(Snapshot())
    }

    /**
     * init() followed by create(): the counter is reset and the pools are
     * laid out; the registry's final-score entry is left as it was.
     */
    constructor (platformXs: seq<int>, cloudXs: seq<int>, registry: Option<string>)
      requires SpawnDraws(platformXs, cloudXs)
      ensures Valid() && fresh(platforms) && fresh(clouds)
      ensures Snapshot() == InitialWorld(platformXs, cloudXs, registry)
    {
      carrotCollected := 0;
      var cs := new Pos[CloudCount];
      for index := 0 to CloudCount
        invariant forall j :: 0 <= j < index ==> cs[j] == Pos(cloudXs[j] as real, 250.0 * j as real)
      {
        cs[index] := Pos(cloudXs[index] as real, 250.0 * index as real);
      }
      var ps := new Pos[PlatformCount];
      for i := 0 to PlatformCount
        invariant forall j :: 0 <= j < i ==> ps[j] == Pos(platformXs[j] as real, 150.0 * j as real)
        invariant forall j :: 0 <= j < CloudCount ==> cs[j] == Pos(cloudXs[j] as real, 250.0 * j as real)
      {
        ps[i] := Pos(platformXs[i] as real, 150.0 * i as real);
      }
      clouds := cs;
      platforms := ps;
      player := Player(240.0, 320.0, 0.0, 0.0, Stand);
      carrots := [];
      scoreText := InitialText;
      finalScore := registry;
      ended := false;
      new;
      assert platforms[..] == InitialWorld(platformXs, cloudXs, registry).platforms;
      assert clouds[..] == InitialWorld(platformXs, cloudXs, registry).clouds;
    }

    /** Makes one carrot live on top of the sprite (platform) given. */
    method AddCarrotAbove(sprite: Pos, displayHeight: real)
      modifies this`carrots
      ensures carrots == Spawn(old(carrots), sprite.x, sprite.y - displayHeight)
    {
      var y := sprite.y - displayHeight;
      carrots := Spawn(carrots, sprite.x, y);
    }

    /** One visit of the platform loop: a platform at or below the threshold moves, then gets a carrot on top. */
    method RecyclePlatformAt(i: nat, scrollY: real, offset: int, x: int, height: real)
      requires i < platforms.Length
      requires PlatformOffsetMin <= offset <= PlatformOffsetMax && PlatformXMin <= x <= PlatformXMax
      modifies this`carrots, platforms
      ensures platforms[i] == RecyclePlatform(old(platforms[i]), scrollY, offset, x)
      ensures forall j :: 0 <= j < platforms.Length && j != i ==> platforms[j] == old(platforms[j])
      ensures PlatformBelow(old(platforms[i]), scrollY) ==>
        carrots == Spawn(old(carrots), platforms[i].x, platforms[i].y - height)
      ensures !PlatformBelow(old(platforms[i]), scrollY) ==> carrots == old(carrots)
    {
      if platforms[i].y >= scrollY + PlatformThreshold {
        platforms[i] := platforms[i].(y := scrollY - offset as real);
        platforms[i] := platforms[i].(x := x as real);
        AddCarrotAbove(platforms[i], height);
      }
    }

    /** The platform loop of update(): recycle, then spawn a carrot on the moved platform. */
    method RecyclePlatforms(scrollY: real, offsets: seq<int>, xs: seq<int>, height: real)
      requires PlatformDraws(offsets, xs, platforms.Length)
      modifies this`carrots, platforms
      ensures platforms[..] == PlatformPass(old(platforms[..]), scrollY, offsets, xs)
      ensures carrots == SpawnPass(old(carrots), old(platforms[..]), scrollY, offsets, xs, height)
    {
      ghost var before := platforms[..];
      for i := 0 to platforms.Length
        invariant forall j :: 0 <= j < i ==>
          platforms[j] == RecyclePlatform(before[j], scrollY, offsets[j], xs[j])
        invariant forall j :: i <= j < platforms.Length ==> platforms[j] == before[j]
        invariant carrots == SpawnPrefix(old(carrots), before, scrollY, offsets, xs, height, i)
      {
        RecyclePlatformAt(i, scrollY, offsets[i], xs[i], height);
      }
      assert platforms[..] == PlatformPass(before, scrollY, offsets, xs);
    }

    /** The cloud loop of update(): recycle vertically, keep x. */
    method RecycleClouds(scrollY: real, offsets: seq<int>)
      requires Valid() && CloudDraws(offsets, clouds.Length)
      modifies clouds
      ensures Valid()
      ensures clouds[..] == CloudPass(old(clouds[..]), scrollY, offsets)
    {
      ghost var before := clouds[..];
      for i := 0 to clouds.Length
        invariant forall j :: 0 <= j < i ==>
          clouds[j] == if CloudBelow(before[j], scrollY) then before[j].(y := scrollY - offsets[j] as real) else before[j]
        invariant forall j :: i <= j < clouds.Length ==> clouds[j] == before[j]
      {
        if clouds[i].y >= scrollY + CloudThreshold {
          clouds[i] := clouds[i].(y := scrollY - offsets[i] as real);
        }
      }
      assert clouds[..] == CloudPass(before, scrollY, offsets);
    }

    /** Bounce on contact, pick the texture, steer while airborne. */
    method ControlPlayer(touchingDown: bool, left: bool, right: bool)
      modifies this`player
      ensures player == Controlled(old(player), touchingDown, left, right)
    {
      if touchingDown {
        player := player.(vy := JumpVelocity);
        player := player.(texture := Jump);
      }
      var vy := player.vy;
      if vy > 0.0 && player.texture != Stand {
        player := player.(texture := Stand);
      }
      if left && !touchingDown {
        player := player.(vx := -MoveSpeed);
      } else if right && !touchingDown {
        player := player.(vx := MoveSpeed);
      } else {
        player := player.(vx := 0.0);
      }
    }

    /** Teleports the player to the opposite edge once it has left the screen. */
    method HorizontalWrap(halfWidth: real)
      requires halfWidth >= 0.0
      modifies this`player
      ensures player == old(player).(x := Wrap(old(player).x, halfWidth, GameWidth))
    {
      var gameWidth := GameWidth;
      if player.x < -halfWidth {
        player := player.(x := gameWidth + halfWidth);
      } else if player.x > gameWidth + halfWidth {
        player := player.(x := -halfWidth);
      }
    }

    /** update() up to the loss check: both pools, the controller and the wrap. */
    method AdvanceFrame(input: FrameInput)
      requires Valid() && InputFits(Snapshot(), input)
      modifies this, platforms, clouds
      ensures Valid()
      ensures Snapshot() == Advance(old(Snapshot()), input)
    {
      player := player.(x := input.body.x, y := input.body.y, vy := input.body.vy);
      RecyclePlatforms(input.scrollY, input.platformOffsets, input.platformXs, input.platformHeight);
      RecycleClouds(input.scrollY, input.cloudOffsets);
      ControlPlayer(input.body.touchingDown, input.left, input.right);
      HorizontalWrap(input.halfWidth);
    }

    /** Ends the run, recording the score text, when the player is too far below the bottom platform. */
    method DetectLoss(bottom: nat)
      requires Valid() && IsBottomMost(platforms[..], bottom)
      modifies this`finalScore, this`ended
      ensures Valid()
      ensures Snapshot() == CheckLoss(old(Snapshot()))
    {
      if player.y > platforms[bottom].y + LossMargin {
        ScoreLabelRoundTrip(carrotCollected);
        finalScore := Some(scoreText);
        ended := true;
      }
    }

    /** One frame of the TypeScript scene. */
    method Update(input: FrameInput)
      requires Valid() && InputFits(Snapshot(), input)
      modifies this, platforms, clouds
      ensures Valid()
      ensures Snapshot() == Step(old(Snapshot()), input)
    {
      AdvanceFrame(input);
      var bottom := FindBottomMostPlatform(platforms);
      DetectLoss(bottom);
    }

    /** One frame of the JavaScript scene: the same, with the last-maximum tie-break. */
    method UpdateJs(input: FrameInput)
      requires Valid() && InputFits(Snapshot(), input)
      modifies this, platforms, clouds
      ensures Valid()
      ensures Snapshot() == Step(old(Snapshot()), input)
    {
      AdvanceFrame(input);
      var bottom := FindBottomMostPlatformLastMax(platforms);
      DetectLoss(bottom);
    }

    /** The overlap callback: deactivate the carrot, count it, rewrite the text. */
    method HandleCollectCarrot(k: nat)
      requires Valid() && k < |carrots|
      modifies this`carrots, this`carrotCollected, this`scoreText
      ensures Valid()
      ensures Snapshot() == Collect(old(Snapshot()), k)
    {
      carrots := carrots[k := carrots[k].(active := false)];
      carrotCollected := carrotCollected + 1;
      scoreText := CollectedPrefix + Decimal(carrotCollected);
    }
  }
}
