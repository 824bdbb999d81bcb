/**
 * The loss detector of the Game scene's update: find the bottom-most platform
 * (largest y) and end the run when the player is more than 200 below it.
 * The TypeScript scene keeps the first platform of largest y; the JavaScript
 * scene keeps the last one.
 */
module LossDetector {
  import opened Pools

  const LossMargin: real := 200.0

  /** The largest y in a non-empty pool. */
  function MaxY(ps: seq<Pos>): (m: real)
    requires |ps| > 0
    ensures forall i :: 0 <= i < |ps| ==> ps[i].y <= m
    ensures exists i :: 0 <= i < |ps| && ps[i].y == m
  {
    if |ps| == 1 then ps[0].y
    else
      var m' := MaxY(ps[..|ps| - 1]);
      assert forall i :: 0 <= i < |ps| - 1 ==> ps[..|ps| - 1][i] == ps[i];
      if ps[|ps| - 1].y > m' then ps[|ps| - 1].y else m'
  }

  /** k holds a largest y. */
  ghost predicate IsBottomMost(ps: seq<Pos>, k: nat) {
    k < |ps| && forall j :: 0 <= j < |ps| ==> ps[j].y <= ps[k].y
  }

  /** k holds a largest y, and no earlier platform does. */
  ghost predicate IsFirstBottomMost(ps: seq<Pos>, k: nat) {
    IsBottomMost(ps, k) && forall j :: 0 <= j < k ==> ps[j].y < ps[k].y
  }

  /** k holds a largest y, and no later platform does. */
  ghost predicate IsLastBottomMost(ps: seq<Pos>, k: nat) {
    IsBottomMost(ps, k) && forall j :: k < j < |ps| ==> ps[j].y < ps[k].y
  }

  /** Bottom-most platform as the TypeScript scene finds it: a later platform replaces it only when strictly lower. */
  method FindBottomMostPlatform(platforms: array<Pos>) returns (k: nat)
    requires platforms.Length > 0
    ensures IsFirstBottomMost(platforms[..], k)
  {
    k := 0;
    for i := 1 to platforms.Length
      invariant k < i
      invariant forall j :: 0 <= j < i ==> platforms[j].y <= platforms[k].y
      invariant forall j :: 0 <= j < k ==> platforms[j].y < platforms[k].y
    {
      if platforms[i].y > platforms[k].y {
        k := i;
      }
    }
  }

  /** Bottom-most platform as the JavaScript scene finds it: a later platform is skipped only when strictly higher. */
  method FindBottomMostPlatformLastMax(platforms: array<Pos>) returns (k: nat)
    requires platforms.Length > 0
    ensures IsLastBottomMost(platforms[..], k)
  {
    k := 0;
    for i := 1 to platforms.Length
      invariant k < i
      invariant forall j :: 0 <= j < i ==> platforms[j].y <= platforms[k].y
      invariant forall j :: k < j < i ==> platforms[j].y < platforms[k].y
    {
      if platforms[i].y < platforms[k].y {
        continue;
      }
      k := i;
    }
  }

  /**
   * Both tie-breaks pick a platform at the largest y, so the loss decision
   * does not depend on which one a scene uses; they pick the same platform
   * exactly when no other platform shares the first one's y.
   */
  lemma TieBreaksAgreeOnY(ps: seq<Pos>, first: nat, last: nat)
    requires IsFirstBottomMost(ps, first) && IsLastBottomMost(ps, last)
    ensures ps[first].y == ps[last].y == MaxY(ps)
    ensures first <= last
    ensures first == last <==> forall j :: 0 <= j < |ps| && j != first ==> ps[j].y < ps[first].y
  {
  }

  /** The run ends when the player is strictly more than LossMargin below the bottom platform. */
  predicate FallenBehind(playerY: real, bottomY: real) {
    playerY > bottomY + LossMargin
  }

  /** With two platforms tied at the bottom, the TypeScript and JavaScript scenes keep different ones. */
  lemma TieBreaksDiffer()
    ensures var ps := [Pos(0.0, 10.0), Pos(0.0, 230.0), Pos(0.0, 90.0), Pos(0.0, 230.0), Pos(0.0, 10.0)];
      IsFirstBottomMost(ps, 1) && IsLastBottomMost(ps, 3)
  {
  }

  /**
   * The boundary case: platforms at 10, 90, 150, 230, 10 put the bottom at
   * 230, and the run ends at player y 431 but not at 430.
   */
  lemma LossBoundary()
    ensures var ps := [Pos(0.0, 10.0), Pos(0.0, 90.0), Pos(0.0, 150.0), Pos(0.0, 230.0), Pos(0.0, 10.0)];
      && MaxY(ps) == 230.0
      && !FallenBehind(430.0, MaxY(ps))
      && FallenBehind(431.0, MaxY(ps))
  {
  }
}
