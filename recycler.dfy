/**
 * The world recycler of the Game scene's update: a platform at or below the
 * bottom edge of the camera (scrollY + 640) is moved above the camera at a
 * random offset and x and gets a carrot on top; a cloud at or below
 * scrollY + 800 is moved above the camera, keeping its x. The random draws
 * are parameters, one per pool member, under the ranges Phaser.Math.Between
 * is called with.
 */
module Recycler {
  import opened Pools

  const PlatformCount: nat := 5
  const CloudCount: nat := 3

  /** Height of the viewport: the platform recycle threshold below scrollY. */
  const PlatformThreshold: real := 640.0
  const PlatformOffsetMin: int := 80
  const PlatformOffsetMax: int := 120
  const PlatformXMin: int := 40
  const PlatformXMax: int := 440

  const CloudThreshold: real := 800.0
  const CloudOffsetMin: int := 20
  const CloudOffsetMax: int := 60

  /** A platform has scrolled off the bottom of the camera (inclusive). */
  predicate PlatformBelow(p: Pos, scrollY: real) {
    p.y >= scrollY + PlatformThreshold
  }

  /** A cloud has scrolled past its own threshold (inclusive). */
  predicate CloudBelow(c: Pos, scrollY: real) {
    c.y >= scrollY + CloudThreshold
  }

  /** One (offset, x) draw per platform, each in the range the scene draws from. */
  predicate PlatformDraws(offsets: seq<int>, xs: seq<int>, n: nat) {
    && |offsets| == n && |xs| == n
    && (forall i :: 0 <= i < n ==> PlatformOffsetMin <= offsets[i] <= PlatformOffsetMax)
    && (forall i :: 0 <= i < n ==> PlatformXMin <= xs[i] <= PlatformXMax)
  }

  /** One offset draw per cloud, each in the range the scene draws from. */
  predicate CloudDraws(offsets: seq<int>, n: nat) {
    |offsets| == n && forall i :: 0 <= i < n ==> CloudOffsetMin <= offsets[i] <= CloudOffsetMax
  }

  /** One platform's visit in the recycle loop. */
  function RecyclePlatform(p: Pos, scrollY: real, offset: int, x: int): (q: Pos)
    requires PlatformOffsetMin <= offset <= PlatformOffsetMax
    requires PlatformXMin <= x <= PlatformXMax
    ensures !PlatformBelow(q, scrollY)
    ensures PlatformBelow(p, scrollY) ==> q == Pos(x as real, scrollY - offset as real)
    ensures PlatformBelow(p, scrollY) ==>
      && scrollY - PlatformOffsetMax as real <= q.y <= scrollY - PlatformOffsetMin as real
      && PlatformXMin as real <= q.x <= PlatformXMax as real
    ensures !PlatformBelow(p, scrollY) ==> q == p
  {
    if PlatformBelow(p, scrollY) then Pos(x as real, scrollY - offset as real) else p
  }

  /** The platform pool after one pass of the recycle loop. */
  function PlatformPass(ps: seq<Pos>, scrollY: real, offsets: seq<int>, xs: seq<int>): (r: seq<Pos>)
    requires PlatformDraws(offsets, xs, |ps|)
    ensures |r| == |ps|
    ensures forall i :: 0 <= i < |r| ==> r[i].y < scrollY + PlatformThreshold
    ensures forall i :: 0 <= i < |r| ==> (r[i] != ps[i] <==> PlatformBelow(ps[i], scrollY))
    ensures forall i :: 0 <= i < |r| && PlatformBelow(ps[i], scrollY) ==>
      && scrollY - PlatformOffsetMax as real <= r[i].y <= scrollY - PlatformOffsetMin as real
      && PlatformXMin as real <= r[i].x <= PlatformXMax as real
  {
    seq(|ps|, i requires 0 <= i < |ps| => RecyclePlatform(ps[i], scrollY, offsets[i], xs[i]))
  }

  /** Number of platforms among the first k that the pass recycles. */
  function RecycledCount(ps: seq<Pos>, scrollY: real, k: nat): nat
    requires k <= |ps|
  {
    if k == 0 then 0
    else RecycledCount(ps, scrollY, k - 1) + (if PlatformBelow(ps[k - 1], scrollY) then 1 else 0)
  }

  /**
   * The carrot pool after the recycle loop has visited the first k platforms:
   * each recycled platform spawns one carrot on top of its NEW position.
   * Every live carrot stays in its slot, and the pool grows by at most one
   * carrot per visited platform.
   */
  function SpawnPrefix(cs: seq<Carrot>, ps: seq<Pos>, scrollY: real, offsets: seq<int>, xs: seq<int>,
                       height: real, k: nat): (r: seq<Carrot>)
    requires PlatformDraws(offsets, xs, |ps|) && k <= |ps|
    ensures |cs| <= |r| <= |cs| + k
    ensures forall j :: 0 <= j < |cs| && cs[j].active ==> r[j] == cs[j]
  {
    if k == 0 then cs
    else
      var prev := SpawnPrefix(cs, ps, scrollY, offsets, xs, height, k - 1);
      if PlatformBelow(ps[k - 1], scrollY) then
        var q := RecyclePlatform(ps[k - 1], scrollY, offsets[k - 1], xs[k - 1]);
        Spawn(prev, q.x, q.y - height)
      else prev
  }

  /**
   * The carrot pool after the whole platform pass: one more live carrot per
   * recycled platform, with every live carrot kept in its slot.
   */
  function SpawnPass(cs: seq<Carrot>, ps: seq<Pos>, scrollY: real, offsets: seq<int>, xs: seq<int>,
                     height: real): (r: seq<Carrot>)
    requires PlatformDraws(offsets, xs, |ps|)
    ensures ActiveCount(r) == ActiveCount(cs) + RecycledCount(ps, scrollY, |ps|)
    ensures |cs| <= |r| <= |cs| + RecycledCount(ps, scrollY, |ps|)
    ensures forall j :: 0 <= j < |cs| && cs[j].active ==> r[j] == cs[j]
  {
    SpawnPrefixCounts(cs, ps, scrollY, offsets, xs, height, |ps|);
    SpawnPrefix(cs, ps, scrollY, offsets, xs, height, |ps|)
  }

  /**
   * Exactly one carrot becomes live per recycled platform, and the pool grows
   * by at most one carrot per recycle.
   */
  lemma {:induction false} SpawnPrefixCounts(cs: seq<Carrot>, ps: seq<Pos>, scrollY: real,
                                             offsets: seq<int>, xs: seq<int>, height: real, k: nat)
    requires PlatformDraws(offsets, xs, |ps|) && k <= |ps|
    ensures var r := SpawnPrefix(cs, ps, scrollY, offsets, xs, height, k);
      && ActiveCount(r) == ActiveCount(cs) + RecycledCount(ps, scrollY, k)
      && |cs| <= |r| <= |cs| + RecycledCount(ps, scrollY, k)
  {
    if k > 0 {
      SpawnPrefixCounts(cs, ps, scrollY, offsets, xs, height, k - 1);
    }
  }

  /**
   * slot[i] names the carrot spawned for platform i of ps, when i was at or
   * below the threshold: a slot that was not live in the pool before (an
   * inactive member or a new one) and now holds a live carrot on top of the
   * platform's new position moved[i]. Distinct platforms use distinct slots.
   */
  ghost predicate SpawnSlots(before: seq<Carrot>, after: seq<Carrot>, ps: seq<Pos>, moved: seq<Pos>,
                             scrollY: real, height: real, slot: seq<nat>)
  {
    && |slot| <= |ps| && |slot| <= |moved|
    && (forall i :: 0 <= i < |slot| && PlatformBelow(ps[i], scrollY) ==>
          && slot[i] < |after|
          && (slot[i] >= |before| || !before[slot[i]].active)
          && after[slot[i]] == Carrot(moved[i].x, moved[i].y - height, true))
    && (forall i, j :: 0 <= i < j < |slot| && PlatformBelow(ps[i], scrollY) && PlatformBelow(ps[j], scrollY) ==>
          slot[i] != slot[j])
  }

  /** A platform left in place adds a slot that nothing reads. */
  lemma SpawnSlotsSkip(before: seq<Carrot>, after: seq<Carrot>, ps: seq<Pos>, moved: seq<Pos>,
                       scrollY: real, height: real, slot: seq<nat>) returns (slot': seq<nat>)
    requires SpawnSlots(before, after, ps, moved, scrollY, height, slot)
    requires |slot| < |ps| && |slot| < |moved| && !PlatformBelow(ps[|slot|], scrollY)
    ensures |slot'| == |slot| + 1 && SpawnSlots(before, after, ps, moved, scrollY, height, slot')
  {
    slot' := slot + [0];
    assert forall i :: 0 <= i < |slot| ==> slot'[i] == slot[i];
  }

  /**
   * A recycled platform's spawn makes a slot live that was not live before
   * and is not the slot of any earlier platform, since those hold live carrots.
   */
  lemma SpawnSlotsExtend(before: seq<Carrot>, after: seq<Carrot>, ps: seq<Pos>, moved: seq<Pos>,
                         scrollY: real, height: real, slot: seq<nat>, q: Pos) returns (slot': seq<nat>)
    requires SpawnSlots(before, after, ps, moved, scrollY, height, slot)
    requires |slot| < |ps| && |slot| < |moved| && PlatformBelow(ps[|slot|], scrollY) && moved[|slot|] == q
    requires |before| <= |after| && forall j :: 0 <= j < |before| && before[j].active ==> after[j] == before[j]
    ensures |slot'| == |slot| + 1
    ensures SpawnSlots(before, Spawn(after, q.x, q.y - height), ps, moved, scrollY, height, slot')
  {
    var n := |slot|;
    var c := Carrot(q.x, q.y - height, true);
    var r := Spawn(after, q.x, q.y - height);
    // the spawn fills the first inactive slot, or a new one at the end
    var m := FirstInactive(after);
    assert m >= |before| || !before[m].active;
    slot' := slot + [m];
    // the slots of earlier platforms hold live carrots, so the spawn did not reuse them
    forall i | 0 <= i < n && PlatformBelow(ps[i], scrollY)
      ensures slot'[i] == slot[i] && slot[i] != m && r[slot[i]] == after[slot[i]]
    {
      assert after[slot[i]].active;
    }
    forall i | 0 <= i < |slot'| && PlatformBelow(ps[i], scrollY)
      ensures && slot'[i] < |r| && (slot'[i] >= |before| || !before[slot'[i]].active)
              && r[slot'[i]] == Carrot(moved[i].x, moved[i].y - height, true)
    {
      if i == n {
        assert slot'[i] == m;
      }
    }
    forall i, j | 0 <= i < j < |slot'| && PlatformBelow(ps[i], scrollY) && PlatformBelow(ps[j], scrollY)
      ensures slot'[i] != slot'[j]
    {
      if j == n {
        assert slot'[j] == m;
      }
    }
  }

  /** The slots of the first k platforms, built one visit at a time. */
  lemma {:induction false} SpawnPrefixSlotsOf(cs: seq<Carrot>, ps: seq<Pos>, scrollY: real,
                                              offsets: seq<int>, xs: seq<int>, height: real, k: nat)
    returns (slot: seq<nat>)
    requires PlatformDraws(offsets, xs, |ps|) && k <= |ps|
    ensures |slot| == k
    ensures SpawnSlots(cs, SpawnPrefix(cs, ps, scrollY, offsets, xs, height, k), ps,
                       PlatformPass(ps, scrollY, offsets, xs), scrollY, height, slot)
  {
    var moved := PlatformPass(ps, scrollY, offsets, xs);
    if k == 0 {
      slot := [];
      assert SpawnSlots(cs, cs, ps, moved, scrollY, height, slot);
    } else {
      var prev := SpawnPrefix(cs, ps, scrollY, offsets, xs, height, k - 1);
      var earlier := SpawnPrefixSlotsOf(cs, ps, scrollY, offsets, xs, height, k - 1);
      if PlatformBelow(ps[k - 1], scrollY) {
        var q := RecyclePlatform(ps[k - 1], scrollY, offsets[k - 1], xs[k - 1]);
        assert moved[k - 1] == q;
        assert SpawnPrefix(cs, ps, scrollY, offsets, xs, height, k) == Spawn(prev, q.x, q.y - height);
        slot := SpawnSlotsExtend(cs, prev, ps, moved, scrollY, height, earlier, q);
      } else {
        assert SpawnPrefix(cs, ps, scrollY, offsets, xs, height, k) == prev;
        slot := SpawnSlotsSkip(cs, prev, ps, moved, scrollY, height, earlier);
      }
    }
  }

  /**
   * Each platform the loop has recycled among the first k has its own
   * carrot, made live by its spawn, on top of its new position.
   */
  lemma SpawnPrefixSlots(cs: seq<Carrot>, ps: seq<Pos>, scrollY: real,
                         offsets: seq<int>, xs: seq<int>, height: real, k: nat)
    requires PlatformDraws(offsets, xs, |ps|) && k <= |ps|
    ensures exists slot ::
              && |slot| == k
              && SpawnSlots(cs, SpawnPrefix(cs, ps, scrollY, offsets, xs, height, k), ps,
                            PlatformPass(ps, scrollY, offsets, xs), scrollY, height, slot)
  {
    var slot := SpawnPrefixSlotsOf(cs, ps, scrollY, offsets, xs, height, k);
  }

  /** The cloud pool after one pass of the cloud loop. */
  function CloudPass(cs: seq<Pos>, scrollY: real, offsets: seq<int>): (r: seq<Pos>)
    requires CloudDraws(offsets, |cs|)
    ensures |r| == |cs|
    ensures forall i :: 0 <= i < |r| ==> r[i].x == cs[i].x
    ensures forall i :: 0 <= i < |r| ==> r[i].y < scrollY + CloudThreshold
    ensures forall i :: 0 <= i < |r| ==> (r[i] != cs[i] <==> CloudBelow(cs[i], scrollY))
    ensures forall i :: 0 <= i < |r| && CloudBelow(cs[i], scrollY) ==>
      scrollY - CloudOffsetMax as real <= r[i].y <= scrollY - CloudOffsetMin as real
  {
    seq(|cs|, i requires 0 <= i < |cs| =>
      if CloudBelow(cs[i], scrollY) then cs[i].(y := scrollY - offsets[i] as real) else cs[i])
  }
}
