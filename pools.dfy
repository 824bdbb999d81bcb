/**
 * Positions and the carrot pool of the Game scene. A carrot is never
 * destroyed: collecting one makes it inactive, and spawning reuses an
 * inactive member or allocates a new one.
 */
module Pools {
  /** A position in world coordinates; y grows downward. */
  datatype Pos = Pos(x: real, y: real)

  /** A pooled carrot: where it was last placed and whether it is live. */
  datatype Carrot = Carrot(x: real, y: real, active: bool)

  function Live(c: Carrot): nat {
    if c.active then 1 else 0
  }

  /** Number of live carrots in a pool. */
  function ActiveCount(cs: seq<Carrot>): (n: nat)
    ensures n <= |cs|
  {
    if cs == [] then 0 else ActiveCount(cs[..|cs| - 1]) + Live(cs[|cs| - 1])
  }

  lemma ActiveCountAppend(cs: seq<Carrot>, c: Carrot)
    ensures ActiveCount(cs + [c]) == ActiveCount(cs) + Live(c)
  {
  }

  /** Replacing one member changes the live count by the difference of the two members. */
  lemma {:induction false} ActiveCountUpdate(cs: seq<Carrot>, k: nat, c: Carrot)
    requires k < |cs|
    ensures ActiveCount(cs[k := c]) == ActiveCount(cs) - Live(cs[k]) + Live(c)
    decreases |cs|
  {
    var n := |cs| - 1;
    if k == n {
      assert cs[k := c][..n] == cs[..n];
    } else {
      assert cs[k := c][..n] == cs[..n][k := c];
      ActiveCountUpdate(cs[..n], k, c);
    }
  }

  /** Index of the first inactive carrot, or |cs| when every carrot is live. */
  function FirstInactive(cs: seq<Carrot>): (k: nat)
    ensures k <= |cs|
    ensures k < |cs| ==> !cs[k].active
    ensures forall j :: 0 <= j < k ==> cs[j].active
  {
    if cs == [] || !cs[0].active then 0 else 1 + FirstInactive(cs[1..])
  }

  /**
   * One carrot becomes live at (x, y): the first inactive member is reused,
   * and the pool grows only when every member is live. Exactly one slot
   * changes, the first inactive one or a new one at the end, and it holds
   * the carrot at (x, y).
   */
  function Spawn(cs: seq<Carrot>, x: real, y: real): (r: seq<Carrot>)
    ensures |cs| <= |r| <= |cs| + 1
    ensures |r| == |cs| + 1 ==> forall j :: 0 <= j < |cs| ==> cs[j].active
    ensures ActiveCount(r) == ActiveCount(cs) + 1
    ensures Carrot(x, y, true) in r
    ensures forall j :: 0 <= j < |cs| && cs[j].active ==> r[j] == cs[j]
    ensures var k := FirstInactive(cs);
      && k < |r| && r[k] == Carrot(x, y, true)
      && forall j :: 0 <= j < |cs| && j != k ==> r[j] == cs[j]
  {
    var c := Carrot(x, y, true);
    var k := FirstInactive(cs);
    if k < |cs| then
      ActiveCountUpdate(cs, k, c);
      assert cs[k := c][k] == c;
      cs[k := c]
    else
      ActiveCountAppend(cs, c);
      cs + [c]
  }
}
