/**
  The visual properties the drawer writes, grouped into the four parts that
  the transition's `update...` functions set one at a time.
 */
module Presentation {

  /** What one `update...` call writes: the player's container transform
      (`updatePlayerContainer`), the tab bar's transform together with the
      status-bar flag (`updateTabBar`), the full player's alpha together with
      the corner radius (`updatePlayer`), and the mini player's alpha
      (`updateMiniPlayer`). */
  datatype Part = Container | TabBar | Player | MiniPlayer

  /** The concrete values on screen. Transforms are pure vertical
      translations, so each is kept as its offset. */
  datatype Visuals = Visuals(
    containerOffset: real,
    tabBarOffset: real,
    statusBarHidden: bool,
    playerAlpha: real,
    cornerRadius: real,
    miniPlayerAlpha: real)

  /** u and v show the same values for part p. */
  predicate AgreeOn(u: Visuals, v: Visuals, p: Part) {
    match p
    case Container => u.containerOffset == v.containerOffset
    case TabBar => u.tabBarOffset == v.tabBarOffset && u.statusBarHidden == v.statusBarHidden
    case Player => u.playerAlpha == v.playerAlpha && u.cornerRadius == v.cornerRadius
    case MiniPlayer => u.miniPlayerAlpha == v.miniPlayerAlpha
  }

  /** Values that agree on every part are the same values. */
  lemma AgreeEverywhere(u: Visuals, v: Visuals)
    requires AgreeOn(u, v, Container) && AgreeOn(u, v, TabBar)
    requires AgreeOn(u, v, Player) && AgreeOn(u, v, MiniPlayer)
    ensures u == v
  {
  }

  /** Writing part p of the rendering `target` onto the screen `ui`. */
  function ApplyPart(ui: Visuals, p: Part, target: Visuals): (r: Visuals)
    ensures AgreeOn(r, target, p)
    ensures forall q :: q != p ==> AgreeOn(r, ui, q)
  {
    match p
    case Container => ui.(containerOffset := target.containerOffset)
    case TabBar => ui.(tabBarOffset := target.tabBarOffset, statusBarHidden := target.statusBarHidden)
    case Player => ui.(playerAlpha := target.playerAlpha, cornerRadius := target.cornerRadius)
    case MiniPlayer => ui.(miniPlayerAlpha := target.miniPlayerAlpha)
  }

  /** Writing several parts of `target`, in order. */
  function ApplyParts(ui: Visuals, ps: seq<Part>, target: Visuals): Visuals
    decreases |ps|
  {
    if ps == [] then ui else ApplyParts(ApplyPart(ui, ps[0], target), ps[1..], target)
  }

  /** After writing the parts ps, a part shows the target's values if it is
      among ps and its old values otherwise, whatever the order. */
  lemma {:induction false} ApplyPartsAgree(ui: Visuals, ps: seq<Part>, target: Visuals, p: Part)
    ensures AgreeOn(ApplyParts(ui, ps, target), if p in ps then target else ui, p)
    decreases |ps|
  {
    if ps != [] {
      var next := ApplyPart(ui, ps[0], target);
      ApplyPartsAgree(next, ps[1..], target, p);
      assert p in ps <==> p == ps[0] || p in ps[1..];
    }
  }

  /** Writing ps and then qs is writing ps + qs. */
  lemma {:induction false} ApplyPartsAppend(ui: Visuals, ps: seq<Part>, qs: seq<Part>, target: Visuals)
    ensures ApplyParts(ui, ps + qs, target) == ApplyParts(ApplyParts(ui, ps, target), qs, target)
    decreases |ps|
  {
    if ps == [] {
      assert ps + qs == qs;
    } else {
      assert (ps + qs)[0] == ps[0];
      assert (ps + qs)[1..] == ps[1..] + qs;
      ApplyPartsAppend(ApplyPart(ui, ps[0], target), ps[1..], qs, target);
    }
  }

  /** ps mentions each of the four parts. */
  predicate Covers(ps: seq<Part>) {
    Container in ps && TabBar in ps && Player in ps && MiniPlayer in ps
  }

  /** Writing every part of a rendering, in any order and with any
      repetitions, leaves exactly that rendering on screen. */
  lemma AllPartsApplied(ui: Visuals, ps: seq<Part>, target: Visuals)
    requires Covers(ps)
    ensures ApplyParts(ui, ps, target) == target
  {
    var r := ApplyParts(ui, ps, target);
    ApplyPartsAgree(ui, ps, target, Container);
    ApplyPartsAgree(ui, ps, target, TabBar);
    ApplyPartsAgree(ui, ps, target, Player);
    ApplyPartsAgree(ui, ps, target, MiniPlayer);
    AgreeEverywhere(r, target);
  }

  /** The parts ps leave every other part as it was. */
  lemma UntouchedParts(ui: Visuals, ps: seq<Part>, target: Visuals, p: Part)
    requires p !in ps
    ensures AgreeOn(ApplyParts(ui, ps, target), ui, p)
  {
    ApplyPartsAgree(ui, ps, target, p);
  }
}
