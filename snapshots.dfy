/**
  How the three snapshots of the engine relate. The SpotifyPlayer and the
  later Drawer snapshot move their state to the target when a transition
  starts and move it back on cancel; the earlier Drawer snapshot keeps the
  state the drawer had before the gesture and lets the release choose the
  animators' direction. For the same drag, these two bookkeeping schemes
  scrub to the same fraction, make the same cancel-or-commit decision, leave
  the animators in the same playback state and end in the same state.
 */
module Snapshots {
  import opened Animators
  import opened Geometry
  import S = SpotifyCoordinator
  import D = DrawerAnimator
  import P = DrawerPrototype

  /** The same state under the earlier snapshot's names. */
  function ToPrototype(s: S.State): (r: P.State)
    ensures r == P.Open <==> s == S.Open
  {
    match s
    case Open => P.Open
    case Closed => P.Closed
  }

  /** The same state under the later Drawer snapshot's names. */
  function ToDrawer(s: S.State): (r: D.State)
    ensures r == D.Opened <==> s == S.Open
  {
    match s
    case Open => D.Opened
    case Closed => D.Closed
  }

  /** The earlier snapshot's state during a drag is the origin, the other
      snapshots' state is the target: the two are each other's opposite. */
  function Origin(target: S.State): P.State {
    ToPrototype(S.Not(target))
  }

  /** Both schemes scrub a drag to the same fraction: the target-based sign
      rule on the distance travelled agrees with the origin-based sign rule
      on the upward translation. */
  lemma SameFraction(target: S.State, translation: real, total: real)
    requires total != 0.0
    ensures S.ScrubFraction(target, translation, total) == P.PanFraction(Origin(target), translation, total)
  {
    var f := S.ScrubFraction(target, translation, total);
    var g := P.PanFraction(Origin(target), translation, total);
    assert f * total == g * total;
  }

  /** For a release with velocity, the target-based snapshots cancel exactly
      when the earlier one turns its animators back towards the origin. */
  lemma SameCancelDecision(target: S.State, velocity: real)
    requires velocity != 0.0
    ensures S.IsGestureCancelled(target, velocity) == P.ShouldBeReversed(Origin(target), velocity)
  {
  }

  /** No animator of xs runs backwards: the case of every release, as
      nothing between `began` and `ended` changes the direction. */
  predicate Forward(xs: seq<Animator>) {
    forall i :: 0 <= i < |xs| ==> !xs[i].reversed
  }

  /** On forward-running animators, toggling the direction when `flag` is
      set is setting the direction to `flag`. */
  lemma ForwardToggle(xs: seq<Animator>, flag: bool)
    requires Forward(xs)
    ensures (if flag then Each(xs, ToggleReversed) else xs) == Each(xs, AssignReversed(flag))
  {
    var lhs := if flag then Each(xs, ToggleReversed) else xs;
    var rhs := Each(xs, AssignReversed(flag));
    forall i | 0 <= i < |xs| ensures lhs[i] == rhs[i] {
    }
  }

  /** Releasing forward-running animators leaves them in the same playback
      state under both schemes, with or without velocity: reversed exactly
      when the gesture is cancelled, and resumed. */
  lemma SameRelease(xs: seq<Animator>, target: S.State, velocity: real)
    requires Forward(xs)
    ensures S.ContinuedAnimators(xs, S.IsGestureCancelled(target, velocity))
         == P.ReleasedAnimators(xs, Origin(target), velocity)
  {
    if velocity != 0.0 {
      var cancel := S.IsGestureCancelled(target, velocity);
      SameCancelDecision(target, velocity);
      ForwardToggle(xs, cancel);
    }
  }

  /** The state the drawer ends in agrees. The target-based snapshots hold
      the target after a commit and the origin after a cancel at once; the
      earlier snapshot reaches the same state when the content animator,
      released as `ReleasedAnimators` leaves it, runs undisturbed to where
      its direction takes it and settles the state there. */
  lemma SameSettledState(target: S.State, velocity: real)
    ensures var cancel := S.IsGestureCancelled(target, velocity);
            var reversed := if velocity == 0.0 then false else P.ShouldBeReversed(Origin(target), velocity);
            P.FinalState(Origin(target), PositionReached(reversed))
              == ToPrototype(if cancel then S.Not(target) else target)
  {
    if velocity != 0.0 {
      SameCancelDecision(target, velocity);
    }
  }

  /** After a release, the target-based snapshots' animators run backwards
      exactly when the state was moved back, so each stops at the end of its
      own direction with the drawer in the state the list was set up for. */
  lemma ReleasedDirection(xs: seq<Animator>, target: S.State, velocity: real, i: nat)
    requires Forward(xs) && i < |xs|
    ensures var cancel := S.IsGestureCancelled(target, velocity);
            var ys := S.ContinuedAnimators(xs, cancel);
            && ys[i].reversed == cancel && !ys[i].paused
            && (PositionReached(ys[i].reversed) == End <==> !cancel)
  {
  }

  /** The later Drawer snapshot is the SpotifyPlayer one under other names:
      the same `!`, the same cancel rule, the same fraction, the same
      rendering and the same group of animators. */
  lemma DrawerIsSpotify(s: S.State, velocity: real, translation: real, total: real, m: Metrics, firstId: nat)
    requires total != 0.0
    ensures D.Not(ToDrawer(s)) == ToDrawer(S.Not(s))
    ensures D.IsGestureCancelled(ToDrawer(s), velocity) == S.IsGestureCancelled(s, velocity)
    ensures D.ScrubFraction(ToDrawer(s), translation, total) == S.ScrubFraction(s, translation, total)
    ensures D.Render(ToDrawer(s), m) == S.Render(s, m)
    ensures D.CreateTransitionsAnimators(ToDrawer(s), firstId) == S.CreateTransitionAnimators(s, firstId)
  {
  }
}
