/**
  The Drawer snapshot of the transition engine
  (Drawer/Sources/TransitionAnimator.swift). It works as the SpotifyPlayer
  one does, with the states named closed and opened; the differences are
  that its admission check looks only at the running list and that the tap
  hit test is made by the tap handler itself.
 */
module DrawerAnimator {
  import opened Geometry
  import opened Gestures
  import opened Presentation
  import opened Animators

  datatype State = Closed | Opened

  /** The prefix `!` on states: the other state. */
  function Not(s: State): (r: State)
    ensures r != s
  {
    if s == Opened then Closed else Opened
  }

  /** `!` undoes itself. */
  lemma NotInvolution(s: State)
    ensures Not(Not(s)) == s
  {
  }

  /** `isGestureCancelled(with:)` for the current state: a release without
      vertical velocity commits; otherwise the drag is cancelled exactly when
      it moves down (positive velocity) while heading for Opened, or up while
      heading for Closed. */
  function IsGestureCancelled(s: State, velocity: real): (cancelled: bool)
    ensures velocity == 0.0 ==> !cancelled
    ensures velocity != 0.0 ==> (cancelled <==> (velocity > 0.0 <==> s == Opened))
  {
    if velocity == 0.0 then false
    else
      var isPanningDown := velocity > 0.0;
      (s == Opened && isPanningDown) || (s == Closed && !isPanningDown)
  }

  /** The scrub fraction of `updateInteractiveTransition`: the vertical
      translation over the total distance, negated while the state is Opened.
      The source does not guard the division; a zero distance is excluded. */
  function ScrubFraction(s: State, distanceTraveled: real, total: real): (fraction: real)
    requires total != 0.0
    ensures fraction * total == if s == Opened then -distanceTraveled else distanceTraveled
  {
    var fraction := distanceTraveled / total;
    if s == Opened then -fraction else fraction
  }

  /** The corner radius the open player gets: 20 on devices whose bottom
      inset exceeds the tab bar's height, 0 otherwise. */
  function CornerRadius(m: Metrics): (r: real)
    ensures r == 20.0 || r == 0.0
    ensures r == 20.0 <==> m.safeAreaBottom > m.tabBarHeight
  {
    if m.safeAreaBottom > m.tabBarHeight then 20.0 else 0.0
  }

  /** What `updateUI(with:)` puts on screen for a state: the four
      `update...` functions together. */
  function Render(s: State, m: Metrics): (v: Visuals)
    ensures s == Opened ==> v.playerAlpha == 1.0 && v.miniPlayerAlpha == 0.0
    ensures s == Closed ==> v.playerAlpha == 0.0 && v.miniPlayerAlpha == 1.0
    ensures v.statusBarHidden <==> s == Opened
    ensures v.cornerRadius == if s == Opened && m.safeAreaBottom > m.tabBarHeight then 20.0 else 0.0
    ensures s == Opened ==> v.containerOffset == 0.0 && v.tabBarOffset == m.tabBarContainerHeight
    ensures s == Closed ==> v.containerOffset == TotalAnimationDistance(m) && v.tabBarOffset == 0.0
  {
    Visuals(
      containerOffset := if s == Opened then 0.0 else TotalAnimationDistance(m),
      tabBarOffset := if s == Closed then 0.0 else m.tabBarContainerHeight,
      statusBarHidden := s == Opened,
      playerAlpha := if s == Opened then 1.0 else 0.0,
      cornerRadius := if s == Opened then CornerRadius(m) else 0.0,
      miniPlayerAlpha := if s == Opened then 0.0 else 1.0)
  }

  /** `transformOpenAnimator` and `transformCloseAnimator` (they differ only
      in damping): player container and tab bar over the whole duration. */
  function TransformAnimator(id: nat): (a: Animator)
    ensures a.id == id && Unstarted(a) && a.completion == ReapplyAndRemove
    ensures PartsOf(a.keyframes) == [Container, TabBar]
    ensures forall i :: 0 <= i < |a.keyframes| ==> a.keyframes[i].relativeStart == 0.0 && a.keyframes[i].relativeDuration == 1.0
  {
    NewAnimator(id, [Keyframe(Container, 0.0, 1.0), Keyframe(TabBar, 0.0, 1.0)], ReapplyAndRemove)
  }

  /** `fadeInPlayerAnimator` (first half, when opening) and
      `fadeOutPlayerAnimator` (second half, when closing). */
  function PlayerFadeAnimator(s: State, id: nat): (a: Animator)
    ensures a.id == id && Unstarted(a) && a.completion == ReapplyAndRemove
    ensures |a.keyframes| == 1 && a.keyframes[0].part == Player && WithinDuration(a.keyframes)
    ensures a.keyframes[0].relativeDuration == 0.5 && (a.keyframes[0].relativeStart == 0.0 <==> s == Opened)
  {
    NewAnimator(id, [Keyframe(Player, if s == Opened then 0.0 else 0.5, 0.5)], ReapplyAndRemove)
  }

  /** `fadeOutMiniPlayerAnimator` and `fadeInMiniPlayerAnimator`, timed like
      the full player's fades. */
  function MiniPlayerFadeAnimator(s: State, id: nat): (a: Animator)
    ensures a.id == id && Unstarted(a) && a.completion == ReapplyAndRemove
    ensures |a.keyframes| == 1 && a.keyframes[0].part == MiniPlayer && WithinDuration(a.keyframes)
    ensures a.keyframes[0].relativeDuration == 0.5 && (a.keyframes[0].relativeStart == 0.0 <==> s == Opened)
  {
    NewAnimator(id, [Keyframe(MiniPlayer, if s == Opened then 0.0 else 0.5, 0.5)], ReapplyAndRemove)
  }

  /** `createTransitionsAnimators(with:)` for state s, numbering the three
      animators from `firstId`: the position animator, the player fade and
      the mini-player fade. */
  function CreateTransitionsAnimators(s: State, firstId: nat): (group: seq<Animator>)
    ensures |group| == 3
    ensures forall i :: 0 <= i < 3 ==> group[i].id == firstId + i
    ensures forall i :: 0 <= i < 3 ==>
              && !group[i].started && !group[i].paused && !group[i].reversed && group[i].fraction == 0.0
              && !group[i].finished && group[i].completion == ReapplyAndRemove
    ensures Covers(GroupParts(group)) && |GroupParts(group)| == 4
    ensures group[0].keyframes == [Keyframe(Container, 0.0, 1.0), Keyframe(TabBar, 0.0, 1.0)]
    ensures forall i :: 1 <= i < 3 ==>
              |group[i].keyframes| == 1 && group[i].keyframes[0].relativeDuration == 0.5 &&
              group[i].keyframes[0].relativeStart == if s == Opened then 0.0 else 0.5
    ensures group[1].keyframes[0].part == Player && group[2].keyframes[0].part == MiniPlayer
  {
    var group := [TransformAnimator(firstId), PlayerFadeAnimator(s, firstId + 1), MiniPlayerFadeAnimator(s, firstId + 2)];
    GroupPartsOfThree(group);
    group
  }

  /** A freshly built group, started: three animators with distinct
      identities from `firstId` on, in lockstep, running forwards, each on
      record with its own parts once the group is recorded. */
  lemma StartedGroup(s: State, firstId: nat, built: map<nat, seq<Part>>)
    ensures var group := CreateTransitionsAnimators(s, firstId);
            var started := Each(group, StartAnimation);
            && |started| == 3 && IdsBelow(started, firstId + 3) && DistinctIds(started) && Uniform(started)
            && Recorded(started, Record(built, group))
            && forall i :: 0 <= i < |started| ==>
                 firstId <= started[i].id && started[i].started && !started[i].paused && !started[i].reversed
  {
    var group := CreateTransitionsAnimators(s, firstId);
    assert Uniform(group);
    RecordedAfter(built, group);
    EachRecorded(group, StartAnimation, firstId + 3, Record(built, group));
    EachUniform(group, StartAnimation);
  }

  /** The list `continueInteractiveTransition(cancel:)` leaves: reversed
      first when cancelled, then resumed. */
  function ContinuedAnimators(xs: seq<Animator>, cancel: bool): (ys: seq<Animator>)
    ensures |ys| == |xs|
    ensures forall i :: 0 <= i < |xs| ==>
              ys[i] == xs[i].(reversed := xs[i].reversed != cancel, paused := false)
  {
    Each(if cancel then Each(xs, ToggleReversed) else xs, ContinueAnimation)
  }

  class TransitionAnimator {
    var state: State
    var runningAnimators: seq<Animator>
    /** Where the identities of the next animators start; stands for the
        identity of newly allocated animator objects. */
    var nextId: nat
    var ui: Visuals
    /** The parts each animator's completion closure re-applies, fixed when
        the animator was built, kept under the animator's identity. */
    var built: map<nat, seq<Part>>

    /** At most one group runs; its animators have distinct identities
        handed out before, are driven in lockstep, and still animate the
        parts their closures were built with. */
    ghost predicate Valid()
      reads this
    {
      && |runningAnimators| <= 3
      && IdsBelow(runningAnimators, nextId)
      && DistinctIds(runningAnimators)
      && Uniform(runningAnimators)
      && Recorded(runningAnimators, built)
    }

    /** `init`: closed, nothing running, the closed rendering on screen. */
    constructor (m: Metrics)
      ensures Valid()
      ensures state == Closed && runningAnimators == [] && ui == Render(Closed, m)
      ensures built == map[]
    {
      state := Closed;
      runningAnimators := [];
      nextId := 0;
      ui := Render(Closed, m);
      built := map[];
    }

    /** `gestureRecognizerShouldBegin(_:)`: either recogniser may begin
        exactly when no animator runs. */
    function GestureRecognizerShouldBegin(r: Recognizer): (begin: bool)
      reads this
      ensures begin <==> runningAnimators == []
    {
      |runningAnimators| == 0
    }

    /** `animateTransition(for:)`: switch to the new state, build its three
        animators afresh and start them. */
    method AnimateTransition(newState: State)
      requires Valid()
      modifies this
      ensures Valid()
      ensures state == newState && nextId == old(nextId) + 3 && ui == old(ui)
      ensures runningAnimators == Each(CreateTransitionsAnimators(newState, old(nextId)), StartAnimation)
      ensures built == Record(old(built), CreateTransitionsAnimators(newState, old(nextId)))
      ensures |runningAnimators| == 3
      ensures forall i :: 0 <= i < |runningAnimators| ==>
                old(nextId) <= runningAnimators[i].id && runningAnimators[i].started && !runningAnimators[i].paused && !runningAnimators[i].reversed
    {
      state := newState;
      var group := CreateTransitionsAnimators(state, nextId);
      StartedGroup(state, nextId, built);
      built := Record(built, group);
      nextId := nextId + 3;
      runningAnimators := StartAnimations(group);
    }

    /** `startInteractiveTransition(for:)`: as `animateTransition`, then
        pause everything for scrubbing. */
    method StartInteractiveTransition(newState: State)
      requires Valid()
      modifies this
      ensures Valid()
      ensures state == newState && nextId == old(nextId) + 3 && ui == old(ui)
      ensures runningAnimators == Each(Each(CreateTransitionsAnimators(newState, old(nextId)), StartAnimation), PauseAnimation)
      ensures built == Record(old(built), CreateTransitionsAnimators(newState, old(nextId)))
      ensures |runningAnimators| == 3
      ensures forall i :: 0 <= i < |runningAnimators| ==>
                runningAnimators[i].started && runningAnimators[i].paused && !runningAnimators[i].reversed
    {
      AnimateTransition(newState);
      var before := runningAnimators;
      runningAnimators := PauseAnimations(runningAnimators);
      EachUniform(before, PauseAnimation);
      EachDistinct(before, PauseAnimation);
    }

    /** `updateInteractiveTransition(distanceTraveled:)`: every animator is
        scrubbed to the same fraction; state and list are otherwise kept. */
    method UpdateInteractiveTransition(distanceTraveled: real, m: Metrics)
      requires Valid()
      requires TotalAnimationDistance(m) != 0.0
      modifies this
      ensures Valid()
      ensures state == old(state) && nextId == old(nextId) && ui == old(ui)
      ensures runningAnimators == Each(old(runningAnimators), AssignFraction(ScrubFraction(state, distanceTraveled, TotalAnimationDistance(m))))
      ensures built == old(built)
    {
      var fraction := ScrubFraction(state, distanceTraveled, TotalAnimationDistance(m));
      var before := runningAnimators;
      runningAnimators := SetFractionComplete(runningAnimators, fraction);
      EachUniform(before, AssignFraction(fraction));
      EachDistinct(before, AssignFraction(fraction));
    }

    /** `continueInteractiveTransition(cancel:)`: a cancel reverses every
        animator and flips the state back; then every animator resumes. */
    method ContinueInteractiveTransition(cancel: bool)
      requires Valid()
      modifies this
      ensures Valid()
      ensures state == if cancel then Not(old(state)) else old(state)
      ensures nextId == old(nextId) && ui == old(ui)
      ensures runningAnimators == ContinuedAnimators(old(runningAnimators), cancel)
      ensures built == old(built)
    {
      if cancel {
        var before := runningAnimators;
        runningAnimators := Reverse(runningAnimators);
        EachUniform(before, ToggleReversed);
        EachDistinct(before, ToggleReversed);
        state := Not(state);
      }
      var reversed := runningAnimators;
      runningAnimators := ContinueAnimations(runningAnimators);
      EachUniform(reversed, ContinueAnimation);
      EachDistinct(reversed, ContinueAnimation);
    }

    /** `popupViewPanned(recognizer:)`: began starts an interactive transition
        towards the other state, changed scrubs, ended commits or cancels by
        the release velocity, cancelled and failed always cancel. */
    method PopupViewPanned(event: PanEvent, m: Metrics)
      requires Valid()
      requires event.Changed? ==> TotalAnimationDistance(m) != 0.0
      modifies this
      ensures Valid() && ui == old(ui)
      ensures event.Began? ==>
                && state == Not(old(state)) && nextId == old(nextId) + 3
                && runningAnimators == Each(Each(CreateTransitionsAnimators(state, old(nextId)), StartAnimation), PauseAnimation)
                && built == Record(old(built), CreateTransitionsAnimators(state, old(nextId)))
      ensures !event.Began? ==> built == old(built)
      ensures event.Changed? ==>
                && state == old(state) && nextId == old(nextId)
                && runningAnimators == Each(old(runningAnimators), AssignFraction(ScrubFraction(state, event.translation, TotalAnimationDistance(m))))
      ensures event.Ended? ==>
                var cancel := IsGestureCancelled(old(state), event.velocity);
                && state == (if cancel then Not(old(state)) else old(state)) && nextId == old(nextId)
                && runningAnimators == ContinuedAnimators(old(runningAnimators), cancel)
      ensures event.Cancelled? || event.Failed? ==>
                && state == Not(old(state)) && nextId == old(nextId)
                && runningAnimators == ContinuedAnimators(old(runningAnimators), true)
      ensures event.Other? ==>
                state == old(state) && nextId == old(nextId) && runningAnimators == old(runningAnimators)
    {
      match event
      case Began =>
        StartInteractiveTransition(Not(state));
      case Changed(translation) =>
        UpdateInteractiveTransition(translation, m);
      case Ended(velocity) =>
        var isCancelled := IsGestureCancelled(state, velocity);
        ContinueInteractiveTransition(isCancelled);
      case Cancelled =>
        ContinueInteractiveTransition(true);
      case Failed =>
        ContinueInteractiveTransition(true);
      case Other =>
    }

    /** `popupViewTapped(recognizer:)`: a tap that misses both the mini
        player and the grown close button does nothing; one that hits runs a
        whole transition to the other state. */
    method PopupViewTapped(location: Point, targets: TapTargets)
      requires Valid()
      modifies this
      ensures Valid() && ui == old(ui)
      ensures !HitTest(targets, location) ==>
                state == old(state) && nextId == old(nextId) && runningAnimators == old(runningAnimators) && built == old(built)
      ensures HitTest(targets, location) ==>
                && state == Not(old(state)) && nextId == old(nextId) + 3
                && runningAnimators == Each(CreateTransitionsAnimators(state, old(nextId)), StartAnimation)
                && built == Record(old(built), CreateTransitionsAnimators(state, old(nextId)))
    {
      if !HitTest(targets, location) {
        return;
      }
      AnimateTransition(Not(state));
    }

    /** The completion every animator of this snapshot carries: re-apply
        the animator's own parts for the current state, then remove the
        animator from the running list. The stopping position is ignored. The
        closure captured its animator when it was built, so the record
        passed in agrees with what `built` holds for its identity. */
    method Complete(animator: Animator, position: Position, m: Metrics)
      requires Valid()
      requires animator.id in built ==> PartsOf(animator.keyframes) == built[animator.id]
      modifies this
      ensures Valid()
      ensures state == old(state) && nextId == old(nextId) && built == old(built)
      ensures ui == ApplyParts(old(ui), PartsOf(animator.keyframes), Render(state, m))
      ensures animator.id in built ==> ui == ApplyParts(old(ui), built[animator.id], Render(state, m))
      ensures runningAnimators == Without(old(runningAnimators), animator.id)
      ensures |runningAnimators| == |old(runningAnimators)| - if HasId(old(runningAnimators), animator.id) then 1 else 0
    {
      ui := ApplyParts(ui, PartsOf(animator.keyframes), Render(state, m));
      var before := runningAnimators;
      runningAnimators := Remove(runningAnimators, animator);
      DistinctCount(before, animator.id);
      WithoutDistinct(before, animator.id);
      WithoutUniform(before, animator.id);
      WithoutRecorded(before, animator.id, nextId, built);
    }
  }
}
