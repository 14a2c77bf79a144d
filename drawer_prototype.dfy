/**
  The earlier Drawer snapshot of the transition engine
  (Drawer/TransitionAnimator.swift). Unlike the later snapshots it keeps the
  state the drawer had before the gesture: `currentState` changes only when
  the content animator completes, the release decides the direction by
  setting every animator's `isReversed`, and a single completion settles the
  state, redraws the whole screen and empties the running list.
 */
module DrawerPrototype {
  import opened Geometry
  import opened Gestures
  import opened Presentation
  import opened Animators

  datatype State = Closed | Open

  /** `State.reversed`: the other state. */
  function Reversed(s: State): (r: State)
    ensures r != s
  {
    match s
    case Open => Closed
    case Closed => Open
  }

  /** `reversed` undoes itself. */
  lemma ReversedInvolution(s: State)
    ensures Reversed(Reversed(s)) == s
  {
  }

  /** `finalState(from:position:)`: an animator that stopped at its end has
      taken the drawer to the other state; one that stopped at its start or
      anywhere else leaves it where it began. */
  function FinalState(initial: State, position: Position): (r: State)
    ensures r != initial <==> position == End
  {
    match position
    case End => Reversed(initial)
    case Start => initial
    case Current => initial
  }

  /** The scrub fraction of the `changed` case: the upward translation over
      the collapsed inset, negated while the drawer is open. The source does
      not guard the division; a zero inset is excluded. */
  function PanFraction(currentState: State, translationY: real, inset: real): (fraction: real)
    requires inset != 0.0
    ensures fraction * inset == if currentState == Open then translationY else -translationY
  {
    var fraction := -translationY / inset;
    if currentState == Open then -fraction else fraction
  }

  /** Dragging the whole inset away from the current state, up when closed
      and down when open, scrubs the transition to its end. */
  lemma FullPanCompletes(currentState: State, inset: real)
    requires inset != 0.0
    ensures PanFraction(currentState, if currentState == Open then inset else -inset, inset) == 1.0
  {
  }

  /** The direction the `ended` case gives the animators for a release with
      non-zero velocity: reversed, that is back to the state the drag started
      from, exactly when a closed drawer is let go moving down or an open one
      moving up. */
  function ShouldBeReversed(currentState: State, velocity: real): (reversed: bool)
    ensures reversed <==> (velocity > 0.0 <==> currentState == Closed)
  {
    var shouldClose := velocity > 0.0;
    match (currentState, shouldClose)
    case (Open, true) => false
    case (Closed, false) => false
    case (Open, false) => true
    case (Closed, true) => true
  }

  /** The list the `ended` case leaves, stated as what it amounts to:
      without velocity every animator simply resumes; otherwise every
      animator is set to the direction `ShouldBeReversed` asks for and
      resumes. */
  function ReleasedAnimators(xs: seq<Animator>, currentState: State, velocity: real): (ys: seq<Animator>)
    ensures |ys| == |xs|
    ensures forall i :: 0 <= i < |xs| ==>
              ys[i] == xs[i].(paused := false,
                              reversed := if velocity == 0.0 then xs[i].reversed else ShouldBeReversed(currentState, velocity))
  {
    if velocity == 0.0 then Each(xs, ContinueAnimation)
    else Each(Each(xs, AssignReversed(ShouldBeReversed(currentState, velocity))), ContinueAnimation)
  }

  /** Resuming before choosing the direction changes nothing: the handler's
      first `continueAnimations()` is absorbed by the last. */
  lemma {:induction false} ContinueAssignContinue(xs: seq<Animator>, flag: bool)
    ensures Each(Each(Each(xs, ContinueAnimation), AssignReversed(flag)), ContinueAnimation)
         == Each(Each(xs, AssignReversed(flag)), ContinueAnimation)
  {
    var lhs := Each(Each(Each(xs, ContinueAnimation), AssignReversed(flag)), ContinueAnimation);
    var rhs := Each(Each(xs, AssignReversed(flag)), ContinueAnimation);
    assert |lhs| == |rhs|;
    forall i | 0 <= i < |xs| ensures lhs[i] == rhs[i] {
      assert lhs[i] == xs[i].(paused := false, reversed := flag);
    }
  }

  /** `transitionAnimator(for:duration:)`: the player container over the
      whole duration and the tab bar from a tenth of it on; no completion. */
  function PositionAnimator(id: nat): (a: Animator)
    ensures a.id == id && Unstarted(a) && a.completion == NoCompletion
    ensures PartsOf(a.keyframes) == [Container, TabBar] && WithinDuration(a.keyframes)
    ensures a.keyframes[0].relativeStart == 0.0 && a.keyframes[0].relativeDuration == 1.0
    ensures a.keyframes[1].relativeStart == 0.1 && a.keyframes[1].relativeStart + a.keyframes[1].relativeDuration == 1.0
  {
    NewAnimator(id, [Keyframe(Container, 0.0, 1.0), Keyframe(TabBar, 0.1, 0.9)], NoCompletion)
  }

  /** `contentAnimator(for:duration:)`: the mini player in the first tenth,
      the full player in the second; its completion settles the state. */
  function ContentAnimator(id: nat): (a: Animator)
    ensures a.id == id && Unstarted(a) && a.completion == SettleAndClear
    ensures PartsOf(a.keyframes) == [MiniPlayer, Player] && WithinDuration(a.keyframes)
    ensures a.keyframes[0].relativeStart == 0.0 && a.keyframes[0].relativeDuration == 0.1
    ensures a.keyframes[1].relativeStart == a.keyframes[0].relativeDuration && a.keyframes[1].relativeDuration == 0.1
  {
    NewAnimator(id, [Keyframe(MiniPlayer, 0.0, 0.1), Keyframe(Player, 0.1, 0.1)], SettleAndClear)
  }

  /** `createAnimations(for:)`, numbering the two animators from `firstId`:
      the position animator first, then the content animator; together they
      animate every part. */
  function CreateAnimations(firstId: nat): (group: seq<Animator>)
    ensures |group| == 2
    ensures group[0].id == firstId && group[1].id == firstId + 1
    ensures group[0].completion == NoCompletion && group[1].completion == SettleAndClear
    ensures forall i :: 0 <= i < 2 ==>
              !group[i].started && !group[i].paused && !group[i].reversed && group[i].fraction == 0.0 && !group[i].finished
    ensures Covers(GroupParts(group))
    ensures group[0].keyframes == [Keyframe(Container, 0.0, 1.0), Keyframe(TabBar, 0.1, 0.9)]
    ensures group[1].keyframes == [Keyframe(MiniPlayer, 0.0, 0.1), Keyframe(Player, 0.1, 0.1)]
  {
    var group := [PositionAnimator(firstId), ContentAnimator(firstId + 1)];
    assert GroupParts(group[1..]) == PartsOf(group[1].keyframes) + GroupParts(group[2..]);
    group
  }

  /** `updateUI(with:)`: the four `update...` functions of this snapshot.
      The tab bar update does not touch the status bar here, and the open
      player always gets a corner radius of 20. */
  function UpdateUI(ui: Visuals, s: State, inset: real, m: Metrics): (v: Visuals)
    ensures v.statusBarHidden == ui.statusBarHidden
    ensures s == Open ==> v.playerAlpha == 1.0 && v.miniPlayerAlpha == 0.0
    ensures s == Closed ==> v.playerAlpha == 0.0 && v.miniPlayerAlpha == 1.0
    ensures s == Open <==> v.cornerRadius == 20.0
    ensures s == Closed ==> v.cornerRadius == 0.0
    ensures s == Open ==> v.containerOffset == 0.0 && v.tabBarOffset == m.tabBarContainerHeight
    ensures s == Closed ==> v.containerOffset == inset && v.tabBarOffset == 0.0
  {
    ui.(tabBarOffset := if s == Closed then 0.0 else m.tabBarContainerHeight,
        playerAlpha := if s == Open then 1.0 else 0.0,
        cornerRadius := if s == Open then 20.0 else 0.0,
        miniPlayerAlpha := if s == Open then 0.0 else 1.0,
        containerOffset := if s == Open then 0.0 else inset)
  }

  /** Redrawing for a state is idempotent, and the result depends on the old
      screen only through the status bar. */
  lemma UpdateUIOverwrites(ui: Visuals, other: Visuals, s: State, inset: real, m: Metrics)
    requires other.statusBarHidden == ui.statusBarHidden
    ensures UpdateUI(ui, s, inset, m) == UpdateUI(other, s, inset, m)
    ensures UpdateUI(UpdateUI(ui, s, inset, m), s, inset, m) == UpdateUI(ui, s, inset, m)
  {
  }

  class TransitionAnimator {
    var runningAnimators: seq<Animator>
    var currentState: State
    /** The distance between the open and the collapsed position, measured
        once when the engine is set up. */
    const popupCollapsedButtomInset: real
    /** Where the identities of the next animators start; stands for the
        identity of newly allocated animator objects. */
    var nextId: nat
    var ui: Visuals
    /** The target state each content animator's completion closure
        captured when it was created, by animator identity. */
    var captures: map<nat, State>

    /** Either nothing runs or one pair does: the position animator and the
        content animator, with distinct identities handed out before, driven
        in lockstep, the content animator heading for the other state. */
    ghost predicate Valid()
      reads this
    {
      && (|runningAnimators| == 0 || |runningAnimators| == 2)
      && (|runningAnimators| == 2 ==>
            && runningAnimators[0].completion == NoCompletion
            && runningAnimators[1].completion == SettleAndClear
            && runningAnimators[1].id in captures
            && captures[runningAnimators[1].id] == Reversed(currentState))
      && (forall i :: 0 <= i < |runningAnimators| ==> runningAnimators[i].id < nextId)
      && DistinctIds(runningAnimators)
      && Uniform(runningAnimators)
    }

    /** `init`: closed, nothing running; the inset is measured from the
        view, and the closed state is drawn over whatever was on screen. */
    constructor (m: Metrics, initial: Visuals)
      ensures Valid()
      ensures currentState == Closed && runningAnimators == [] && captures == map[]
      ensures popupCollapsedButtomInset == TotalAnimationDistance(m)
      ensures ui == UpdateUI(initial, Closed, TotalAnimationDistance(m), m)
    {
      popupCollapsedButtomInset := TotalAnimationDistance(m);
      runningAnimators := [];
      currentState := Closed;
      nextId := 0;
      captures := map[];
      ui := UpdateUI(initial, Closed, TotalAnimationDistance(m), m);
    }

    /** `gestureRecognizerShouldBegin(_:)`: either recogniser may begin
        exactly when no animator runs. */
    function GestureRecognizerShouldBegin(r: Recognizer): (begin: bool)
      reads this
      ensures begin <==> runningAnimators == []
    {
      |runningAnimators| == 0
    }

    /** The two statements the `began` case and the tap share: replace the
        list by a new pair headed for the other state, and start it. */
    method CreateAndStartAnimations()
      requires Valid()
      modifies this
      ensures Valid()
      ensures currentState == old(currentState) && nextId == old(nextId) + 2 && ui == old(ui)
      ensures captures == old(captures)[old(nextId) + 1 := Reversed(currentState)]
      ensures runningAnimators == Each(CreateAnimations(old(nextId)), StartAnimation)
    {
      var group := CreateAnimations(nextId);
      assert Uniform(group);
      captures := captures[nextId + 1 := Reversed(currentState)];
      nextId := nextId + 2;
      runningAnimators := StartAnimations(group);
      EachUniform(group, StartAnimation);
    }

    /** The `began` case: a new pair headed for the other state, started
        and at once paused for scrubbing. */
    method BeginPan()
      requires Valid()
      modifies this
      ensures Valid()
      ensures currentState == old(currentState) && ui == old(ui) && nextId == old(nextId) + 2
      ensures captures == old(captures)[old(nextId) + 1 := Reversed(currentState)]
      ensures runningAnimators == Each(Each(CreateAnimations(old(nextId)), StartAnimation), PauseAnimation)
    {
      CreateAndStartAnimations();
      var started := runningAnimators;
      runningAnimators := PauseAnimations(runningAnimators);
      EachUniform(started, PauseAnimation);
      EachDistinct(started, PauseAnimation);
    }

    /** The `changed` case: every animator is scrubbed to the same
        fraction. */
    method ScrubPan(translation: real)
      requires Valid()
      requires popupCollapsedButtomInset != 0.0
      modifies this
      ensures Valid()
      ensures currentState == old(currentState) && ui == old(ui) && nextId == old(nextId) && captures == old(captures)
      ensures runningAnimators == Each(old(runningAnimators), AssignFraction(PanFraction(currentState, translation, popupCollapsedButtomInset)))
    {
      var fraction := PanFraction(currentState, translation, popupCollapsedButtomInset);
      var before := runningAnimators;
      runningAnimators := SetFractionComplete(runningAnimators, fraction);
      EachUniform(before, AssignFraction(fraction));
      EachDistinct(before, AssignFraction(fraction));
    }

    /** `continueAnimations()` on the running list. */
    method ResumeAnimations()
      requires Valid()
      modifies this
      ensures Valid()
      ensures currentState == old(currentState) && ui == old(ui) && nextId == old(nextId) && captures == old(captures)
      ensures runningAnimators == Each(old(runningAnimators), ContinueAnimation)
    {
      var before := runningAnimators;
      runningAnimators := ContinueAnimations(runningAnimators);
      EachUniform(before, ContinueAnimation);
      EachDistinct(before, ContinueAnimation);
    }

    /** The direction switch of the `ended` case: every animator is toggled
        when the first one does not already run the way the release asks,
        which leaves them all set to that direction. */
    method DirectAnimations(yVelocity: real)
      requires Valid() && runningAnimators != []
      modifies this
      ensures Valid()
      ensures currentState == old(currentState) && ui == old(ui) && nextId == old(nextId) && captures == old(captures)
      ensures runningAnimators == Each(old(runningAnimators), AssignReversed(ShouldBeReversed(currentState, yVelocity)))
    {
      var shouldClose := yVelocity > 0.0;
      var before := runningAnimators;
      if (currentState == Open && shouldClose) || (currentState == Closed && !shouldClose) {
        if runningAnimators[0].reversed {
          runningAnimators := Reverse(runningAnimators);
        }
      } else {
        if !runningAnimators[0].reversed {
          runningAnimators := Reverse(runningAnimators);
        }
      }
      var flag := ShouldBeReversed(currentState, yVelocity);
      UniformFlip(before, flag);
      EachUniform(before, AssignReversed(flag));
      EachDistinct(before, AssignReversed(flag));
    }

    /** The `ended` case: resume everything; without velocity resume again
        and stop; otherwise turn every animator towards the release and
        resume. */
    method EndPan(yVelocity: real)
      requires Valid()
      requires yVelocity != 0.0 ==> runningAnimators != []
      modifies this
      ensures Valid()
      ensures currentState == old(currentState) && ui == old(ui) && nextId == old(nextId) && captures == old(captures)
      ensures runningAnimators == ReleasedAnimators(old(runningAnimators), currentState, yVelocity)
    {
      var before := runningAnimators;
      ResumeAnimations();
      if yVelocity == 0.0 {
        ResumeAnimations();
        ContinueTwice(before);
        return;
      }
      DirectAnimations(yVelocity);
      ResumeAnimations();
      ContinueAssignContinue(before, ShouldBeReversed(currentState, yVelocity));
    }

    /** `popupViewPanned(recognizer:)`: began creates, starts and pauses a
        pair; changed scrubs it; ended resumes it, first turning it towards
        the direction of the release when there is velocity; every other
        state of the recogniser is ignored. The state itself does not change
        here. Reading `runningAnimators[0]` on a release with velocity needs
        a running pair. */
    method PopupViewPanned(event: PanEvent)
      requires Valid()
      requires event.Changed? ==> popupCollapsedButtomInset != 0.0
      requires event.Ended? && event.velocity != 0.0 ==> runningAnimators != []
      modifies this
      ensures Valid()
      ensures currentState == old(currentState) && ui == old(ui)
      ensures event.Began? ==>
                && nextId == old(nextId) + 2
                && captures == old(captures)[old(nextId) + 1 := Reversed(currentState)]
                && runningAnimators == Each(Each(CreateAnimations(old(nextId)), StartAnimation), PauseAnimation)
      ensures !event.Began? ==> nextId == old(nextId) && captures == old(captures)
      ensures event.Changed? ==>
                runningAnimators == Each(old(runningAnimators), AssignFraction(PanFraction(currentState, event.translation, popupCollapsedButtomInset)))
      ensures event.Ended? ==>
                runningAnimators == ReleasedAnimators(old(runningAnimators), currentState, event.velocity)
      ensures event.Cancelled? || event.Failed? || event.Other? ==> runningAnimators == old(runningAnimators)
    {
      match event
      case Began => BeginPan();
      case Changed(translation) => ScrubPan(translation);
      case Ended(yVelocity) => EndPan(yVelocity);
      case Cancelled =>
      case Failed =>
      case Other =>
    }

    /** `popupViewTapped(recognizer:)`: a tap that misses both the mini
        player and the grown close button does nothing; one that hits creates
        and starts a pair headed for the other state. */
    method PopupViewTapped(location: Point, targets: TapTargets)
      requires Valid()
      modifies this
      ensures Valid()
      ensures currentState == old(currentState) && ui == old(ui)
      ensures !HitTest(targets, location) ==>
                nextId == old(nextId) && captures == old(captures) && runningAnimators == old(runningAnimators)
      ensures HitTest(targets, location) ==>
                && nextId == old(nextId) + 2
                && captures == old(captures)[old(nextId) + 1 := Reversed(currentState)]
                && runningAnimators == Each(CreateAnimations(old(nextId)), StartAnimation)
    {
      if !HitTest(targets, location) {
        return;
      }
      CreateAndStartAnimations();
    }

    /** An animator of this snapshot finishing at `position`. The content
        animator's completion settles `currentState` from the state its
        closure captured, redraws every part for it and empties the running
        list; the position animator has no completion and is only marked
        finished. A completion closure exists only for an animator this
        engine created, so its captured state is on record. */
    method Complete(animator: Animator, position: Position, m: Metrics)
      requires Valid()
      requires animator.completion.SettleAndClear? ==> animator.id in captures
      modifies this
      ensures Valid()
      ensures nextId == old(nextId) && captures == old(captures)
      ensures animator.completion.SettleAndClear? ==>
                && currentState == FinalState(Reversed(captures[animator.id]), position)
                && ui == UpdateUI(old(ui), currentState, popupCollapsedButtomInset, m)
                && runningAnimators == []
      ensures animator.completion.SettleAndClear? && animator in old(runningAnimators) ==>
                currentState == FinalState(old(currentState), position)
      ensures !animator.completion.SettleAndClear? ==>
                && currentState == old(currentState) && ui == old(ui)
                && runningAnimators == MarkFinished(old(runningAnimators), animator.id)
    {
      if animator.completion.SettleAndClear? {
        if animator in runningAnimators {
          assert animator == runningAnimators[1];
          ReversedInvolution(currentState);
        }
        var finalState := captures[animator.id];
        currentState := FinalState(Reversed(finalState), position);
        ui := UpdateUI(ui, currentState, popupCollapsedButtomInset, m);
        runningAnimators := [];
      } else {
        var before := runningAnimators;
        runningAnimators := MarkFinished(runningAnimators, animator.id);
        MarkFinishedDistinct(before, animator.id);
        MarkFinishedUniform(before, animator.id);
      }
    }
  }
}
