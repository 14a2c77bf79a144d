/**
  Whole gestures driven through the engines, with the animators' completions
  delivered the way UIKit delivers them: each animator of the group once, in
  any order, at the end its direction takes it to.
 */
module Scenarios {
  import opened Geometry
  import opened Gestures
  import opened Presentation
  import opened Animators
  import S = SpotifyCoordinator
  import D = DrawerAnimator
  import P = DrawerPrototype
  import Snapshots

  /** Delivers the completions of the SpotifyPlayer coordinator's animators
      in the order given. Every completion removes its animator and
      re-applies, for the state, the parts its closure was built with, so
      what remains is the list without those identities, and each part that
      was animated shows the state's rendering. */
  method SettleGroup(c: S.TransitionCoordinator, completions: seq<Animator>, m: Metrics)
    requires c.Valid()
    requires forall k :: 0 <= k < |completions| ==>
               completions[k].id in c.built ==> PartsOf(completions[k].keyframes) == c.built[completions[k].id]
    modifies c
    ensures c.Valid()
    ensures c.state == old(c.state) && c.nextId == old(c.nextId) && c.built == old(c.built)
    ensures c.runningAnimators == WithoutAll(old(c.runningAnimators), Ids(completions))
    ensures c.ui == ApplyParts(old(c.ui), GroupParts(completions), S.Render(c.state, m))
  {
    var k := 0;
    while k < |completions|
      invariant 0 <= k <= |completions|
      invariant c.Valid() && c.state == old(c.state) && c.nextId == old(c.nextId) && c.built == old(c.built)
      invariant c.runningAnimators == WithoutAll(old(c.runningAnimators), Ids(completions[..k]))
      invariant c.ui == ApplyParts(old(c.ui), GroupParts(completions[..k]), S.Render(c.state, m))
    {
      var a := completions[k];
      c.Complete(a, PositionReached(a.reversed), m);
      SettleStep(old(c.runningAnimators), old(c.ui), completions, k, S.Render(c.state, m));
      k := k + 1;
    }
    assert completions[..k] == completions;
  }

  /** One more completion: the list and the screen after the first k + 1
      completions are those after the first k, with the next animator
      removed and its parts re-applied. */
  lemma SettleStep(xs: seq<Animator>, ui: Visuals, completions: seq<Animator>, k: nat, target: Visuals)
    requires k < |completions|
    ensures WithoutAll(xs, Ids(completions[..k + 1])) == Without(WithoutAll(xs, Ids(completions[..k])), completions[k].id)
    ensures ApplyParts(ui, GroupParts(completions[..k + 1]), target)
         == ApplyParts(ApplyParts(ui, GroupParts(completions[..k]), target), PartsOf(completions[k].keyframes), target)
  {
    var a := completions[k];
    assert completions[..k + 1] == completions[..k] + [a];
    assert Ids(completions[..k + 1]) == Ids(completions[..k]) + [a.id];
    WithoutAllSnoc(xs, Ids(completions[..k]), a.id);
    GroupPartsSnoc(completions[..k], a);
    ApplyPartsAppend(ui, GroupParts(completions[..k]), PartsOf(a.keyframes), target);
  }

  /** Once all of a group has completed, nothing runs, and when the group
      animates every part the screen shows exactly the state's rendering. */
  method SettleRunning(c: S.TransitionCoordinator, m: Metrics)
    requires c.Valid()
    requires Covers(GroupParts(c.runningAnimators))
    modifies c
    ensures c.Valid()
    ensures c.state == old(c.state) && c.runningAnimators == [] && c.ui == S.Render(c.state, m)
  {
    var group := c.runningAnimators;
    SettleGroup(c, group, m);
    OwnIdsEmpty(group);
    AllPartsApplied(old(c.ui), GroupParts(group), S.Render(c.state, m));
  }

  /** A tap on a closed drawer opens it: three animators run, and once they
      have completed the open rendering is on screen and new gestures may
      begin again. */
  method TapToOpen(m: Metrics, targets: TapTargets, location: Point) returns (c: S.TransitionCoordinator)
    ensures c.Valid() && c.state == S.Open && c.runningAnimators == []
    ensures c.ui == S.Render(S.Open, m)
    ensures HitTest(targets, location) ==> c.GestureRecognizerShouldBegin(Tap(location), targets)
  {
    c := new S.TransitionCoordinator(m);
    var firstId := c.nextId;
    c.DidTapPlayer();
    GroupPartsEach(S.CreateTransitionAnimators(S.Open, firstId), StartAnimation);
    SettleRunning(c, m);
  }

  /** A drag on a closed drawer, scrubbed by `translation` and released
      with `velocity`, then left to complete: it ends open when committed
      and closed when cancelled, with that state's rendering on screen,
      nothing running, and every animator of the group having run in the
      direction the decision gave it. */
  method DragFromClosed(m: Metrics, translation: real, velocity: real) returns (c: S.TransitionCoordinator)
    requires TotalAnimationDistance(m) != 0.0
    ensures var cancel := S.IsGestureCancelled(S.Open, velocity);
            && c.Valid() && c.runningAnimators == []
            && c.state == (if cancel then S.Closed else S.Open)
            && c.ui == S.Render(c.state, m)
  {
    c := new S.TransitionCoordinator(m);
    var firstId := c.nextId;
    c.DidPanPlayer(Began, m);
    var began := c.runningAnimators;
    c.DidPanPlayer(Changed(translation), m);
    var scrubbed := c.runningAnimators;
    c.DidPanPlayer(Ended(velocity), m);
    var cancel := S.IsGestureCancelled(S.Open, velocity);
    var created := S.CreateTransitionAnimators(S.Open, firstId);
    GroupPartsEach(created, StartAnimation);
    GroupPartsEach(Each(created, StartAnimation), PauseAnimation);
    GroupPartsEach(began, AssignFraction(S.ScrubFraction(S.Open, translation, TotalAnimationDistance(m))));
    var toggled := if cancel then Each(scrubbed, ToggleReversed) else scrubbed;
    GroupPartsEach(scrubbed, ToggleReversed);
    GroupPartsEach(toggled, ContinueAnimation);
    SettleRunning(c, m);
  }

  /** The later Drawer snapshot's tap: a tap that misses leaves the drawer
      as it is; one that hits runs the transition to the other state. */
  method TapDrawer(m: Metrics, location: Point, targets: TapTargets) returns (c: D.TransitionAnimator)
    ensures c.Valid() && c.ui == D.Render(D.Closed, m)
    ensures HitTest(targets, location) <==> c.state == D.Opened
    ensures HitTest(targets, location) <==> |c.runningAnimators| == 3
    ensures !HitTest(targets, location) ==> c.GestureRecognizerShouldBegin(Tap(location))
  {
    c := new D.TransitionAnimator(m);
    c.PopupViewTapped(location, targets);
  }

  /** The earlier snapshot's `began` and `changed`: a pair runs, paused,
      scrubbed and still running forwards. */
  method BeginAndScrubPrototype(p: P.TransitionAnimator, translation: real)
    requires p.Valid() && p.popupCollapsedButtomInset != 0.0
    modifies p
    ensures p.Valid() && p.currentState == old(p.currentState) && p.ui == old(p.ui)
    ensures |p.runningAnimators| == 2 && !p.runningAnimators[1].reversed
  {
    var firstId := p.nextId;
    p.PopupViewPanned(Began);
    ghost var began := p.runningAnimators;
    assert began[1] == Apply(Apply(P.CreateAnimations(firstId)[1], StartAnimation), PauseAnimation);
    p.PopupViewPanned(Changed(translation));
    assert p.runningAnimators[1] == Apply(began[1], AssignFraction(P.PanFraction(p.currentState, translation, p.popupCollapsedButtomInset)));
  }

  /** The earlier snapshot's drag without its completion: a pair runs, the
      state has not moved, and the content animator runs backwards exactly
      when the release has velocity the way back to the current state. */
  method PanPrototype(p: P.TransitionAnimator, translation: real, velocity: real)
    requires p.Valid() && p.popupCollapsedButtomInset != 0.0
    modifies p
    ensures p.Valid() && p.currentState == old(p.currentState) && p.ui == old(p.ui)
    ensures |p.runningAnimators| == 2
    ensures p.runningAnimators[1].reversed == (velocity != 0.0 && P.ShouldBeReversed(p.currentState, velocity))
  {
    BeginAndScrubPrototype(p, translation);
    ghost var scrubbed := p.runningAnimators;
    p.PopupViewPanned(Ended(velocity));
    assert p.runningAnimators[1] == P.ReleasedAnimators(scrubbed, p.currentState, velocity)[1];
  }

  /** A drag on the earlier snapshot's closed drawer, scrubbed and released,
      whose content animator then runs undisturbed to where its direction
      takes it: the state settles on open when the release commits and
      stays closed when it cancels, with that state drawn and nothing
      running. */
  method DragPrototype(m: Metrics, initial: Visuals, translation: real, velocity: real) returns (p: P.TransitionAnimator)
    requires TotalAnimationDistance(m) != 0.0
    ensures p.Valid() && p.runningAnimators == []
    ensures p.currentState ==
              if velocity != 0.0 && P.ShouldBeReversed(P.Closed, velocity) then P.Closed else P.Open
    ensures p.ui == P.UpdateUI(initial, p.currentState, TotalAnimationDistance(m), m)
  {
    p := new P.TransitionAnimator(m, initial);
    var ui0 := p.ui;
    PanPrototype(p, translation, velocity);
    var content := p.runningAnimators[1];
    assert content in p.runningAnimators;
    p.Complete(content, PositionReached(content.reversed), m);
    P.UpdateUIOverwrites(ui0, initial, p.currentState, TotalAnimationDistance(m), m);
  }

  /** A drag on the earlier snapshot's closed drawer that the system
      cancels right after it began: the `cancelled` case does nothing, so
      the started and paused pair stays in the list and no recogniser may
      begin again, neither a pan nor a tap. */
  method CancelledPanPrototype(m: Metrics, initial: Visuals) returns (p: P.TransitionAnimator)
    ensures p.Valid() && p.currentState == P.Closed && |p.runningAnimators| == 2
    ensures forall i :: 0 <= i < |p.runningAnimators| ==> p.runningAnimators[i].started && p.runningAnimators[i].paused
    ensures forall r :: !p.GestureRecognizerShouldBegin(r)
  {
    p := new P.TransitionAnimator(m, initial);
    p.PopupViewPanned(Began);
    p.PopupViewPanned(Cancelled);
  }

  /** The same drag on the SpotifyPlayer coordinator and on the earlier
      Drawer snapshot, both starting closed, left to complete: the two
      drawers end in the same state. */
  method SameDragSameOutcome(m: Metrics, initial: Visuals, translation: real, velocity: real)
    returns (c: S.TransitionCoordinator, p: P.TransitionAnimator)
    requires TotalAnimationDistance(m) != 0.0
    ensures Snapshots.ToPrototype(c.state) == p.currentState
    ensures c.runningAnimators == [] && p.runningAnimators == []
  {
    c := DragFromClosed(m, translation, velocity);
    p := DragPrototype(m, initial, translation, velocity);
    Snapshots.SameSettledState(S.Open, velocity);
  }
}
