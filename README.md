# Drawer transition engine

This project is a Dafny model of the bookkeeping behind the drawer of the
SpotifyPlayer sample. The drawer is a bottom panel that shows a mini player
when closed and the full player when open. A tap or a vertical drag moves it
between the two states. The model covers what the engine decides on each pan
or tap event and on each animator completion:

- the two-state enum and its reversal;
- the admission gate for new gestures;
- the interactive protocol: began, changed, ended, cancelled and failed;
- the list of running property animators, and how it is started, paused,
  scrubbed, reversed, resumed and emptied;
- the values the engine writes to the screen for a state.

The repository holds three snapshots of this engine, and each is modelled in
its own module:

- `SpotifyCoordinator` models `SpotifyPlayer/Sources/TransitionCoordinator.swift`.
- `DrawerAnimator` models `Drawer/Sources/TransitionAnimator.swift`. It
  follows the SpotifyPlayer coordinator with the states named closed/opened,
  with one difference in tap handling. Its gate admits a tap whenever
  nothing runs. The hit test against the mini player and the close button
  happens in the tap handler instead, and a miss does nothing.
- `DrawerPrototype` models `Drawer/TransitionAnimator.swift`, the earlier
  design. It keeps the state the drawer had before the gesture, lets the
  release choose every animator's direction, and settles the state in a
  single completion.

Shared parts:

- `Animators` models the array helpers of
  `SpotifyPlayer/Sources/Array+UIViewPropertyAnimator.swift`. Each fan-out is
  a loop over a sequence of animator records, proved equal to a pointwise
  function `Each`. `remove` is a filtering loop, proved equal to `Without`.
- `Presentation` holds the visual values, grouped into the four parts the
  `update...` functions write.
- `Geometry` and `Gestures` hold the rectangles, the view measurements and
  the tap hit test.

Two further modules relate and exercise the snapshots:

- `Snapshots` relates the two bookkeeping schemes. One scheme moves the
  state to the target when the gesture begins; the other keeps the
  pre-gesture state. For a drag released by `ended`, they give the same
  fraction, the same cancel-or-commit decision, the same animator playback
  state and the same settled state. The playback and direction lemmas are
  about a list that still runs forwards at the release, which is the case
  for every such drag.
- The schemes differ when a pan ends as `cancelled` or `failed`. The
  SpotifyPlayer and later Drawer snapshots then always cancel. The earlier
  snapshot ignores those states and leaves the paused animators as they
  are. `Snapshots` does not relate these endings.
- `Snapshots` also proves that the later Drawer snapshot's `!`, cancel rule,
  fraction, rendering and animator group equal the SpotifyPlayer ones under
  renaming. It does not relate the gate or the tap handler, which differ as
  described above.
- `Scenarios` drives whole gestures through the classes and delivers the
  completions in any order.

Modelling choices:

- An animator is a record. Its identity is `id`, since Swift's `!=` on
  animator objects compares identity. Each engine hands out fresh ids from a
  counter, `nextId`.
- A completion is the method `Complete(animator, position, m)`. It takes the
  animator record, as the source's closure captures it.
- What each closure re-applies is fixed when its animator is built. The two
  later snapshots record it in `built`, a map from animator identity to
  parts. A completion's record has to agree with that entry.
- The `ui` field holds the values the engine itself writes: the initial
  `updateUI` and the completion snaps.
- Distances, velocities and fractions are `real`.
- The view measurements come in as `Metrics`.

Facts about the code that the model keeps:

- None of the code clamps a scrub fraction to [0, 1], so the model does
  not clamp either.
- None of the code guards the division by the travel distance. The model
  excludes a zero distance by a precondition.
- In the two later snapshots the open corner radius is 20 when the bottom
  safe-area inset exceeds the tab bar's height, and 0 otherwise. The
  earlier snapshot always uses 20 when open.

## Model

| member | source | states |
|---|---|---|
| Geometry.Rect.Outset | SpotifyPlayer/Sources/TransitionCoordinator.swift:117 | `insetBy(dx: -d, dy: -d)` moves each side of the standardised frame out by d |
| Geometry.OutsetKeepsPoints | SpotifyPlayer/Sources/TransitionCoordinator.swift:117 | growing the close button's frame never loses a point of it |
| Geometry.OutsetContainsIff | SpotifyPlayer/Sources/TransitionCoordinator.swift:117-119 | a point is in the grown frame exactly when it is within d of the frame on each axis (half-open on the far sides) |
| Geometry.TotalAnimationDistance | SpotifyPlayer/Sources/TransitionCoordinator.swift:29-32 | the view height splits into the travel distance, the bottom safe-area inset and the mini player height; with both non-negative the distance is at most the view height |
| Gestures.HitTestExactly | SpotifyPlayer/Sources/TransitionCoordinator.swift:116-119 | a tap hits exactly when it is inside the mini player, or no more than 8 points before and less than 8 points past the close button's frame on both axes |
| Gestures.HitTest | Drawer/Sources/TransitionAnimator.swift:80-82 | every tap inside the mini player, and every tap inside the close button's own frame, is a hit |
| Presentation.ApplyPart | SpotifyPlayer/Sources/TransitionCoordinator.swift:248-271 | one `update...` call writes its own part of the rendering and leaves the other three parts alone |
| Presentation.ApplyPartsAgree | SpotifyPlayer/Sources/TransitionCoordinator.swift:214-234 | after a sequence of re-applications, in any order, a part shows the rendering if it was among them and its old value otherwise |
| Presentation.AllPartsApplied | SpotifyPlayer/Sources/TransitionCoordinator.swift:241-246 | writing all four parts, in any order and with repeats, leaves exactly that rendering on screen |
| Presentation.UntouchedParts | SpotifyPlayer/Sources/TransitionCoordinator.swift:214-234 | a part no completion re-applies keeps its value |
| Animators.Apply | SpotifyPlayer/Sources/Array+UIViewPropertyAnimator.swift:13-47 | one per-element operation changes only playback, direction or fraction, never identity, animations or completion |
| Animators.Each | SpotifyPlayer/Sources/Array+UIViewPropertyAnimator.swift:13-47 | a fan-out keeps length and order and applies the operation to every element |
| Animators.ForEach | SpotifyPlayer/Sources/Array+UIViewPropertyAnimator.swift:15 | the in-place `forEach` loop computes exactly the pointwise fan-out |
| Animators.SetIsReversed | SpotifyPlayer/Sources/Array+UIViewPropertyAnimator.swift:13-16 | the `isReversed` setter makes every flag the new value and changes nothing else; no getter is offered |
| Animators.SetFractionComplete | SpotifyPlayer/Sources/Array+UIViewPropertyAnimator.swift:23-27 | the `fractionComplete` setter gives every element the fraction, nothing else changes; no getter is offered |
| Animators.StartAnimations | SpotifyPlayer/Sources/Array+UIViewPropertyAnimator.swift:33-35 | every element is started and running, length and order kept |
| Animators.PauseAnimations | SpotifyPlayer/Sources/Array+UIViewPropertyAnimator.swift:37-39 | every element is paused, length and order kept |
| Animators.ContinueAnimations | SpotifyPlayer/Sources/Array+UIViewPropertyAnimator.swift:41-43 | every element is resumed, length and order kept |
| Animators.Reverse | SpotifyPlayer/Sources/Array+UIViewPropertyAnimator.swift:45-47 | every element's direction flag is negated, nothing else changes |
| Animators.ReverseTwice | SpotifyPlayer/Sources/Array+UIViewPropertyAnimator.swift:45-47 | reversing twice restores the list |
| Animators.ContinueTwice | SpotifyPlayer/Sources/Array+UIViewPropertyAnimator.swift:41-43 | resuming twice is resuming once |
| Animators.ReverseContinueCommute | SpotifyPlayer/Sources/Array+UIViewPropertyAnimator.swift:41-47 | reversing and resuming commute |
| Animators.Without | SpotifyPlayer/Sources/Array+UIViewPropertyAnimator.swift:49-51 | the filter's length drops by the number of elements with the removed identity |
| Animators.WithoutMembers | SpotifyPlayer/Sources/Array+UIViewPropertyAnimator.swift:49-51 | an element survives `remove` exactly when it was there with another identity |
| Animators.WithoutAppend | SpotifyPlayer/Sources/Array+UIViewPropertyAnimator.swift:49-51 | the filter works piecewise, so the survivors keep their relative order |
| Animators.WithoutAbsent | SpotifyPlayer/Sources/Array+UIViewPropertyAnimator.swift:49-51 | removing an absent animator changes nothing |
| Animators.Remove | SpotifyPlayer/Sources/Array+UIViewPropertyAnimator.swift:49-51 | the reassigning loop of `remove` computes exactly `Without` |
| Animators.DistinctCount | SpotifyPlayer/Sources/TransitionCoordinator.swift:218 | in a list of distinct animators, a completion removes one element if its animator is there and none otherwise |
| Animators.WithoutDistinct | SpotifyPlayer/Sources/Array+UIViewPropertyAnimator.swift:49-51 | removal keeps identities distinct |
| Animators.EachDistinct | SpotifyPlayer/Sources/Array+UIViewPropertyAnimator.swift:13-47 | fan-outs keep identities distinct |
| Animators.Record | SpotifyPlayer/Sources/TransitionCoordinator.swift:214-233 | building a list records an entry for each of its animators and keeps the entries of identities it does not use |
| Animators.RecordedAfter | SpotifyPlayer/Sources/TransitionCoordinator.swift:214-233 | after a list with distinct identities is built, every animator of it is on record with its own parts |
| Animators.WithoutRecorded | SpotifyPlayer/Sources/Array+UIViewPropertyAnimator.swift:49-51 | removal keeps identities below the counter and every survivor on record |
| Animators.EachRecorded | SpotifyPlayer/Sources/Array+UIViewPropertyAnimator.swift:13-47 | fan-outs keep identities below the counter and every animator on record |
| Animators.WithoutAllMembers | SpotifyPlayer/Sources/TransitionCoordinator.swift:214-234 | after several completions exactly the animators not yet completed remain, whatever the order |
| Animators.WithoutAllEmpties | SpotifyPlayer/Sources/TransitionCoordinator.swift:214-234 | once every running animator has completed, the list is empty |
| Animators.OwnIdsEmpty | SpotifyPlayer/Sources/TransitionCoordinator.swift:214-234 | the completions of a list's own animators empty it |
| Animators.GroupPartsEach | SpotifyPlayer/Sources/Array+UIViewPropertyAnimator.swift:13-47 | fan-outs never change what a group animates |
| Animators.EachUniform | SpotifyPlayer/Sources/Array+UIViewPropertyAnimator.swift:13-47 | a fan-out keeps a group in lockstep |
| Animators.WithoutUniform | SpotifyPlayer/Sources/Array+UIViewPropertyAnimator.swift:49-51 | removal keeps a group in lockstep |
| Animators.UniformFlip | Drawer/TransitionAnimator.swift:84-89 | in a lockstep list, toggling all when the first does not point the wanted way sets every flag to the wanted direction |
| Animators.MarkFinished | Drawer/TransitionAnimator.swift:123-132 | an animator without a completion closure is only marked finished; the list otherwise stays as it was |
| Animators.MarkFinishedUniform | Drawer/TransitionAnimator.swift:123-132 | marking an animator finished keeps the group in lockstep |
| SpotifyCoordinator.Not | SpotifyPlayer/Sources/TransitionCoordinator.swift:17-19 | `!s` is never `s` |
| SpotifyCoordinator.NotInvolution | SpotifyPlayer/Sources/TransitionCoordinator.swift:17-19 | `!!s == s` |
| SpotifyCoordinator.IsGestureCancelled | SpotifyPlayer/Sources/TransitionCoordinator.swift:100-105 | zero velocity never cancels; otherwise it cancels iff moving down (v > 0) exactly when the state is open |
| SpotifyCoordinator.CancelOneWay | SpotifyPlayer/Sources/TransitionCoordinator.swift:100-105 | a non-zero velocity cancels for exactly one of the two states |
| SpotifyCoordinator.ScrubFraction | SpotifyPlayer/Sources/TransitionCoordinator.swift:76-80 | fraction times distance is the translation, negated iff the state is open |
| SpotifyCoordinator.FullDragCompletes | SpotifyPlayer/Sources/TransitionCoordinator.swift:76-80 | a drag of the whole distance towards the target gives fraction 1, away from it -1 (no clamping) |
| SpotifyCoordinator.ScrubOpposite | SpotifyPlayer/Sources/TransitionCoordinator.swift:76-80 | the same drag scrubs the two directions oppositely |
| SpotifyCoordinator.Render | SpotifyPlayer/Sources/TransitionCoordinator.swift:248-271 | open: player alpha 1, mini alpha 0, container at 0, tab bar offset by its height, status bar hidden; closed: player 0, mini 1, container at the total distance, tab bar at 0, status bar shown; corner radius 20 exactly when open and the bottom inset exceeds the tab bar's height, else 0 |
| SpotifyCoordinator.CornerRadius | SpotifyPlayer/Sources/TransitionCoordinator.swift:265 | the open radius is 20 or 0, and it is 20 exactly when the bottom safe-area inset exceeds the tab bar height |
| SpotifyCoordinator.RenderDistinguishesStates | SpotifyPlayer/Sources/TransitionCoordinator.swift:241-271 | the rendering tells the two states apart |
| SpotifyCoordinator.CreateTransitionAnimators | SpotifyPlayer/Sources/TransitionCoordinator.swift:143-212 | three fresh animators with new identities, all with the re-apply-and-remove completion, together animating every part: the first animates container and tab bar over the whole duration, the second the player and the third the mini player, each fade in [0, 0.5] when opening and [0.5, 0.5] when closing |
| SpotifyCoordinator.PlayerAnimator | SpotifyPlayer/Sources/TransitionCoordinator.swift:160-194 | a fresh, unstarted animator under the given identity that moves the container and the tab bar over the whole duration and reapplies the state on completion |
| SpotifyCoordinator.PlayerFadeAnimator | SpotifyPlayer/Sources/TransitionCoordinator.swift:169-203 | a fresh, unstarted animator with one player keyframe of half the duration, in the first half exactly when opening, reapplying on completion |
| SpotifyCoordinator.MiniPlayerFadeAnimator | SpotifyPlayer/Sources/TransitionCoordinator.swift:178-212 | a fresh, unstarted animator with one mini player keyframe of half the duration, in the first half exactly when opening, reapplying on completion |
| SpotifyCoordinator.StartedGroup | SpotifyPlayer/Sources/TransitionCoordinator.swift:93-97 | the started group has distinct identities from the counter on, runs in lockstep and forwards, and each animator is on record with its own parts |
| SpotifyCoordinator.ContinuedAnimators | SpotifyPlayer/Sources/TransitionCoordinator.swift:83-90 | every animator's direction is flipped iff cancelled, and every animator is resumed |
| SpotifyCoordinator.TransitionCoordinator.constructor | SpotifyPlayer/Sources/TransitionCoordinator.swift:34-41 | closed, nothing running, the closed rendering on screen |
| SpotifyCoordinator.TransitionCoordinator.GestureRecognizerShouldBegin | SpotifyPlayer/Sources/TransitionCoordinator.swift:109-120 | a pan is admitted iff nothing runs; a tap iff nothing runs and it hits the mini player or the grown close button |
| SpotifyCoordinator.TransitionCoordinator.AnimateTransition | SpotifyPlayer/Sources/TransitionCoordinator.swift:93-97 | state becomes the new state; the list becomes exactly the three fresh animators for it, started; their closures' parts are recorded under their identities |
| SpotifyCoordinator.TransitionCoordinator.StartInteractiveTransition | SpotifyPlayer/Sources/TransitionCoordinator.swift:70-73 | as `animateTransition`, with every animator then paused |
| SpotifyCoordinator.TransitionCoordinator.UpdateInteractiveTransition | SpotifyPlayer/Sources/TransitionCoordinator.swift:76-80 | every animator gets the same scrub fraction; state and list otherwise unchanged |
| SpotifyCoordinator.TransitionCoordinator.ContinueInteractiveTransition | SpotifyPlayer/Sources/TransitionCoordinator.swift:83-90 | a cancel flips the state and every direction; both cases resume every animator |
| SpotifyCoordinator.TransitionCoordinator.DidPanPlayer | SpotifyPlayer/Sources/TransitionCoordinator.swift:47-63 | began starts towards `!state` paused; changed scrubs; ended cancels by velocity; cancelled and failed always cancel; other states change nothing |
| SpotifyCoordinator.TransitionCoordinator.DidTapPlayer | SpotifyPlayer/Sources/TransitionCoordinator.swift:65-67 | a whole transition to `!state` |
| SpotifyCoordinator.TransitionCoordinator.Complete | SpotifyPlayer/Sources/TransitionCoordinator.swift:214-234 | re-applies, for the current state, the parts recorded for the animator when it was built, then removes that animator and no other; the list shrinks by one iff it was there |
| DrawerAnimator.Not | Drawer/Sources/TransitionAnimator.swift:17-19 | `!s` is never `s` |
| DrawerAnimator.NotInvolution | Drawer/Sources/TransitionAnimator.swift:17-19 | `!!s == s` over closed/opened |
| DrawerAnimator.IsGestureCancelled | Drawer/Sources/TransitionAnimator.swift:119-124 | zero velocity never cancels; otherwise it cancels iff moving down exactly when opened |
| DrawerAnimator.ScrubFraction | Drawer/Sources/TransitionAnimator.swift:94-99 | fraction times distance is the translation, negated iff opened |
| DrawerAnimator.Render | Drawer/Sources/TransitionAnimator.swift:245-275 | opened: player 1, mini 0, container 0, tab bar offset, status bar hidden; closed: player 0, mini 1, container at the total distance, tab bar at 0; radius 20 exactly when opened and the bottom inset exceeds the tab bar's height |
| DrawerAnimator.CornerRadius | Drawer/Sources/TransitionAnimator.swift:269 | the opened radius is 20 or 0, and it is 20 exactly when the bottom safe-area inset exceeds the tab bar height |
| DrawerAnimator.CreateTransitionsAnimators | Drawer/Sources/TransitionAnimator.swift:138-243 | the transform animator on container and tab bar over the whole duration, then the player fade and the mini-player fade, in [0, 0.5] for opened and [0.5, 0.5] for closed; all parts covered |
| DrawerAnimator.TransformAnimator | Drawer/Sources/TransitionAnimator.swift:155-211 | a fresh, unstarted animator under the given identity that moves the container and the tab bar over the whole duration and reapplies the state on completion |
| DrawerAnimator.PlayerFadeAnimator | Drawer/Sources/TransitionAnimator.swift:168-227 | a fresh, unstarted animator with one player keyframe of half the duration, in the first half exactly when opening, reapplying on completion |
| DrawerAnimator.MiniPlayerFadeAnimator | Drawer/Sources/TransitionAnimator.swift:184-243 | a fresh, unstarted animator with one mini player keyframe of half the duration, in the first half exactly when opening, reapplying on completion |
| DrawerAnimator.StartedGroup | Drawer/Sources/TransitionAnimator.swift:112-116 | the started group has distinct identities from the counter on, runs in lockstep and forwards, and each animator is on record with its own parts |
| DrawerAnimator.ContinuedAnimators | Drawer/Sources/TransitionAnimator.swift:102-109 | directions flipped iff cancelled, then all resumed |
| DrawerAnimator.TransitionAnimator.constructor | Drawer/Sources/TransitionAnimator.swift:44-51 | closed, nothing running, the closed rendering on screen |
| DrawerAnimator.TransitionAnimator.GestureRecognizerShouldBegin | Drawer/Sources/TransitionAnimator.swift:128-130 | either recogniser is admitted iff nothing runs |
| DrawerAnimator.TransitionAnimator.AnimateTransition | Drawer/Sources/TransitionAnimator.swift:112-116 | state becomes the new state; three fresh animators for it, started |
| DrawerAnimator.TransitionAnimator.StartInteractiveTransition | Drawer/Sources/TransitionAnimator.swift:88-91 | as `animateTransition`, then all paused |
| DrawerAnimator.TransitionAnimator.UpdateInteractiveTransition | Drawer/Sources/TransitionAnimator.swift:94-99 | every animator gets the same scrub fraction, nothing else changes |
| DrawerAnimator.TransitionAnimator.ContinueInteractiveTransition | Drawer/Sources/TransitionAnimator.swift:102-109 | a cancel flips state and directions; both cases resume |
| DrawerAnimator.TransitionAnimator.PopupViewPanned | Drawer/Sources/TransitionAnimator.swift:57-73 | began, changed, ended, cancelled/failed and the ignored states, as in the SpotifyPlayer snapshot |
| DrawerAnimator.TransitionAnimator.PopupViewTapped | Drawer/Sources/TransitionAnimator.swift:75-85 | a tap outside the mini player and the grown close button changes nothing; a hit runs a whole transition to `!state` |
| DrawerAnimator.TransitionAnimator.Complete | Drawer/Sources/TransitionAnimator.swift:160-164 | re-applies, for the current state, the parts recorded for the animator when built, and removes itself and nothing else (the same closure at 176-179, 192-195, 205-209, 221-224, 237-240) |
| DrawerPrototype.Reversed | Drawer/TransitionAnimator.swift:17-22 | `reversed` has no fixed point |
| DrawerPrototype.ReversedInvolution | Drawer/TransitionAnimator.swift:17-22 | `s.reversed.reversed == s` |
| DrawerPrototype.FinalState | Drawer/TransitionAnimator.swift:192-201 | the state changes iff the animator stopped at its end |
| DrawerPrototype.PanFraction | Drawer/TransitionAnimator.swift:64-68 | fraction times inset is minus the translation, negated back iff open |
| DrawerPrototype.FullPanCompletes | Drawer/TransitionAnimator.swift:64-68 | dragging the whole inset away from the current state scrubs to 1 |
| DrawerPrototype.ShouldBeReversed | Drawer/TransitionAnimator.swift:74-89 | the animators run backwards iff (moving down) equals (closed): (open, down) and (closed, up) run forwards, (open, up) and (closed, down) backwards |
| DrawerPrototype.ReleasedAnimators | Drawer/TransitionAnimator.swift:70-92 | the list keeps its length and every animator in it is resumed; with velocity its direction is `ShouldBeReversed`, without velocity its own |
| DrawerPrototype.ContinueAssignContinue | Drawer/TransitionAnimator.swift:71-92 | the first `continueAnimations()` before the direction switch is absorbed by the last |
| DrawerPrototype.PositionAnimator | Drawer/TransitionAnimator.swift:123-132 | a fresh, unstarted animator without completion: the container over the whole duration, the tab bar from a tenth in to the end |
| DrawerPrototype.ContentAnimator | Drawer/TransitionAnimator.swift:134-164 | a fresh, unstarted animator with the settling completion: the mini player over the first tenth, then the player over the next tenth |
| DrawerPrototype.CreateAnimations | Drawer/TransitionAnimator.swift:116-164 | two fresh animators: the position animator with no completion, then the content animator with the settling completion; every part animated; the keyframe windows are the container over [0, 1] and the tab bar from 0.1 for 0.9, the mini player from 0 for 0.1 and the player from 0.1 for 0.1 |
| DrawerPrototype.UpdateUI | Drawer/TransitionAnimator.swift:166-190 | open: player alpha 1 and mini alpha 0; closed: player alpha 0 and mini alpha 1; radius 20 iff open, container at 0 when open and at the inset when closed, tab bar offset by its height when open; the status bar is not touched |
| DrawerPrototype.UpdateUIOverwrites | Drawer/TransitionAnimator.swift:166-190 | redrawing is idempotent and depends on the old screen only through the status bar |
| DrawerPrototype.TransitionAnimator.constructor | Drawer/TransitionAnimator.swift:45-53 | closed, nothing running, the inset measured once, the closed state drawn |
| DrawerPrototype.TransitionAnimator.GestureRecognizerShouldBegin | Drawer/TransitionAnimator.swift:205-209 | either recogniser is admitted iff nothing runs |
| DrawerPrototype.TransitionAnimator.CreateAndStartAnimations | Drawer/TransitionAnimator.swift:108-121 | the list becomes the new pair, started, its completion capturing `currentState.reversed`; `currentState` unchanged |
| DrawerPrototype.TransitionAnimator.BeginPan | Drawer/TransitionAnimator.swift:59-62 | exactly two fresh animators, started then paused; `currentState` unchanged |
| DrawerPrototype.TransitionAnimator.ScrubPan | Drawer/TransitionAnimator.swift:64-68 | every animator gets the pan fraction; nothing else changes |
| DrawerPrototype.TransitionAnimator.ResumeAnimations | Drawer/TransitionAnimator.swift:71 | every animator resumed |
| DrawerPrototype.TransitionAnimator.DirectAnimations | Drawer/TransitionAnimator.swift:74-89 | the switch on (state, direction) with its conditional toggles sets every flag to `ShouldBeReversed` |
| DrawerPrototype.TransitionAnimator.EndPan | Drawer/TransitionAnimator.swift:70-92 | the list becomes `ReleasedAnimators`: resumed, and turned towards the release when it has velocity |
| DrawerPrototype.TransitionAnimator.PopupViewPanned | Drawer/TransitionAnimator.swift:55-97 | began, changed and ended as above; cancelled, failed and other states change nothing; `currentState` never changes here |
| DrawerPrototype.TransitionAnimator.PopupViewTapped | Drawer/TransitionAnimator.swift:99-110 | a miss changes nothing; a hit starts a new pair |
| DrawerPrototype.TransitionAnimator.Complete | Drawer/TransitionAnimator.swift:155-161 | the content completion settles `finalState(from: captured.reversed, position)`, which is the target at the end and the pre-gesture state otherwise, redraws, and empties the list; the position animator is only marked finished |
| Snapshots.SameFraction | Drawer/TransitionAnimator.swift:64-68 | the earlier snapshot's fraction from the pre-gesture state equals the SpotifyPlayer fraction from the target (SpotifyPlayer/Sources/TransitionCoordinator.swift:76-80) |
| Snapshots.SameCancelDecision | Drawer/TransitionAnimator.swift:74-89 | for non-zero velocity, running backwards in the earlier snapshot is cancelling in the SpotifyPlayer one |
| Snapshots.SameRelease | Drawer/TransitionAnimator.swift:70-92 | releasing forward-running animators gives the same list under both schemes, with or without velocity |
| Snapshots.SameSettledState | Drawer/TransitionAnimator.swift:155-161 | the earlier snapshot's settled state equals the SpotifyPlayer state after the release |
| Snapshots.ReleasedDirection | SpotifyPlayer/Sources/TransitionCoordinator.swift:83-90 | after a release the animators run backwards exactly when the gesture was cancelled |
| Snapshots.DrawerIsSpotify | Drawer/Sources/TransitionAnimator.swift:17-275 | the later Drawer snapshot's `!`, cancel rule, fraction, rendering and animator group equal the SpotifyPlayer ones under renaming |
| Scenarios.SettleGroup | SpotifyPlayer/Sources/TransitionCoordinator.swift:214-234 | completions in any order leave the list without their identities and show the state's rendering on every part they animate |
| Scenarios.SettleStep | SpotifyPlayer/Sources/TransitionCoordinator.swift:214-234 | one more completion removes the next animator from the list and re-applies its parts on top of the screen so far |
| Scenarios.SettleRunning | SpotifyPlayer/Sources/TransitionCoordinator.swift:214-234 | once the whole group has completed nothing runs and the state's rendering is on screen |
| Scenarios.TapToOpen | SpotifyPlayer/Sources/TransitionCoordinator.swift:65-67 | a tap on the closed drawer ends open, rendered open, with nothing running, so a later tap that hits may begin |
| Scenarios.DragFromClosed | SpotifyPlayer/Sources/TransitionCoordinator.swift:47-63 | a drag from closed ends open when committed and closed when cancelled, rendered accordingly, nothing running |
| Scenarios.TapDrawer | Drawer/Sources/TransitionAnimator.swift:75-85 | a tap changes the state iff it hits |
| Scenarios.BeginAndScrubPrototype | Drawer/TransitionAnimator.swift:59-68 | after began and changed a pair runs, forwards, with the state unchanged |
| Scenarios.PanPrototype | Drawer/TransitionAnimator.swift:55-97 | after a whole drag the content animator runs backwards exactly as `ShouldBeReversed` says |
| Scenarios.DragPrototype | Drawer/TransitionAnimator.swift:155-161 | a drag from closed whose content animator completes on its own settles open on a commit and closed on a cancel |
| Scenarios.CancelledPanPrototype | Drawer/TransitionAnimator.swift:55-97 | a pan that is cancelled right after it began leaves the started, paused pair in the list, so no recogniser may begin again |
| Scenarios.SameDragSameOutcome | Drawer/TransitionAnimator.swift:55-161 | the same drag on the SpotifyPlayer engine and on the earlier snapshot ends in the same state |

## Left out

- UIKit animation internals are not modelled: damping ratios, easing curves, `scrubsLinearly`, keyframe interpolation, the 0.7 s duration and wall-clock timing. An animator is an opaque record, and its completion is an external event.
- The intermediate values that animation blocks put on screen are not modelled. `ui` holds only the values the engine writes directly: the initial `updateUI` and the completion snaps.
- Floating point is not modelled: distances, velocities and fractions are `real`, and transforms are plain vertical offsets.
- Weak controller references and their nil guards are left out. The controllers are assumed present.
- A nil controller makes `totalAnimationDistance` 0, and the division by it is not guarded in the code. A nonzero distance is therefore a precondition of every scrub.
- Gesture-recogniser wiring and `convert(_:to:)` are left out. The hit test takes the frames already in the player view's coordinates.
- `setNeedsStatusBarAppearanceUpdate` and `maskedCorners` are left out; they have no bookkeeping effect.
- The array getters of `isReversed` and `fractionComplete` only fail an assertion. The model offers these properties as writes only.
- Animator identity is an `id` drawn from a counter, not object allocation.
- SpotifyCoordinator.TransitionCoordinator.Complete: takes the animator record, because the source's completion closure captures the animator object itself. It requires that a record whose identity is in `built` carries the parts recorded there, since a closure only ever sees the animator it was built with.
- DrawerAnimator.TransitionAnimator.Complete: the same requirement as the SpotifyPlayer completion, for the same reason.
- Scenarios.SettleGroup: requires the same agreement with `built` for every completion it delivers.
- DrawerPrototype.TransitionAnimator.Complete: requires that the settling completion's captured state is on record, because a completion closure exists only for an animator the engine created. The capture is kept in `captures`, a map from animator identity to state.
- DrawerPrototype.TransitionAnimator.PopupViewPanned: requires a non-empty list for a release with velocity, because the code reads `runningAnimators[0]` there, which would trap on an empty list.
- Scenarios.SettleGroup: also delivers each completion at the end the animator's direction takes it to. The SpotifyPlayer completions ignore the position.
- Drawer/ViewController.swift is not part of this model. It only forwards delegate calls into one UIKit animator.
- The view-controller plumbing files are not part of this model: SpotifyPlayer/Sources/TabBarController.swift, Drawer/TabViewController.swift, SpotifyPlayer/Sources/PlayerViewController.swift, Drawer/DrawerViewController.swift, SpotifyPlayer/Sources/UIViewController+Utils.swift and SpotifyPlayer/Sources/MusicViewController.swift. They hold layout and styling only.
