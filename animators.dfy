/**
  A property animator reduced to the bookkeeping the transition engine sees,
  and the fan-out operations that the array extension of
  Array+UIViewPropertyAnimator.swift applies to a list of them.
 */
module Animators {
  import opened Presentation

  /** Where an animator stopped when its completion runs
      (`UIViewAnimatingPosition`). */
  datatype Position = Start | End | Current

  /** One animation block: the part it animates, and its window within the
      animator's duration as fractions (`relativeStartTime`,
      `relativeDuration`). A block that is not a keyframe spans 0 to 1. */
  datatype Keyframe = Keyframe(part: Part, relativeStart: real, relativeDuration: real)

  /** The completion closure attached to an animator: none; re-apply the
      animator's own parts for the current state and remove itself from the
      running list; or resolve the settled state and clear the whole list. */
  datatype Completion = NoCompletion | ReapplyAndRemove | SettleAndClear

  /** An animator: its identity, what it animates, its completion, and the
      playback state the engine drives (started, paused, reversed, the scrub
      fraction, finished). */
  datatype Animator = Animator(
    id: nat,
    keyframes: seq<Keyframe>,
    completion: Completion,
    started: bool,
    paused: bool,
    reversed: bool,
    fraction: real,
    finished: bool)

  /** Not started, paused or finished yet; running forwards from fraction 0. */
  predicate Unstarted(a: Animator) {
    !a.started && !a.paused && !a.reversed && a.fraction == 0.0 && !a.finished
  }

  /** Every keyframe starts and ends inside the animator's duration. */
  predicate WithinDuration(ks: seq<Keyframe>) {
    forall i :: 0 <= i < |ks| ==>
      0.0 <= ks[i].relativeStart && 0.0 < ks[i].relativeDuration && ks[i].relativeStart + ks[i].relativeDuration <= 1.0
  }

  /** A newly built animator: inactive, forward, at fraction 0. */
  function NewAnimator(id: nat, keyframes: seq<Keyframe>, completion: Completion): (a: Animator)
    ensures a.id == id && a.keyframes == keyframes && a.completion == completion && Unstarted(a)
  {
    Animator(id, keyframes, completion, false, false, false, 0.0, false)
  }

  /** The parts an animator's blocks animate, in order. */
  function PartsOf(ks: seq<Keyframe>): (ps: seq<Part>)
    ensures |ps| == |ks|
    ensures forall i :: 0 <= i < |ks| ==> ps[i] == ks[i].part
  {
    if ks == [] then [] else [ks[0].part] + PartsOf(ks[1..])
  }

  /** The parts a list of animators animates, animator after animator. */
  function GroupParts(xs: seq<Animator>): seq<Part> {
    if xs == [] then [] else PartsOf(xs[0].keyframes) + GroupParts(xs[1..])
  }

  /** The parts of two lists one after the other. */
  lemma {:induction false} GroupPartsAppend(xs: seq<Animator>, ys: seq<Animator>)
    ensures GroupParts(xs + ys) == GroupParts(xs) + GroupParts(ys)
  {
    if xs == [] {
      assert xs + ys == ys;
    } else {
      assert (xs + ys)[0] == xs[0] && (xs + ys)[1..] == xs[1..] + ys;
      GroupPartsAppend(xs[1..], ys);
    }
  }

  /** The parts of a group of three. */
  lemma GroupPartsOfThree(xs: seq<Animator>)
    requires |xs| == 3
    ensures GroupParts(xs) == PartsOf(xs[0].keyframes) + PartsOf(xs[1].keyframes) + PartsOf(xs[2].keyframes)
  {
    assert GroupParts(xs[2..]) == PartsOf(xs[2].keyframes) by {
      assert xs[2..][0] == xs[2] && xs[2..][1..] == [];
    }
    assert GroupParts(xs[1..]) == PartsOf(xs[1].keyframes) + GroupParts(xs[2..]) by {
      assert xs[1..][0] == xs[1] && xs[1..][1..] == xs[2..];
    }
  }

  /** The identities of a list, in order. */
  function Ids(xs: seq<Animator>): (ids: seq<nat>)
    ensures |ids| == |xs|
    ensures forall i :: 0 <= i < |xs| ==> ids[i] == xs[i].id
  {
    if xs == [] then [] else [xs[0].id] + Ids(xs[1..])
  }

  /** The operations applied to every element of a list. */
  datatype Op =
    | StartAnimation
    | PauseAnimation
    | ContinueAnimation
    | AssignReversed(flag: bool)
    | AssignFraction(value: real)
    | ToggleReversed

  /** One operation on one animator. */
  function Apply(a: Animator, op: Op): (r: Animator)
    ensures r.id == a.id && r.keyframes == a.keyframes && r.completion == a.completion
    ensures r.finished == a.finished
  {
    match op
    case StartAnimation => a.(started := true, paused := false)
    case PauseAnimation => a.(paused := true)
    case ContinueAnimation => a.(paused := false)
    case AssignReversed(flag) => a.(reversed := flag)
    case AssignFraction(value) => a.(fraction := value)
    case ToggleReversed => a.(reversed := !a.reversed)
  }

  /** `forEach` of one operation: element i of the result is element i of
      the input with the operation applied, so length and order are kept. */
  function Each(xs: seq<Animator>, op: Op): (ys: seq<Animator>)
    ensures |ys| == |xs|
    ensures forall i :: 0 <= i < |xs| ==> ys[i] == Apply(xs[i], op)
  {
    if xs == [] then [] else [Apply(xs[0], op)] + Each(xs[1..], op)
  }

  /** The loop behind every fan-out: visits the elements in order and
      updates each in place. */
  method ForEach(xs: seq<Animator>, op: Op) returns (ys: seq<Animator>)
    ensures ys == Each(xs, op)
  {
    ys := xs;
    var i := 0;
    while i < |ys|
      invariant 0 <= i <= |ys| == |xs|
      invariant forall k :: 0 <= k < i ==> ys[k] == Apply(xs[k], op)
      invariant forall k :: i <= k < |ys| ==> ys[k] == xs[k]
    {
      ys := ys[i := Apply(ys[i], op)];
      i := i + 1;
    }
  }

  /** The `isReversed` setter: every flag becomes `flag`, nothing else
      changes. */
  method SetIsReversed(xs: seq<Animator>, flag: bool) returns (ys: seq<Animator>)
    ensures ys == Each(xs, AssignReversed(flag))
    ensures |ys| == |xs|
    ensures forall i :: 0 <= i < |xs| ==> ys[i].reversed == flag && ys[i].(reversed := xs[i].reversed) == xs[i]
  {
    ys := ForEach(xs, AssignReversed(flag));
  }

  /** The `fractionComplete` setter: every element is scrubbed to `value`,
      nothing else changes. */
  method SetFractionComplete(xs: seq<Animator>, value: real) returns (ys: seq<Animator>)
    ensures ys == Each(xs, AssignFraction(value))
    ensures |ys| == |xs|
    ensures forall i :: 0 <= i < |xs| ==> ys[i].fraction == value && ys[i].(fraction := xs[i].fraction) == xs[i]
  {
    ys := ForEach(xs, AssignFraction(value));
  }

  /** `startAnimations`: every element is running. */
  method StartAnimations(xs: seq<Animator>) returns (ys: seq<Animator>)
    ensures ys == Each(xs, StartAnimation)
    ensures |ys| == |xs|
    ensures forall i :: 0 <= i < |xs| ==> ys[i].started && !ys[i].paused && ys[i].(started := xs[i].started, paused := xs[i].paused) == xs[i]
  {
    ys := ForEach(xs, StartAnimation);
  }

  /** `pauseAnimations`: every element is paused. */
  method PauseAnimations(xs: seq<Animator>) returns (ys: seq<Animator>)
    ensures ys == Each(xs, PauseAnimation)
    ensures |ys| == |xs|
    ensures forall i :: 0 <= i < |xs| ==> ys[i].paused && ys[i].(paused := xs[i].paused) == xs[i]
  {
    ys := ForEach(xs, PauseAnimation);
  }

  /** `continueAnimations`: every element resumes. */
  method ContinueAnimations(xs: seq<Animator>) returns (ys: seq<Animator>)
    ensures ys == Each(xs, ContinueAnimation)
    ensures |ys| == |xs|
    ensures forall i :: 0 <= i < |xs| ==> !ys[i].paused && ys[i].(paused := xs[i].paused) == xs[i]
  {
    ys := ForEach(xs, ContinueAnimation);
  }

  /** `reverse`: every flag is flipped, nothing else changes. */
  method Reverse(xs: seq<Animator>) returns (ys: seq<Animator>)
    ensures ys == Each(xs, ToggleReversed)
    ensures |ys| == |xs|
    ensures forall i :: 0 <= i < |xs| ==> ys[i].reversed == !xs[i].reversed && ys[i].(reversed := xs[i].reversed) == xs[i]
  {
    ys := ForEach(xs, ToggleReversed);
  }

  /** Reversing twice gives back the list it started from. */
  lemma {:induction false} ReverseTwice(xs: seq<Animator>)
    ensures Each(Each(xs, ToggleReversed), ToggleReversed) == xs
  {
    var ys := Each(Each(xs, ToggleReversed), ToggleReversed);
    forall i | 0 <= i < |xs| ensures ys[i] == xs[i] {
      assert ys[i] == Apply(Apply(xs[i], ToggleReversed), ToggleReversed);
    }
  }

  /** Continuing an already continued list changes nothing. */
  lemma ContinueTwice(xs: seq<Animator>)
    ensures Each(Each(xs, ContinueAnimation), ContinueAnimation) == Each(xs, ContinueAnimation)
  {
  }

  /** Flipping directions and resuming touch different fields, so their
      order does not matter. */
  lemma ReverseContinueCommute(xs: seq<Animator>)
    ensures Each(Each(xs, ToggleReversed), ContinueAnimation) == Each(Each(xs, ContinueAnimation), ToggleReversed)
  {
  }

  /** How many elements carry identity `id`. */
  function Count(xs: seq<Animator>, id: nat): (n: nat)
    ensures n <= |xs|
  {
    if xs == [] then 0 else (if xs[0].id == id then 1 else 0) + Count(xs[1..], id)
  }

  /** Some element carries identity `id`. */
  predicate HasId(xs: seq<Animator>, id: nat) {
    exists a :: a in xs && a.id == id
  }

  /** The list `remove(_:)` leaves: the elements not identical to the removed
      one, in their original order. */
  function Without(xs: seq<Animator>, id: nat): (ys: seq<Animator>)
    ensures |ys| == |xs| - Count(xs, id)
  {
    if xs == [] then []
    else if xs[0].id == id then Without(xs[1..], id)
    else [xs[0]] + Without(xs[1..], id)
  }

  /** An animator survives a removal exactly when it was there and has a
      different identity. */
  lemma {:induction false} WithoutMembers(xs: seq<Animator>, id: nat, a: Animator)
    ensures a in Without(xs, id) <==> a in xs && a.id != id
  {
    if xs != [] {
      WithoutMembers(xs[1..], id, a);
      assert a in xs <==> a == xs[0] || a in xs[1..];
    }
  }

  /** Removal distributes over concatenation: it keeps the relative order of
      what survives. */
  lemma {:induction false} WithoutAppend(xs: seq<Animator>, ys: seq<Animator>, id: nat)
    ensures Without(xs + ys, id) == Without(xs, id) + Without(ys, id)
  {
    if xs == [] {
      assert xs + ys == ys;
    } else {
      var zs := xs + ys;
      assert zs[0] == xs[0] && zs[1..] == xs[1..] + ys;
      WithoutAppend(xs[1..], ys, id);
      if xs[0].id == id {
        calc {
          Without(zs, id);
          Without(xs[1..] + ys, id);
          Without(xs[1..], id) + Without(ys, id);
          Without(xs, id) + Without(ys, id);
        }
      } else {
        calc {
          Without(zs, id);
          [xs[0]] + Without(xs[1..] + ys, id);
          [xs[0]] + (Without(xs[1..], id) + Without(ys, id));
          ([xs[0]] + Without(xs[1..], id)) + Without(ys, id);
          Without(xs, id) + Without(ys, id);
        }
      }
    }
  }

  /** Removing an identity nobody carries changes nothing. */
  lemma {:induction false} WithoutAbsent(xs: seq<Animator>, id: nat)
    requires !HasId(xs, id)
    ensures Without(xs, id) == xs
  {
    if xs != [] {
      assert xs[0] in xs;
      assert forall a :: a in xs[1..] ==> a in xs;
      WithoutAbsent(xs[1..], id);
    }
  }

  /** `remove(_:)`: filters out every element identical to `element`. */
  method Remove(xs: seq<Animator>, element: Animator) returns (ys: seq<Animator>)
    ensures ys == Without(xs, element.id)
  {
    ys := [];
    var i := 0;
    while i < |xs|
      invariant 0 <= i <= |xs|
      invariant ys == Without(xs[..i], element.id)
    {
      assert xs[..i + 1] == xs[..i] + [xs[i]];
      WithoutAppend(xs[..i], [xs[i]], element.id);
      assert [xs[i]][1..] == [];
      if xs[i].id != element.id {
        ys := ys + [xs[i]];
      }
      i := i + 1;
    }
    assert xs[..i] == xs;
  }

  /** No two positions hold the same identity. */
  predicate DistinctIds(xs: seq<Animator>) {
    forall i, j :: 0 <= i < j < |xs| ==> xs[i].id != xs[j].id
  }

  /** In a list without repeated identities, an identity occurs once if at
      all, so removing one animator shortens the list by at most one. */
  lemma {:induction false} DistinctCount(xs: seq<Animator>, id: nat)
    requires DistinctIds(xs)
    ensures Count(xs, id) == if HasId(xs, id) then 1 else 0
  {
    if xs != [] {
      assert DistinctIds(xs[1..]) by {
        forall i, j | 0 <= i < j < |xs| - 1 ensures xs[1..][i].id != xs[1..][j].id {
          assert xs[1..][i] == xs[i + 1] && xs[1..][j] == xs[j + 1];
        }
      }
      DistinctCount(xs[1..], id);
      if xs[0].id == id {
        forall a | a in xs[1..] ensures a.id != id {
          var k :| 0 <= k < |xs| - 1 && xs[1..][k] == a;
          assert xs[k + 1] == a;
        }
        assert !HasId(xs[1..], id);
      } else {
        assert HasId(xs, id) <==> HasId(xs[1..], id) by {
          if HasId(xs, id) {
            var a :| a in xs && a.id == id;
            assert a in xs[1..] by {
              var k :| 0 <= k < |xs| && xs[k] == a;
              assert k != 0;
              assert xs[1..][k - 1] == a;
            }
          }
          if HasId(xs[1..], id) {
            var a :| a in xs[1..] && a.id == id;
            assert a in xs;
          }
        }
      }
    }
  }

  /** Removal keeps identities distinct. */
  lemma {:induction false} WithoutDistinct(xs: seq<Animator>, id: nat)
    requires DistinctIds(xs)
    ensures DistinctIds(Without(xs, id))
  {
    if xs != [] {
      assert DistinctIds(xs[1..]) by {
        forall i, j | 0 <= i < j < |xs| - 1 ensures xs[1..][i].id != xs[1..][j].id {
          assert xs[1..][i] == xs[i + 1] && xs[1..][j] == xs[j + 1];
        }
      }
      WithoutDistinct(xs[1..], id);
      if xs[0].id != id {
        var rest := Without(xs[1..], id);
        forall a | a in rest ensures a.id != xs[0].id {
          WithoutMembers(xs[1..], id, a);
          var k :| 0 <= k < |xs| - 1 && xs[1..][k] == a;
          assert xs[k + 1] == a;
        }
        var ys := [xs[0]] + rest;
        forall i, j | 0 <= i < j < |ys| ensures ys[i].id != ys[j].id {
          if i == 0 {
            assert ys[j] == rest[j - 1] && ys[j] in rest;
          } else {
            assert ys[i] == rest[i - 1] && ys[j] == rest[j - 1];
          }
        }
      }
    }
  }

  /** Applying an operation to every element keeps identities distinct. */
  lemma EachDistinct(xs: seq<Animator>, op: Op)
    requires DistinctIds(xs)
    ensures DistinctIds(Each(xs, op))
  {
  }

  /** Every animator of xs has an identity handed out before `next`. */
  predicate IdsBelow(xs: seq<Animator>, next: nat) {
    forall i :: 0 <= i < |xs| ==> xs[i].id < next
  }

  /** Every animator of xs still animates the parts its completion closure
      was built with, as `built` records them under its identity. */
  predicate Recorded(xs: seq<Animator>, built: map<nat, seq<Part>>) {
    forall i :: 0 <= i < |xs| ==> xs[i].id in built && built[xs[i].id] == PartsOf(xs[i].keyframes)
  }

  /** The record after a list of animators is built: each one's parts
      under its identity, on top of `built`, whose other entries stay. */
  function Record(built: map<nat, seq<Part>>, xs: seq<Animator>): (r: map<nat, seq<Part>>)
    decreases |xs|
    ensures forall k :: k in built ==> k in r
    ensures forall i :: 0 <= i < |xs| ==> xs[i].id in r
    ensures forall k :: k in built && (forall i :: 0 <= i < |xs| ==> xs[i].id != k) ==> r[k] == built[k]
  {
    if xs == [] then built
    else
      assert forall i :: 1 <= i < |xs| ==> xs[1..][i - 1] == xs[i];
      Record(built[xs[0].id := PartsOf(xs[0].keyframes)], xs[1..])
  }

  /** Building a list with distinct identities puts every one of its
      animators on record with its own parts. */
  lemma {:induction false} RecordedAfter(built: map<nat, seq<Part>>, xs: seq<Animator>)
    decreases |xs|
    requires DistinctIds(xs)
    ensures Recorded(xs, Record(built, xs))
  {
    if xs != [] {
      var b := built[xs[0].id := PartsOf(xs[0].keyframes)];
      var tail := xs[1..];
      assert forall i :: 0 <= i < |tail| ==> tail[i] == xs[i + 1];
      RecordedAfter(b, tail);
      var r := Record(built, xs);
      assert r == Record(b, tail);
      forall i | 0 <= i < |xs| ensures xs[i].id in r && r[xs[i].id] == PartsOf(xs[i].keyframes) {
        if i > 0 {
          assert xs[i] == tail[i - 1];
        }
      }
    }
  }

  /** A removal keeps identities below the counter and keeps every survivor
      on record. */
  lemma WithoutRecorded(xs: seq<Animator>, id: nat, next: nat, built: map<nat, seq<Part>>)
    requires IdsBelow(xs, next) && Recorded(xs, built)
    ensures IdsBelow(Without(xs, id), next) && Recorded(Without(xs, id), built)
  {
    var ys := Without(xs, id);
    forall i | 0 <= i < |ys|
      ensures ys[i].id < next && ys[i].id in built && built[ys[i].id] == PartsOf(ys[i].keyframes)
    {
      WithoutMembers(xs, id, ys[i]);
      var k :| 0 <= k < |xs| && xs[k] == ys[i];
    }
  }

  /** A fan-out keeps identities below the counter and keeps every
      animator on record. */
  lemma EachRecorded(xs: seq<Animator>, op: Op, next: nat, built: map<nat, seq<Part>>)
    requires IdsBelow(xs, next) && Recorded(xs, built)
    ensures IdsBelow(Each(xs, op), next) && Recorded(Each(xs, op), built)
  {
  }

  /** Removing every identity in `ids`, one after the other: the list a
      sequence of completions leaves behind. */
  function WithoutAll(xs: seq<Animator>, ids: seq<nat>): seq<Animator>
    decreases |ids|
  {
    if ids == [] then xs else WithoutAll(Without(xs, ids[0]), ids[1..])
  }

  /** What survives a sequence of removals is what was there and was not
      removed. */
  lemma {:induction false} WithoutAllMembers(xs: seq<Animator>, ids: seq<nat>, a: Animator)
    ensures a in WithoutAll(xs, ids) <==> a in xs && a.id !in ids
    decreases |ids|
  {
    if ids != [] {
      WithoutAllMembers(Without(xs, ids[0]), ids[1..], a);
      WithoutMembers(xs, ids[0], a);
      assert a.id in ids <==> a.id == ids[0] || a.id in ids[1..];
    }
  }

  /** Once every animator's identity has been removed, in whatever order,
      the list is empty. */
  lemma WithoutAllEmpties(xs: seq<Animator>, ids: seq<nat>)
    requires forall a :: a in xs ==> a.id in ids
    ensures WithoutAll(xs, ids) == []
  {
    var r := WithoutAll(xs, ids);
    if r != [] {
      WithoutAllMembers(xs, ids, r[0]);
      assert false;
    }
  }

  /** Removing one identity more at the end of a sequence of removals. */
  lemma {:induction false} WithoutAllSnoc(xs: seq<Animator>, ids: seq<nat>, id: nat)
    ensures WithoutAll(xs, ids + [id]) == Without(WithoutAll(xs, ids), id)
    decreases |ids|
  {
    if ids == [] {
      assert [] + [id] == [id];
    } else {
      assert (ids + [id])[0] == ids[0];
      assert (ids + [id])[1..] == ids[1..] + [id];
      WithoutAllSnoc(Without(xs, ids[0]), ids[1..], id);
    }
  }

  /** The completions of a list's own animators remove all of them. */
  lemma OwnIdsEmpty(xs: seq<Animator>)
    ensures WithoutAll(xs, Ids(xs)) == []
  {
    forall a | a in xs ensures a.id in Ids(xs) {
      var i :| 0 <= i < |xs| && xs[i] == a;
      assert Ids(xs)[i] == a.id;
    }
    WithoutAllEmpties(xs, Ids(xs));
  }

  /** A fan-out keeps the parts a group animates. */
  lemma {:induction false} GroupPartsEach(xs: seq<Animator>, op: Op)
    ensures GroupParts(Each(xs, op)) == GroupParts(xs)
  {
    if xs != [] {
      assert Each(xs, op)[1..] == Each(xs[1..], op);
      GroupPartsEach(xs[1..], op);
    }
  }

  /** The parts of a group with one animator more at the end. */
  lemma GroupPartsSnoc(xs: seq<Animator>, a: Animator)
    ensures GroupParts(xs + [a]) == GroupParts(xs) + PartsOf(a.keyframes)
  {
    GroupPartsAppend(xs, [a]);
    assert GroupParts([a]) == PartsOf(a.keyframes) + GroupParts([a][1..]);
    assert [a][1..] == [];
  }

  /** a and b are driven in lockstep: same playback state, direction and
      scrub fraction. */
  predicate Sync(a: Animator, b: Animator) {
    a.started == b.started && a.paused == b.paused && a.reversed == b.reversed && a.fraction == b.fraction
  }

  /** All elements are driven in lockstep, as a single fraction and a single
      direction are meant to drive the whole group: each is in step with the
      first. */
  predicate Uniform(xs: seq<Animator>) {
    forall i :: 0 <= i < |xs| ==> Sync(xs[i], xs[0])
  }

  /** In a lockstep list any two elements are in step. */
  lemma UniformPairs(xs: seq<Animator>, i: nat, j: nat)
    requires Uniform(xs) && i < |xs| && j < |xs|
    ensures Sync(xs[i], xs[j])
  {
    assert Sync(xs[i], xs[0]) && Sync(xs[j], xs[0]);
  }

  /** A fan-out keeps a lockstep list in lockstep. */
  lemma EachUniform(xs: seq<Animator>, op: Op)
    requires Uniform(xs)
    ensures Uniform(Each(xs, op))
  {
    var ys := Each(xs, op);
    forall i | 0 <= i < |ys| ensures Sync(ys[i], ys[0]) {
      assert Sync(xs[i], xs[0]);
    }
  }

  /** A removal keeps a lockstep list in lockstep. */
  lemma WithoutUniform(xs: seq<Animator>, id: nat)
    requires Uniform(xs)
    ensures Uniform(Without(xs, id))
  {
    var ys := Without(xs, id);
    forall i | 0 <= i < |ys| ensures Sync(ys[i], ys[0]) {
      assert ys[i] in ys && ys[0] in ys;
      WithoutMembers(xs, id, ys[i]);
      WithoutMembers(xs, id, ys[0]);
      var k :| 0 <= k < |xs| && xs[k] == ys[i];
      var l :| 0 <= l < |xs| && xs[l] == ys[0];
      UniformPairs(xs, k, l);
    }
  }

  /** In a lockstep list, the first element's direction is every element's
      direction: flipping all of them when the first one does not point the
      wanted way sets every flag to the wanted one. */
  lemma UniformFlip(xs: seq<Animator>, flag: bool)
    requires Uniform(xs) && xs != []
    ensures (if xs[0].reversed != flag then Each(xs, ToggleReversed) else xs) == Each(xs, AssignReversed(flag))
  {
    var ys := if xs[0].reversed != flag then Each(xs, ToggleReversed) else xs;
    var zs := Each(xs, AssignReversed(flag));
    forall i | 0 <= i < |xs| ensures ys[i] == zs[i] {
      assert Sync(xs[i], xs[0]);
    }
  }

  /** Marks the animator with identity `id` as finished; nothing else
      changes. */
  function MarkFinished(xs: seq<Animator>, id: nat): (ys: seq<Animator>)
    ensures |ys| == |xs|
    ensures forall i :: 0 <= i < |xs| ==> ys[i] == if xs[i].id == id then xs[i].(finished := true) else xs[i]
  {
    if xs == [] then []
    else [if xs[0].id == id then xs[0].(finished := true) else xs[0]] + MarkFinished(xs[1..], id)
  }

  /** Finishing an animator keeps identities distinct. */
  lemma MarkFinishedDistinct(xs: seq<Animator>, id: nat)
    requires DistinctIds(xs)
    ensures DistinctIds(MarkFinished(xs, id))
  {
    var ys := MarkFinished(xs, id);
    forall i, j | 0 <= i < j < |ys| ensures ys[i].id != ys[j].id {
      assert ys[i].id == xs[i].id && ys[j].id == xs[j].id;
    }
  }

  /** Finishing an animator keeps the list in lockstep. */
  lemma MarkFinishedUniform(xs: seq<Animator>, id: nat)
    requires Uniform(xs)
    ensures Uniform(MarkFinished(xs, id))
  {
    var ys := MarkFinished(xs, id);
    forall i | 0 <= i < |ys| ensures Sync(ys[i], ys[0]) {
      assert Sync(xs[i], xs[0]);
    }
  }

  /** Where an animator that runs undisturbed to its end stops: at its end
      when running forwards, back at its start when reversed. */
  function PositionReached(reversed: bool): Position {
    if reversed then Start else End
  }
}
