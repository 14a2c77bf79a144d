/**
  The two gesture signals the drawer reacts to and the tap hit test that all
  three snapshots share.
 */
module Gestures {
  import opened Geometry

  /** The states of a pan recogniser as its action sees them, with the
      vertical translation on `changed` and the vertical release velocity on
      `ended`. `Other` stands for the states the handlers ignore
      (`possible`, and anything a later UIKit adds). */
  datatype PanEvent =
    | Began
    | Changed(translation: real)
    | Ended(velocity: real)
    | Cancelled
    | Failed
    | Other

  /** The recogniser that asks whether it may begin; a tap carries its
      location in the player's view. */
  datatype Recognizer = Pan | Tap(location: Point)

  /** The frames a tap is tested against, already in the player's view
      coordinates: the mini player and the close button. */
  datatype TapTargets = TapTargets(miniPlayer: Rect, closeButton: Rect)

  /** The close button is easier to hit: its frame is grown by 8 points. */
  const CLOSE_BUTTON_SLOP: real := 8.0

  /** A tap hits the drawer when it is inside the mini player or inside the
      close button's grown frame. */
  predicate HitTest(targets: TapTargets, location: Point)
    ensures targets.miniPlayer.Contains(location) ==> HitTest(targets, location)
    ensures targets.closeButton.Contains(location) ==> HitTest(targets, location)
  {
    OutsetContainsIff(targets.closeButton, CLOSE_BUTTON_SLOP, location);
    targets.miniPlayer.Contains(location) ||
    targets.closeButton.Outset(CLOSE_BUTTON_SLOP).Contains(location)
  }

  /** The whole hit test in terms of the original frames: a tap hits
      exactly when it is inside the mini player, or no more than 8 points
      before and less than 8 points past the close button's frame on both
      axes. */
  lemma HitTestExactly(targets: TapTargets, location: Point)
    ensures HitTest(targets, location) <==>
              || targets.miniPlayer.Contains(location)
              || (&& targets.closeButton.MinX() - CLOSE_BUTTON_SLOP <= location.x < targets.closeButton.MaxX() + CLOSE_BUTTON_SLOP
                  && targets.closeButton.MinY() - CLOSE_BUTTON_SLOP <= location.y < targets.closeButton.MaxY() + CLOSE_BUTTON_SLOP)
  {
    OutsetContainsIff(targets.closeButton, CLOSE_BUTTON_SLOP, location);
  }
}
