/**
 * The swipe card (src/components/ui/SwipeCard.tsx): arrow keys and drag
 * gestures beyond a threshold become swipes; a swipe sends the card off
 * screen on its side and reports the direction to the page.
 */
module SwipeCard {
  import opened Options

  datatype Direction = Left | Right

  const DragThreshold: real := 100.0
  const ExitDistance: int := 200

  /** `handleKeyDown`: only the two arrow keys swipe. */
  function KeyDirection(key: string): (r: Option<Direction>)
    ensures r == Some(Left) <==> key == "ArrowLeft"
    ensures r == Some(Right) <==> key == "ArrowRight"
    ensures r.None? <==> key != "ArrowLeft" && key != "ArrowRight"
  {
    if key == "ArrowLeft" then Some(Left)
    else if key == "ArrowRight" then Some(Right)
    else None
  }

  /** `handleDragEnd`: a drag further than the threshold swipes; the threshold itself does not. */
  function DragDirection(offsetX: real): (r: Option<Direction>)
    ensures r == Some(Right) <==> offsetX > DragThreshold
    ensures r == Some(Left) <==> offsetX < -DragThreshold
    ensures r.None? <==> -DragThreshold <= offsetX <= DragThreshold
  {
    if offsetX > DragThreshold then Some(Right)
    else if offsetX < -DragThreshold then Some(Left)
    else None
  }

  /** The horizontal offset the card leaves to: off the side it was swiped to. */
  function ExitOffset(d: Direction): (x: int)
    ensures d == Left <==> x < 0
    ensures x == ExitDistance || x == -ExitDistance
  {
    if d == Left then -ExitDistance else ExitDistance
  }

  /**
   * The card's state: `exitX`, the x the animation controls were last sent to, and the
   * directions reported through `onSwipe` so far.
   */
  class Card {
    var exitX: int
    var animationTarget: int
    var reported: seq<Direction>

    constructor ()
      ensures exitX == 0 && animationTarget == 0 && reported == []
    {
      exitX, animationTarget, reported := 0, 0, [];
    }

    /** `handleSwipe`: animate off screen, then report the same direction (the animation is taken as finished). */
    method HandleSwipe(d: Direction)
      modifies this
      ensures exitX == ExitOffset(d) && animationTarget == ExitOffset(d)
      ensures reported == old(reported) + [d]
    {
      var xOffset := if d == Left then -ExitDistance else ExitDistance;
      exitX := xOffset;
      animationTarget := xOffset;
      reported := reported + [d];
    }

    method HandleKeyDown(key: string)
      modifies this
      ensures KeyDirection(key).Some? ==>
        && reported == old(reported) + [KeyDirection(key).value]
        && exitX == ExitOffset(KeyDirection(key).value)
        && animationTarget == ExitOffset(KeyDirection(key).value)
      ensures KeyDirection(key).None? ==>
        reported == old(reported) && exitX == old(exitX) && animationTarget == old(animationTarget)
    {
      if key == "ArrowLeft" {
        HandleSwipe(Left);
      } else if key == "ArrowRight" {
        HandleSwipe(Right);
      }
    }

    /** Below the threshold the card springs back to x = 0 and nothing is reported. */
    method HandleDragEnd(offsetX: real)
      modifies this
      ensures DragDirection(offsetX).Some? ==>
        && reported == old(reported) + [DragDirection(offsetX).value]
        && exitX == ExitOffset(DragDirection(offsetX).value)
        && animationTarget == ExitOffset(DragDirection(offsetX).value)
      ensures DragDirection(offsetX).None? ==>
        reported == old(reported) && exitX == old(exitX) && animationTarget == 0
    {
      var threshold := DragThreshold;
      if offsetX > threshold {
        HandleSwipe(Right);
      } else if offsetX < -threshold {
        HandleSwipe(Left);
      } else {
        animationTarget := 0;
      }
    }
  }
}
