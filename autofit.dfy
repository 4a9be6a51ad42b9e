/** The policy that resizes the container when the number of participants
    changes: shrink to a comfortable row on a decrease, grow towards it on an
    increase without passing the width the user last chose by dragging. */
module AutoFit {
  import opened Layout

  /** The width each tile is given when the policy sizes the container. */
  const OptimalVideoWidth: real := 320.0

  /** Width of a row of n tiles at the comfortable width. */
  function OptimalWindowWidth(n: nat): (r: real)
    ensures n > 0 ==> r >= OptimalVideoWidth
  {
    RowWidth(n, OptimalVideoWidth)
  }

  /** The container width after the participant count moved from
      prevNumParticipants to numParticipants. */
  function AutoFitWidth(numParticipants: nat, prevNumParticipants: nat, maxWidth: real, lastSavedMaxWidth: real): (r: real)
    // a decrease never grows the container; it shrinks it to the row of the remaining participants when that is narrower
    ensures numParticipants < prevNumParticipants ==> r <= maxWidth
    ensures (0 < numParticipants < prevNumParticipants && OptimalWindowWidth(numParticipants) < maxWidth) ==>
              r == OptimalWindowWidth(numParticipants)
    // a decrease whose comfortable row is not narrower leaves the width alone
    ensures (numParticipants < prevNumParticipants && !(0 < numParticipants && OptimalWindowWidth(numParticipants) < maxWidth)) ==>
              r == maxWidth
    // no change, or a drop to nobody, leaves the width alone
    ensures (numParticipants == prevNumParticipants || numParticipants == 0) ==> r == maxWidth
    // an increase takes the row width but never passes the width last chosen by dragging
    ensures numParticipants > prevNumParticipants ==>
              r <= lastSavedMaxWidth && r <= OptimalWindowWidth(numParticipants)
              && (r == lastSavedMaxWidth || r == OptimalWindowWidth(numParticipants))
    // the container stays between the minimum tile width and the last dragged width
    ensures MinVideoWidth <= maxWidth <= lastSavedMaxWidth ==> MinVideoWidth <= r <= lastSavedMaxWidth
  {
    if numParticipants < prevNumParticipants && numParticipants > 0 then
      var optimalWindowWidth := OptimalWindowWidth(numParticipants);
      if optimalWindowWidth < maxWidth then optimalWindowWidth else maxWidth
    else if numParticipants > prevNumParticipants then
      var optimalWindowWidth := OptimalWindowWidth(numParticipants);
      if optimalWindowWidth <= lastSavedMaxWidth then optimalWindowWidth else lastSavedMaxWidth
    else
      maxWidth
  }

  /** A decrease never hides a participant that was shown before and is still present. */
  lemma DecreaseKeepsVisible(numParticipants: nat, prevNumParticipants: nat, maxWidth: real, lastSavedMaxWidth: real)
    requires 0 < numParticipants < prevNumParticipants
    requires maxWidth >= -Gap
    ensures VisibleCount(numParticipants, AutoFitWidth(numParticipants, prevNumParticipants, maxWidth, lastSavedMaxWidth))
         == Min(numParticipants, VisibleCount(prevNumParticipants, maxWidth))
  {
  }

  /** Once the container is at least the comfortable row, every participant
      up to the fixed maximum is shown. */
  lemma RowFitsShowsAll(n: nat, width: real)
    requires n > 0 && OptimalWindowWidth(n) <= width
    ensures VisibleCount(n, width) == Min(n, MaxVideos)
  {
  }

  /** An increase whose comfortable row is within the last dragged width shows
      every participant up to the fixed maximum. */
  lemma IncreaseShowsAll(numParticipants: nat, prevNumParticipants: nat, maxWidth: real, lastSavedMaxWidth: real)
    requires numParticipants > prevNumParticipants
    requires OptimalWindowWidth(numParticipants) <= lastSavedMaxWidth
    ensures VisibleCount(numParticipants, AutoFitWidth(numParticipants, prevNumParticipants, maxWidth, lastSavedMaxWidth))
         == Min(numParticipants, MaxVideos)
  {
  }

  /** Rising from 4 to 10 participants with 1200 as the last dragged width: the
      row of 3272 is capped at 1200. */
  lemma IncreaseCappedExample(maxWidth: real)
    ensures OptimalWindowWidth(10) == 3272.0
    ensures AutoFitWidth(10, 4, maxWidth, 1200.0) == 1200.0
  {
  }

  /** An increase can also narrow the container: after the user dragged one
      tile out to 1200, a second participant sets the width to 648. */
  lemma IncreaseCanShrink()
    ensures AutoFitWidth(2, 1, 1200.0, 1200.0) == 648.0 < 1200.0
  {
  }
}
