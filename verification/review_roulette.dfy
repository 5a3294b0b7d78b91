/**
 * The review roulette (client/src/components/ReviewRoulette/index.tsx): the selected movie's
 * reviews on a vertical wheel that is dragged by mouse or touch, with the review at the centre
 * selected. The component state `offset`, `currentIndex`, `filteredReviews` and `isDragging` is a
 * class. The `window` listeners for moving and releasing are registered when a drag begins, so
 * they read the `offset` of that moment, kept here as `dragStartOffset`.
 */
module ReviewRoulette {
  import opened Options
  import opened Seqs
  import opened ClientTypes

  /** Pixels between two neighbouring reviews on the wheel. */
  const SPACING: real := 100.0

  /** Reviews shown above and below the selected one. */
  const WINDOW: int := 2

  /** Comments longer than this are cut in the card preview. */
  const PREVIEW_LENGTH: nat := 100

  function OfMovie(movieId: int): Review -> bool {
    (r: Review) => r.movieId == movieId
  }

  function ByUser(userId: int): Review -> bool {
    (r: Review) => r.userId == userId
  }

  /** `Math.round`: the nearest integer, halves rounded up. */
  function Round(x: real): (n: int)
    ensures x - 0.5 < n as real <= x + 0.5
  {
    (x + 0.5).Floor
  }

  /** `Math.round(offset / 100)`: the index of the review nearest to the wheel's centre. */
  function SnapIndex(offset: real): (i: int)
    ensures offset >= 0.0 ==> i >= 0
    ensures offset - SPACING / 2.0 < i as real * SPACING <= offset + SPACING / 2.0
  {
    Round(offset / SPACING)
  }

  /** An offset on the wheel of `count` reviews snaps to one of them. */
  lemma SnapIndexInBounds(offset: real, count: int)
    requires count >= 1 && 0.0 <= offset <= (count - 1) as real * SPACING
    ensures 0 <= SnapIndex(offset) < count
  {
    var i := SnapIndex(offset);
    assert i as real * SPACING <= (count - 1) as real * SPACING + SPACING / 2.0;
    assert (i as real - (count - 1) as real) * SPACING <= SPACING / 2.0;
  }

  /** The offset clamp of the handlers: the new offset, kept within the first and the last review. */
  function ClampOffset(newOffset: real, count: int): (r: real)
    requires count >= 1
    ensures 0.0 <= r <= (count - 1) as real * SPACING
    ensures 0.0 <= newOffset <= (count - 1) as real * SPACING ==> r == newOffset
    ensures newOffset < 0.0 ==> r == 0.0
    ensures newOffset > (count - 1) as real * SPACING ==> r == (count - 1) as real * SPACING
  {
    var maxOffset := (count - 1) as real * SPACING;
    if newOffset < 0.0 then 0.0
    else if newOffset > maxOffset then maxOffset
    else newOffset
  }

  /** The comment on a card: at most 100 characters, and "..." when it was cut. */
  function CommentPreview(comment: string): (p: string)
    ensures |comment| <= PREVIEW_LENGTH ==> p == comment
    ensures |comment| > PREVIEW_LENGTH ==>
              |p| == PREVIEW_LENGTH + 3 && p[..PREVIEW_LENGTH] == comment[..PREVIEW_LENGTH] && p[PREVIEW_LENGTH..] == "..."
  {
    if |comment| > PREVIEW_LENGTH then comment[..PREVIEW_LENGTH] + "..." else comment
  }

  /** A preview is its own preview: a cut comment is cut at the same place again. */
  lemma CommentPreviewIdempotent(comment: string)
    ensures CommentPreview(CommentPreview(comment)) == CommentPreview(comment)
  {
    if |comment| > PREVIEW_LENGTH {
      var p := CommentPreview(comment);
      assert p[..PREVIEW_LENGTH] == comment[..PREVIEW_LENGTH];
    }
  }

  /** One card of the visible window: the review and its distance from the selected one. */
  datatype Slot = Slot(review: Review, position: int)

  /** Some card of `slots` sits at `position`. */
  predicate HasPosition(slots: seq<Slot>, position: int) {
    exists k :: 0 <= k < |slots| && slots[k].position == position
  }

  class ReviewRoulette {
    var offset: real
    var isDragging: bool
    var filteredReviews: seq<Review>
    var currentIndex: int
    /** The `offset` rendered when the current drag began, as the `window` listeners see it. */
    var dragStartOffset: real

    /** Neither the offsets nor the index is ever negative. */
    ghost predicate Valid()
      reads this
    {
      offset >= 0.0 && dragStartOffset >= 0.0 && currentIndex >= 0
    }

    /** The wheel rests within its reviews and the index names one of them. */
    ghost predicate Settled()
      reads this
    {
      && 0 <= currentIndex < |filteredReviews|
      && 0.0 <= offset <= (|filteredReviews| - 1) as real * SPACING
    }

    /** Whether the "Selected Review" details are rendered: the guard keeps the index in bounds. */
    predicate DetailsShown()
      reads this
    {
      |filteredReviews| > 0 && currentIndex >= 0 && currentIndex < |filteredReviews|
    }

    constructor ()
      ensures Valid() && offset == 0.0 && !isDragging && filteredReviews == [] && currentIndex == 0
    {
      offset := 0.0;
      dragStartOffset := 0.0;
      isDragging := false;
      filteredReviews := [];
      currentIndex := 0;
    }

    /**
     * `fetchMovieReviews`: with a movie selected and a successful response, the wheel holds that
     * movie's reviews in input order and selects the user's first review, or the first review
     * when the user has none. Otherwise nothing changes.
     */
    method FetchMovieReviews(selectedMovie: Option<Movie>, reviews: seq<Review>, userId: int, responseOk: bool)
      requires Valid()
      modifies this
      ensures Valid() && offset == old(offset) && isDragging == old(isDragging)
      ensures dragStartOffset == old(dragStartOffset)
      ensures selectedMovie.None? || !responseOk ==>
                filteredReviews == old(filteredReviews) && currentIndex == old(currentIndex)
      ensures selectedMovie.Some? && responseOk ==>
                && filteredReviews == Filter(reviews, OfMovie(selectedMovie.value.id))
                && (filteredReviews != [] ==> 0 <= currentIndex < |filteredReviews|)
                && ((exists i :: 0 <= i < |filteredReviews| && filteredReviews[i].userId == userId) ==>
                      && 0 <= currentIndex < |filteredReviews|
                      && filteredReviews[currentIndex].userId == userId
                      && forall i :: 0 <= i < currentIndex ==> filteredReviews[i].userId != userId)
                && ((forall i :: 0 <= i < |filteredReviews| ==> filteredReviews[i].userId != userId) ==>
                      currentIndex == 0)
    {
      if selectedMovie.None? || !responseOk {
        return;
      }
      var movieReviews := Filter(reviews, OfMovie(selectedMovie.value.id));
      filteredReviews := movieReviews;
      var userReviewIndex := FindIndex(movieReviews, ByUser(userId));
      if userReviewIndex >= 0 {
        currentIndex := userReviewIndex;
      } else {
        currentIndex := 0;
      }
    }

    /**
     * `handleMouseDown` and `handleTouchStart`: a drag begins, and the listeners registered for it
     * capture the current offset. Pressing again during a drag registers nothing new.
     */
    method StartDrag()
      requires Valid()
      modifies this
      ensures Valid() && isDragging
      ensures offset == old(offset) && currentIndex == old(currentIndex) && filteredReviews == old(filteredReviews)
      ensures dragStartOffset == if old(isDragging) then old(dragStartOffset) else old(offset)
    {
      if !isDragging {
        dragStartOffset := offset;
      }
      isDragging := true;
    }

    /**
     * `handleMouseMove`, with `deltaY` the pointer's upward travel since the last event: the
     * offset moves by half of it within the clamp, and the index follows the offset the listener
     * saw, the one at the start of the drag, but only to a review that exists.
     */
    method MouseMove(deltaY: real)
      requires Valid() && |filteredReviews| >= 1
      modifies this
      ensures Valid() && isDragging == old(isDragging) && filteredReviews == old(filteredReviews)
      ensures dragStartOffset == old(dragStartOffset)
      ensures !old(isDragging) ==> offset == old(offset) && currentIndex == old(currentIndex)
      ensures old(isDragging) ==> offset == ClampOffset(old(offset) + deltaY / 2.0, |filteredReviews|)
      ensures currentIndex != old(currentIndex) ==>
                0 <= currentIndex < |filteredReviews| && currentIndex == SnapIndex(dragStartOffset)
      ensures old(Settled()) ==> Settled()
    {
      if isDragging {
        offset := ClampOffset(offset + deltaY / 2.0, |filteredReviews|);
        var newIndex := SnapIndex(dragStartOffset);
        if newIndex != currentIndex && newIndex >= 0 && newIndex < |filteredReviews| {
          currentIndex := newIndex;
        }
      }
    }

    /** `handleTouchMove`: like a mouse move, but the index is left alone. */
    method TouchMove(deltaY: real)
      requires Valid() && |filteredReviews| >= 1
      modifies this
      ensures Valid() && isDragging == old(isDragging) && filteredReviews == old(filteredReviews)
      ensures currentIndex == old(currentIndex) && dragStartOffset == old(dragStartOffset)
      ensures !old(isDragging) ==> offset == old(offset)
      ensures old(isDragging) ==> offset == ClampOffset(old(offset) + deltaY / 2.0, |filteredReviews|)
      ensures old(Settled()) ==> Settled()
    {
      if isDragging {
        offset := ClampOffset(offset + deltaY / 2.0, |filteredReviews|);
      }
    }

    /**
     * `handleMouseUp` and `handleTouchEnd`: the drag ends and the wheel snaps to the review
     * nearest to the offset the listener saw, the one at the start of the drag. Whatever the moves
     * in between, the wheel comes back to within half a spacing of where the drag began: a drag
     * from offset 0 to 300 is released at index 0. From a start offset within the reviews the
     * snapped index names a review, so the details are shown. The listeners exist only while a
     * drag is on, so a release always ends one.
     */
    method EndDrag()
      requires Valid() && isDragging
      modifies this
      ensures Valid() && !isDragging && filteredReviews == old(filteredReviews)
      ensures dragStartOffset == old(dragStartOffset)
      ensures currentIndex == SnapIndex(dragStartOffset) && offset == currentIndex as real * SPACING
      ensures dragStartOffset - SPACING / 2.0 < offset <= dragStartOffset + SPACING / 2.0
      ensures |filteredReviews| >= 1 && dragStartOffset <= (|filteredReviews| - 1) as real * SPACING ==>
                Settled() && DetailsShown()
    {
      isDragging := false;
      var targetIndex := SnapIndex(dragStartOffset);
      if |filteredReviews| >= 1 && dragStartOffset <= (|filteredReviews| - 1) as real * SPACING {
        SnapIndexInBounds(dragStartOffset, |filteredReviews|);
      }
      offset := targetIndex as real * SPACING;
      currentIndex := targetIndex;
    }

    /**
     * One frame of `animate` while the wheel coasts with `velocity`: the offset moves by the
     * velocity within the clamp and the index follows the offset the frame saw, only to a review
     * that exists. Once the velocity is below 0.5 the wheel snaps to the index it had and no
     * further frame is requested. During a drag a frame does nothing.
     */
    method AnimateFrame(velocity: real) returns (continues: bool)
      requires Valid() && |filteredReviews| >= 1
      modifies this
      ensures Valid() && isDragging == old(isDragging) && filteredReviews == old(filteredReviews)
      ensures dragStartOffset == old(dragStartOffset)
      ensures old(isDragging) ==> !continues && offset == old(offset) && currentIndex == old(currentIndex)
      ensures !old(isDragging) ==> (continues <==> velocity <= -0.5 || 0.5 <= velocity)
      ensures continues ==> offset == ClampOffset(old(offset) + velocity, |filteredReviews|)
      ensures !old(isDragging) && !continues ==> offset == old(currentIndex) as real * SPACING
      ensures currentIndex != old(currentIndex) ==>
                0 <= currentIndex < |filteredReviews| && currentIndex == SnapIndex(old(offset))
      ensures old(Settled()) ==> Settled()
    {
      continues := false;
      if !isDragging {
        var seen, seenIndex := offset, currentIndex;
        var newOffset := ClampOffset(seen + velocity, |filteredReviews|);
        var newIndex := SnapIndex(seen);
        if newIndex != currentIndex && newIndex >= 0 && newIndex < |filteredReviews| {
          currentIndex := newIndex;
        }
        if -0.5 < velocity < 0.5 {
          offset := seenIndex as real * SPACING;
        } else {
          offset := newOffset;
          continues := true;
        }
      }
    }

    /**
     * `visibleReviews`: the reviews from two before to two after the selected one that exist,
     * in order, each with its distance from the selected index.
     */
    method VisibleReviews() returns (result: seq<Slot>)
      ensures filteredReviews == [] ==> result == []
      ensures |result| <= 2 * WINDOW + 1
      ensures forall k :: 0 <= k < |result| ==> InWindow(filteredReviews, currentIndex, result[k])
      ensures forall k, l :: 0 <= k < l < |result| ==> result[k].position < result[l].position
      ensures forall p :: -WINDOW <= p <= WINDOW && 0 <= currentIndex + p < |filteredReviews| ==>
                HasPosition(result, p)
      ensures 0 <= currentIndex < |filteredReviews| ==> Slot(filteredReviews[currentIndex], 0) in result
    {
      result := [];
      var reviews, current := filteredReviews, currentIndex;
      if |reviews| == 0 {
        return;
      }
      var i := current - WINDOW;
      while i <= current + WINDOW
        invariant current - WINDOW <= i <= current + WINDOW + 1
        invariant |result| <= i - (current - WINDOW)
        invariant forall k :: 0 <= k < |result| ==>
                    InWindow(reviews, current, result[k]) && result[k].position < i - current
        invariant forall k, l :: 0 <= k < l < |result| ==> result[k].position < result[l].position
        invariant forall p :: -WINDOW <= p < i - current && 0 <= current + p < |reviews| ==>
                    HasPosition(result, p)
      {
        if i >= 0 && i < |reviews| {
          var slot := Slot(reviews[i], i - current);
          HasPositionAppend(result, slot);
          result := result + [slot];
        }
        i := i + 1;
      }
      if 0 <= current < |reviews| {
        CentreSlot(reviews, current, result);
      }
    }
  }

  /** `slot` shows the review `position` places from the selected one, within two of it. */
  predicate InWindow(reviews: seq<Review>, current: int, slot: Slot) {
    && -WINDOW <= slot.position <= WINDOW
    && 0 <= current + slot.position < |reviews|
    && slot.review == reviews[current + slot.position]
  }

  /** Appending a card keeps every position already shown and adds the card's own. */
  lemma HasPositionAppend(slots: seq<Slot>, slot: Slot)
    ensures HasPosition(slots + [slot], slot.position)
    ensures forall p :: HasPosition(slots, p) ==> HasPosition(slots + [slot], p)
  {
    var after := slots + [slot];
    assert after[|slots|].position == slot.position;
    forall p | HasPosition(slots, p)
      ensures HasPosition(after, p)
    {
      var k :| 0 <= k < |slots| && slots[k].position == p;
      assert after[k] == slots[k];
    }
  }

  /** The card at position 0 of a window is the selected review. */
  lemma CentreSlot(reviews: seq<Review>, current: int, slots: seq<Slot>)
    requires 0 <= current < |reviews|
    requires forall k :: 0 <= k < |slots| ==> InWindow(reviews, current, slots[k])
    requires HasPosition(slots, 0)
    ensures Slot(reviews[current], 0) in slots
  {
    var k :| 0 <= k < |slots| && slots[k].position == 0;
    assert slots[k] == Slot(reviews[current], 0);
  }
}
