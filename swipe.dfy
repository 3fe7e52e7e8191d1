/**
 * The deck bookkeeping of `SwipeScreen` (Home/SwipeViewController.swift):
 * which book is on top, which books were liked or rejected, whether the
 * description sheet is open, and when a pan gesture counts as a swipe.
 * Views, transforms and animations are not modelled; an animation's
 * completion runs as one step.
 */
module Swipe {
  import opened Values

  /** A deck card: `Book1`. */
  datatype Book1 = Book1(
    id: string,
    title: string,
    imageName: string,
    description: string,
    amazonRating: string,
    goodreadsRating: string)

  datatype SwipeDirection = Left | Right

  /** `swipeThreshold`, in points. */
  const SwipeThreshold: real := 100.0
  /** The horizontal speed above which a pan swipes, in points per second. */
  const VelocityThreshold: real := 1000.0

  function Abs(x: real): real {
    if x < 0.0 then -x else x
  }

  function Min(a: int, b: int): int {
    if a <= b then a else b
  }

  /**
   * The `.ended` case of `handlePan(_:)`: a swipe when the pan travelled or
   * moved fast enough horizontally, to the right only when it ended right
   * of where it started.
   */
  function SwipeDecision(translationX: real, velocityX: real): (d: Option<SwipeDirection>)
    ensures d.Some? <==> Abs(translationX) > SwipeThreshold || Abs(velocityX) > VelocityThreshold
    ensures d.Some? ==> (d.value == Right <==> translationX > 0.0)
  {
    if Abs(translationX) > SwipeThreshold || Abs(velocityX) > VelocityThreshold then
      Some(if translationX > 0.0 then Right else Left)
    else None
  }

  /** A fast flick that has not moved at all goes left. */
  lemma FlickWithoutTravelGoesLeft(velocityX: real)
    requires Abs(velocityX) > VelocityThreshold
    ensures SwipeDecision(0.0, velocityX) == Some(Left)
  {
  }

  /** A slow pan that stays within the threshold is cancelled. */
  lemma ShortSlowPanCancels(translationX: real, velocityX: real)
    requires -SwipeThreshold <= translationX <= SwipeThreshold
    requires -VelocityThreshold <= velocityX <= VelocityThreshold
    ensures SwipeDecision(translationX, velocityX) == None
  {
  }

  /** The books of `deck` whose verdict is `direction`, in deck order. */
  function Pick(deck: seq<Book1>, verdicts: seq<SwipeDirection>, direction: SwipeDirection): seq<Book1>
    requires |deck| == |verdicts|
  {
    if deck == [] then []
    else (if verdicts[0] == direction then [deck[0]] else []) + Pick(deck[1..], verdicts[1..], direction)
  }

  lemma {:induction false} PickSnoc(deck: seq<Book1>, verdicts: seq<SwipeDirection>, b: Book1,
                                    v: SwipeDirection, direction: SwipeDirection)
    requires |deck| == |verdicts|
    ensures Pick(deck + [b], verdicts + [v], direction) ==
            Pick(deck, verdicts, direction) + (if v == direction then [b] else [])
  {
    var head := if v == direction then [b] else [];
    if deck == [] {
      assert deck + [b] == [b] && verdicts + [v] == [v];
      assert Pick([b], [v], direction) == head + Pick([], [], direction);
    } else {
      var front := if verdicts[0] == direction then [deck[0]] else [];
      assert (deck + [b])[1..] == deck[1..] + [b];
      assert (verdicts + [v])[1..] == verdicts[1..] + [v];
      PickSnoc(deck[1..], verdicts[1..], b, v, direction);
      calc {
        Pick(deck + [b], verdicts + [v], direction);
        front + Pick(deck[1..] + [b], verdicts[1..] + [v], direction);
        front + (Pick(deck[1..], verdicts[1..], direction) + head);
        (front + Pick(deck[1..], verdicts[1..], direction)) + head;
        Pick(deck, verdicts, direction) + head;
      }
    }
  }

  /** The liked and the rejected picks together hold as many books as were decided. */
  lemma {:induction false} PickPartition(deck: seq<Book1>, verdicts: seq<SwipeDirection>)
    requires |deck| == |verdicts|
    ensures |Pick(deck, verdicts, Right)| + |Pick(deck, verdicts, Left)| == |deck|
  {
    if deck != [] {
      PickPartition(deck[1..], verdicts[1..]);
    }
  }

  class SwipeScreen {
    /** The deck, in the order it is shown. */
    const books: seq<Book1>
    var currentBookIndex: nat
    var likedBooks: seq<Book1>
    var rejectedBooks: seq<Book1>
    var isDescriptionExpanded: bool

    /** `currentBookIndex` at the last `clearLists`, 0 before any. */
    ghost var clearedAt: nat
    /** The verdicts on the books decided since then, in deck order. */
    ghost var verdicts: seq<SwipeDirection>

    /**
     * The liked and rejected lists are exactly the books decided since the
     * last clear, split by verdict, in deck order.
     */
    ghost predicate Valid()
      reads this
    {
      && clearedAt <= currentBookIndex
      && |verdicts| == Min(currentBookIndex, |books|) - Min(clearedAt, |books|)
      && likedBooks == Pick(books[Min(clearedAt, |books|)..Min(currentBookIndex, |books|)], verdicts, Right)
      && rejectedBooks == Pick(books[Min(clearedAt, |books|)..Min(currentBookIndex, |books|)], verdicts, Left)
    }

    /** A fresh screen: first book on top, nothing decided, sheet closed. */
    constructor(deck: seq<Book1>)
      ensures Valid()
      ensures books == deck && currentBookIndex == 0 && likedBooks == [] && rejectedBooks == []
      ensures !isDescriptionExpanded && clearedAt == 0
    {
      books := deck;
      currentBookIndex := 0;
      likedBooks := [];
      rejectedBooks := [];
      isDescriptionExpanded := false;
      clearedAt := 0;
      verdicts := [];
    }

    /**
     * The two lists together hold one book per book decided since the last
     * clear; before any clear, one per book swiped, counting only books that
     * exist.
     */
    lemma DecidedCount()
      requires Valid()
      ensures |likedBooks| + |rejectedBooks| == Min(currentBookIndex, |books|) - Min(clearedAt, |books|)
      ensures clearedAt == 0 ==> |likedBooks| + |rejectedBooks| == Min(currentBookIndex, |books|)
    {
      PickPartition(books[Min(clearedAt, |books|)..Min(currentBookIndex, |books|)], verdicts);
    }

    /** `displayBook(at:)`: the book shown, or nothing for an index outside the deck. */
    method DisplayBook(index: int) returns (shown: Option<Book1>)
      ensures shown.Some? <==> 0 <= index < |books|
      ensures shown.Some? ==> shown.value == books[index]
    {
      if !(0 <= index < |books|) {
        return None;
      }
      shown := Some(books[index]);
    }

    /**
     * `completeSwipeAnimation(direction:velocity:)` with its completion: the
     * book on top (if any) joins the list of its direction, the index moves
     * on, and the next book is shown when there is one.
     */
    method CompleteSwipe(direction: SwipeDirection) returns (shown: Option<Book1>)
      requires Valid()
      modifies this
      ensures Valid()
      ensures currentBookIndex == old(currentBookIndex) + 1
      ensures old(currentBookIndex) < |books| && direction == Left ==>
                rejectedBooks == old(rejectedBooks) + [books[old(currentBookIndex)]] && likedBooks == old(likedBooks)
      ensures old(currentBookIndex) < |books| && direction == Right ==>
                likedBooks == old(likedBooks) + [books[old(currentBookIndex)]] && rejectedBooks == old(rejectedBooks)
      ensures old(currentBookIndex) >= |books| ==>
                likedBooks == old(likedBooks) && rejectedBooks == old(rejectedBooks)
      ensures shown.Some? <==> currentBookIndex < |books|
      ensures shown.Some? ==> shown.value == books[currentBookIndex]
      ensures isDescriptionExpanded == old(isDescriptionExpanded) && clearedAt == old(clearedAt)
    {
      ghost var lo := Min(clearedAt, |books|);
      if 0 <= currentBookIndex < |books| {
        var currentBook := books[currentBookIndex];
        ghost var decided := books[lo..currentBookIndex];
        PickSnoc(decided, verdicts, currentBook, direction, Right);
        PickSnoc(decided, verdicts, currentBook, direction, Left);
        assert books[lo..currentBookIndex + 1] == decided + [currentBook];
        if direction == Left {
          rejectedBooks := rejectedBooks + [currentBook];
        } else {
          likedBooks := likedBooks + [currentBook];
        }
        verdicts := verdicts + [direction];
      }
      currentBookIndex := currentBookIndex + 1;
      if currentBookIndex >= |books| {
        return None;
      }
      shown := DisplayBook(currentBookIndex);
    }

    /**
     * The `.ended` case of `handlePan(_:)`: completes a swipe when the
     * gesture decides one, and otherwise changes nothing.
     */
    method PanEnded(translationX: real, velocityX: real) returns (shown: Option<Book1>)
      requires Valid()
      modifies this
      ensures Valid()
      ensures SwipeDecision(translationX, velocityX).None? ==>
                currentBookIndex == old(currentBookIndex) && likedBooks == old(likedBooks) &&
                rejectedBooks == old(rejectedBooks) && shown == None
      ensures SwipeDecision(translationX, velocityX).Some? ==> currentBookIndex == old(currentBookIndex) + 1
      ensures SwipeDecision(translationX, velocityX) == Some(Right) && old(currentBookIndex) < |books| ==>
                likedBooks == old(likedBooks) + [books[old(currentBookIndex)]] && rejectedBooks == old(rejectedBooks)
      ensures SwipeDecision(translationX, velocityX) == Some(Left) && old(currentBookIndex) < |books| ==>
                rejectedBooks == old(rejectedBooks) + [books[old(currentBookIndex)]] && likedBooks == old(likedBooks)
      ensures SwipeDecision(translationX, velocityX).Some? && old(currentBookIndex) >= |books| ==>
                likedBooks == old(likedBooks) && rejectedBooks == old(rejectedBooks)
      ensures SwipeDecision(translationX, velocityX).Some? ==>
                (shown.Some? <==> currentBookIndex < |books|) &&
                (shown.Some? ==> shown.value == books[currentBookIndex])
      ensures isDescriptionExpanded == old(isDescriptionExpanded)
    {
      var decision := SwipeDecision(translationX, velocityX);
      shown := None;
      if decision.Some? {
        shown := CompleteSwipe(decision.value);
      }
    }

    /** `clearLists()`: both lists emptied, the position in the deck kept. */
    method ClearLists()
      requires Valid()
      modifies this
      ensures Valid()
      ensures likedBooks == [] && rejectedBooks == []
      ensures currentBookIndex == old(currentBookIndex) && isDescriptionExpanded == old(isDescriptionExpanded)
    {
      likedBooks := [];
      rejectedBooks := [];
      clearedAt := currentBookIndex;
      verdicts := [];
    }

    /**
     * `handleBookImageTap()`: opens the description sheet unless it is open
     * already. The source reads the book on top without a bounds check, so
     * a tap when the sheet is closed needs a book on top.
     */
    method HandleBookImageTap() returns (sheetBook: Option<Book1>)
      requires !isDescriptionExpanded ==> currentBookIndex < |books|
      modifies this
      ensures old(isDescriptionExpanded) ==> sheetBook == None && isDescriptionExpanded
      ensures !old(isDescriptionExpanded) ==> sheetBook == Some(books[old(currentBookIndex)]) && isDescriptionExpanded
      ensures currentBookIndex == old(currentBookIndex) && likedBooks == old(likedBooks) &&
              rejectedBooks == old(rejectedBooks)
      ensures clearedAt == old(clearedAt) && verdicts == old(verdicts)
    {
      if isDescriptionExpanded {
        return None;
      }
      var book := books[currentBookIndex];
      isDescriptionExpanded := true;
      sheetBook := Some(book);
    }

    /** `closeBottomSheet()`: the sheet is closed afterwards, whatever it was. */
    method CloseBottomSheet()
      modifies this
      ensures !isDescriptionExpanded
      ensures currentBookIndex == old(currentBookIndex) && likedBooks == old(likedBooks) &&
              rejectedBooks == old(rejectedBooks)
      ensures clearedAt == old(clearedAt) && verdicts == old(verdicts)
    {
      isDescriptionExpanded := false;
    }
  }
}
