/**
 * The library button of `BookViewController` (Profile/BookViewController.swift):
 * whether the signed-in renter already offers the book, and the record
 * written when they add it with a daily price.
 */
module BookView {
  import opened Values
  import opened DataModels
  import opened Books

  /**
   * `bookData` in `addToLibraryTapped()`: the book's identifier and title,
   * its authors or none, its thumbnail or "", the time of saving, its
   * description or "", and the price entered.
   */
  function BookData(book: BookF, price: real, now: Date): (d: Fields)
    ensures d.Keys == {"id", "title", "authors", "imageURL", "addedAt", "description", "price"}
    ensures d["id"] == Str(book.id) && d["title"] == Str(book.title)
    ensures d["price"] == Num(price) && d["addedAt"] == Timestamp(now)
  {
    map["id" := Str(book.id),
        "title" := Str(book.title),
        "authors" := StringArray(book.authors.GetOr([])),
        "imageURL" := Str(if book.imageLinks.Some? then book.imageLinks.value.thumbnail else ""),
        "addedAt" := Timestamp(now),
        "description" := Str(book.description.GetOr("")),
        "price" := Num(price)]
  }

  /**
   * Every record saved here passes the seven-field check the renter's
   * library is read back with, and reads back as the book at that price.
   */
  lemma BookDataReadsBack(book: BookF, price: real, now: Date)
    ensures HasRentedBookFields(BookData(book, price, now))
    ensures StrictRentersBook(BookData(book, price, now)) ==
            Some(RentersBook(
              book.title, book.authors.GetOr([]), book.description.GetOr(""), price,
              if book.imageLinks.Some? then book.imageLinks.value.thumbnail else "",
              book.id, now))
  {
    var d := BookData(book, price, now);
    assert Get(d, "authors") == Some(StringArray(book.authors.GetOr([])));
  }

  /**
   * The `contains` test of `checkIfBookIsAdded()`: some entry has a string
   * `id` equal to the book's.
   */
  function ContainsBook(rentedBooks: seq<Fields>, bookID: string): (found: bool)
    ensures found <==> exists i :: 0 <= i < |rentedBooks| && AsString(Get(rentedBooks[i], "id")) == Some(bookID)
  {
    if rentedBooks == [] then false
    else if AsString(Get(rentedBooks[0], "id")) == Some(bookID) then true
    else
      var rest := ContainsBook(rentedBooks[1..], bookID);
      assert forall i :: 1 <= i < |rentedBooks| ==> rentedBooks[i] == rentedBooks[1..][i - 1];
      rest
  }

  /** A book whose record has been saved is found by the membership test. */
  lemma SavedBookIsFound(rentedBooks: seq<Fields>, book: BookF, price: real, now: Date)
    ensures ContainsBook(rentedBooks + [BookData(book, price, now)], book.id)
  {
    var all := rentedBooks + [BookData(book, price, now)];
    assert AsString(Get(all[|rentedBooks|], "id")) == Some(book.id);
  }

  class BookViewController {
    const book: BookF
    var isBookAdded: bool

    constructor(book: BookF)
      ensures this.book == book && !isBookAdded
    {
      this.book := book;
      isBookAdded := false;
    }

    /**
     * `checkIfBookIsAdded()`. `userID` is the signed-in user, if any;
     * `data` is the renter document's contents, nil when it could not be
     * read. The flag changes only when the document holds a `rentedBooks`
     * array of records, and then says whether the book is among them.
     */
    method CheckIfBookIsAdded(userID: Option<string>, data: Option<Fields>)
      modifies this
      ensures userID.None? || data.None? || AsObjectArray(Get(data.value, "rentedBooks")).None? ==>
                isBookAdded == old(isBookAdded)
      ensures userID.Some? && data.Some? && AsObjectArray(Get(data.value, "rentedBooks")).Some? ==>
                isBookAdded == ContainsBook(AsObjectArray(Get(data.value, "rentedBooks")).value, book.id)
    {
      if userID.None? {
        return;
      }
      if data.Some? {
        var rentedBooks := AsObjectArray(Get(data.value, "rentedBooks"));
        if rentedBooks.Some? {
          isBookAdded := ContainsBook(rentedBooks.value, book.id);
        }
      }
    }

    /**
     * `addToLibraryTapped()` through its Save action. `priceText` is the
     * alert's text, `parsePrice` stands for `Double(_:)`, `now` for
     * `Timestamp()` and `writeSucceeded` for the outcome of the merge
     * write. Returns the record written, if any: nothing without a user or
     * a parseable price, and then the flag is untouched; after a
     * successful write the flag is set.
     */
    method AddToLibrary(userID: Option<string>, priceText: Option<string>, parsePrice: string -> Option<real>,
                        now: Date, writeSucceeded: bool) returns (record: Option<Fields>)
      modifies this
      ensures record.Some? <==> userID.Some? && priceText.Some? && parsePrice(priceText.value).Some?
      ensures record.Some? ==> record.value == BookData(book, parsePrice(priceText.value).value, now)
      ensures record.None? ==> isBookAdded == old(isBookAdded)
      ensures record.Some? ==> isBookAdded == (writeSucceeded || old(isBookAdded))
    {
      record := None;
      if userID.None? || priceText.None? {
        return;
      }
      var price := parsePrice(priceText.value);
      if price.None? {
        return;
      }
      var bookData := BookData(book, price.value, now);
      record := Some(bookData);
      if writeSucceeded {
        isBookAdded := true;
      }
    }
  }
}
