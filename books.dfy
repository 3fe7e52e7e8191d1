/**
 * The document-store side of Helpers/Books.swift: the `BookFAdapter`, the
 * list, renter and rented-book readers, and the records the app writes.
 *
 * A read's completion is modelled as one step over its inputs: `error` is
 * the error Firestore reported (if any), a collection read's `snapshot` its
 * documents (nil when Firestore handed back no snapshot), a single
 * document read's `data` the document's data (nil when it does not exist).
 * `Date()` is the parameter `now`, `UUID().uuidString` the parameter
 * `uuid`, and `ISO8601DateFormatter().date(from:)` the parameter `parseIso`.
 */
module Books {
  import opened Values
  import opened DataModels

  /** One document of a query snapshot. */
  datatype Document = Document(documentID: string, data: Fields)

  /** Errors the app builds itself (`NSError(domain:code:userInfo:)`), or one it passes on. */
  datatype Error =
    | AppError(domain: string, code: int, message: string)
    | Passed(cause: string)

  datatype Outcome<T> = Success(value: T) | Failure(error: Error)

  // ---------------------------------------------------------------- BookFAdapter

  /** `extractImageLinks(from:)`: one URL serves as both thumbnails. */
  function ExtractImageLinks(v: Option<Value>): (r: Option<ImageLinks>)
    ensures r.Some? <==> AsString(v).Some?
    ensures r.Some? ==> r.value.smallThumbnail == r.value.thumbnail == AsString(v).value
  {
    match AsString(v)
    case Some(url) => Some(ImageLinks(url, url))
    case None => None
  }

  /** `BookFAdapter.fromFirestoreData(_:)`: strict on `id` and `title` only. */
  function FromFirestoreData(data: Fields): (r: Option<BookF>)
    ensures r.Some? <==> AsString(Get(data, "id")).Some? && AsString(Get(data, "title")).Some?
    ensures r.Some? ==>
              && r.value.id == AsString(Get(data, "id")).value
              && r.value.title == AsString(Get(data, "title")).value
              && r.value.subtitle == AsString(Get(data, "subtitle"))
              && r.value.authors == AsStringArray(Get(data, "authors"))
              && r.value.description == AsString(Get(data, "description"))
              && r.value.averageRating == AsDouble(Get(data, "averageRating"))
              && r.value.ratingsCount == AsInt(Get(data, "ratingsCount"))
              && r.value.previewLink == AsString(Get(data, "previewLink"))
              && r.value.pageCount == AsInt(Get(data, "pageCount"))
              && r.value.imageLinks == ExtractImageLinks(Get(data, "imageURL"))
  {
    var id := AsString(Get(data, "id"));
    var title := AsString(Get(data, "title"));
    if id.None? || title.None? then None
    else
      Some(BookF(
        id.value,
        title.value,
        AsString(Get(data, "subtitle")),
        AsStringArray(Get(data, "authors")),
        AsString(Get(data, "description")),
        AsDouble(Get(data, "averageRating")),
        AsInt(Get(data, "ratingsCount")),
        ExtractImageLinks(Get(data, "imageURL")),
        AsString(Get(data, "previewLink")),
        AsInt(Get(data, "pageCount"))))
  }

  /** A record holding nothing but a string `id` and `title` gives a book with every optional field empty. */
  lemma FromFirestoreDataMinimal(id: string, title: string)
    ensures FromFirestoreData(map["id" := Str(id), "title" := Str(title)])
            == Some(BookF(id, title, None, None, None, None, None, None, None, None))
  {
  }

  // ------------------------------------------------------ status and custom lists

  /**
   * The `compactMap` body of `fetchStatusLists` and `fetchCustomLists`:
   * never nil, each field defaulted on its own.
   */
  function ListWithDefaults(doc: Document, now: Date): (l: List)
    ensures l.id == doc.documentID
    ensures AsString(Get(doc.data, "title")).Some? ==> l.title == AsString(Get(doc.data, "title")).value
    ensures AsString(Get(doc.data, "title")).None? ==> l.title == "Untitled"
    ensures AsStringArray(Get(doc.data, "bookIDs")).Some? ==> l.bookIDs == AsStringArray(Get(doc.data, "bookIDs")).value
    ensures AsStringArray(Get(doc.data, "bookIDs")).None? ==> l.bookIDs == []
    ensures AsBool(Get(doc.data, "isPrivate")).Some? ==> l.isPrivate == AsBool(Get(doc.data, "isPrivate")).value
    ensures AsBool(Get(doc.data, "isPrivate")).None? ==> !l.isPrivate
    ensures AsTimestamp(Get(doc.data, "createdAt")).Some? ==> l.createdAt == AsTimestamp(Get(doc.data, "createdAt")).value
    ensures AsTimestamp(Get(doc.data, "createdAt")).None? ==> l.createdAt == now
  {
    List(
      doc.documentID,
      AsString(Get(doc.data, "title")).GetOr("Untitled"),
      AsStringArray(Get(doc.data, "bookIDs")).GetOr([]),
      AsBool(Get(doc.data, "isPrivate")).GetOr(false),
      AsTimestamp(Get(doc.data, "createdAt")).GetOr(now))
  }

  /**
   * `fetchStatusLists(userID:completion:)` and `fetchCustomLists(userID:completion:)`
   * (the two differ only in the collection they read): one list per
   * document, in order; no snapshot means no lists.
   */
  function FetchLists(error: Option<string>, snapshot: Option<seq<Document>>, now: Date): (r: Outcome<seq<List>>)
    ensures error.Some? ==> r == Failure(Passed(error.value))
    ensures error.None? && snapshot.None? ==> r == Success([])
    ensures error.None? && snapshot.Some? ==>
              r.Success? && |r.value| == |snapshot.value| &&
              forall i :: 0 <= i < |r.value| ==> r.value[i] == ListWithDefaults(snapshot.value[i], now)
  {
    if error.Some? then Failure(Passed(error.value))
    else if snapshot.None? then Success([])
    else
      var docs := snapshot.value;
      Success(seq(|docs|, i requires 0 <= i < |docs| => ListWithDefaults(docs[i], now)))
  }

  /** An empty collection is an empty success, not an error. */
  lemma FetchListsEmpty(now: Date)
    ensures FetchLists(None, Some([]), now) == Success([])
  {
  }

  /** A document with no usable field becomes an untitled, empty, public list created now. */
  lemma ListDefaultsOnEmptyDocument(id: string, now: Date)
    ensures ListWithDefaults(Document(id, map[]), now) == List(id, "Untitled", [], false, now)
  {
  }

  /**
   * On every document that the strict `List.from` accepts, the lenient
   * builder agrees with it.
   */
  lemma ListWithDefaultsExtendsListFrom(doc: Document, now: Date)
    requires ListFrom(doc.documentID, Some(doc.data)).Some?
    ensures ListWithDefaults(doc, now) == ListFrom(doc.documentID, Some(doc.data)).value
  {
  }

  /** `addCustomList`'s record: `title`, `bookIDs`, `isPrivate`; no creation time. */
  function CustomListRecord(l: List): (d: Fields)
    ensures d.Keys == {"title", "bookIDs", "isPrivate"}
  {
    map["title" := Str(l.title), "bookIDs" := StringArray(l.bookIDs), "isPrivate" := BoolV(l.isPrivate)]
  }

  /**
   * A list saved by `addCustomList` reads back through `fetchCustomLists`
   * with everything but its creation time, which becomes the time of the
   * read; the strict `List.from` refuses that record.
   */
  lemma CustomListReadBack(l: List, now: Date)
    ensures ListWithDefaults(Document(l.id, CustomListRecord(l)), now) == l.(createdAt := now)
    ensures ListFrom(l.id, Some(CustomListRecord(l))) == None
  {
    assert Get(CustomListRecord(l), "bookIDs") == Some(StringArray(l.bookIDs));
  }

  // ------------------------------------------------------------ renter details

  /**
   * `fetchRenterDetails(renterID:completion:)`: the name, and the
   * `renterRating` map when it is a `[String: Double]`. A read error or a
   * missing document gives neither.
   */
  function FetchRenterDetails(error: Option<string>, data: Option<Fields>): (r: (Option<string>, Option<map<string, real>>))
    ensures error.Some? || data.None? ==> r == (None, None)
    ensures error.None? && data.Some? ==>
              r.0 == AsString(Get(data.value, "name")) &&
              r.1 == AsDoubleMap(Get(data.value, "renterRating"))
  {
    if error.Some? || data.None? then (None, None)
    else (AsString(Get(data.value, "name")), AsDoubleMap(Get(data.value, "renterRating")))
  }

  /** A missing name looks the same whether the document, the read or the field failed. */
  lemma RenterDetailsCollapseMissingName(data: Fields)
    requires AsString(Get(data, "name")).None?
    ensures FetchRenterDetails(None, Some(data)).0 == FetchRenterDetails(Some("error"), None).0
            == FetchRenterDetails(None, None).0
  {
  }

  // ------------------------------------------------------------- rented books

  /** The guard of `fetchRentedBooks`: all seven fields, each with its type. */
  predicate HasRentedBookFields(d: Fields) {
    && AsString(Get(d, "title")).Some?
    && AsStringArray(Get(d, "authors")).Some?
    && AsString(Get(d, "description")).Some?
    && AsDouble(Get(d, "price")).Some?
    && AsString(Get(d, "imageURL")).Some?
    && AsString(Get(d, "id")).Some?
    && AsTimestamp(Get(d, "addedAt")).Some?
  }

  /** One entry of `fetchRentedBooks`: nil unless every field is present with its type. */
  function StrictRentersBook(d: Fields): (r: Option<RentersBook>)
    ensures r.Some? <==> HasRentedBookFields(d)
    ensures r.Some? ==>
              r.value == RentersBook(
                AsString(Get(d, "title")).value, AsStringArray(Get(d, "authors")).value,
                AsString(Get(d, "description")).value, AsDouble(Get(d, "price")).value,
                AsString(Get(d, "imageURL")).value, AsString(Get(d, "id")).value,
                AsTimestamp(Get(d, "addedAt")).value)
  {
    var title := AsString(Get(d, "title"));
    var authors := AsStringArray(Get(d, "authors"));
    var description := AsString(Get(d, "description"));
    var price := AsDouble(Get(d, "price"));
    var imageURL := AsString(Get(d, "imageURL"));
    var id := AsString(Get(d, "id"));
    var timestamp := AsTimestamp(Get(d, "addedAt"));
    if title.None? || authors.None? || description.None? || price.None? ||
       imageURL.None? || id.None? || timestamp.None?
    then None
    else Some(RentersBook(title.value, authors.value, description.value, price.value,
                          imageURL.value, id.value, timestamp.value))
  }

  /**
   * `fetchRentedBooks(renterID:completion:)`: the well-formed entries of the
   * renter's `rentedBooks` array, in order; every failure gives [].
   */
  function FetchRentedBooks(error: Option<string>, data: Option<Fields>): (r: seq<RentersBook>)
    ensures error.Some? || data.None? || AsObjectArray(Get(data.value, "rentedBooks")).None? ==> r == []
    ensures error.None? && data.Some? && AsObjectArray(Get(data.value, "rentedBooks")).Some? ==>
              r == CompactMap(AsObjectArray(Get(data.value, "rentedBooks")).value, StrictRentersBook)
  {
    if error.Some? || data.None? then []
    else
      match AsObjectArray(Get(data.value, "rentedBooks"))
      case Some(entries) => CompactMap(entries, StrictRentersBook)
      case None => []
  }

  /**
   * Entries are kept iff they pass the seven-field guard: the result has one
   * book per passing entry, and each book is the reading of some entry.
   */
  lemma FetchRentedBooksKeepsExactlyWellFormed(entries: seq<Fields>, k: nat)
    ensures |CompactMap(entries, StrictRentersBook)| ==
            CountSome(entries, StrictRentersBook)
    ensures k < |CompactMap(entries, StrictRentersBook)| ==>
              exists i :: 0 <= i < |entries| && HasRentedBookFields(entries[i]) &&
                          StrictRentersBook(entries[i]) == Some(CompactMap(entries, StrictRentersBook)[k])
  {
    CompactMapLength(entries, StrictRentersBook);
    if k < |CompactMap(entries, StrictRentersBook)| {
      CompactMapSound(entries, StrictRentersBook, k);
    }
  }

  /** When every entry is well formed, nothing is dropped and the order is kept. */
  lemma FetchRentedBooksAllWellFormed(entries: seq<Fields>)
    requires forall i :: 0 <= i < |entries| ==> HasRentedBookFields(entries[i])
    ensures |CompactMap(entries, StrictRentersBook)| == |entries|
    ensures forall i :: 0 <= i < |entries| ==>
              CompactMap(entries, StrictRentersBook)[i] == StrictRentersBook(entries[i]).value
  {
    CompactMapTotal(entries, StrictRentersBook);
  }

  // ------------------------------------------------------------------ renters

  /**
   * `createRentersBook(from:)`: never fails; every field that is missing or
   * mistyped takes its default. `addedAt` is read as an ISO-8601 string.
   */
  function CreateRentersBook(d: Fields, freshID: string, now: Date, parseIso: string -> Option<Date>): (b: RentersBook)
    ensures AsString(Get(d, "title")).None? ==> b.title == "Unknown Title"
    ensures AsStringArray(Get(d, "authors")).None? ==> b.authors == ["Unknown Author"]
    ensures AsString(Get(d, "description")).None? ==> b.description == "No description available"
    ensures AsDouble(Get(d, "price")).None? ==> b.price == 0.0
    ensures AsString(Get(d, "imageURL")).None? ==> b.imageURL == ""
    ensures AsString(Get(d, "id")).None? ==> b.id == freshID
    ensures AsString(Get(d, "title")).Some? ==> b.title == AsString(Get(d, "title")).value
    ensures AsStringArray(Get(d, "authors")).Some? ==> b.authors == AsStringArray(Get(d, "authors")).value
    ensures AsString(Get(d, "description")).Some? ==> b.description == AsString(Get(d, "description")).value
    ensures AsDouble(Get(d, "price")).Some? ==> b.price == AsDouble(Get(d, "price")).value
    ensures AsString(Get(d, "imageURL")).Some? ==> b.imageURL == AsString(Get(d, "imageURL")).value
    ensures AsString(Get(d, "id")).Some? ==> b.id == AsString(Get(d, "id")).value
    ensures b.addedAt == parseIso(AsString(Get(d, "addedAt")).GetOr("")).GetOr(now)
  {
    var addedAtString := AsString(Get(d, "addedAt")).GetOr("");
    RentersBook(
      AsString(Get(d, "title")).GetOr("Unknown Title"),
      AsStringArray(Get(d, "authors")).GetOr(["Unknown Author"]),
      AsString(Get(d, "description")).GetOr("No description available"),
      AsDouble(Get(d, "price")).GetOr(0.0),
      AsString(Get(d, "imageURL")).GetOr(""),
      AsString(Get(d, "id")).GetOr(freshID),
      parseIso(addedAtString).GetOr(now))
  }

  /**
   * Where the strict guard of `fetchRentedBooks` accepts an entry, the
   * lenient reader agrees on every field but `addedAt`: the strict reader
   * takes a `Timestamp`, the lenient one a string, so a stored `Timestamp`
   * gives way to the parse of "" or to the time of the read.
   */
  lemma CreateRentersBookExtendsStrict(d: Fields, freshID: string, now: Date, parseIso: string -> Option<Date>)
    requires StrictRentersBook(d).Some?
    ensures CreateRentersBook(d, freshID, now, parseIso)
            == StrictRentersBook(d).value.(addedAt := parseIso("").GetOr(now))
  {
  }

  /**
   * When the formatter rejects the empty string, as ISO-8601 formatters do,
   * an entry without a string `addedAt` is dated at the time of the read.
   */
  lemma CreateRentersBookDefaultsToNow(d: Fields, freshID: string, now: Date, parseIso: string -> Option<Date>)
    requires parseIso("") == None
    requires AsString(Get(d, "addedAt")).None?
    ensures CreateRentersBook(d, freshID, now, parseIso).addedAt == now
  {
  }

  /** The books of a renter document: one per `rentedBooks` entry, or none. */
  function RenterBooks(doc: Document, uuid: (string, nat) -> string, now: Date,
                       parseIso: string -> Option<Date>): (books: seq<RentersBook>)
    ensures AsObjectArray(Get(doc.data, "rentedBooks")).None? ==> books == []
    ensures AsObjectArray(Get(doc.data, "rentedBooks")).Some? ==>
              var entries := AsObjectArray(Get(doc.data, "rentedBooks")).value;
              |books| == |entries| &&
              forall j :: 0 <= j < |entries| ==>
                books[j] == CreateRentersBook(entries[j], uuid(doc.documentID, j), now, parseIso)
  {
    match AsObjectArray(Get(doc.data, "rentedBooks"))
    case None => []
    case Some(entries) =>
      seq(|entries|, j requires 0 <= j < |entries| =>
        CreateRentersBook(entries[j], uuid(doc.documentID, j), now, parseIso))
  }

  /** The renter a document describes, or nil when it has no string `name`. */
  function RenterOf(doc: Document, uuid: (string, nat) -> string, now: Date,
                    parseIso: string -> Option<Date>): (r: Option<Renter>)
    ensures r.Some? <==> AsString(Get(doc.data, "name")).Some?
    ensures r.Some? ==>
              && r.value.id == doc.documentID
              && r.value.name == AsString(Get(doc.data, "name")).value
              && r.value.books == RenterBooks(doc, uuid, now, parseIso)
    ensures r.Some? && r.value.rating.Some? ==>
              AsDoubleMap(Get(doc.data, "rating")).Some? &&
              RatingFromDictionary(AsDoubleMap(Get(doc.data, "rating")).value) == r.value.rating
    ensures r.Some? && r.value.rating.None? ==>
              AsDoubleMap(Get(doc.data, "rating")).None? ||
              RatingFromDictionary(AsDoubleMap(Get(doc.data, "rating")).value).None?
  {
    match AsString(Get(doc.data, "name"))
    case None => None
    case Some(name) =>
      var rating :=
        match AsDoubleMap(Get(doc.data, "rating"))
        case Some(m) => RatingFromDictionary(m)
        case None => None;
      Some(Renter(doc.documentID, name, RenterBooks(doc, uuid, now, parseIso), rating))
  }

  /** The renters of a snapshot: the named documents, in order. */
  function RentersOf(docs: seq<Document>, uuid: (string, nat) -> string, now: Date,
                     parseIso: string -> Option<Date>): seq<Renter>
  {
    if docs == [] then []
    else
      var rest := RentersOf(docs[1..], uuid, now, parseIso);
      match RenterOf(docs[0], uuid, now, parseIso)
      case Some(r) => [r] + rest
      case None => rest
  }

  lemma {:induction false} RentersOfAppend(docs: seq<Document>, doc: Document, uuid: (string, nat) -> string,
                                           now: Date, parseIso: string -> Option<Date>)
    ensures RentersOf(docs + [doc], uuid, now, parseIso) ==
            RentersOf(docs, uuid, now, parseIso) +
            (match RenterOf(doc, uuid, now, parseIso) case Some(r) => [r] case None => [])
  {
    if docs == [] {
      assert docs + [doc] == [doc];
    } else {
      assert (docs + [doc])[1..] == docs[1..] + [doc];
      RentersOfAppend(docs[1..], doc, uuid, now, parseIso);
    }
  }

  /** A document without a name is skipped, and nothing else changes. */
  lemma {:induction false} RentersOfSkipsNameless(before: seq<Document>, doc: Document, after: seq<Document>,
                                                  uuid: (string, nat) -> string, now: Date,
                                                  parseIso: string -> Option<Date>)
    requires AsString(Get(doc.data, "name")).None?
    ensures RentersOf(before + [doc] + after, uuid, now, parseIso) ==
            RentersOf(before + after, uuid, now, parseIso)
  {
    if before == [] {
      assert before + [doc] + after == [doc] + after;
      assert ([doc] + after)[1..] == after;
      assert before + after == after;
    } else {
      assert (before + [doc] + after)[1..] == before[1..] + [doc] + after;
      assert (before + after)[1..] == before[1..] + after;
      RentersOfSkipsNameless(before[1..], doc, after, uuid, now, parseIso);
    }
  }

  /**
   * Three documents of which the second has no name give exactly the first
   * and the third renter, in that order.
   */
  lemma RentersOfDropsMiddleNameless(d1: Document, d2: Document, d3: Document, uuid: (string, nat) -> string,
                                     now: Date, parseIso: string -> Option<Date>)
    requires AsString(Get(d1.data, "name")).Some? && AsString(Get(d3.data, "name")).Some?
    requires AsString(Get(d2.data, "name")).None?
    ensures var rs := RentersOf([d1, d2, d3], uuid, now, parseIso);
            |rs| == 2 && rs[0].id == d1.documentID && rs[1].id == d3.documentID &&
            rs == [RenterOf(d1, uuid, now, parseIso).value, RenterOf(d3, uuid, now, parseIso).value]
  {
    RentersOfSkipsNameless([d1], d2, [d3], uuid, now, parseIso);
    assert [d1] + [d2] + [d3] == [d1, d2, d3];
    assert [d1] + [d3] == [d1, d3];
    assert [d1, d3][1..] == [d3];
    assert [d3][1..] == [];
    var r1 := RenterOf(d1, uuid, now, parseIso).value;
    var r3 := RenterOf(d3, uuid, now, parseIso).value;
    assert RentersOf([d3], uuid, now, parseIso) == [r3];
    assert RentersOf([d1, d3], uuid, now, parseIso) == [r1, r3];
  }

  /** Every renter comes from a document: the k-th renter is the renter of some document. */
  lemma {:induction false} RentersOfSound(docs: seq<Document>, uuid: (string, nat) -> string, now: Date,
                                          parseIso: string -> Option<Date>, k: nat)
    requires k < |RentersOf(docs, uuid, now, parseIso)|
    ensures exists i :: 0 <= i < |docs| && RenterOf(docs[i], uuid, now, parseIso) == Some(RentersOf(docs, uuid, now, parseIso)[k])
  {
    var rest := RentersOf(docs[1..], uuid, now, parseIso);
    match RenterOf(docs[0], uuid, now, parseIso)
    case Some(r) =>
      if k == 0 {
        assert RenterOf(docs[0], uuid, now, parseIso) == Some(RentersOf(docs, uuid, now, parseIso)[k]);
      } else {
        RentersOfSound(docs[1..], uuid, now, parseIso, k - 1);
        var i :| 0 <= i < |docs[1..]| && RenterOf(docs[1..][i], uuid, now, parseIso) == Some(rest[k - 1]);
        assert RenterOf(docs[i + 1], uuid, now, parseIso) == Some(RentersOf(docs, uuid, now, parseIso)[k]);
      }
    case None =>
      RentersOfSound(docs[1..], uuid, now, parseIso, k);
      var i :| 0 <= i < |docs[1..]| && RenterOf(docs[1..][i], uuid, now, parseIso) == Some(rest[k]);
      assert RenterOf(docs[i + 1], uuid, now, parseIso) == Some(RentersOf(docs, uuid, now, parseIso)[k]);
  }

  /** The inner loop of `fetchRenters`: one `createRentersBook` per entry, in order. */
  method CollectRenterBooks(doc: Document, entries: seq<Fields>, uuid: (string, nat) -> string, now: Date,
                            parseIso: string -> Option<Date>) returns (books: seq<RentersBook>)
    ensures |books| == |entries|
    ensures forall j :: 0 <= j < |entries| ==>
              books[j] == CreateRentersBook(entries[j], uuid(doc.documentID, j), now, parseIso)
  {
    books := [];
    for j := 0 to |entries|
      invariant |books| == j
      invariant forall m :: 0 <= m < j ==>
                  books[m] == CreateRentersBook(entries[m], uuid(doc.documentID, m), now, parseIso)
    {
      var book := CreateRentersBook(entries[j], uuid(doc.documentID, j), now, parseIso);
      books := books + [book];
    }
  }

  /**
   * `fetchRenters(completion:)`: a read error or a missing snapshot fails;
   * otherwise the renters of the named documents, in order.
   */
  method FetchRenters(error: Option<string>, snapshot: Option<seq<Document>>, uuid: (string, nat) -> string,
                      now: Date, parseIso: string -> Option<Date>) returns (r: Outcome<seq<Renter>>)
    ensures error.Some? ==> r == Failure(Passed(error.value))
    ensures error.None? && snapshot.None? ==> r == Failure(AppError("FirestoreError", 0, "No renters found."))
    ensures error.None? && snapshot.Some? ==> r == Success(RentersOf(snapshot.value, uuid, now, parseIso))
  {
    if error.Some? {
      return Failure(Passed(error.value));
    }
    if snapshot.None? {
      return Failure(AppError("FirestoreError", 0, "No renters found."));
    }
    var documents := snapshot.value;
    var renters: seq<Renter> := [];
    for i := 0 to |documents|
      invariant renters == RentersOf(documents[..i], uuid, now, parseIso)
    {
      var document := documents[i];
      RentersOfAppend(documents[..i], document, uuid, now, parseIso);
      assert documents[..i + 1] == documents[..i] + [document];
      var name := AsString(Get(document.data, "name"));
      if name.None? {
        continue;
      }
      var rentedBooks: seq<RentersBook> := [];
      var rentedBooksArray := AsObjectArray(Get(document.data, "rentedBooks"));
      if rentedBooksArray.Some? {
        rentedBooks := CollectRenterBooks(document, rentedBooksArray.value, uuid, now, parseIso);
      }
      assert rentedBooks == RenterBooks(document, uuid, now, parseIso);
      var renterRating: Option<Rating> := None;
      var renterRatingData := AsDoubleMap(Get(document.data, "rating"));
      if renterRatingData.Some? {
        renterRating := RatingFromDictionary(renterRatingData.value);
      }
      var renter := Renter(document.documentID, name.value, rentedBooks, renterRating);
      assert RenterOf(document, uuid, now, parseIso) == Some(renter);
      renters := renters + [renter];
    }
    assert documents[..|documents|] == documents;
    return Success(renters);
  }

  // ------------------------------------------------- currently rented (borrowed)

  /** A JSON number decoded as a `Double`: integers are numbers too. */
  function JsonNumber(v: Option<Value>): Option<real> {
    if v.Some? && v.value.Num? then Some(v.value.d)
    else if v.Some? && v.value.IntV? then Some(v.value.i as real)
    else None
  }

  /** The seven keys the `RentersBook` decoder needs, each with its JSON type. */
  predicate HasJsonRentersBookFields(d: Fields) {
    && AsString(Get(d, "title")).Some?
    && AsStringArray(Get(d, "authors")).Some?
    && AsString(Get(d, "description")).Some?
    && JsonNumber(Get(d, "price")).Some?
    && AsString(Get(d, "imageURL")).Some?
    && AsString(Get(d, "id")).Some?
    && JsonNumber(Get(d, "addedAt")).Some?
  }

  /**
   * `JSONDecoder().decode(RentersBook.self, ...)` of a serialised entry:
   * all seven keys, strings as strings, `price` and `addedAt` as numbers;
   * other keys are ignored.
   */
  function DecodeRentersBook(d: Fields): (r: Option<RentersBook>)
    ensures r.Some? <==> HasJsonRentersBookFields(d)
    ensures r.Some? ==>
              r.value == RentersBook(
                AsString(Get(d, "title")).value, AsStringArray(Get(d, "authors")).value,
                AsString(Get(d, "description")).value, JsonNumber(Get(d, "price")).value,
                AsString(Get(d, "imageURL")).value, AsString(Get(d, "id")).value,
                JsonNumber(Get(d, "addedAt")).value)
  {
    var title := AsString(Get(d, "title"));
    var authors := AsStringArray(Get(d, "authors"));
    var description := AsString(Get(d, "description"));
    var price := JsonNumber(Get(d, "price"));
    var imageURL := AsString(Get(d, "imageURL"));
    var id := AsString(Get(d, "id"));
    var addedAt := JsonNumber(Get(d, "addedAt"));
    if title.None? || authors.None? || description.None? || price.None? ||
       imageURL.None? || id.None? || addedAt.None?
    then None
    else Some(RentersBook(title.value, authors.value, description.value, price.value,
                          imageURL.value, id.value, addedAt.value))
  }

  /** Removing any one of the seven keys makes the entry undecodable. */
  lemma DecodeRentersBookRejectsMissingKey(d: Fields, key: string)
    requires key in {"title", "authors", "description", "price", "imageURL", "id", "addedAt"}
    ensures DecodeRentersBook(d - {key}) == None
  {
    assert Get(d - {key}, key) == None;
  }

  /** The in-place rewrite of `addedAt`: a `Timestamp` becomes its seconds since 1970. */
  function SerialisableEntry(d: Fields): (e: Fields)
    ensures e.Keys == d.Keys
    ensures forall k :: k in d && k != "addedAt" ==> e[k] == d[k]
    ensures AsTimestamp(Get(d, "addedAt")).Some? ==> e["addedAt"] == Num(AsTimestamp(Get(d, "addedAt")).value)
    ensures AsTimestamp(Get(d, "addedAt")).None? ==> e == d
  {
    match Get(d, "addedAt")
    case Some(Timestamp(t)) => d["addedAt" := Num(t)]
    case _ => d
  }

  /** One entry of a borrowed-books document, after the rewrite and the decode. */
  function BorrowedEntry(d: Fields): Option<RentersBook> {
    DecodeRentersBook(SerialisableEntry(d))
  }

  /** The books a borrowed-books document contributes: its `books` entries that decode. */
  function BorrowedOfDocument(doc: Document): seq<RentersBook> {
    match AsObjectArray(Get(doc.data, "books"))
    case Some(entries) => CompactMap(entries, BorrowedEntry)
    case None => []
  }

  function BorrowedOf(docs: seq<Document>): seq<RentersBook> {
    if docs == [] then [] else BorrowedOfDocument(docs[0]) + BorrowedOf(docs[1..])
  }

  lemma {:induction false} BorrowedOfAppend(docs: seq<Document>, doc: Document)
    ensures BorrowedOf(docs + [doc]) == BorrowedOf(docs) + BorrowedOfDocument(doc)
  {
    if docs == [] {
      assert docs + [doc] == [doc];
      assert [doc][1..] == [];
    } else {
      assert (docs + [doc])[1..] == docs[1..] + [doc];
      BorrowedOfAppend(docs[1..], doc);
    }
  }

  /**
   * A strictly well-formed entry survives the borrowed-books path, with its
   * `Timestamp` read back as the number of seconds it held.
   */
  lemma BorrowedEntryAcceptsStrict(d: Fields)
    requires StrictRentersBook(d).Some?
    ensures BorrowedEntry(d) == StrictRentersBook(d)
  {
  }

  /**
   * The inner loop of `fetchCurrentlyRentedBooks`: each entry has its
   * `Timestamp` rewritten in place, is decoded, and is kept if that works.
   */
  method DecodeBookArray(entries: seq<Fields>) returns (books: seq<RentersBook>)
    ensures books == CompactMap(entries, BorrowedEntry)
  {
    books := [];
    for j := 0 to |entries|
      invariant books == CompactMap(entries[..j], BorrowedEntry)
    {
      var bookDict := entries[j];
      if Get(bookDict, "addedAt").Some? && Get(bookDict, "addedAt").value.Timestamp? {
        bookDict := bookDict["addedAt" := Num(Get(bookDict, "addedAt").value.date)];
      }
      assert bookDict == SerialisableEntry(entries[j]);
      var decodedBook := DecodeRentersBook(bookDict);
      CompactMapSnoc(entries[..j], entries[j], BorrowedEntry);
      assert entries[..j + 1] == entries[..j] + [entries[j]];
      if decodedBook.Some? {
        books := books + [decodedBook.value];
      }
    }
    assert entries[..|entries|] == entries;
  }

  /**
   * `fetchCurrentlyRentedBooks(for:completion:)`: a read error fails, and so
   * does an absent or empty collection; otherwise the entries that decode,
   * document by document, possibly none.
   */
  method FetchCurrentlyRentedBooks(error: Option<string>, snapshot: Option<seq<Document>>)
    returns (r: Outcome<seq<RentersBook>>)
    ensures error.Some? ==> r == Failure(Passed(error.value))
    ensures error.None? && (snapshot.None? || snapshot.value == []) ==>
              r == Failure(AppError("FirestoreError", 0, "No rented books found."))
    ensures error.None? && snapshot.Some? && snapshot.value != [] ==> r == Success(BorrowedOf(snapshot.value))
  {
    if error.Some? {
      return Failure(Passed(error.value));
    }
    if snapshot.None? || snapshot.value == [] {
      return Failure(AppError("FirestoreError", 0, "No rented books found."));
    }
    var documents := snapshot.value;
    var books: seq<RentersBook> := [];
    for i := 0 to |documents|
      invariant books == BorrowedOf(documents[..i])
    {
      var document := documents[i];
      var bookArray := AsObjectArray(Get(document.data, "books"));
      if bookArray.Some? {
        var decoded := DecodeBookArray(bookArray.value);
        books := books + decoded;
      }
      BorrowedOfAppend(documents[..i], document);
      assert documents[..i + 1] == documents[..i] + [document];
    }
    assert documents[..|documents|] == documents;
    return Success(books);
  }

  /** No entry of the document's `books` array decodes, or there is no such array. */
  predicate NothingDecodes(doc: Document) {
    match AsObjectArray(Get(doc.data, "books"))
    case Some(entries) => forall j :: 0 <= j < |entries| ==> BorrowedEntry(entries[j]).None?
    case None => true
  }

  /**
   * Documents none of whose entries decode contribute nothing, so
   * `fetchCurrentlyRentedBooks` gives an empty success, not a failure.
   */
  lemma {:induction false} BorrowedOfNoDecodableEntries(docs: seq<Document>)
    requires forall i :: 0 <= i < |docs| ==> NothingDecodes(docs[i])
    ensures BorrowedOf(docs) == []
  {
    if docs != [] {
      match AsObjectArray(Get(docs[0].data, "books")) {
        case Some(entries) => CompactMapNone(entries, BorrowedEntry);
        case None =>
      }
      assert forall i :: 0 <= i < |docs[1..]| ==> docs[1..][i] == docs[i + 1];
      BorrowedOfNoDecodableEntries(docs[1..]);
    }
  }

  // -------------------------------------------------------------- suggestions

  /** The `googleBooksId` of a suggested-book document, when it is a string. */
  function GoogleBooksID(doc: Document): Option<string> {
    AsString(Get(doc.data, "googleBooksId"))
  }

  /**
   * `fetchSuggestedBooks(completion:)`: the string `googleBooksId`s of the
   * documents read (the query asks for at most five), in order.
   */
  function FetchSuggestedBooks(error: Option<string>, snapshot: Option<seq<Document>>): (r: Outcome<seq<string>>)
    ensures error.Some? ==> r == Failure(Passed(error.value))
    ensures error.None? && snapshot.None? ==> r == Failure(AppError("FirestoreError", 0, "No suggested books found."))
    ensures error.None? && snapshot.Some? ==>
              r.Success? && |r.value| <= |snapshot.value| && r.value == CompactMap(snapshot.value, GoogleBooksID)
  {
    if error.Some? then Failure(Passed(error.value))
    else if snapshot.None? then Failure(AppError("FirestoreError", 0, "No suggested books found."))
    else Success(CompactMap(snapshot.value, GoogleBooksID))
  }

  /** Each suggested identifier is the string `googleBooksId` of some document read. */
  lemma SuggestedBooksSound(snapshot: seq<Document>, k: nat)
    requires FetchSuggestedBooks(None, Some(snapshot)).Success?
    requires k < |FetchSuggestedBooks(None, Some(snapshot)).value|
    ensures exists i :: 0 <= i < |snapshot| &&
              Get(snapshot[i].data, "googleBooksId") == Some(Str(FetchSuggestedBooks(None, Some(snapshot)).value[k]))
  {
    CompactMapSound(snapshot, GoogleBooksID, k);
  }

  /**
   * Each document with a string `googleBooksId` contributes it, after the
   * identifiers of the documents before it: nothing is lost and the order is kept.
   */
  lemma SuggestedBooksComplete(snapshot: seq<Document>, i: nat)
    requires i < |snapshot| && AsString(Get(snapshot[i].data, "googleBooksId")).Some?
    ensures var ids := FetchSuggestedBooks(None, Some(snapshot)).value;
            CountSome(snapshot[..i], GoogleBooksID) < |ids| &&
            ids[CountSome(snapshot[..i], GoogleBooksID)] == AsString(Get(snapshot[i].data, "googleBooksId")).value
  {
    CompactMapComplete(snapshot, GoogleBooksID, i);
  }

  // ------------------------------------------------------------ rating update

  /**
   * The fields `updateRenterRating(_:renterID:)` merges into the renter
   * document: the three scores as flat top-level keys, the same map as
   * `Rating.toDictionary()`.
   */
  function RenterRatingUpdate(r: Rating): (d: Fields)
    ensures d == RatingToDictionary(r)
  {
    map["bookQuality" := Num(r.bookQuality),
        "communication" := Num(r.communication),
        "overallExperience" := Num(r.overallExperience)]
  }

  // ------------------------------------------------------------- searchBooks

  /** What `JSONDecoder().decode(BookResponse.self, from:)` did with the body. */
  datatype TypedDecode = DecodeThrew(cause: string) | Decoded(items: Option<seq<BookF>>)

  /** The outcome of `URLSession`'s data task. */
  datatype TypedResponse = TypedTransportError(cause: string) | TypedNoData | TypedBody(decode: TypedDecode)

  /**
   * `searchBooks(query:completion:)`: no cache; any failure fails the whole
   * call, and a response without `items` is an error too.
   */
  function SearchBooks(urlValid: bool, response: TypedResponse): (r: Outcome<seq<BookF>>)
    ensures !urlValid ==> r == Failure(AppError("Invalid URL", 400, ""))
    ensures r.Success? <==> urlValid && response.TypedBody? && response.decode.Decoded? && response.decode.items.Some?
    ensures r.Success? ==> r.value == response.decode.items.value
    ensures urlValid && response.TypedTransportError? ==> r == Failure(Passed(response.cause))
    ensures urlValid && response.TypedNoData? ==> r == Failure(AppError("No data", 404, ""))
    ensures urlValid && response.TypedBody? && response.decode.DecodeThrew? ==>
              r == Failure(Passed(response.decode.cause))
    ensures urlValid && response.TypedBody? && response.decode.Decoded? && response.decode.items.None? ==>
              r == Failure(AppError("No items found", 404, ""))
  {
    if !urlValid then Failure(AppError("Invalid URL", 400, ""))
    else
      match response
      case TypedTransportError(cause) => Failure(Passed(cause))
      case TypedNoData => Failure(AppError("No data", 404, ""))
      case TypedBody(DecodeThrew(cause)) => Failure(Passed(cause))
      case TypedBody(Decoded(None)) => Failure(AppError("No items found", 404, ""))
      case TypedBody(Decoded(Some(items))) => Success(items)
  }
}
