/**
 * The app's records (Models/DataModels.swift): the canonical book `BookF`,
 * reading lists, renters, the books they offer and their ratings, with the
 * `List` and `Rating` conversions to and from document-store maps.
 */
module DataModels {
  import opened Values

  datatype ImageLinks = ImageLinks(smallThumbnail: string, thumbnail: string)

  /** The canonical book: `id` and `title` always present, the rest best-effort. */
  datatype BookF = BookF(
    id: string,
    title: string,
    subtitle: Option<string>,
    authors: Option<seq<string>>,
    description: Option<string>,
    averageRating: Option<real>,
    ratingsCount: Option<int>,
    imageLinks: Option<ImageLinks>,
    previewLink: Option<string>,
    pageCount: Option<int>)

  /** A user's reading list; `id` is the document's identifier. */
  datatype List = List(id: string, title: string, bookIDs: seq<string>, isPrivate: bool, createdAt: Date)

  /** A renter's rating: three independent scores, not range-checked. */
  datatype Rating = Rating(bookQuality: real, communication: real, overallExperience: real)

  datatype RentersBook = RentersBook(
    title: string,
    authors: seq<string>,
    description: string,
    price: real,
    imageURL: string,
    id: string,
    addedAt: Date)

  datatype Renter = Renter(id: string, name: string, books: seq<RentersBook>, rating: Option<Rating>)

  /**
   * `List.from(document:)`. `data` is `document.data()`, nil when the
   * document does not exist. Strict: every field must have its type.
   */
  function ListFrom(documentID: string, data: Option<Fields>): (r: Option<List>)
    ensures r.Some? <==>
              data.Some? &&
              AsString(Get(data.value, "title")).Some? &&
              AsStringArray(Get(data.value, "bookIDs")).Some? &&
              AsBool(Get(data.value, "isPrivate")).Some? &&
              AsTimestamp(Get(data.value, "createdAt")).Some?
    ensures r.Some? ==> r.value.id == documentID
  {
    if data.None? then None
    else
      var d := data.value;
      var title := AsString(Get(d, "title"));
      var bookIDs := AsStringArray(Get(d, "bookIDs"));
      var isPrivate := AsBool(Get(d, "isPrivate"));
      var timestamp := AsTimestamp(Get(d, "createdAt"));
      if title.None? || bookIDs.None? || isPrivate.None? || timestamp.None? then None
      else Some(List(documentID, title.value, bookIDs.value, isPrivate.value, timestamp.value))
  }

  /** `List.toDictionary()`: four keys; the identifier lives in the document's name. */
  function ListToDictionary(l: List): (d: Fields)
    ensures d.Keys == {"title", "bookIDs", "isPrivate", "createdAt"}
  {
    map["title" := Str(l.title),
        "bookIDs" := StringArray(l.bookIDs),
        "isPrivate" := BoolV(l.isPrivate),
        "createdAt" := Timestamp(l.createdAt)]
  }

  /** A list stored under its own identifier reads back as itself. */
  lemma ListRoundTrip(l: List)
    ensures ListFrom(l.id, Some(ListToDictionary(l))) == Some(l)
  {
    var d := ListToDictionary(l);
    assert Get(d, "bookIDs") == Some(StringArray(l.bookIDs));
  }

  /** `averageRating`: the arithmetic mean of the three scores. */
  function AverageRating(r: Rating): (avg: real)
    ensures 3.0 * avg == r.bookQuality + r.communication + r.overallExperience
    ensures Min3(r) <= avg <= Max3(r)
  {
    (r.bookQuality + r.communication + r.overallExperience) / 3.0
  }

  function Min3(r: Rating): real {
    var m := if r.bookQuality <= r.communication then r.bookQuality else r.communication;
    if m <= r.overallExperience then m else r.overallExperience
  }

  function Max3(r: Rating): real {
    var m := if r.bookQuality >= r.communication then r.bookQuality else r.communication;
    if m >= r.overallExperience then m else r.overallExperience
  }

  /** Scores of 3, 4 and 5 average to exactly 4. */
  lemma AverageOfThreeFourFive()
    ensures AverageRating(Rating(3.0, 4.0, 5.0)) == 4.0
  {
  }

  /** Three equal scores average to that score. */
  lemma AverageOfEqualScores(x: real)
    ensures AverageRating(Rating(x, x, x)) == x
  {
  }

  /** `Rating.toDictionary()`: exactly the three score keys. */
  function RatingToDictionary(r: Rating): (d: Fields)
    ensures d.Keys == {"bookQuality", "communication", "overallExperience"}
    ensures d["bookQuality"] == Num(r.bookQuality)
    ensures d["communication"] == Num(r.communication)
    ensures d["overallExperience"] == Num(r.overallExperience)
  {
    map["bookQuality" := Num(r.bookQuality),
        "communication" := Num(r.communication),
        "overallExperience" := Num(r.overallExperience)]
  }

  /**
   * `Rating.fromDictionary(_:)`: nil unless all three scores are present;
   * other keys are ignored.
   */
  function RatingFromDictionary(m: map<string, real>): (r: Option<Rating>)
    ensures r.Some? <==> "bookQuality" in m && "communication" in m && "overallExperience" in m
    ensures r.Some? ==> r.value == Rating(m["bookQuality"], m["communication"], m["overallExperience"])
  {
    if "bookQuality" in m && "communication" in m && "overallExperience" in m
    then Some(Rating(m["bookQuality"], m["communication"], m["overallExperience"]))
    else None
  }

  /** Removing any one of the three score keys makes the dictionary unreadable. */
  lemma RatingFromDictionaryRejectsMissingKey(m: map<string, real>, key: string)
    requires key in {"bookQuality", "communication", "overallExperience"}
    ensures RatingFromDictionary(m - {key}) == None
  {
  }

  /** Keys other than the three scores never change what is read. */
  lemma RatingFromDictionaryIgnoresExtraKeys(m: map<string, real>, key: string, x: real)
    requires key !in {"bookQuality", "communication", "overallExperience"}
    ensures RatingFromDictionary(m[key := x]) == RatingFromDictionary(m)
  {
  }

  /**
   * Round trip: the stored form of a rating is a `[String: Double]` that
   * reads back as the same rating.
   */
  lemma RatingRoundTrip(r: Rating)
    ensures AsDoubleMap(Some(Obj(RatingToDictionary(r)))).Some?
    ensures RatingFromDictionary(AsDoubleMap(Some(Obj(RatingToDictionary(r)))).value) == Some(r)
  {
    var d := RatingToDictionary(r);
    assert forall k :: k in d ==> d[k].Num?;
  }
}
