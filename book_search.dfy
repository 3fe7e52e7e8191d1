/**
 * The search-API side of Helpers/Books.swift: `fetchBooks(query:completion:)`
 * and the process-wide memo `cachedBooks` in front of it.
 *
 * Percent-encoding the query and building the URL is the input `urlValid`;
 * the data task's outcome and what `JSONSerialization` made of the body are
 * the input `response`. A completion runs as one atomic step.
 */
module BookSearch {
  import opened Values
  import opened Text
  import opened DataModels
  import opened Books

  /** What `JSONSerialization.jsonObject(with:options:)` did with the body. */
  datatype JsonParse = ParseThrew(cause: string) | Parsed(json: Value)

  /** The outcome of the data task. */
  datatype Response = TransportError(cause: string) | NoBody | Body(parse: JsonParse)

  /** `trimmingCharacters(in:)` applied under an optional. */
  function TrimmedString(v: Option<Value>): Option<string> {
    match AsString(v)
    case Some(s) => Some(Trim(s))
    case None => None
  }

  /** `imageLinks`: only when both thumbnails are strings. */
  function VolumeImageLinks(volumeInfo: Fields): (r: Option<ImageLinks>)
    ensures r.Some? <==>
              AsObject(Get(volumeInfo, "imageLinks")).Some? &&
              AsString(Get(AsObject(Get(volumeInfo, "imageLinks")).value, "smallThumbnail")).Some? &&
              AsString(Get(AsObject(Get(volumeInfo, "imageLinks")).value, "thumbnail")).Some?
    ensures r.Some? ==>
              var links := AsObject(Get(volumeInfo, "imageLinks")).value;
              r.value == ImageLinks(AsString(Get(links, "smallThumbnail")).value, AsString(Get(links, "thumbnail")).value)
  {
    match AsObject(Get(volumeInfo, "imageLinks"))
    case None => None
    case Some(links) =>
      var small := AsString(Get(links, "smallThumbnail"));
      var thumb := AsString(Get(links, "thumbnail"));
      if small.Some? && thumb.Some? then Some(ImageLinks(small.value, thumb.value)) else None
  }

  /**
   * The body of the per-item loop: an item without a `volumeInfo` object is
   * skipped; otherwise a book whose `id` and `title` are always there.
   */
  function DecodeVolume(item: Fields): (r: Option<BookF>)
    ensures r.Some? <==> AsObject(Get(item, "volumeInfo")).Some?
  {
    match AsObject(Get(item, "volumeInfo"))
    case None => None
    case Some(volumeInfo) =>
      Some(BookF(
        AsString(Get(item, "id")).GetOr("Unknown ID"),
        TrimmedString(Get(volumeInfo, "title")).GetOr("Unknown Title"),
        TrimmedString(Get(volumeInfo, "subtitle")),
        AsStringArray(Get(volumeInfo, "authors")),
        TrimmedString(Get(volumeInfo, "description")),
        AsDouble(Get(volumeInfo, "averageRating")),
        AsInt(Get(volumeInfo, "ratingsCount")),
        VolumeImageLinks(volumeInfo),
        AsString(Get(volumeInfo, "previewLink")),
        AsInt(Get(volumeInfo, "pageCount"))))
  }

  /**
   * How a decoded volume relates to its item: the identifier and title
   * default to sentinels, texts are trimmed, image links need both
   * thumbnails, numbers and links are copied as they are.
   */
  lemma DecodeVolumeFields(item: Fields)
    requires AsObject(Get(item, "volumeInfo")).Some?
    ensures var b := DecodeVolume(item).value;
            var info := AsObject(Get(item, "volumeInfo")).value;
            && (AsString(Get(item, "id")).None? ==> b.id == "Unknown ID")
            && (AsString(Get(item, "id")).Some? ==> b.id == AsString(Get(item, "id")).value)
            && (AsString(Get(info, "title")).None? ==> b.title == "Unknown Title")
            && (AsString(Get(info, "title")).Some? ==> b.title == Trim(AsString(Get(info, "title")).value))
            && (b.subtitle.Some? <==> AsString(Get(info, "subtitle")).Some?)
            && (b.subtitle.Some? ==> b.subtitle.value == Trim(AsString(Get(info, "subtitle")).value))
            && (b.description.Some? <==> AsString(Get(info, "description")).Some?)
            && (b.description.Some? ==> b.description.value == Trim(AsString(Get(info, "description")).value))
            && b.authors == AsStringArray(Get(info, "authors"))
            && b.averageRating == AsDouble(Get(info, "averageRating"))
            && b.ratingsCount == AsInt(Get(info, "ratingsCount"))
            && b.pageCount == AsInt(Get(info, "pageCount"))
            && b.previewLink == AsString(Get(info, "previewLink"))
            && b.imageLinks == VolumeImageLinks(info)
  {
  }

  /** The texts of a decoded volume carry no surrounding whitespace. */
  lemma DecodeVolumeTrimmed(item: Fields)
    requires AsObject(Get(item, "volumeInfo")).Some?
    ensures var b := DecodeVolume(item).value;
            && (AsString(Get(AsObject(Get(item, "volumeInfo")).value, "title")).Some? ==> Trim(b.title) == b.title)
            && (b.subtitle.Some? ==> Trim(b.subtitle.value) == b.subtitle.value)
            && (b.description.Some? ==> Trim(b.description.value) == b.description.value)
  {
    var info := AsObject(Get(item, "volumeInfo")).value;
    var b := DecodeVolume(item).value;
    if AsString(Get(info, "title")).Some? {
      TrimIdempotent(AsString(Get(info, "title")).value);
    }
    if b.subtitle.Some? {
      TrimIdempotent(AsString(Get(info, "subtitle")).value);
    }
    if b.description.Some? {
      TrimIdempotent(AsString(Get(info, "description")).value);
    }
  }

  /** A `volumeInfo` with no title and an item with no id give the two sentinels. */
  lemma DecodeVolumeSentinels(info: Fields)
    requires "title" !in info
    ensures DecodeVolume(map["volumeInfo" := Obj(info)]).value.title == "Unknown Title"
    ensures DecodeVolume(map["volumeInfo" := Obj(info)]).value.id == "Unknown ID"
  {
  }

  /** Partial image data is dropped entirely. */
  lemma DecodeVolumeDropsPartialImageLinks(info: Fields, small: string)
    requires "imageLinks" !in info
    ensures DecodeVolume(map["volumeInfo" := Obj(info["imageLinks" := Obj(map["smallThumbnail" := Str(small)])])])
              .value.imageLinks == None
  {
    var links := map["smallThumbnail" := Str(small)];
    assert Get(links, "thumbnail") == None;
  }

  /**
   * The `items` array of a parsed body: the body must be an object whose
   * `items` is an array of objects.
   */
  function ItemsOf(json: Value): (r: Option<seq<Fields>>)
    ensures r.Some? <==> json.Obj? && AsObjectArray(Get(json.fields, "items")).Some?
    ensures r.Some? ==> r.value == AsObjectArray(Get(json.fields, "items")).value
  {
    match json
    case Obj(fields) => AsObjectArray(Get(fields, "items"))
    case _ => None
  }

  /**
   * The per-item loop of `fetchBooks`: the books of the items that have a
   * `volumeInfo`, in source order.
   */
  method DecodeItems(itemsArray: seq<Fields>) returns (books: seq<BookF>)
    ensures books == CompactMap(itemsArray, DecodeVolume)
  {
    books := [];
    for k := 0 to |itemsArray|
      invariant books == CompactMap(itemsArray[..k], DecodeVolume)
    {
      var item := itemsArray[k];
      CompactMapSnoc(itemsArray[..k], item, DecodeVolume);
      assert itemsArray[..k + 1] == itemsArray[..k] + [item];
      var volumeInfo := AsObject(Get(item, "volumeInfo"));
      if volumeInfo.Some? {
        var book := DecodeVolume(item).value;
        books := books + [book];
      }
    }
    assert itemsArray[..|itemsArray|] == itemsArray;
  }

  /**
   * The decoded list has one book per item with a `volumeInfo`, and the
   * k-th book is the decoding of some item.
   */
  lemma DecodedItemsKeepVolumes(itemsArray: seq<Fields>, k: nat)
    ensures |CompactMap(itemsArray, DecodeVolume)| == CountSome(itemsArray, DecodeVolume)
    ensures k < |CompactMap(itemsArray, DecodeVolume)| ==>
              exists i :: 0 <= i < |itemsArray| && AsObject(Get(itemsArray[i], "volumeInfo")).Some? &&
                          DecodeVolume(itemsArray[i]) == Some(CompactMap(itemsArray, DecodeVolume)[k])
  {
    CompactMapLength(itemsArray, DecodeVolume);
    if k < |CompactMap(itemsArray, DecodeVolume)| {
      CompactMapSound(itemsArray, DecodeVolume, k);
    }
  }

  /** Skipping items without `volumeInfo` keeps the relative order of the others. */
  lemma DecodedItemsSkipBare(before: seq<Fields>, item: Fields, after: seq<Fields>)
    requires AsObject(Get(item, "volumeInfo")).None?
    ensures CompactMap(before + [item] + after, DecodeVolume) ==
            CompactMap(before, DecodeVolume) + CompactMap(after, DecodeVolume)
  {
    CompactMapAppend(before + [item], after, DecodeVolume);
    CompactMapSnoc(before, item, DecodeVolume);
  }

  /** The process-wide `cachedBooks` memo and the search that fills it. */
  class BookCache {
    /** Raw query (not encoded, not case-folded) to the books first fetched for it. */
    var cachedBooks: map<string, seq<BookF>>

    constructor()
      ensures cachedBooks == map[]
    {
      cachedBooks := map[];
    }

    /**
     * `fetchBooks(query:completion:)`. `requested` says whether the URL was
     * built and a request sent. A hit answers from the memo alone; only a
     * parsed body of the right shape writes the memo, under the raw query.
     */
    method FetchBooks(query: string, urlValid: bool, response: Response)
      returns (result: Outcome<seq<BookF>>, requested: bool)
      modifies this
      ensures query in old(cachedBooks) ==>
                result == Success(old(cachedBooks)[query]) && !requested && cachedBooks == old(cachedBooks)
      ensures query !in old(cachedBooks) ==> requested == urlValid
      ensures query !in old(cachedBooks) && !urlValid ==>
                result == Failure(AppError("Invalid URL", 400, "")) && cachedBooks == old(cachedBooks)
      ensures query !in old(cachedBooks) && urlValid && response.TransportError? ==>
                result == Failure(Passed(response.cause)) && cachedBooks == old(cachedBooks)
      ensures query !in old(cachedBooks) && urlValid && response.NoBody? ==>
                result == Failure(AppError("No data", 404, "")) && cachedBooks == old(cachedBooks)
      ensures query !in old(cachedBooks) && urlValid && response.Body? && response.parse.ParseThrew? ==>
                result == Failure(Passed(response.parse.cause)) && cachedBooks == old(cachedBooks)
      ensures query !in old(cachedBooks) && urlValid && response.Body? && response.parse.Parsed? &&
              ItemsOf(response.parse.json).None? ==>
                result == Failure(AppError("Invalid JSON structure", 500, "")) && cachedBooks == old(cachedBooks)
      ensures query !in old(cachedBooks) && urlValid && response.Body? && response.parse.Parsed? &&
              ItemsOf(response.parse.json).Some? ==>
                var books := CompactMap(ItemsOf(response.parse.json).value, DecodeVolume);
                result == Success(books) && cachedBooks == old(cachedBooks)[query := books]
    {
      if query in cachedBooks {
        return Success(cachedBooks[query]), false;
      }
      if !urlValid {
        return Failure(AppError("Invalid URL", 400, "")), false;
      }
      requested := true;
      match response {
        case TransportError(cause) =>
          result := Failure(Passed(cause));
        case NoBody =>
          result := Failure(AppError("No data", 404, ""));
        case Body(ParseThrew(cause)) =>
          result := Failure(Passed(cause));
        case Body(Parsed(jsonObj)) =>
          var itemsArray := ItemsOf(jsonObj);
          if itemsArray.Some? {
            var books := DecodeItems(itemsArray.value);
            cachedBooks := cachedBooks[query := books];
            result := Success(books);
          } else {
            result := Failure(AppError("Invalid JSON structure", 500, ""));
          }
      }
    }
  }

  /**
   * Two searches for the same query in a row: once the first has succeeded,
   * the second returns the same books and sends no request, whatever its
   * network outcome would have been.
   */
  method RepeatSearch(cache: BookCache, query: string, urlValid: bool, first: Response, second: Response)
    returns (r1: Outcome<seq<BookF>>, r2: Outcome<seq<BookF>>, requested2: bool)
    modifies cache
    ensures r1.Success? ==> r2 == r1 && !requested2
  {
    var requested1;
    r1, requested1 := cache.FetchBooks(query, urlValid, first);
    r2, requested2 := cache.FetchBooks(query, urlValid, second);
  }
}
