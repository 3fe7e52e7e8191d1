# Eclipse book-rental app: a verified model of its data layer

Eclipse is an iOS app for lending and renting books. Users keep reading
lists, search a public book catalogue, offer their own books for rent at
a daily price, and rate the renters they borrowed from. This project
models the logic under the screens:

- the Firestore readers and writers of `Helpers/Books.swift`: the
  `BookFAdapter`, the list, renter, rented-book and suggestion readers,
  and the records the app writes;
- the search-API client `fetchBooks` with its process-wide query memo
  `cachedBooks`;
- the `List` and `Rating` conversions of `Models/DataModels.swift`;
- the deck bookkeeping of the swipe screen `SwipeScreen`;
- the library button of `BookViewController`;
- the hex-colour initialiser `UIColor(hex:alpha:)`;
- the bounds-checked `Array[safe:]` subscript.

Firestore's loosely typed `[String: Any]` records are the datatype
`Values.Value`. A cast `as? T` is a strict test of the value's tag. A
`compactMap` is `Values.CompactMap`. Whatever the app gets from outside is
a parameter:

- a read's error and its snapshot or document data;
- whether the search URL could be built, and the network and JSON-parse
  outcome;
- `Date()` (`now`), `UUID()` (`uuid`), `ISO8601DateFormatter` (`parseIso`)
  and `Double(_:)` (`parsePrice`);
- the signed-in user.

Each asynchronous completion runs as one step. Code that changes state in
place is modelled in the same form:

- `cachedBooks` is a field of the class `BookCache`;
- the swipe screen's and the book screen's state are fields of the classes
  `SwipeScreen` and `BookViewController`;
- the loops of `fetchBooks`, `fetchRenters` and `fetchCurrentlyRentedBooks`
  are methods with loop invariants, proved against specification
  functions.

Files, in dependency order:

- `values.dfy`: `Value`, the casts, `CompactMap` and its lemmas.
- `text.dfy`: whitespace trimming.
- `data_models.dfy`: the records, `List` and `Rating`.
- `books.dfy`: the Firestore side of `Books.swift`.
- `book_search.dfy`: `fetchBooks` and its memo.
- `swipe.dfy`, `book_view.dfy`, `color.dfy`, `safe_index.dfy`: the screens
  and helpers.

The source files are `Desktop/Eclipse/Eclipse/...` below.

## Model

| member | source | states |
|---|---|---|
| Values.StringArray | Desktop/Eclipse/Eclipse/Models/DataModels.swift:34 | A stored `[String]` reads back through `as? [String]` as the same array |
| Values.CompactMapLength | Desktop/Eclipse/Eclipse/Helpers/Books.swift:203 | `compactMap` keeps exactly one element per input that maps to non-nil |
| Values.CompactMapSound | Desktop/Eclipse/Eclipse/Helpers/Books.swift:203 | Every element `compactMap` keeps is the image of some input |
| Values.CompactMapTotal | Desktop/Eclipse/Eclipse/Helpers/Books.swift:203 | When no input maps to nil, nothing is dropped and the order is kept |
| Values.CompactMapAppend | Desktop/Eclipse/Eclipse/Helpers/Books.swift:446 | `compactMap` distributes over concatenation |
| Values.CompactMapComplete | Desktop/Eclipse/Eclipse/Helpers/Books.swift:446 | Every kept element reaches the output, after the elements kept before it |
| Values.CompactMapNone | Desktop/Eclipse/Eclipse/Helpers/Books.swift:409-421 | When nothing is kept, the output is empty |
| Text.Trim | Desktop/Eclipse/Eclipse/Helpers/Books.swift:271-274 | The trimmed text is a slice of the input with no whitespace or newline at either end; only whitespace is cut off |
| Text.TrimIdempotent | Desktop/Eclipse/Eclipse/Helpers/Color.swift:6 | Trimming twice is trimming once |
| Text.TrimSurrounded | Desktop/Eclipse/Eclipse/Helpers/Color.swift:6 | Trimming removes exactly the whitespace added around a string |
| Books.ExtractImageLinks | Desktop/Eclipse/Eclipse/Helpers/Books.swift:30-35 | A string `imageURL` serves as both thumbnails; anything else gives no links |
| Books.FromFirestoreData | Desktop/Eclipse/Eclipse/Helpers/Books.swift:10-28 | nil iff `id` or `title` is not a string; every optional field is copied through its own cast |
| Books.FromFirestoreDataMinimal | Desktop/Eclipse/Eclipse/Helpers/Books.swift:10-28 | A record with only `id` and `title` gives a book with every optional field empty |
| Books.ListWithDefaults | Desktop/Eclipse/Eclipse/Helpers/Books.swift:60-70 | The id is the document's identifier; each field is copied when it has its type and defaults on its own otherwise: "Untitled", [], false, now |
| Books.FetchLists | Desktop/Eclipse/Eclipse/Helpers/Books.swift:52-100 | An error is passed on; no snapshot gives no lists; otherwise one defaulted list per document, in order |
| Books.FetchListsEmpty | Desktop/Eclipse/Eclipse/Helpers/Books.swift:60-71 | An empty collection is an empty success |
| Books.ListDefaultsOnEmptyDocument | Desktop/Eclipse/Eclipse/Helpers/Books.swift:62-68 | A document without usable fields becomes an "Untitled", empty, public list created now |
| Books.ListWithDefaultsExtendsListFrom | Desktop/Eclipse/Eclipse/Helpers/Books.swift:60-70 | On documents that the strict `List.from` accepts, the lenient builder agrees with it |
| Books.CustomListRecord | Desktop/Eclipse/Eclipse/Helpers/Books.swift:107-116 | `addCustomList` writes only `title`, `bookIDs` and `isPrivate` |
| Books.CustomListReadBack | Desktop/Eclipse/Eclipse/Helpers/Books.swift:87-98 | A saved custom list reads back with its creation time replaced by the time of reading; `List.from` refuses the record |
| Books.FetchRenterDetails | Desktop/Eclipse/Eclipse/Helpers/Books.swift:149-178 | An error or a missing document gives (nil, nil); otherwise the string `name` and the `[String: Double]` `renterRating` |
| Books.RenterDetailsCollapseMissingName | Desktop/Eclipse/Eclipse/Helpers/Books.swift:149-178 | A missing name cannot be told apart from a failed read |
| Books.StrictRentersBook | Desktop/Eclipse/Eclipse/Helpers/Books.swift:203-222 | An entry is read iff all seven fields have their types, and then each field is copied |
| Books.FetchRentedBooks | Desktop/Eclipse/Eclipse/Helpers/Books.swift:186-230 | Every failure gives []; otherwise the well-formed entries of `rentedBooks` |
| Books.FetchRentedBooksKeepsExactlyWellFormed | Desktop/Eclipse/Eclipse/Helpers/Books.swift:203-212 | One book per well-formed entry, each the reading of a well-formed entry |
| Books.FetchRentedBooksAllWellFormed | Desktop/Eclipse/Eclipse/Helpers/Books.swift:203-222 | When every entry is well formed, nothing is dropped and the order is kept |
| Books.CreateRentersBook | Desktop/Eclipse/Eclipse/Helpers/Books.swift:365-384 | Never fails: each field is copied when it has its type and defaulted otherwise; `addedAt` is the ISO-8601 parse of a string, else now |
| Books.CreateRentersBookDefaultsToNow | Desktop/Eclipse/Eclipse/Helpers/Books.swift:372-373 | Without a string `addedAt`, and with a formatter that rejects "", the book is dated at the time of the read |
| Books.CreateRentersBookExtendsStrict | Desktop/Eclipse/Eclipse/Helpers/Books.swift:365-384 | On entries the strict reader accepts, the lenient one agrees except that a stored `Timestamp` is replaced |
| Books.RenterBooks | Desktop/Eclipse/Eclipse/Helpers/Books.swift:339-348 | One book per `rentedBooks` entry, in order, or none when the field is missing |
| Books.RenterOf | Desktop/Eclipse/Eclipse/Helpers/Books.swift:333-358 | A renter iff `name` is a string, with the document's identifier; a rating only when the nested `rating` map reads as one |
| Books.RentersOfSkipsNameless | Desktop/Eclipse/Eclipse/Helpers/Books.swift:335-337 | A document without a name is skipped and nothing else changes |
| Books.RentersOfDropsMiddleNameless | Desktop/Eclipse/Eclipse/Helpers/Books.swift:332-359 | Of three documents with the middle one nameless, the result is exactly the renter of the first followed by the renter of the third |
| Books.RentersOfSound | Desktop/Eclipse/Eclipse/Helpers/Books.swift:332-359 | Every renter is the renter of some document |
| Books.RentersOfAppend | Desktop/Eclipse/Eclipse/Helpers/Books.swift:332-359 | Reading one more document appends its renter, if any |
| Books.CollectRenterBooks | Desktop/Eclipse/Eclipse/Helpers/Books.swift:343-346 | The inner loop builds one `createRentersBook` per entry, in order |
| Books.FetchRenters | Desktop/Eclipse/Eclipse/Helpers/Books.swift:317-362 | An error is passed on; no snapshot fails with "No renters found."; otherwise the renters of the named documents, in order |
| Books.DecodeRentersBook | Desktop/Eclipse/Eclipse/Models/DataModels.swift:133-145 | An entry decodes iff all seven keys are present with their JSON types (strings, a string array, numbers for `price` and `addedAt`), and then each field is that value |
| Books.DecodeRentersBookRejectsMissingKey | Desktop/Eclipse/Eclipse/Models/DataModels.swift:133-145 | Removing any one of the seven keys makes the entry undecodable |
| Books.SerialisableEntry | Desktop/Eclipse/Eclipse/Helpers/Books.swift:410-412 | A `Timestamp` `addedAt` becomes its seconds since 1970; any other entry is unchanged; no other key is touched |
| Books.BorrowedOfAppend | Desktop/Eclipse/Eclipse/Helpers/Books.swift:405-423 | Reading one more document appends the entries it contributes |
| Books.BorrowedEntryAcceptsStrict | Desktop/Eclipse/Eclipse/Helpers/Books.swift:409-417 | A well-formed entry decodes to the same book as the strict reader gives (in the program the decoded date is shifted by the 2001 reference offset, see Left out) |
| Books.DecodeBookArray | Desktop/Eclipse/Eclipse/Helpers/Books.swift:409-421 | The inner loop keeps exactly the entries that decode after the rewrite, in order |
| Books.FetchCurrentlyRentedBooks | Desktop/Eclipse/Eclipse/Helpers/Books.swift:388-427 | An error is passed on; a missing or empty collection fails with "No rented books found."; otherwise the decodable entries, possibly none |
| Books.BorrowedOfNoDecodableEntries | Desktop/Eclipse/Eclipse/Helpers/Books.swift:405-425 | Documents with no `books` array or no decodable entry contribute nothing, so the result is an empty success |
| Books.FetchSuggestedBooks | Desktop/Eclipse/Eclipse/Helpers/Books.swift:434-449 | An error is passed on; no snapshot fails with "No suggested books found."; otherwise the string `googleBooksId`s, at most one per document, in document order |
| Books.SuggestedBooksComplete | Desktop/Eclipse/Eclipse/Helpers/Books.swift:446 | Every document with a string `googleBooksId` contributes it, after the identifiers of the documents before it |
| Books.SuggestedBooksSound | Desktop/Eclipse/Eclipse/Helpers/Books.swift:446 | Each identifier is the string `googleBooksId` of some document |
| Books.RenterRatingUpdate | Desktop/Eclipse/Eclipse/Helpers/Books.swift:451-463 | The update writes the three scores as flat keys, the same map as `Rating.toDictionary()` |
| Books.SearchBooks | Desktop/Eclipse/Eclipse/Helpers/Books.swift:474-504 | Succeeds iff the URL is valid and the body decodes with `items`, with those items; each failure maps to its own error |
| BookSearch.VolumeImageLinks | Desktop/Eclipse/Eclipse/Helpers/Books.swift:280-285 | Image links iff `imageLinks` is an object with both thumbnails as strings, each thumbnail in its own field |
| BookSearch.DecodeVolume | Desktop/Eclipse/Eclipse/Helpers/Books.swift:269-300 | An item decodes iff it has a `volumeInfo` object |
| BookSearch.DecodeVolumeFields | Desktop/Eclipse/Eclipse/Helpers/Books.swift:270-298 | "Unknown ID" and "Unknown Title" defaults; title, subtitle and description trimmed; other fields copied |
| BookSearch.DecodeVolumeTrimmed | Desktop/Eclipse/Eclipse/Helpers/Books.swift:271-274 | Decoded texts carry no surrounding whitespace |
| BookSearch.DecodeVolumeSentinels | Desktop/Eclipse/Eclipse/Helpers/Books.swift:270-289 | No id and no title give the two sentinels |
| BookSearch.DecodeVolumeDropsPartialImageLinks | Desktop/Eclipse/Eclipse/Helpers/Books.swift:281-285 | A lone `smallThumbnail` gives no image links |
| BookSearch.ItemsOf | Desktop/Eclipse/Eclipse/Helpers/Books.swift:263-264 | Items exist iff the body is an object whose `items` is an array of objects, and they are that array |
| BookSearch.DecodeItems | Desktop/Eclipse/Eclipse/Helpers/Books.swift:266-302 | The loop keeps the decoded items with `volumeInfo`, in order |
| BookSearch.DecodedItemsKeepVolumes | Desktop/Eclipse/Eclipse/Helpers/Books.swift:268-302 | One book per item with `volumeInfo`, each the decoding of such an item |
| BookSearch.DecodedItemsSkipBare | Desktop/Eclipse/Eclipse/Helpers/Books.swift:268-302 | Skipping a bare item keeps the relative order of the rest |
| BookSearch.BookCache.constructor | Desktop/Eclipse/Eclipse/Helpers/Books.swift:235 | The memo starts empty |
| BookSearch.BookCache.FetchBooks | Desktop/Eclipse/Eclipse/Helpers/Books.swift:237-315 | A hit returns the stored list with no request; each failure leaves the memo unchanged with its own error; a parsed body stores the books under the raw query and changes no other key |
| BookSearch.RepeatSearch | Desktop/Eclipse/Eclipse/Helpers/Books.swift:238-241 | After a successful search, the same query returns the same books without a request |
| DataModels.ListFrom | Desktop/Eclipse/Eclipse/Models/DataModels.swift:13-29 | A list iff all four fields have their types, with the document's identifier |
| DataModels.ListToDictionary | Desktop/Eclipse/Eclipse/Models/DataModels.swift:31-38 | Exactly `title`, `bookIDs`, `isPrivate` and `createdAt` |
| DataModels.ListRoundTrip | Desktop/Eclipse/Eclipse/Models/DataModels.swift:13-38 | A list stored under its own identifier reads back as itself |
| DataModels.AverageRating | Desktop/Eclipse/Eclipse/Models/DataModels.swift:101-103 | Three times the mean is the sum of the scores; the mean lies between the least and the greatest score |
| DataModels.AverageOfThreeFourFive | Desktop/Eclipse/Eclipse/Models/DataModels.swift:101-103 | Scores 3, 4 and 5 average to 4 |
| DataModels.AverageOfEqualScores | Desktop/Eclipse/Eclipse/Models/DataModels.swift:101-103 | Equal scores average to that score |
| DataModels.RatingToDictionary | Desktop/Eclipse/Eclipse/Models/DataModels.swift:106-112 | Exactly the three score keys, each holding its score |
| DataModels.RatingFromDictionary | Desktop/Eclipse/Eclipse/Models/DataModels.swift:115-123 | A rating iff all three keys are present, holding their values |
| DataModels.RatingFromDictionaryRejectsMissingKey | Desktop/Eclipse/Eclipse/Models/DataModels.swift:116-120 | Without any one score key there is no rating |
| DataModels.RatingFromDictionaryIgnoresExtraKeys | Desktop/Eclipse/Eclipse/Models/DataModels.swift:115-123 | Other keys never change the result |
| DataModels.RatingRoundTrip | Desktop/Eclipse/Eclipse/Models/DataModels.swift:106-123 | `fromDictionary(toDictionary(r)) == r`, through the `[String: Double]` cast |
| Swipe.SwipeDecision | Desktop/Eclipse/Eclipse/Home/SwipeViewController.swift:436-438 | A swipe iff abs(tx) > 100 or abs(vx) > 1000 (`swipeThreshold` is 100), to the right iff tx > 0 |
| Swipe.FlickWithoutTravelGoesLeft | Desktop/Eclipse/Eclipse/Home/SwipeViewController.swift:436-438 | A fast flick with no travel goes left |
| Swipe.ShortSlowPanCancels | Desktop/Eclipse/Eclipse/Home/SwipeViewController.swift:436-442 | A short, slow pan is cancelled |
| Swipe.PickSnoc | Desktop/Eclipse/Eclipse/Home/SwipeViewController.swift:453-460 | Deciding one more book appends it to the list of its verdict only |
| Swipe.PickPartition | Desktop/Eclipse/Eclipse/Home/SwipeViewController.swift:453-460 | The liked and the rejected lists together hold as many books as were decided |
| Swipe.SwipeScreen.constructor | Desktop/Eclipse/Eclipse/Home/SwipeViewController.swift:15-34 | First book on top, both lists empty, the sheet closed |
| Swipe.SwipeScreen.DecidedCount | Desktop/Eclipse/Eclipse/Home/SwipeViewController.swift:453-476 | The two lists together hold min(currentBookIndex, books.count) books until the first clear, and the books decided since then after it |
| Swipe.SwipeScreen.DisplayBook | Desktop/Eclipse/Eclipse/Home/SwipeViewController.swift:168-180 | A book is shown iff the index is valid, and it is that book |
| Swipe.SwipeScreen.CompleteSwipe | Desktop/Eclipse/Eclipse/Home/SwipeViewController.swift:449-492 | An in-range swipe appends the top book to the list of its direction only; out of range nothing is appended; the index always grows by one |
| Swipe.SwipeScreen.PanEnded | Desktop/Eclipse/Eclipse/Home/SwipeViewController.swift:435-442 | A decided pan completes a swipe in its direction, leaves both lists as they were when no book is on top, and shows the next book exactly when there is one; any other pan leaves the deck as it was |
| Swipe.SwipeScreen.ClearLists | Desktop/Eclipse/Eclipse/Home/SwipeViewController.swift:519-523 | Both lists are emptied and the index is kept |
| Swipe.SwipeScreen.HandleBookImageTap | Desktop/Eclipse/Eclipse/Home/SwipeViewController.swift:182-185 | An open sheet ignores the tap; otherwise the sheet opens on the top book |
| Swipe.SwipeScreen.CloseBottomSheet | Desktop/Eclipse/Eclipse/Home/SwipeViewController.swift:386-399 | The sheet is closed and the deck unchanged |
| BookView.BookData | Desktop/Eclipse/Eclipse/Profile/BookViewController.swift:174-182 | The seven keys, with id, title, time and price copied |
| BookView.BookDataReadsBack | Desktop/Eclipse/Eclipse/Profile/BookViewController.swift:174-182 | Every record saved passes the seven-field check of `fetchRentedBooks` and reads back as the book at that price, with [] authors, "" thumbnail and "" description defaults |
| BookView.ContainsBook | Desktop/Eclipse/Eclipse/Profile/BookViewController.swift:150 | True iff some entry has a string `id` equal to the book's |
| BookView.SavedBookIsFound | Desktop/Eclipse/Eclipse/Profile/BookViewController.swift:174-186 | A saved record makes the membership test true |
| BookView.BookViewController.constructor | Desktop/Eclipse/Eclipse/Profile/BookViewController.swift:5-8 | The flag starts false |
| BookView.BookViewController.CheckIfBookIsAdded | Desktop/Eclipse/Eclipse/Profile/BookViewController.swift:146-153 | Without a user or a `rentedBooks` array the flag is kept; otherwise it is the membership test |
| BookView.BookViewController.AddToLibrary | Desktop/Eclipse/Eclipse/Profile/BookViewController.swift:154-199 | Nothing is written and the flag is kept without a user or a parseable price; otherwise the record is written and a successful write sets the flag |
| Color.ScanHex | Desktop/Eclipse/Eclipse/Helpers/Color.swift:11-12 | The scanned value is below 16 to the power of the string's length |
| Color.Channels | Desktop/Eclipse/Eclipse/Helpers/Color.swift:13-15 | Each channel is in 0..255 |
| Color.ChannelsRecombine | Desktop/Eclipse/Eclipse/Helpers/Color.swift:13-15 | For a 24-bit value, r*65536 + g*256 + b is the value |
| Color.Sanitize | Desktop/Eclipse/Eclipse/Helpers/Color.swift:6-9 | The trimmed string, without its first character exactly when that is '#' |
| Color.SanitizeRemovesOneHash | Desktop/Eclipse/Eclipse/Helpers/Color.swift:7-9 | At most one '#' is removed |
| Color.SanitizeIgnoresSurroundingWhitespace | Desktop/Eclipse/Eclipse/Helpers/Color.swift:6 | Whitespace around the colour is removed before any other check |
| Color.ScanSixDigits | Desktop/Eclipse/Eclipse/Helpers/Color.swift:10-12 | Six hex digits scan to the number they spell, below 2^24 |
| Color.SixDigitChannelsSpellValue | Desktop/Eclipse/Eclipse/Helpers/Color.swift:10-15 | For six hex digits of value v, r*65536 + g*256 + b == v |
| Color.ColorFromHex | Desktop/Eclipse/Eclipse/Helpers/Color.swift:5-21 | A length other than 6 gives opaque black whatever the alpha; otherwise components are channel/255 in 0..1 and alpha defaults to 1 |
| SafeIndex.SafeGet | Desktop/Eclipse/Eclipse/Home/HomeViewController.swift:278-280 | Non-nil iff 0 <= i < count, and then the element at i |
| SafeIndex.SafeGetEmpty | Desktop/Eclipse/Eclipse/Home/HomeViewController.swift:279 | nil for every index of an empty array |
| SafeIndex.SafeGetStableUnderAppend | Desktop/Eclipse/Eclipse/Home/HomeViewController.swift:278-280 | Appending never changes what a valid position gives |

## Left out

- UIKit presentation is not modelled: layout, animations, gradients, alerts and image loading. That includes `downloadImage` and the button colouring. Only the state these screens keep is modelled.
- Transport is not modelled. Firestore reads and writes, `URLSession`, `Auth`, `addingPercentEncoding`, `URL(string:)`, `JSONSerialization` and `JSONDecoder` appear only through their outcomes, which are parameters. Firestore's server-side merge and `arrayUnion` semantics are not modelled: `AddToLibrary` returns the record written.
- Concurrency is not modelled. A completion runs atomically, so the race between two fetches of one query on the unsynchronised `cachedBooks` is not covered.
- `UUID()`, `Date()`, `Timestamp()`, `ISO8601DateFormatter` and `Double(_:)` are parameters. `Books.CreateRentersBook` takes the fresh identifier as a parameter and `Books.RenterBooks` supplies `uuid(doc.documentID, j)` for the j-th entry, so the uniqueness of UUIDs is not modelled.
- Floating point is modelled as `real`. `Double`, `CGFloat` and IEEE rounding are not: the mean in `DataModels.AverageRating` and the colour components in `Color.ColorFromHex` are exact.
- `Books.FetchLists` and `Books.FetchRenters` take one `now` for the whole batch. The source evaluates `Date()` once per document, so defaulted dates within one batch are modelled as equal.
- A `Date` is a `real` number of seconds. The nanosecond precision of a Firestore `Timestamp` is not modelled.
- Foundation's `NSNumber` bridging is not modelled. `as? Double` accepts only numbers stored as doubles, and `as? Int` only integers; a stored integer does not read as a `Double` or the reverse.
- `Books.DecodeRentersBook`: the decoded `addedAt` is the number stored. `JSONDecoder`'s default date strategy counts seconds from 2001, not from 1970; that shift is not modelled. `JSONSerialization.data(withJSONObject:)` raising an Objective-C exception on a value JSON cannot hold (a `Timestamp` under a key other than `addedAt`, say) is not modelled either. The `catch` does not catch that exception, so the program stops. The model instead decodes such an entry, reading the offending value as absent or mistyped.
- `BookSearch.BookCache.FetchBooks`, `BookView.ContainsBook` and `Color.Sanitize` compare strings as sequences of code points. Swift's `String ==` and `Dictionary` lookups use Unicode canonical equivalence instead. So canonically equivalent queries ("caf\u{E9}" and "cafe\u{301}") are different memo keys here, and such book ids do not match. The leading '#' is also tested as a code point rather than as a grapheme cluster, so "#\u{301}ABCDE" loses its '#' in the model but keeps it in Swift.
- Swift counts `String` length in grapheme clusters. `Color.ColorFromHex` counts code points, so a hex string containing combining characters is measured differently.
- `Color.ScanHex` models `Scanner.scanHexInt64` as follows: leading whitespace is skipped, an optional "0x"/"0X" prefix is passed over, and the longest run of hex digits that follows is read. The model has no 64-bit overflow handling, because only six-character strings are scanned.
- `SwipeScreen`'s fixed three-book deck is not part of this model. `Swipe.SwipeScreen.constructor` takes any deck, and `Book1.id` is an ordinary field instead of a fresh `UUID()`.
- The out-of-bounds read at SwipeViewController.swift:185 is a precondition of `Swipe.SwipeScreen.HandleBookImageTap`: a tap with the sheet closed needs a book on top.
- `getLikedBooks()`/`getRejectedBooks()` are plain field reads and are left out.
- The print statements and the `.changed`-phase card transform of `handlePan` are left out. So are the `default:` cancel and `cancelSwipeAnimation`, which change no modelled state.
- `fetchBookDetails` is not part of this model; it is `BookFAdapter.fromFirestoreData` applied to a document's data. `SearchViewController` is not part of this model either.
- The `Rating` initialiser stores its three arguments unchanged with no range check. It is the datatype constructor `DataModels.Rating`.
- `updateRenterRating` writes flat top-level keys, while `fetchRenters` reads a nested `rating` map. No write-then-read identity is claimed between the two.
