/**
 * The `/api/random-book` handler of api/random-book.js, from the decoded
 * upstream GraphQL body to the HTTP response: the `errors` branch, the
 * defaulting of a missing `me`, the `flatMap`/`map` extraction, the empty
 * shelf check, the random pick, the image collapse and the response shape.
 *
 * `Math.random()` is the parameter `r`, an exact real in [0, 1). A thrown
 * exception (transport failure, undecodable body, or a TypeError the code
 * raises on a null value) is the 500 outcome.
 */
module RandomBookApi {
  import opened Wrappers

  /** One element of `contributions`: `{ author: { name } }`; a null name is `None`. */
  datatype Contribution = Contribution(authorName: Option<string>)

  /** A book's `image` field as the handler and the client may see it. */
  datatype Image =
    | NoImage                           // absent or null
    | ImageObject(url: Option<string>)  // `{ url }` as the upstream sends it
    | ImageUrl(src: string)             // a bare string, what the collapse produces

  datatype Book = Book(
    id: nat,
    title: string,
    description: Option<string>,
    pages: Option<int>,
    releaseYear: Option<int>,
    image: Image,
    contributions: Option<seq<Contribution>>)

  /** One element of a user's `user_books`; its `book` may be null. */
  datatype Entry = Entry(book: Option<Book>)

  /** One element of `me`; `user_books` may be missing. */
  datatype User = User(userBooks: Option<seq<Entry>>)

  datatype Data = Data(me: Option<seq<User>>)

  /** An upstream GraphQL error object, passed through untouched. */
  datatype GraphQLError = GraphQLError(message: string)

  /** The decoded upstream body `{ errors?, data? }`. */
  datatype Body = Body(errors: Option<seq<GraphQLError>>, data: Option<Data>)

  /** What `await fetch(...)` followed by `await response.json()` yields. */
  datatype Upstream =
    | Unreachable                 // fetch rejected
    | Malformed                   // response.json() rejected
    | Decoded(body: Option<Body>) // `None`: the body was JSON `null`

  /** The JSON object sent back to the caller. */
  datatype Payload =
    | Picked(book: Book, totalBooks: nat)        // { success: true, book, totalBooks }
    | UpstreamErrors(errors: seq<GraphQLError>)  // { error: <upstream errors> }
    | Failure(message: string)                   // { error: <message> }

  datatype Response = Response(status: nat, payload: Payload)

  const NotFoundMessage: string := "No books found in Want to Read shelf"
  const FailureMessage: string := "Failed to fetch random book"

  // ---------------------------------------------------------------------------
  // Extraction: `(data.data?.me || []).flatMap(u => u.user_books).map(e => e.book)`
  // ---------------------------------------------------------------------------

  /** `data.data?.me || []`: a missing `data` or `me` is an empty user list. */
  function MeOrEmpty(data: Option<Data>): seq<User> {
    match data
    case None => []
    case Some(d) => match d.me case None => [] case Some(me) => me
  }

  /**
   * What one user adds to the `flatMap` result: the elements of `user_books`,
   * or, when it is missing, the undefined value itself (`None`).
   */
  function UserItems(u: User): seq<Option<Entry>> {
    match u.userBooks
    case None => [None]
    case Some(entries) => seq(|entries|, j requires 0 <= j < |entries| => Some(entries[j]))
  }

  /** `me.flatMap(user => user.user_books)`. */
  function FlatMapUserBooks(me: seq<User>): seq<Option<Entry>> {
    if me == [] then [] else UserItems(me[0]) + FlatMapUserBooks(me[1..])
  }

  /**
   * `items.map(entry => entry.book)`; `None` when some item is undefined,
   * where reading `.book` throws a TypeError.
   */
  function MapBooks(items: seq<Option<Entry>>): (books: Option<seq<Option<Book>>>)
    ensures books.Some? <==> forall j :: 0 <= j < |items| ==> items[j].Some?
    ensures books.Some? ==> |books.value| == |items|
    ensures books.Some? ==> forall j :: 0 <= j < |items| ==> books.value[j] == items[j].value.book
  {
    if items == [] then Some([])
    else if items[0].None? then None
    else
      match MapBooks(items[1..])
      case None => None
      case Some(rest) => Some([items[0].value.book] + rest)
  }

  /** Lines 62-65; `None` stands for the TypeError thrown on a missing `user_books`. */
  function ExtractBooks(me: seq<User>): Option<seq<Option<Book>>> {
    MapBooks(FlatMapUserBooks(me))
  }

  /** Every user carries a `user_books` list. */
  predicate AllListed(me: seq<User>) {
    forall i :: 0 <= i < |me| ==> me[i].userBooks.Some?
  }

  /** Reference definition: every listed entry, user after user, each user's in its own order. */
  function AllEntries(me: seq<User>): seq<Entry> {
    if me == [] then []
    else
      match me[0].userBooks
      case None => AllEntries(me[1..])
      case Some(entries) => entries + AllEntries(me[1..])
  }

  /** The entries of a concatenation of user lists are the concatenation of their entries. */
  lemma {:induction false} AllEntriesAppend(a: seq<User>, b: seq<User>)
    ensures AllEntries(a + b) == AllEntries(a) + AllEntries(b)
  {
    if a == [] {
      assert a + b == b;
    } else {
      assert (a + b)[0] == a[0];
      assert (a + b)[1..] == a[1..] + b;
      AllEntriesAppend(a[1..], b);
    }
  }

  /** With every list present, the flattened items are exactly the entries. */
  lemma {:induction false} FlatMapListed(me: seq<User>)
    requires AllListed(me)
    ensures FlatMapUserBooks(me) == seq(|AllEntries(me)|, j requires 0 <= j < |AllEntries(me)| => Some(AllEntries(me)[j]))
  {
    if me != [] {
      assert AllListed(me[1..]) by {
        forall i | 0 <= i < |me[1..]| ensures me[1..][i].userBooks.Some? {
          assert me[1..][i] == me[i + 1];
        }
      }
      FlatMapListed(me[1..]);
    }
  }

  /** A user without `user_books` puts an undefined item into the flattened list. */
  lemma {:induction false} FlatMapUnlisted(me: seq<User>, i: nat)
    requires i < |me| && me[i].userBooks.None?
    ensures None in FlatMapUserBooks(me)
  {
    if i == 0 {
      assert FlatMapUserBooks(me)[0] == None;
    } else {
      FlatMapUnlisted(me[1..], i - 1);
    }
  }

  /**
   * Extraction succeeds exactly when every user lists its entries, and then it
   * yields one book per entry, in order, with no filtering.
   */
  lemma ExtractIsEntryBooks(me: seq<User>)
    ensures ExtractBooks(me).Some? <==> AllListed(me)
    ensures AllListed(me) ==>
      |ExtractBooks(me).value| == |AllEntries(me)| &&
      forall j :: 0 <= j < |AllEntries(me)| ==> ExtractBooks(me).value[j] == AllEntries(me)[j].book
  {
    if AllListed(me) {
      FlatMapListed(me);
    } else {
      var i :| 0 <= i < |me| && me[i].userBooks.None?;
      FlatMapUnlisted(me, i);
    }
  }

  /** The number of books is the sum of the users' entry counts. */
  function EntryCount(me: seq<User>): nat {
    if me == [] then 0
    else (match me[0].userBooks case None => 0 case Some(entries) => |entries|) + EntryCount(me[1..])
  }

  lemma ExtractCountsEntries(me: seq<User>)
    requires AllListed(me)
    ensures ExtractBooks(me).Some? && |ExtractBooks(me).value| == EntryCount(me)
  {
    ExtractIsEntryBooks(me);
    EntriesCounted(me);
  }

  lemma {:induction false} EntriesCounted(me: seq<User>)
    ensures |AllEntries(me)| == EntryCount(me)
  {
    if me != [] {
      EntriesCounted(me[1..]);
    }
  }

  // ---------------------------------------------------------------------------
  // Selection and image collapse
  // ---------------------------------------------------------------------------

  /** `Math.floor(r * n)` with `r` the value `Math.random()` returned. */
  function PickIndex(r: real, n: nat): (k: nat)
    requires 0.0 <= r < 1.0 && n > 0
    ensures k < n
  {
    assert 0.0 <= r * n as real < n as real by {
      assert r * n as real <= 1.0 * n as real;
      assert (1.0 - r) * n as real > 0.0;
    }
    (r * n as real).Floor
  }

  /** Every index can be drawn: `r = k / n` draws `k`. */
  lemma PickIndexReaches(k: nat, n: nat)
    requires k < n
    ensures 0.0 <= k as real / n as real < 1.0
    ensures PickIndex(k as real / n as real, n) == k
  {
  }

  /** `image && image.url`: the image is an object whose url is a non-empty string. */
  predicate HasUrl(image: Image) {
    image.ImageObject? && image.url.Some? && image.url.value != ""
  }

  /** Lines 73-75: an image object with a truthy url becomes the bare url; anything else is kept. */
  function CollapseImage(b: Book): (c: Book)
    ensures HasUrl(b.image) ==> c.image == ImageUrl(b.image.url.value)
    ensures !HasUrl(b.image) ==> c == b
    ensures c.(image := b.image) == b
    ensures !HasUrl(c.image)
  {
    if HasUrl(b.image) then b.(image := ImageUrl(b.image.url.value)) else b
  }

  lemma CollapseIdempotent(b: Book)
    ensures CollapseImage(CollapseImage(b)) == CollapseImage(b)
  {
  }

  // ---------------------------------------------------------------------------
  // The handler
  // ---------------------------------------------------------------------------

  /** Lines 53-86, from the awaited upstream result and the random draw to the response. */
  function Handle(upstream: Upstream, r: real): (res: Response)
    requires 0.0 <= r < 1.0
    ensures res.status in {200, 400, 404, 500}
    ensures res.status == 200 <==> res.payload.Picked?
    ensures res.status == 400 <==> upstream.Decoded? && upstream.body.Some? && upstream.body.value.errors.Some?
    ensures res.status == 400 ==> res.payload == UpstreamErrors(upstream.body.value.errors.value)
    ensures res.status == 404 ==> res.payload == Failure(NotFoundMessage)
    ensures res.status == 500 ==> res.payload == Failure(FailureMessage)
    ensures !upstream.Decoded? || upstream.body.None? ==> res.status == 500
    ensures res.payload.Picked? ==> res.payload.totalBooks > 0 && !HasUrl(res.payload.book.image)
  {
    match upstream
    case Unreachable => Response(500, Failure(FailureMessage))
    case Malformed => Response(500, Failure(FailureMessage))
    case Decoded(None) => Response(500, Failure(FailureMessage))
    case Decoded(Some(body)) =>
      if body.errors.Some? then Response(400, UpstreamErrors(body.errors.value))
      else
        match ExtractBooks(MeOrEmpty(body.data))
        case None => Response(500, Failure(FailureMessage))
        case Some(books) =>
          if |books| == 0 then Response(404, Failure(NotFoundMessage))
          else
            match books[PickIndex(r, |books|)]
            case None => Response(500, Failure(FailureMessage))
            case Some(b) => Response(200, Picked(CollapseImage(b), |books|))
  }

  /** An `errors` field answers 400 whatever `data` holds, even an empty list of errors. */
  lemma ErrorsWinOverData(errors: seq<GraphQLError>, data: Option<Data>, r: real)
    requires 0.0 <= r < 1.0
    ensures Handle(Decoded(Some(Body(Some(errors), data))), r) == Response(400, UpstreamErrors(errors))
  {
  }

  /** No `data`, no `me` or an empty `me` is an empty shelf, not an error. */
  lemma MissingMeIsNotFound(data: Option<Data>, r: real)
    requires 0.0 <= r < 1.0
    requires data.None? || data.value.me.None? || data.value.me.value == []
    ensures Handle(Decoded(Some(Body(None, data))), r) == Response(404, Failure(NotFoundMessage))
  {
  }

  /** A shelf whose users list no entries at all gives 404. */
  lemma EmptyShelfIsNotFound(body: Body, r: real)
    requires 0.0 <= r < 1.0
    requires body.errors.None?
    requires AllListed(MeOrEmpty(body.data)) && AllEntries(MeOrEmpty(body.data)) == []
    ensures Handle(Decoded(Some(body)), r) == Response(404, Failure(NotFoundMessage))
  {
    ExtractIsEntryBooks(MeOrEmpty(body.data));
  }

  /** A user without `user_books` makes the handler throw: 500. */
  lemma UnlistedUserFails(body: Body, r: real)
    requires 0.0 <= r < 1.0
    requires body.errors.None?
    requires !AllListed(MeOrEmpty(body.data))
    ensures Handle(Decoded(Some(body)), r) == Response(500, Failure(FailureMessage))
  {
    ExtractIsEntryBooks(MeOrEmpty(body.data));
  }

  /**
   * When every user lists its entries and the drawn entry has a book, the
   * response is 200, counts every entry, and carries the entry at index
   * `floor(r * n)` with its image collapsed.
   */
  lemma PicksEntryAtIndex(body: Body, r: real)
    requires 0.0 <= r < 1.0
    requires body.errors.None?
    requires AllListed(MeOrEmpty(body.data)) && AllEntries(MeOrEmpty(body.data)) != []
    requires var entries := AllEntries(MeOrEmpty(body.data));
      entries[PickIndex(r, |entries|)].book.Some?
    ensures var entries := AllEntries(MeOrEmpty(body.data));
      var n := |entries|;
      Handle(Decoded(Some(body)), r) == Response(200, Picked(CollapseImage(entries[PickIndex(r, n)].book.value), n))
  {
    ExtractIsEntryBooks(MeOrEmpty(body.data));
  }

  /** An entry whose `book` is null fails the request only when it is the one drawn. */
  lemma NullBookFailsWhenPicked(body: Body, r: real)
    requires 0.0 <= r < 1.0
    requires body.errors.None?
    requires AllListed(MeOrEmpty(body.data)) && AllEntries(MeOrEmpty(body.data)) != []
    requires var entries := AllEntries(MeOrEmpty(body.data));
      entries[PickIndex(r, |entries|)].book.None?
    ensures Handle(Decoded(Some(body)), r) == Response(500, Failure(FailureMessage))
  {
    ExtractIsEntryBooks(MeOrEmpty(body.data));
  }

  /** Every entry that has a book is the answer for some draw. */
  lemma EveryEntryCanBePicked(body: Body, k: nat)
    requires body.errors.None?
    requires AllListed(MeOrEmpty(body.data)) && k < |AllEntries(MeOrEmpty(body.data))|
    requires AllEntries(MeOrEmpty(body.data))[k].book.Some?
    ensures var entries := AllEntries(MeOrEmpty(body.data));
      var n := |entries|;
      var r := k as real / n as real;
      0.0 <= r < 1.0 &&
      Handle(Decoded(Some(body)), r) == Response(200, Picked(CollapseImage(entries[k].book.value), n))
  {
    var n := |AllEntries(MeOrEmpty(body.data))|;
    PickIndexReaches(k, n);
    PicksEntryAtIndex(body, k as real / n as real);
  }
}
