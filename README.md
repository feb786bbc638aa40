# Hardcover Randomizer, modelled in Dafny

Hardcover Randomizer picks a random book from a reader's "Want to Read"
shelf on the Hardcover cataloguing service. It has two halves:

- a backend endpoint, `GET /api/random-book` (api/random-book.js). It
  queries Hardcover's GraphQL API, flattens the per-user shelf entries into
  one list of books, draws one with `Math.random()`, collapses its cover
  `image` object to a bare url and answers 200, 400, 404 or 500;
- a browser content script (extension/content.js). It injects a "Pick
  Random Book" button into the Hardcover page, calls the endpoint, and
  renders the result card or an error message.

This project models both halves from the point where the upstream body has
been decoded:

- `decimal.dfy`, module `Decimal`: how a template literal prints an integer
  (used for the book id, page count, year and shelf size), with a parse-back
  round trip.
- `random_book.dfy`, module `RandomBookApi`: the handler as pure functions
  over a datatype of the decoded upstream body. `Math.random()` is a
  parameter `r`, an exact real in [0, 1). Thrown exceptions are the 500
  outcome.
- `content.dfy`, module `ContentScript`: the card's text as functions,
  the client's outcome decision, and a `Page` class holding the button and
  result-box state that `addRandomizerButton` and `getRandomBook` update.
- `wrappers.dfy`, module `Wrappers`: `Option`, standing for JSON `null` or a
  missing field.

Where the intended design of the service and the code disagree, the model
follows the code:

- An image object whose `url` is null or empty is not collapsed (line 73
  tests `image.url` for truthiness). The client then prints it as
  `[object Object]`. The intended design always reduces the image to a bare
  URI.
- Extraction can fail. A user without `user_books` makes `flatMap` keep an
  `undefined` item, and `entry.book` then throws. A drawn entry whose `book`
  is null makes `randomBook.image` throw. Both give 500. In the intended
  design, extraction has no failure path.
- Any truthy `errors` field gives 400, including an empty list.

## Model

| member | source | states |
|---|---|---|
| `RandomBookApi.Handle` | api/random-book.js:53-86 | Every outcome is 200, 400, 404 or 500. 400 happens exactly when the decoded body has an `errors` field, and echoes it. 404 carries "No books found in Want to Read shelf". 500 carries "Failed to fetch random book" and covers a transport failure, an undecodable body and a null body. A 200 payload is a pick with a positive count, and its image is never an object with a url. |
| `RandomBookApi.ErrorsWinOverData` | api/random-book.js:55-58 | With an `errors` field the answer is 400 with that list, whatever `data` holds. |
| `RandomBookApi.MissingMeIsNotFound` | api/random-book.js:60-69 | A missing `data`, a missing `me` or an empty `me` yields 404, not an error. |
| `RandomBookApi.MapBooks` | api/random-book.js:65 | Mapping to `.book` succeeds exactly when no item is undefined. It then keeps the length and maps item j to its `book`. |
| `RandomBookApi.AllEntriesAppend` | api/random-book.js:62 | The entries of a concatenation of user lists are the concatenation of their entries, so users contribute in order. |
| `RandomBookApi.FlatMapListed` | api/random-book.js:62 | When every user has `user_books`, `flatMap` yields exactly the entries, user after user. |
| `RandomBookApi.FlatMapUnlisted` | api/random-book.js:62 | A user without `user_books` puts an undefined item into the flattened list. |
| `RandomBookApi.ExtractIsEntryBooks` | api/random-book.js:62-65 | Extraction succeeds exactly when every user lists its entries. Book j is then entry j's `book`, with one book per entry and no filtering by status. |
| `RandomBookApi.ExtractCountsEntries` | api/random-book.js:62-65 | The number of extracted books is the sum of the users' entry counts. |
| `RandomBookApi.EntriesCounted` | api/random-book.js:62 | The concatenated entries number the sum of the per-user counts. |
| `RandomBookApi.EmptyShelfIsNotFound` | api/random-book.js:67-69 | Users that list no entries at all give 404 with the fixed message. |
| `RandomBookApi.UnlistedUserFails` | api/random-book.js:62-65 | A user without `user_books` makes the handler answer 500. |
| `RandomBookApi.PickIndex` | api/random-book.js:72 | `floor(r * n)` lies in [0, n) for every r in [0, 1) and n > 0. |
| `RandomBookApi.PickIndexReaches` | api/random-book.js:72 | Every index k < n is drawn by r = k / n, which lies in [0, 1). |
| `RandomBookApi.PicksEntryAtIndex` | api/random-book.js:71-81 | On a listed, non-empty shelf whose drawn entry has a book, the answer is 200. `totalBooks` is the number of entries and `book` is entry `floor(r * n)` with its image collapsed. |
| `RandomBookApi.NullBookFailsWhenPicked` | api/random-book.js:72-74 | A null `book` gives 500 when it is the drawn entry. |
| `RandomBookApi.EveryEntryCanBePicked` | api/random-book.js:72-81 | Every entry that has a book is the 200 answer for some draw. |
| `RandomBookApi.CollapseImage` | api/random-book.js:73-75 | An image object with a non-empty url becomes that bare url. Any other image is left as it was, and no other field changes. |
| `RandomBookApi.CollapseIdempotent` | api/random-book.js:73-75 | Collapsing twice is the same as collapsing once. |
| `ContentScript.JoinAppend` | extension/content.js:74 | Joining a concatenation gives the two joins around one separator, so names keep their order. |
| `ContentScript.JoinEmpty` | extension/content.js:74 | With a non-empty separator, a join is empty exactly for no parts or one empty part. |
| `ContentScript.AuthorsText` | extension/content.js:74 | The author line is never empty, and it is "Unknown Author" when `contributions` is absent. |
| `ContentScript.AuthorsFallback` | extension/content.js:74 | The author line is the names joined with ", ". It falls back to "Unknown Author" exactly when there are no contributions, or one whose name is empty or null. |
| `ContentScript.AuthorsInOrder` | extension/content.js:74 | Authors appear in contribution order, separated by ", ". |
| `ContentScript.ShortDescription` | extension/content.js:86 | A description of at most 200 characters is shown unchanged. A longer one is shown as its first 200 characters followed by "...", so at most 203 characters are shown. |
| `ContentScript.ShortDescriptionIdempotent` | extension/content.js:86 | Shortening a shortened description changes nothing. |
| `ContentScript.ViewLinkRoundTrip` | extension/content.js:87 | The link is "https://hardcover.app/books/" followed by the id's digits, and reading those digits back gives the id. |
| `ContentScript.RenderCard` | extension/content.js:74-88 | The card shows the shelf size as printed by `${totalBooks}`, the cover section, the title, and the author line (never empty). Pages print as the number followed by " pages", and the year as the number. The description is shortened to at most 203 characters. The link is "https://hardcover.app/books/" followed by the id, and it reads back to that id. The cover, pages, year and description sections appear exactly when their field is truthy, so 0 pages and an empty description drop their sections. |
| `ContentScript.CollapsedCoverIsUrl` | extension/content.js:81 | A cover object with a usable url reaches the card as that url. |
| `ContentScript.UncollapsedCoverIsObjectText` | extension/content.js:81 | A cover object whose url is null or empty prints as "[object Object]". |
| `ContentScript.Decide` | extension/content.js:53-60 | The card is shown exactly when `success && book` holds. Any other reply shows "No books found in your Want to Read shelf!". A failed fetch or decode shows the connection-failure message. |
| `ContentScript.CardExactlyOnSuccess` | extension/content.js:53-57 | Combined with the handler: the script shows a card exactly when the backend answered 200, with the book and count it sent. Every 400, 404 and 500 reply shows the "no books" message. |
| `ContentScript.Page.AddRandomizerButton` | extension/content.js:5-34 | When the button exists nothing changes. Otherwise the button is added, enabled, labelled "Pick Random Book", and the result box is hidden and empty. |
| `ContentScript.Page.OnMutation` | extension/content.js:117-121 | The observer re-adds the button only when it is missing, and the button is present afterwards. |
| `ContentScript.Page.BeginRequest` | extension/content.js:38-46 | Without the button nothing changes. Otherwise the button is disabled, reads "Loading...", and the result box is hidden. |
| `ContentScript.Page.FinishRequest` | extension/content.js:48-64 | The result box shows the decided view, and the button is enabled again with its label restored. |
| `ContentScript.Page.GetRandomBook` | extension/content.js:37-65 | On both the success and failure paths the button ends enabled with "Pick Random Book". The result box is visible and shows the decided view. |
| `Decimal.NatText` | extension/content.js:87 | A non-negative integer prints as a non-empty run of digits with no leading zero. |
| `Decimal.NatTextRoundTrip` | extension/content.js:87 | Reading the printed digits back gives the number. |
| `Decimal.IntText` | extension/content.js:84-85 | A non-negative integer prints as its plain digits. A negative one prints as "-" followed by the digits of its magnitude, and only negatives start with "-". |
| `Decimal.IntTextRoundTrip` | extension/content.js:84-85 | The printed text is digits or "-" and digits, and reading it back with its sign gives the integer. |
| `Decimal.IntTextInjective` | extension/content.js:84-85 | Distinct integers print differently. |

## Left out

- The outbound `fetch`, its headers and bearer token, and `response.json()`. These are network and JSON I/O. Their results are the `Upstream` and `Fetched` datatypes: a failure, or a decoded value.
- The GraphQL query text. Filtering by `status_id` happens upstream, so the model takes the returned entries as they come.
- Express setup, CORS, dotenv, `app.listen` and the port and URL defaults. These are server plumbing.
- `Math.random()` and any claim of a uniform draw. The draw is an exact real, so the floating-point rounding of `r * n` is not modelled.
- RandomBookApi.CollapseImage: the source changes the `image` field of the object inside the extracted array. The model returns an updated copy. The array is discarded after the response, so no later step observes the difference.
- DOM construction, `innerHTML` markup, HTML escaping, `classList` and the `MutationObserver` and `DOMContentLoaded` registration. A `Card` keeps only the interpolated values.
- ContentScript.Page: the button and the result box are one flag, because they are added together. A host page that removes only one of them is not modelled. Neither is a click on the disabled button, nor two requests in flight at once.
- `console.log` and `console.error`. They have no effect on any output.
- JSON values of unexpected shape are outside the decoded types. Examples: a non-array truthy `errors`, a non-array `me` or `user_books`, a null user, a null `author`, a non-string description, fractional or NaN page counts, a non-boolean `success`, and a JSON `null` reply reaching the content script.
- ContentScript.ShortDescription counts Unicode characters. JavaScript's `substring` counts UTF-16 code units, so the two differ on text containing characters outside the Basic Multilingual Plane.
- ContentScript.CountText: `None` stands for a missing (undefined) `totalBooks`, which prints "undefined". A JSON `null` count would print "null"; the backend never sends one.
- ContentScript.Page.GetRandomBook: the request is two steps with no host change between them. The host page may remove the container during the awaited fetch, and the observer may then add a fresh button. The `finally` block would then restore the detached old button, and `displayBook` would look up the result box again by id. None of this is modelled.
- Decimal.NatText always prints plain digits. JavaScript switches to exponent notation from 1e21, and loses precision beyond 2^53. Neither affects real book ids, page counts or years.
