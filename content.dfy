/**
 * The content script of extension/content.js: the text the result card
 * shows (`displayBook`), the choice between the card and the two error
 * messages (`getRandomBook`), and the state of the injected button.
 *
 * HTML markup, element creation and styling are not modelled; a `Card`
 * holds only the values the card's template interpolates, and a section the
 * template drops is `None`.
 */
module ContentScript {
  import opened Wrappers
  import opened Decimal
  import opened RandomBookApi

  const PickLabel: string := "\U{1F3B2} Pick Random Book"
  const LoadingLabel: string := "\U{1F3B2} Loading..."
  const NoBooksMessage: string := "No books found in your Want to Read shelf!"
  const ConnectionMessage: string := "Failed to connect to randomizer service. Make sure the backend is running!"
  const UnknownAuthor: string := "Unknown Author"
  const AuthorSeparator: string := ", "
  const BookUrlPrefix: string := "https://hardcover.app/books/"
  const DescriptionLimit: nat := 200
  const Ellipsis: string := "..."
  /** What a template literal prints for a plain object. */
  const ObjectText: string := "[object Object]"

  // ---------------------------------------------------------------------------
  // Authors: `book.contributions?.map(c => c.author.name).join(', ') || 'Unknown Author'`
  // ---------------------------------------------------------------------------

  /** `parts.join(sep)`. */
  function Join(parts: seq<string>, sep: string): string {
    if parts == [] then ""
    else if |parts| == 1 then parts[0]
    else parts[0] + sep + Join(parts[1..], sep)
  }

  /** Joining keeps the order of the parts: a join of a concatenation is the two joins around one separator. */
  lemma {:induction false} JoinAppend(a: seq<string>, b: seq<string>, sep: string)
    requires a != [] && b != []
    ensures Join(a + b, sep) == Join(a, sep) + sep + Join(b, sep)
  {
    assert (a + b)[0] == a[0];
    if |a| == 1 {
      assert (a + b)[1..] == b;
    } else {
      assert (a + b)[1..] == a[1..] + b;
      JoinAppend(a[1..], b, sep);
    }
  }

  /** With a non-empty separator the join is empty only for no parts or one empty part. */
  lemma JoinEmpty(parts: seq<string>, sep: string)
    requires sep != ""
    ensures Join(parts, sep) == "" <==> |parts| == 0 || (|parts| == 1 && parts[0] == "")
  {
  }

  /** `join` prints a null name as the empty string. */
  function NameText(name: Option<string>): string {
    match name case None => "" case Some(s) => s
  }

  function AuthorNames(contributions: seq<Contribution>): (names: seq<string>)
    ensures |names| == |contributions|
  {
    seq(|contributions|, i requires 0 <= i < |contributions| => NameText(contributions[i].authorName))
  }

  /** Line 74. */
  function AuthorsText(contributions: Option<seq<Contribution>>): (s: string)
    ensures s != ""
    ensures contributions.None? ==> s == UnknownAuthor
  {
    match contributions
    case None => UnknownAuthor
    case Some(cs) =>
      var joined := Join(AuthorNames(cs), AuthorSeparator);
      if joined == "" then UnknownAuthor else joined
  }

  /**
   * The author line is the names joined with ", ", and falls back to
   * "Unknown Author" exactly when there are no contributions or a single
   * one whose name is empty or null.
   */
  lemma AuthorsFallback(cs: seq<Contribution>)
    ensures AuthorsText(Some(cs)) ==
      if |cs| == 0 || (|cs| == 1 && NameText(cs[0].authorName) == "") then UnknownAuthor
      else Join(AuthorNames(cs), AuthorSeparator)
  {
  }

  /** Authors appear in contribution order. */
  lemma AuthorsInOrder(a: seq<Contribution>, b: seq<Contribution>)
    requires a != [] && b != []
    ensures AuthorsText(Some(a + b)) ==
      Join(AuthorNames(a), AuthorSeparator) + AuthorSeparator + Join(AuthorNames(b), AuthorSeparator)
  {
    assert AuthorNames(a + b) == AuthorNames(a) + AuthorNames(b);
    JoinAppend(AuthorNames(a), AuthorNames(b), AuthorSeparator);
  }

  // ---------------------------------------------------------------------------
  // Description, numbers, cover, link
  // ---------------------------------------------------------------------------

  /** `s.substring(0, n)`: the end index is clamped to the length. */
  function Substring(s: string, n: nat): string {
    if |s| <= n then s else s[..n]
  }

  /** Line 86: the first 200 characters, followed by "..." when the text is longer. */
  function ShortDescription(d: string): (s: string)
    ensures |d| <= DescriptionLimit ==> s == d
    ensures |d| > DescriptionLimit ==> s == d[..DescriptionLimit] + Ellipsis
    ensures |s| <= DescriptionLimit + |Ellipsis|
  {
    Substring(d, DescriptionLimit) + (if |d| > DescriptionLimit then Ellipsis else "")
  }

  /** Shortening an already shortened description changes nothing. */
  lemma ShortDescriptionIdempotent(d: string)
    ensures ShortDescription(ShortDescription(d)) == ShortDescription(d)
  {
  }

  /** `book.description ? ... : ''`: null and the empty string drop the section. */
  function DescriptionSection(description: Option<string>): Option<string> {
    match description
    case None => None
    case Some(d) => if d == "" then None else Some(ShortDescription(d))
  }

  /** `n ? `${n}${suffix}` : ''`: null and 0 drop the section. */
  function NumberSection(n: Option<int>, suffix: string): Option<string> {
    match n
    case None => None
    case Some(v) => if v == 0 then None else Some(IntText(v) + suffix)
  }

  /** `book.image ? <img src="${book.image}"> : ''`. */
  function CoverSection(image: Image): Option<string> {
    match image
    case NoImage => None
    case ImageUrl(src) => if src == "" then None else Some(src)
    case ImageObject(_) => Some(ObjectText)
  }

  /** `${totalBooks}`; a missing (undefined) count prints as "undefined". */
  function CountText(totalBooks: Option<int>): string {
    match totalBooks case None => "undefined" case Some(n) => IntText(n)
  }

  /** Line 87. */
  function ViewLink(id: nat): string {
    BookUrlPrefix + NatText(id)
  }

  /** Reads the book id back out of a view link; `None` for any other text. */
  function LinkId(link: string): Option<nat> {
    if |link| > |BookUrlPrefix| && link[..|BookUrlPrefix|] == BookUrlPrefix && IsDigits(link[|BookUrlPrefix|..])
    then Some(DigitsValue(link[|BookUrlPrefix|..]))
    else None
  }

  /** The link names the book it was built from, so distinct books get distinct links. */
  lemma ViewLinkRoundTrip(id: nat)
    ensures LinkId(ViewLink(id)) == Some(id)
  {
    var link := ViewLink(id);
    assert link[..|BookUrlPrefix|] == BookUrlPrefix;
    assert link[|BookUrlPrefix|..] == NatText(id);
    NatTextRoundTrip(id);
  }

  // ---------------------------------------------------------------------------
  // The card
  // ---------------------------------------------------------------------------

  /** The values `displayBook` interpolates into the card; `None` for a dropped section. */
  datatype Card = Card(
    count: string,
    cover: Option<string>,
    title: string,
    authors: string,
    pages: Option<string>,
    year: Option<string>,
    description: Option<string>,
    link: string)

  /** Lines 74-88. */
  function RenderCard(book: Book, totalBooks: Option<int>): (c: Card)
    ensures c.cover.Some? <==> book.image.ImageObject? || (book.image.ImageUrl? && book.image.src != "")
    ensures c.pages.Some? <==> book.pages.Some? && book.pages.value != 0
    ensures c.year.Some? <==> book.releaseYear.Some? && book.releaseYear.value != 0
    ensures c.description.Some? <==> book.description.Some? && book.description.value != ""
    ensures c.description.Some? ==> |c.description.value| <= DescriptionLimit + |Ellipsis|
    ensures c.count == CountText(totalBooks)
    ensures c.cover == CoverSection(book.image)
    ensures c.title == book.title
    ensures c.authors == AuthorsText(book.contributions) && c.authors != ""
    ensures c.pages.Some? ==> c.pages.value == IntText(book.pages.value) + " pages"
    ensures c.year.Some? ==> c.year.value == IntText(book.releaseYear.value)
    ensures c.description.Some? ==> c.description.value == ShortDescription(book.description.value)
    ensures c.link == ViewLink(book.id) && LinkId(c.link) == Some(book.id)
  {
    ViewLinkRoundTrip(book.id);
    Card(
      CountText(totalBooks),
      CoverSection(book.image),
      book.title,
      AuthorsText(book.contributions),
      NumberSection(book.pages, " pages"),
      NumberSection(book.releaseYear, ""),
      DescriptionSection(book.description),
      ViewLink(book.id))
  }

  // ---------------------------------------------------------------------------
  // The outcome of one request
  // ---------------------------------------------------------------------------

  /** The fields of the backend's JSON reply that the script reads. */
  datatype Reply = Reply(success: Option<bool>, book: Option<Book>, totalBooks: Option<int>)

  /** `await fetch(...)` then `await response.json()`. */
  datatype Fetched =
    | ConnectionFailed     // either promise rejected
    | Received(reply: Reply)

  /** What the result box displays. */
  datatype View = BookCard(card: Card) | ErrorNote(message: string)

  /** Lines 53-60. */
  function Decide(f: Fetched): (v: View)
    ensures v.BookCard? <==> f.Received? && f.reply.success == Some(true) && f.reply.book.Some?
    ensures v.BookCard? ==> v.card == RenderCard(f.reply.book.value, f.reply.totalBooks)
    ensures f.ConnectionFailed? ==> v == ErrorNote(ConnectionMessage)
    ensures f.Received? && !v.BookCard? ==> v == ErrorNote(NoBooksMessage)
  {
    match f
    case ConnectionFailed => ErrorNote(ConnectionMessage)
    case Received(reply) =>
      if reply.success == Some(true) && reply.book.Some? then BookCard(RenderCard(reply.book.value, reply.totalBooks))
      else ErrorNote(NoBooksMessage)
  }

  /** The backend's payload as the script decodes it: error bodies carry neither `success` nor `book`. */
  function AsReply(p: Payload): Reply {
    match p
    case Picked(book, totalBooks) => Reply(Some(true), Some(book), Some(totalBooks))
    case UpstreamErrors(_) => Reply(None, None, None)
    case Failure(_) => Reply(None, None, None)
  }

  /**
   * Across the two halves: the script shows a card exactly when the backend
   * answered 200, with the count and book the backend sent; every 400, 404
   * and 500 reply shows the same "no books" message.
   */
  lemma CardExactlyOnSuccess(upstream: Upstream, r: real)
    requires 0.0 <= r < 1.0
    ensures var res := Handle(upstream, r);
      var v := Decide(Received(AsReply(res.payload)));
      (v.BookCard? <==> res.status == 200) &&
      (v.BookCard? ==> v.card == RenderCard(res.payload.book, Some(res.payload.totalBooks)) &&
                       v.card.count == NatText(res.payload.totalBooks)) &&
      (!v.BookCard? ==> v == ErrorNote(NoBooksMessage))
  {
  }

  /** A cover object with a usable url reaches the card as that url. */
  lemma CollapsedCoverIsUrl(b: Book, totalBooks: Option<int>)
    requires HasUrl(b.image)
    ensures RenderCard(CollapseImage(b), totalBooks).cover == Some(b.image.url.value)
  {
  }

  /** A cover object whose url is null or empty is not collapsed and prints as "[object Object]". */
  lemma UncollapsedCoverIsObjectText(b: Book, totalBooks: Option<int>)
    requires b.image.ImageObject? && !HasUrl(b.image)
    ensures RenderCard(CollapseImage(b), totalBooks).cover == Some(ObjectText)
  {
  }

  // ---------------------------------------------------------------------------
  // The page: the injected button and the result box
  // ---------------------------------------------------------------------------

  class Page {
    /** The container with the button and the result box is in the document. */
    var injected: bool
    /** `button.disabled`. */
    var disabled: bool
    /** `button.innerHTML`. */
    var caption: string
    /** The result box carries the `hidden` class. */
    var hidden: bool
    /** What the result box displays, if anything yet. */
    var shown: Option<View>

    /** The button is disabled exactly while it reads "Loading...". */
    ghost predicate Valid()
      reads this
    {
      injected ==> (caption == PickLabel || caption == LoadingLabel) && (disabled <==> caption == LoadingLabel)
    }

    /** A host page before the script has run. */
    constructor ()
      ensures Valid() && !injected && shown == None
    {
      injected := false;
      disabled := false;
      caption := "";
      hidden := true;
      shown := None;
    }

    /** Lines 5-34: does nothing when the button is already there. */
    method AddRandomizerButton()
      requires Valid()
      modifies this
      ensures Valid() && injected
      ensures old(injected) ==> unchanged(this)
      ensures !old(injected) ==> !disabled && caption == PickLabel && hidden && shown == None
    {
      if injected {
        return;
      }
      injected := true;
      disabled := false;
      caption := PickLabel;
      hidden := true;
      shown := None;
    }

    /** Lines 117-121: the observer puts the button back only when it is missing. */
    method OnMutation()
      requires Valid()
      modifies this
      ensures Valid() && injected
      ensures old(injected) ==> unchanged(this)
      ensures !old(injected) ==> !disabled && caption == PickLabel && hidden && shown == None
    {
      if !injected {
        AddRandomizerButton();
      }
    }

    /** Lines 38-46, up to the request: show the loading state. */
    method BeginRequest() returns (started: bool)
      requires Valid()
      modifies this
      ensures Valid()
      ensures started == old(injected)
      ensures !started ==> unchanged(this)
      ensures started ==> injected && disabled && caption == LoadingLabel && hidden && shown == old(shown)
    {
      if !injected {
        return false;
      }
      disabled := true;
      caption := LoadingLabel;
      hidden := true;
      return true;
    }

    /** Lines 50-64, once the request has settled: show the outcome, then restore the button. */
    method FinishRequest(f: Fetched)
      requires Valid() && injected
      modifies this
      ensures Valid() && injected
      ensures shown == Some(Decide(f)) && !hidden
      ensures !disabled && caption == PickLabel
    {
      shown := Some(Decide(f));
      hidden := false;
      disabled := false;
      caption := PickLabel;
    }

    /** Lines 37-65: whatever the outcome, the button ends enabled with its caption restored. */
    method GetRandomBook(f: Fetched)
      requires Valid()
      modifies this
      ensures Valid()
      ensures !old(injected) ==> unchanged(this)
      ensures old(injected) ==> injected && !disabled && caption == PickLabel && !hidden && shown == Some(Decide(f))
    {
      var started := BeginRequest();
      if started {
        FinishRequest(f);
      }
    }
  }
}
