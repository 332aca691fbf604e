/**
 * The book list the image and specification editors offer in their book picker,
 * normalised from whatever shape `/Book/getall` returns.
 */
module Books {
  import opened Common

  /** A book as the picker uses it. */
  datatype Book = Book(bookId: int, name: string, description: string)

  /** A book as the endpoint may return it: either naming scheme, any field missing. */
  datatype RawBook = RawBook(
    bookId: Option<int>, id: Option<int>,
    name: Option<string>, title: Option<string>,
    description: Option<string>)

  /** The settled value of the `/Book/getall` request. */
  datatype BooksReply = BooksRejected | BooksMalformed | BooksArray(books: seq<RawBook>)

  /** `bookId ?? id ?? 0`, `name ?? title ?? ""`, `description ?? ""`. */
  function Normalize(b: RawBook): Book
  {
    Book(Coalesce(b.bookId, Coalesce(b.id, 0)),
         Coalesce(b.name, Coalesce(b.title, "")),
         Coalesce(b.description, ""))
  }

  /** `res.map(normalise)`: one book per returned entry, in the returned order. */
  function NormalizeAll(raw: seq<RawBook>): (books: seq<Book>)
    ensures |books| == |raw|
    ensures forall i :: 0 <= i < |raw| ==> books[i] == Normalize(raw[i])
  {
    if raw == [] then [] else [Normalize(raw[0])] + NormalizeAll(raw[1..])
  }

  /**
   * Each field takes the first present value in its fallback chain: a present
   * `bookId` wins over `id`, a present `name` over `title`, and only when both are
   * missing do the defaults 0 and "" appear.
   */
  lemma NormalizeMeaning(b: RawBook)
    ensures b.bookId.Some? ==> Normalize(b).bookId == b.bookId.value
    ensures b.bookId.None? && b.id.Some? ==> Normalize(b).bookId == b.id.value
    ensures b.bookId.None? && b.id.None? ==> Normalize(b).bookId == 0
    ensures b.name.Some? ==> Normalize(b).name == b.name.value
    ensures b.name.None? && b.title.Some? ==> Normalize(b).name == b.title.value
    ensures b.name.None? && b.title.None? ==> Normalize(b).name == ""
    ensures Normalize(b).description == (if b.description.Some? then b.description.value else "")
  {
  }

  /** A record already in picker shape comes through unchanged. */
  lemma NormalizeKeepsCanonical(book: Book, id: Option<int>, title: Option<string>)
    ensures Normalize(RawBook(Some(book.bookId), id, Some(book.name), title, Some(book.description))) == book
  {
  }
}
