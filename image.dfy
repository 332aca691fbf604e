/**
 * The book-image screen: a paginated list of images, a create/edit modal over one
 * draft image, and bulk delete over the checked rows.
 */
module ImageScreen {
  import opened Common
  import opened Http
  import opened Pagination
  import opened Selection
  import opened Books

  datatype BookImage = BookImage(
    imageId: int, bookId: int,
    baseUrl: string, smallUrl: string, mediumUrl: string, largeUrl: string, thumbnailUrl: string,
    isGallery: bool, book: Book)

  /** Request bodies: the create body has no ImageId, the update body adds it. */
  datatype ImageBody =
    | CreateImage(BookId: int, BaseUrl: string, SmallUrl: string, MediumUrl: string,
                  LargeUrl: string, ThumbnailUrl: string, IsGallery: bool)
    | UpdateImage(ImageId: int, BookId: int, BaseUrl: string, SmallUrl: string, MediumUrl: string,
                  LargeUrl: string, ThumbnailUrl: string, IsGallery: bool)

  const Resource: string := "BookImage"
  const CreatePath: string := "/BookImage/create"
  const UpdatePath: string := "/BookImage/Update"

  /** The zero-valued template the "add" button opens the modal with. */
  const BlankImage: BookImage := BookImage(0, 0, "", "", "", "", "", false, Book(0, "", ""))

  function CreateBody(d: BookImage): ImageBody
  {
    CreateImage(d.bookId, d.baseUrl, d.smallUrl, d.mediumUrl, d.largeUrl, d.thumbnailUrl, d.isGallery)
  }

  function UpdateBody(d: BookImage): ImageBody
  {
    UpdateImage(d.imageId, d.bookId, d.baseUrl, d.smallUrl, d.mediumUrl, d.largeUrl, d.thumbnailUrl, d.isGallery)
  }

  /** The draft a body describes; `imageId` fills in the identity a create body lacks. */
  function DraftOf(body: ImageBody, imageId: int, book: Book): BookImage
  {
    match body
    case CreateImage(b, u0, u1, u2, u3, u4, g) => BookImage(imageId, b, u0, u1, u2, u3, u4, g, book)
    case UpdateImage(i, b, u0, u1, u2, u3, u4, g) => BookImage(i, b, u0, u1, u2, u3, u4, g, book)
  }

  /**
   * The bodies carry the draft's fields verbatim: the update body gives back the whole
   * draft except the nested book snapshot, the create body everything except that and
   * the identity, and the two bodies agree on every field they share.
   */
  lemma BodiesCopyDraft(d: BookImage)
    ensures DraftOf(UpdateBody(d), 0, d.book) == d
    ensures DraftOf(CreateBody(d), d.imageId, d.book) == d
    ensures UpdateBody(d).ImageId == d.imageId
    ensures DraftOf(UpdateBody(d), 0, d.book) == DraftOf(CreateBody(d), d.imageId, d.book)
  {
  }

  /** The id a row's checkbox stands for. */
  function ImageId(image: BookImage): int { image.imageId }

  class BookImageScreen {
    const list: Listing<BookImage>
    var selectedIds: seq<int>
    var selectAll: bool
    var draft: Option<BookImage>
    var modalOpen: bool
    var books: seq<Book>

    constructor ()
      ensures fresh(list) && list.resource == Resource
      ensures list.page == 0 && list.totalPages == 0 && list.pageInput == 0
      ensures list.items == [] && list.keyword == ""
      ensures selectedIds == [] && !selectAll && draft == None && !modalOpen && books == []
    {
      list := new Listing(Resource);
      selectedIds, selectAll := [], false;
      draft, modalOpen, books := None, false, [];
    }

    /** Fetch the picker's book list; only an array reply replaces it. */
    method FetchBooks(reply: BooksReply) returns (notice: Option<Notice>)
      modifies this`books
      ensures reply.BooksArray? ==> books == NormalizeAll(reply.books) && notice == None
      ensures reply.BooksMalformed? ==> books == old(books) && notice == Some(InvalidData)
      ensures reply.BooksRejected? ==> books == old(books) && notice == Some(LoadFailed)
    {
      match reply
      case BooksArray(raw) =>
        books := NormalizeAll(raw);
        notice := None;
      case BooksMalformed =>
        notice := Some(InvalidData);
      case BooksRejected =>
        notice := Some(LoadFailed);
    }

    method ResetForm()
      modifies this`draft, this`selectedIds, this`selectAll
      ensures draft == None && selectedIds == [] && !selectAll
    {
      draft := None;
      selectedIds := [];
      selectAll := false;
    }

    method PrepareAdd()
      modifies this`draft, this`modalOpen
      ensures draft == Some(BlankImage) && modalOpen
    {
      draft := Some(BlankImage);
      modalOpen := true;
    }

    method PrepareEdit(image: BookImage)
      modifies this`draft, this`modalOpen
      ensures draft == Some(image) && modalOpen
    {
      draft := Some(image);
      modalOpen := true;
    }

    method CloseModal()
      modifies this`modalOpen
      ensures !modalOpen
    {
      modalOpen := false;
    }

    /** Post the draft as a new image; a truthy reply closes the modal and resets the form. */
    method Add(reply: Reply) returns (effects: seq<Effect<ImageBody>>)
      modifies this`draft, this`selectedIds, this`selectAll, this`modalOpen
      ensures old(draft).None? ==> effects == [] && unchanged(this)
      ensures old(draft).Some? ==>
        effects == [Send(Post(CreatePath, CreateBody(old(draft).value)))] + MutationOutcome(reply, Added, AddFailed)
      ensures old(draft).Some? && Truthy(reply) ==> draft == None && selectedIds == [] && !selectAll && !modalOpen
      ensures !Truthy(reply) ==> unchanged(this)
    {
      if draft.None? {
        return [];
      }
      effects := [Send(Post(CreatePath, CreateBody(draft.value)))] + MutationOutcome(reply, Added, AddFailed);
      if Truthy(reply) {
        modalOpen := false;
        ResetForm();
      }
    }

    /** Put the draft as an update; refused without a draft or with a non-positive id. */
    method Update(reply: Reply) returns (effects: seq<Effect<ImageBody>>)
      modifies this`draft, this`selectedIds, this`selectAll, this`modalOpen
      ensures (old(draft).None? || old(draft).value.imageId <= 0) ==> effects == [] && unchanged(this)
      ensures old(draft).Some? && old(draft).value.imageId > 0 ==>
        effects == [Send(Put(UpdatePath, UpdateBody(old(draft).value)))] + MutationOutcome(reply, Updated, UpdateFailed)
      ensures old(draft).Some? && old(draft).value.imageId > 0 && Truthy(reply) ==>
        draft == None && selectedIds == [] && !selectAll && !modalOpen
      ensures !Truthy(reply) ==> unchanged(this)
    {
      if draft.None? || draft.value.imageId <= 0 {
        return [];
      }
      effects := [Send(Put(UpdatePath, UpdateBody(draft.value)))] + MutationOutcome(reply, Updated, UpdateFailed);
      if Truthy(reply) {
        modalOpen := false;
        ResetForm();
      }
    }

    /** Submit the modal: nothing without a draft, update for a positive id, create otherwise. */
    method Submit(reply: Reply) returns (effects: seq<Effect<ImageBody>>)
      modifies this`draft, this`selectedIds, this`selectAll, this`modalOpen
      ensures old(draft).None? ==> effects == [] && unchanged(this)
      ensures old(draft).Some? && old(draft).value.imageId > 0 ==>
        effects == [Send(Put(UpdatePath, UpdateBody(old(draft).value)))] + MutationOutcome(reply, Updated, UpdateFailed)
      ensures old(draft).Some? && old(draft).value.imageId <= 0 ==>
        effects == [Send(Post(CreatePath, CreateBody(old(draft).value)))] + MutationOutcome(reply, Added, AddFailed)
      ensures old(draft).Some? && Truthy(reply) ==> draft == None && selectedIds == [] && !selectAll && !modalOpen
      ensures !Truthy(reply) ==> unchanged(this)
    {
      if draft.None? {
        return [];
      }
      if draft.value.imageId > 0 {
        effects := Update(reply);
      } else {
        effects := Add(reply);
      }
    }

    /**
     * Bulk delete: an empty selection only raises a notice; an unconfirmed one does
     * nothing; otherwise the ids go out as a JSON array, and any truthy reply resets
     * the form whatever the server's verdict.
     */
    method Delete(confirmed: bool, reply: Reply) returns (effects: seq<Effect<ImageBody>>)
      modifies this`draft, this`selectedIds, this`selectAll
      ensures old(selectedIds) == [] ==> effects == [Notify(SelectAtLeastOne)] && unchanged(this)
      ensures old(selectedIds) != [] && !confirmed ==> effects == [] && unchanged(this)
      ensures old(selectedIds) != [] && confirmed ==>
        effects == [Send(Http.Delete(DeleteUrl(Resource, old(selectedIds))))]
                   + DeleteOutcome(reply, |old(selectedIds)|)
      ensures old(selectedIds) != [] && confirmed && Truthy(reply) ==>
        draft == None && selectedIds == [] && !selectAll
      ensures !Truthy(reply) ==> unchanged(this)
    {
      if |selectedIds| == 0 {
        return [Notify(SelectAtLeastOne)];
      }
      if !confirmed {
        return [];
      }
      effects := [Send(Http.Delete(DeleteUrl(Resource, selectedIds)))] + DeleteOutcome(reply, |selectedIds|);
      if Truthy(reply) {
        ResetForm();
      }
    }

    /** The header checkbox. */
    method SelectAll()
      modifies this`selectedIds, this`selectAll
      ensures selectedIds == SelectAllIds(old(selectAll), Ids(list.items, ImageId))
      ensures selectAll == !old(selectAll)
      ensures selectAll ==> selectedIds == Ids(list.items, ImageId)
      ensures !selectAll ==> selectedIds == []
    {
      if selectAll {
        selectedIds := [];
      } else {
        selectedIds := Ids(list.items, ImageId);
      }
      selectAll := !selectAll;
    }

    /** A row checkbox. */
    method CheckboxChange(id: int)
      modifies this`selectedIds
      ensures selectedIds == Toggle(old(selectedIds), id)
    {
      if id in selectedIds {
        selectedIds := Without(selectedIds, id);
      } else {
        selectedIds := selectedIds + [id];
      }
    }
  }
}
