/**
 * The book-specification screen: a paginated list of specification rows, a
 * create/edit modal over one draft row, and bulk delete over the checked rows.
 */
module SpecificationScreen {
  import opened Common
  import opened Http
  import opened Pagination
  import opened Selection
  import opened Books

  datatype Specification = Specification(
    id: int, bookId: int, specCode: string, specName: string, specValue: string, book: Book)

  /** Request bodies: the create body has no Id, the update body adds it. */
  datatype SpecBody =
    | CreateSpec(BookId: int, SpecCode: string, SpecName: string, SpecValue: string)
    | UpdateSpec(Id: int, BookId: int, SpecCode: string, SpecName: string, SpecValue: string)

  const Resource: string := "BookSpecification"
  const CreatePath: string := "/BookSpecification/create"
  const UpdatePath: string := "/BookSpecification/Update"

  /** The zero-valued template the "add" button opens the modal with. */
  const BlankSpec: Specification := Specification(0, 0, "", "", "", Book(0, "", ""))

  function CreateBody(d: Specification): SpecBody
  {
    CreateSpec(d.bookId, d.specCode, d.specName, d.specValue)
  }

  function UpdateBody(d: Specification): SpecBody
  {
    UpdateSpec(d.id, d.bookId, d.specCode, d.specName, d.specValue)
  }

  /** The draft a body describes; `id` fills in the identity a create body lacks. */
  function DraftOf(body: SpecBody, id: int, book: Book): Specification
  {
    match body
    case CreateSpec(b, code, name, value) => Specification(id, b, code, name, value, book)
    case UpdateSpec(i, b, code, name, value) => Specification(i, b, code, name, value, book)
  }

  /**
   * The bodies carry the draft's fields verbatim: the update body gives back the whole
   * draft except the nested book snapshot, and it is the create body plus `Id`.
   */
  lemma BodiesCopyDraft(d: Specification)
    ensures DraftOf(UpdateBody(d), 0, d.book) == d
    ensures DraftOf(CreateBody(d), d.id, d.book) == d
    ensures UpdateBody(d).Id == d.id
    ensures DraftOf(UpdateBody(d), 0, d.book) == DraftOf(CreateBody(d), d.id, d.book)
  {
  }

  /** The id a row's checkbox stands for. */
  function SpecId(spec: Specification): int { spec.id }

  class SpecScreen {
    const list: Listing<Specification>
    var selectedIds: seq<int>
    var selectAll: bool
    var draft: Option<Specification>
    var modalOpen: bool
    var books: seq<Book>

    constructor ()
      ensures fresh(list) && list.resource == Resource
      ensures list.page == 0 && list.totalPages == 0 && list.pageInput == 0
      ensures list.items == [] && list.keyword == ""
      ensures selectedIds == [] && !selectAll && draft == None && !modalOpen && books == []
    {
      list := new Listing(Resource);
      selectedIds, selectAll := [], false;
      draft, modalOpen, books := None, false, [];
    }

    /** Fetch the picker's book list; only an array reply replaces it. */
    method FetchBooks(reply: BooksReply) returns (notice: Option<Notice>)
      modifies this`books
      ensures reply.BooksArray? ==> books == NormalizeAll(reply.books) && notice == None
      ensures reply.BooksMalformed? ==> books == old(books) && notice == Some(InvalidData)
      ensures reply.BooksRejected? ==> books == old(books) && notice == Some(LoadFailed)
    {
      match reply
      case BooksArray(raw) =>
        books := NormalizeAll(raw);
        notice := None;
      case BooksMalformed =>
        notice := Some(InvalidData);
      case BooksRejected =>
        notice := Some(LoadFailed);
    }

    method ResetForm()
      modifies this`draft, this`selectedIds, this`selectAll
      ensures draft == None && selectedIds == [] && !selectAll
    {
      draft := None;
      selectedIds := [];
      selectAll := false;
    }

    method PrepareAdd()
      modifies this`draft, this`modalOpen
      ensures draft == Some(BlankSpec) && modalOpen
    {
      draft := Some(BlankSpec);
      modalOpen := true;
    }

    method PrepareEdit(spec: Specification)
      modifies this`draft, this`modalOpen
      ensures draft == Some(spec) && modalOpen
    {
      draft := Some(spec);
      modalOpen := true;
    }

    method CloseModal()
      modifies this`modalOpen
      ensures !modalOpen
    {
      modalOpen := false;
    }

    /** Post the draft as a new row; a truthy reply closes the modal and resets the form. */
    method Add(reply: Reply) returns (effects: seq<Effect<SpecBody>>)
      modifies this`draft, this`selectedIds, this`selectAll, this`modalOpen
      ensures old(draft).None? ==> effects == [] && unchanged(this)
      ensures old(draft).Some? ==>
        effects == [Send(Post(CreatePath, CreateBody(old(draft).value)))] + MutationOutcome(reply, Added, AddFailed)
      ensures old(draft).Some? && Truthy(reply) ==> draft == None && selectedIds == [] && !selectAll && !modalOpen
      ensures !Truthy(reply) ==> unchanged(this)
    {
      if draft.None? {
        return [];
      }
      effects := [Send(Post(CreatePath, CreateBody(draft.value)))] + MutationOutcome(reply, Added, AddFailed);
      if Truthy(reply) {
        modalOpen := false;
        ResetForm();
      }
    }

    /** Put the draft as an update; refused without a draft or with a non-positive id. */
    method Update(reply: Reply) returns (effects: seq<Effect<SpecBody>>)
      modifies this`draft, this`selectedIds, this`selectAll, this`modalOpen
      ensures (old(draft).None? || old(draft).value.id <= 0) ==> effects == [] && unchanged(this)
      ensures old(draft).Some? && old(draft).value.id > 0 ==>
        effects == [Send(Put(UpdatePath, UpdateBody(old(draft).value)))] + MutationOutcome(reply, Updated, UpdateFailed)
      ensures old(draft).Some? && old(draft).value.id > 0 && Truthy(reply) ==>
        draft == None && selectedIds == [] && !selectAll && !modalOpen
      ensures !Truthy(reply) ==> unchanged(this)
    {
      if draft.None? || draft.value.id <= 0 {
        return [];
      }
      effects := [Send(Put(UpdatePath, UpdateBody(draft.value)))] + MutationOutcome(reply, Updated, UpdateFailed);
      if Truthy(reply) {
        modalOpen := false;
        ResetForm();
      }
    }

    /** Submit the modal: nothing without a draft, update for a positive id, create otherwise. */
    method Submit(reply: Reply) returns (effects: seq<Effect<SpecBody>>)
      modifies this`draft, this`selectedIds, this`selectAll, this`modalOpen
      ensures old(draft).None? ==> effects == [] && unchanged(this)
      ensures old(draft).Some? && old(draft).value.id > 0 ==>
        effects == [Send(Put(UpdatePath, UpdateBody(old(draft).value)))] + MutationOutcome(reply, Updated, UpdateFailed)
      ensures old(draft).Some? && old(draft).value.id <= 0 ==>
        effects == [Send(Post(CreatePath, CreateBody(old(draft).value)))] + MutationOutcome(reply, Added, AddFailed)
      ensures old(draft).Some? && Truthy(reply) ==> draft == None && selectedIds == [] && !selectAll && !modalOpen
      ensures !Truthy(reply) ==> unchanged(this)
    {
      if draft.None? {
        return [];
      }
      if draft.value.id > 0 {
        effects := Update(reply);
      } else {
        effects := Add(reply);
      }
    }

    /**
     * Bulk delete: an empty selection only raises a notice; an unconfirmed one does
     * nothing; otherwise the ids go out as a JSON array, and any truthy reply resets
     * the form whatever the server's verdict.
     */
    method Delete(confirmed: bool, reply: Reply) returns (effects: seq<Effect<SpecBody>>)
      modifies this`draft, this`selectedIds, this`selectAll
      ensures old(selectedIds) == [] ==> effects == [Notify(SelectAtLeastOne)] && unchanged(this)
      ensures old(selectedIds) != [] && !confirmed ==> effects == [] && unchanged(this)
      ensures old(selectedIds) != [] && confirmed ==>
        effects == [Send(Http.Delete(DeleteUrl(Resource, old(selectedIds))))]
                   + DeleteOutcome(reply, |old(selectedIds)|)
      ensures old(selectedIds) != [] && confirmed && Truthy(reply) ==>
        draft == None && selectedIds == [] && !selectAll
      ensures !Truthy(reply) ==> unchanged(this)
    {
      if |selectedIds| == 0 {
        return [Notify(SelectAtLeastOne)];
      }
      if !confirmed {
        return [];
      }
      effects := [Send(Http.Delete(DeleteUrl(Resource, selectedIds)))] + DeleteOutcome(reply, |selectedIds|);
      if Truthy(reply) {
        ResetForm();
      }
    }

    /** The header checkbox. */
    method SelectAll()
      modifies this`selectedIds, this`selectAll
      ensures selectedIds == SelectAllIds(old(selectAll), Ids(list.items, SpecId))
      ensures selectAll == !old(selectAll)
      ensures selectAll ==> selectedIds == Ids(list.items, SpecId)
      ensures !selectAll ==> selectedIds == []
    {
      if selectAll {
        selectedIds := [];
      } else {
        selectedIds := Ids(list.items, SpecId);
      }
      selectAll := !selectAll;
    }

    /** A row checkbox. */
    method CheckboxChange(id: int)
      modifies this`selectedIds
      ensures selectedIds == Toggle(old(selectedIds), id)
    {
      if id in selectedIds {
        selectedIds := Without(selectedIds, id);
      } else {
        selectedIds := selectedIds + [id];
      }
    }
  }
}
