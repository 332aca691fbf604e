/**
 * The category screen: a fixed two-row table with row checkboxes, a header
 * checkbox, and an Is_leaf true/false picker in its edit modal.
 */
module CategoryScreen {
  import opened Selection

  datatype Category = Category(id: int, name: string, isLeaf: bool)

  /** The rows the screen shows; it fetches nothing. */
  const TableData: seq<Category> :=
    [Category(1, "Điện thoại", false), Category(2, "Máy tính bảng", true)]

  /** The id a row's checkbox stands for. */
  function CategoryId(c: Category): int { c.id }

  /** The `value` the Is_leaf picker shows. */
  function IsLeafText(isLeaf: bool): string
  {
    if isLeaf then "true" else "false"
  }

  /** The flag the Is_leaf picker's `onChange` stores: `value === "true"`. */
  function ParseIsLeaf(value: string): bool
  {
    value == "true"
  }

  /** Reading the shown value back gives the flag; only the exact text "true" reads as true. */
  lemma IsLeafRoundTrip(isLeaf: bool, value: string)
    ensures ParseIsLeaf(IsLeafText(isLeaf)) == isLeaf
    ensures value != "true" ==> !ParseIsLeaf(value)
    ensures IsLeafText(ParseIsLeaf(value)) == value <==> value == "true" || value == "false"
  {
  }

  /** The "STT" column: `index + 1`. */
  function CategoryRowNumber(index: nat): nat
  {
    index + 1
  }

  /** The table numbers its rows 1 to |TableData| in order, next to each row's id. */
  lemma CategoryRowNumbers()
    ensures Ids(TableData, CategoryId) == [1, 2]
    ensures forall i :: 0 <= i < |TableData| ==> 1 <= CategoryRowNumber(i) <= |TableData|
    ensures forall i, j :: 0 <= i < j < |TableData| ==> CategoryRowNumber(i) < CategoryRowNumber(j)
  {
  }

  class CategoryScreenState {
    var selectedIds: seq<int>
    var selectAll: bool
    var isLeaf: bool
    var modalOpen: bool

    constructor ()
      ensures selectedIds == [] && !selectAll && !isLeaf && !modalOpen
    {
      selectedIds, selectAll, isLeaf, modalOpen := [], false, false, false;
    }

    /** A row's edit button opens the modal; nothing is loaded into it. */
    method OpenModal()
      modifies this`modalOpen
      ensures modalOpen
    {
      modalOpen := true;
    }

    /** The modal's close control and its "close" button. */
    method CloseModal()
      modifies this`modalOpen
      ensures !modalOpen
    {
      modalOpen := false;
    }

    /** "Save changes" saves nothing: it only closes the modal, leaving the picked flag as it is. */
    method Save()
      modifies this`modalOpen
      ensures !modalOpen
    {
      modalOpen := false;
    }

    /** The header checkbox over the fixed rows. */
    method SelectAll()
      modifies this`selectedIds, this`selectAll
      ensures selectedIds == SelectAllIds(old(selectAll), Ids(TableData, CategoryId))
      ensures selectAll == !old(selectAll)
      ensures selectAll ==> selectedIds == [1, 2]
      ensures !selectAll ==> selectedIds == []
    {
      if selectAll {
        selectedIds := [];
      } else {
        CategoryRowNumbers();
        selectedIds := Ids(TableData, CategoryId);
      }
      selectAll := !selectAll;
    }

    /** A row checkbox. */
    method CheckboxChange(id: int)
      modifies this`selectedIds
      ensures selectedIds == Toggle(old(selectedIds), id)
    {
      if id in selectedIds {
        selectedIds := Without(selectedIds, id);
      } else {
        selectedIds := selectedIds + [id];
      }
    }

    /** The Is_leaf picker's change handler. */
    method SelectIsLeaf(value: string)
      modifies this`isLeaf
      ensures isLeaf == ParseIsLeaf(value)
    {
      isLeaf := value == "true";
    }
  }

  /**
   * From a freshly mounted screen, the header checkbox selects ids 1 and 2 and
   * a second click returns to the empty selection with the flag cleared.
   */
  method SelectAllTwiceFromStart() returns (first: seq<int>, second: seq<int>, flag: bool)
    ensures first == [1, 2]
    ensures second == [] && !flag
  {
    var screen := new CategoryScreenState();
    screen.SelectAll();
    first := screen.selectedIds;
    CategoryRowNumbers();
    screen.SelectAll();
    second, flag := screen.selectedIds, screen.selectAll;
  }
}
