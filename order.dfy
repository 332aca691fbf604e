/**
 * The order screen: a paginated list of orders with a status badge per row, and an
 * edit modal whose only control changes the draft's status before it is saved.
 */
module OrderScreen {
  import opened Common
  import opened Http
  import opened Pagination

  datatype User = User(userId: int, name: string, phone: string, address: string)
  datatype OrderBook = OrderBook(bookId: int, name: string, price: real)
  datatype OrderItem = OrderItem(orderItemId: int, quantity: int, price: real, book: OrderBook)

  datatype Order = Order(
    orderId: int, orderDate: string, totalAmount: real, status: string,
    shippingAddress: string, paymentMethod: string,
    user: User, orderItems: seq<OrderItem>)

  /** The update body: the draft's own fields, with the user reduced to its id. */
  datatype OrderBody = OrderBody(
    orderId: int, userId: int, orderDate: string, totalAmount: real, status: string,
    shippingAddress: string, paymentMethod: string)

  const Resource: string := "Order"
  const UpdatePath: string := "/Order/Update"

  /** The statuses the status picker offers, in display order. */
  const OrderStatuses: seq<string> :=
    ["Chờ xử lý", "Đang xử lý", "Đang vận chuyển", "Hoàn thành", "Đã hủy"]

  datatype BadgeColor = Info | Primary | Light | Success | Error

  function StatusColor(status: string): BadgeColor
  {
    if status == OrderStatuses[0] then Info
    else if status == OrderStatuses[1] then Primary
    else if status == OrderStatuses[2] then Light
    else if status == OrderStatuses[3] then Success
    else if status == OrderStatuses[4] then Error
    else Primary
  }

  /**
   * Every string gets a colour: the five picker statuses get info, primary, light,
   * success and error in that order, and every other string falls back to primary,
   * so any colour other than primary names exactly one status.
   */
  lemma StatusColorMeaning(status: string)
    ensures StatusColor(OrderStatuses[0]) == Info
    ensures StatusColor(OrderStatuses[1]) == Primary
    ensures StatusColor(OrderStatuses[2]) == Light
    ensures StatusColor(OrderStatuses[3]) == Success
    ensures StatusColor(OrderStatuses[4]) == Error
    ensures status !in OrderStatuses ==> StatusColor(status) == Primary
    ensures StatusColor(status) != Primary ==> status in OrderStatuses && status != OrderStatuses[1]
    ensures forall i, j :: 0 <= i < j < |OrderStatuses| && StatusColor(OrderStatuses[i]) != Primary
              ==> StatusColor(OrderStatuses[i]) != StatusColor(OrderStatuses[j])
  {
  }

  function UpdateBody(d: Order): OrderBody
  {
    OrderBody(d.orderId, d.user.userId, d.orderDate, d.totalAmount, d.status, d.shippingAddress, d.paymentMethod)
  }

  /** The draft a body describes, given the user snapshot and items it leaves out. */
  function DraftOf(body: OrderBody, user: User, items: seq<OrderItem>): Order
  {
    Order(body.orderId, body.orderDate, body.totalAmount, body.status,
          body.shippingAddress, body.paymentMethod, user, items)
  }

  /**
   * The body carries the draft verbatim: only the user's details beyond its id and
   * the order items are left out.
   */
  lemma UpdateBodyCopiesDraft(d: Order)
    ensures DraftOf(UpdateBody(d), d.user, d.orderItems) == d
    ensures UpdateBody(d).userId == d.user.userId
  {
  }

  class OrderScreenState {
    const list: Listing<Order>
    var draft: Option<Order>
    var modalOpen: bool

    constructor ()
      ensures fresh(list) && list.resource == Resource
      ensures list.page == 0 && list.totalPages == 0 && list.pageInput == 0
      ensures list.items == [] && list.keyword == ""
      ensures draft == None && !modalOpen
    {
      list := new Listing(Resource);
      draft, modalOpen := None, false;
    }

    method ResetForm()
      modifies this`draft
      ensures draft == None
    {
      draft := None;
    }

    method PrepareEdit(order: Order)
      modifies this`draft, this`modalOpen
      ensures draft == Some(order) && modalOpen
    {
      draft := Some(order);
      modalOpen := true;
    }

    method CloseModal()
      modifies this`modalOpen
      ensures !modalOpen
    {
      modalOpen := false;
    }

    /** The status picker: only a chosen option on an open draft changes anything, and only the status. */
    method SelectStatus(option: Option<string>)
      modifies this`draft
      ensures old(draft).Some? && option.Some? ==> draft == Some(old(draft).value.(status := option.value))
      ensures old(draft).None? || option.None? ==> draft == old(draft)
    {
      if draft.Some? && option.Some? {
        draft := Some(draft.value.(status := option.value));
      }
    }

    /** Put the draft; refused without a draft or with a non-positive id. */
    method Update(reply: Reply) returns (effects: seq<Effect<OrderBody>>)
      modifies this`draft, this`modalOpen
      ensures (old(draft).None? || old(draft).value.orderId <= 0) ==> effects == [] && unchanged(this)
      ensures old(draft).Some? && old(draft).value.orderId > 0 ==>
        effects == [Send(Put(UpdatePath, UpdateBody(old(draft).value)))] + MutationOutcome(reply, Updated, UpdateFailed)
      ensures old(draft).Some? && old(draft).value.orderId > 0 && Truthy(reply) ==> draft == None && !modalOpen
      ensures !Truthy(reply) ==> unchanged(this)
    {
      if draft.None? || draft.value.orderId <= 0 {
        return [];
      }
      effects := [Send(Put(UpdatePath, UpdateBody(draft.value)))] + MutationOutcome(reply, Updated, UpdateFailed);
      if Truthy(reply) {
        modalOpen := false;
        ResetForm();
      }
    }

    /** Submit the modal: orders are only ever updated. */
    method Submit(reply: Reply) returns (effects: seq<Effect<OrderBody>>)
      modifies this`draft, this`modalOpen
      ensures (old(draft).None? || old(draft).value.orderId <= 0) ==> effects == [] && unchanged(this)
      ensures old(draft).Some? && old(draft).value.orderId > 0 ==>
        effects == [Send(Put(UpdatePath, UpdateBody(old(draft).value)))] + MutationOutcome(reply, Updated, UpdateFailed)
      ensures old(draft).Some? && old(draft).value.orderId > 0 && Truthy(reply) ==> draft == None && !modalOpen
      ensures !Truthy(reply) ==> unchanged(this)
    {
      if draft.None? {
        return [];
      }
      effects := Update(reply);
    }
  }
}
