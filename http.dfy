/**
 * What a resource screen sends through the transport client, what it gets back,
 * and the toast notices it raises in response.
 */
module Http {
  import opened Common
  import Json

  /** A mutation request, with the request body type of the screen that sends it. */
  datatype Request<B> =
    | Post(path: string, body: B)
    | Put(path: string, body: B)
    | Delete(url: string)

  /**
   * The settled value of an awaited mutation request: the call threw (`Rejected`),
   * resolved to a falsy body, resolved to an array of numbers, or to any other truthy body.
   */
  datatype Reply = Rejected | Falsy | ArrayBody(elems: seq<int>) | OtherBody

  /** JavaScript truthiness of a resolved body; an empty array is truthy. */
  predicate Truthy(r: Reply) { r.ArrayBody? || r.OtherBody? }

  /** The settled value of a `getallbypaging` request. */
  datatype PageReply<T> =
    | PageRejected                              // the request threw
    | PageMalformed                             // falsy body, or `items` is not an array
    | PageBody(items: seq<T>, totalPages: int)

  /** The toast notices the screens raise, one per distinct message. */
  datatype Notice =
    | InvalidData          // "Dữ liệu không hợp lệ"
    | LoadFailed           // "Không thể tải danh sách"
    | Added                // "Thêm thành công"
    | AddFailed            // "Thêm thất bại"
    | Updated              // "Cập nhật thành công"
    | UpdateFailed         // "Cập nhật thất bại"
    | SelectAtLeastOne     // "Vui lòng chọn ít nhất một dòng để xóa"
    | DeleteBlocked        // "Không thể xóa vì có sản phẩm liên quan"
    | Deleted(count: nat)  // "Đã xóa thành công <count> dòng"
    | DeleteFailed         // "Xóa thất bại"
  {
    predicate IsError()
    {
      !(Added? || Updated? || Deleted?)
    }
  }

  /** One observable action of a handler, in the order the handler performs them. */
  datatype Effect<B> =
    | Send(request: Request<B>)
    | Notify(notice: Notice)
    | Refetch               // the screen's list fetch is called again

  /** What a create or update handler does once its request settles. */
  function MutationOutcome<B>(reply: Reply, success: Notice, failure: Notice): seq<Effect<B>>
  {
    match reply
    case Rejected => [Notify(failure)]
    case Falsy => []
    case _ => [Notify(success), Refetch]
  }

  /**
   * A settled create or update raises its error notice exactly when the request threw,
   * its success notice and a re-fetch exactly when the reply is truthy, and does
   * nothing at all on a falsy reply.
   */
  lemma MutationOutcomeMeaning<B>(reply: Reply, success: Notice, failure: Notice)
    requires !success.IsError() && failure.IsError()
    ensures Notify(failure) in MutationOutcome<B>(reply, success, failure) <==> reply.Rejected?
    ensures Notify(success) in MutationOutcome<B>(reply, success, failure) <==> Truthy(reply)
    ensures Refetch in MutationOutcome<B>(reply, success, failure) <==> Truthy(reply)
    ensures MutationOutcome<B>(reply, success, failure) == [] <==> reply.Falsy?
  {
  }

  /** The fixed part of a bulk-delete URL, before the serialised id list. */
  function DeletePrefix(resource: string): string
  {
    "/" + resource + "/deletemulti?checkedList="
  }

  /** The bulk-delete URL: the prefix followed by `JSON.stringify(ids)`. */
  function DeleteUrl(resource: string, ids: seq<int>): (url: string)
    ensures |DeletePrefix(resource)| <= |url| && url[..|DeletePrefix(resource)|] == DeletePrefix(resource)
    ensures Json.DecodeIdArray(url[|DeletePrefix(resource)|..]) == Some(ids)
  {
    var prefix := DeletePrefix(resource);
    var url := prefix + Json.IdArrayText(ids);
    assert url[|prefix|..] == Json.IdArrayText(ids);
    Json.IdArrayRoundTrip(ids);
    url
  }

  /** The server's verdict on a bulk delete, read from the first element of an array reply. */
  datatype Verdict = NoVerdict | Blocked | Removed

  function DeleteVerdict(reply: Reply): Verdict
  {
    if reply.ArrayBody? && |reply.elems| > 0 then
      if reply.elems[0] == 0 then Blocked else Removed
    else NoVerdict
  }

  /** What a bulk-delete handler does once its request settles; `count` is the selection size. */
  function DeleteOutcome<B>(reply: Reply, count: nat): seq<Effect<B>>
  {
    if reply.Rejected? then [Notify(DeleteFailed)]
    else if !Truthy(reply) then []
    else
      match DeleteVerdict(reply)
      case Blocked => [Notify(DeleteBlocked), Refetch]
      case Removed => [Notify(Deleted(count)), Refetch]
      case NoVerdict => [Refetch]
  }

  /**
   * A settled delete is reported as blocked exactly when the reply is a non-empty
   * array whose first element is 0, as a success exactly when that first element is
   * anything else, and the list is fetched again after every truthy reply.
   */
  lemma DeleteOutcomeMeaning<B>(reply: Reply, count: nat)
    ensures Notify(DeleteBlocked) in DeleteOutcome<B>(reply, count)
        <==> reply.ArrayBody? && |reply.elems| > 0 && reply.elems[0] == 0
    ensures Notify(Deleted(count)) in DeleteOutcome<B>(reply, count)
        <==> reply.ArrayBody? && |reply.elems| > 0 && reply.elems[0] != 0
    ensures Refetch in DeleteOutcome<B>(reply, count) <==> Truthy(reply)
    ensures Notify(DeleteFailed) in DeleteOutcome<B>(reply, count) <==> reply.Rejected?
  {
  }
}
