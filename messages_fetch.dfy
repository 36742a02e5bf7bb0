/**
 * `_getRecentMessages`: fetch unread messages, then top the batch up with read
 * ones when it is shorter than `limitnum`. The two remote fetches are inputs;
 * the parameter object is a class because the source mutates it in place and
 * the caller reuses it afterwards.
 */
module RecentMessages {
  import opened Optional
  import opened MessageData

  /** The parameters of one `core_message_get_messages` request (the constant ones are omitted). */
  datatype Request = Request(useridto: UserId, useridfrom: UserId, read: int, limitnum: int)

  /** The `params` object shared between a caller and `_getRecentMessages`. */
  class Query {
    var useridto: UserId
    var useridfrom: UserId
    var read: int
    var limitnum: int

    constructor (useridto: UserId, useridfrom: UserId, limitnum: int)
      ensures Snapshot() == Request(useridto, useridfrom, 0, limitnum)
    {
      this.useridto := useridto;
      this.useridfrom := useridfrom;
      this.read := 0;
      this.limitnum := limitnum;
    }

    /** The request these parameters describe right now. */
    function Snapshot(): Request
      reads this
    {
      Request(useridto, useridfrom, read, limitnum)
    }
  }

  /** The number of messages in a response that carries a `messages` array. */
  function BatchSize(r: Response): nat
    requires r.messages.Some?
  {
    |r.messages.value|
  }

  /** The first fetch succeeded with an array shorter than the limit, so a second fetch follows. */
  predicate TopsUp(limitnum: int, first: WsReply) {
    first.WsOk? && first.response.messages.Some? && BatchSize(first.response) < limitnum
  }

  /**
   * What `_getRecentMessages` hands to its caller, given the limit in force and
   * the replies of the first (unread) and, if made, second (read) fetch.
   */
  function RecentDelivery(limitnum: int, first: WsReply, second: WsReply): (d: Delivery)
    // a failing first call reaches the error callback with its error
    ensures first.WsError? ==> d == Failed(first.error)
    // a response without `messages` is an error exactly when it is the "disabled" exception
    ensures first.WsOk? && first.response.messages.None? ==>
      (d.Failed? <==> first.response.exception && first.response.errorcode == Some("disabled"))
    ensures first.WsOk? && first.response.messages.None? && d.Failed? ==> d.error == first.response.message
    ensures first.WsOk? && first.response.messages.None? && d.Delivered? ==> d.result == MessageList([])
    // a response with `messages` always reaches the success callback
    ensures first.WsOk? && first.response.messages.Some? ==> d.Delivered?
    // the raw object is only ever the first response itself, and only when no top-up was merged
    ensures d.Delivered? && d.result.RawResponse? ==>
      first.WsOk? && d.result.response == first.response && first.response.messages.Some? &&
      (!TopsUp(limitnum, first) || second.WsError?)
    // a full unread batch, or a failing top-up fetch, hands over the raw first response
    ensures first.WsOk? && first.response.messages.Some? && (!TopsUp(limitnum, first) || second.WsError?) ==>
      d == Delivered(RawResponse(first.response))
    // a merged list is the unread batch followed by the read one, if the second reply has any
    ensures TopsUp(limitnum, first) && second.WsOk? ==>
      d.Delivered? && d.result.MessageList? &&
      d.result.list == first.response.messages.value +
        (if second.response.messages.Some? then second.response.messages.value else [])
  {
    match first
    case WsError(e) => Failed(e)
    case WsOk(resp) =>
      match resp.messages
      case None =>
        if resp.exception && resp.errorcode == Some("disabled") then Failed(resp.message)
        else Delivered(MessageList([]))
      case Some(unread) =>
        if |unread| >= limitnum then Delivered(RawResponse(resp))
        else
          match second
          case WsError(_) => Delivered(RawResponse(resp))
          case WsOk(more) =>
            match more.messages
            case Some(read) => Delivered(MessageList(unread + read))
            case None => Delivered(MessageList(unread))
  }

  /** The requests `_getRecentMessages` sends, starting from parameters `start`. */
  function IssuedRequests(start: Request, first: WsReply): (rs: seq<Request>)
    ensures 1 <= |rs| <= 2
    // the first fetch always asks for unread messages with the caller's limit
    ensures rs[0] == start.(read := 0)
    // a second fetch is made exactly when the unread batch fell short of the limit
    ensures |rs| == 2 <==> TopsUp(start.limitnum, first)
    // and it asks for read messages, only as many as are still missing
    ensures |rs| == 2 ==>
      rs[1] == start.(read := 1, limitnum := start.limitnum - BatchSize(first.response))
  {
    var unread := start.(read := 0);
    if TopsUp(start.limitnum, first) then
      [unread, unread.(read := 1, limitnum := start.limitnum - BatchSize(first.response))]
    else
      [unread]
  }

  /** The server returned no more messages than the request allowed. */
  predicate Honours(req: Request, reply: WsReply) {
    reply.WsOk? && reply.response.messages.Some? ==> BatchSize(reply.response) <= req.limitnum
  }

  /**
   * When the server honours the limit of the second request, a merged list never
   * holds more messages than the caller's original limit.
   */
  lemma CombinedWithinLimit(start: Request, first: WsReply, second: WsReply)
    requires 0 <= start.limitnum
    requires TopsUp(start.limitnum, first) ==> Honours(IssuedRequests(start, first)[1], second)
    ensures var d := RecentDelivery(start.limitnum, first, second);
      d.Delivered? && d.result.MessageList? ==> |d.result.list| <= start.limitnum
  {
  }

  /**
   * `_getRecentMessages` proper, on the caller's parameter object: it sets `read`
   * to 0, and before a top-up fetch it lowers `limitnum` and sets `read` to 1,
   * leaving the object as the last request it sent.
   */
  method GetRecentMessages(q: Query, first: WsReply, second: WsReply) returns (d: Delivery, issued: seq<Request>)
    modifies q
    ensures d == RecentDelivery(old(q.limitnum), first, second)
    ensures issued == IssuedRequests(old(q.Snapshot()), first)
    ensures q.Snapshot() == issued[|issued| - 1]
  {
    q.read := 0;
    issued := [q.Snapshot()];
    match first {
      case WsError(e) =>
        d := Failed(e);
      case WsOk(messages) =>
        if messages.messages.Some? {
          var unread := messages.messages.value;
          if |unread| >= q.limitnum {
            d := Delivered(RawResponse(messages));
          } else {
            q.limitnum := q.limitnum - |unread|;
            q.read := 1;
            issued := issued + [q.Snapshot()];
            match second {
              case WsError(_) =>
                d := Delivered(RawResponse(messages));
              case WsOk(moremessages) =>
                if moremessages.messages.Some? {
                  d := Delivered(MessageList(unread + moremessages.messages.value));
                } else {
                  d := Delivered(MessageList(unread));
                }
            }
          }
        } else if messages.exception && messages.errorcode == Some("disabled") {
          d := Failed(messages.message);
        } else {
          d := Delivered(MessageList([]));
        }
    }
  }
}
