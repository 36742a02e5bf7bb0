/**
 * Shapes of the web-service records that the messages plugin reads
 * (plugins/messages/main.js). Only the fields the plugin looks at are kept.
 */
module MessageData {
  import opened Optional

  type UserId = int

  /** One record of `core_message_get_messages`; `timecreated` is already an integer. */
  datatype Message = Message(
    useridfrom: UserId,
    userfromfullname: string,
    useridto: UserId,
    usertofullname: string,
    smallmessage: string,
    timecreated: int)

  /**
   * The object a `core_message_get_messages` call hands to its success callback:
   * `messages` is missing when the service reports a problem in the body instead,
   * in which case `exception`, `errorcode` and `message` describe it.
   */
  datatype Response = Response(
    messages: Option<seq<Message>>,
    exception: bool,
    errorcode: Option<string>,
    message: string)

  /** How one remote call ends: its success callback with a response, or its error callback. */
  datatype WsReply = WsOk(response: Response) | WsError(error: string)

  /**
   * What `_getRecentMessages` passes to its success callback. The source is not
   * uniform here: sometimes the raw response object, sometimes a plain array.
   */
  datatype FetchResult = RawResponse(response: Response) | MessageList(list: seq<Message>)

  /** `_getRecentMessages` ends in exactly one of its two callbacks. */
  datatype Delivery = Delivered(result: FetchResult) | Failed(error: string)
}
