/**
 * `_renderRecentMessages` as a whole: received messages, then sent messages,
 * then contacts, each fetch started from the callback of the previous one.
 * The two message fetches go through `_getRecentMessages` and share one
 * parameter object; the contacts fetch takes no parameters.
 */
module RecentFeedView {
  import opened Optional
  import opened MessageData
  import opened RecentMessages
  import opened RecentFeed
  import opened FeedContacts

  /** How the `_getContacts` call ends. */
  datatype ContactsOutcome = ContactsOk(reply: ContactsReply) | ContactsError(error: string)

  /**
   * The feed built, the error shown to the user if any (only a failing first
   * fetch is shown; later failures are only logged), and the
   * `core_message_get_messages` requests of the received and sent fetches.
   */
  datatype RecentView = RecentView(feed: Feed, shownError: Option<string>, requests: seq<Request>)

  /** The `limitnum` the parameter object starts with. */
  const RecentLimit := 50

  function Last(rs: seq<Request>): Request
    requires rs != []
  {
    rs[|rs| - 1]
  }

  /**
   * The whole aggregation. The sent fetch reuses the parameter object the
   * received fetch has mutated: only the user ids are reset.
   */
  function RecentMessagesView(
    siteUser: UserId, receivedFirst: WsReply, receivedMore: WsReply,
    sentFirst: WsReply, sentMore: WsReply, contacts: ContactsOutcome): RecentView
  {
    var start := Request(siteUser, 0, 0, RecentLimit);
    var received := RecentDelivery(start.limitnum, receivedFirst, receivedMore);
    var rs1 := IssuedRequests(start, receivedFirst);
    if received.Failed? then RecentView(EmptyFeed, Some(received.error), rs1)
    else
      var f1 := MessagesPass(EmptyFeed, ArrayView(received.result), Received);
      var params := Last(rs1).(useridfrom := siteUser, useridto := 0);
      var sent := RecentDelivery(params.limitnum, sentFirst, sentMore);
      var rs2 := IssuedRequests(params, sentFirst);
      if sent.Failed? then RecentView(f1, None, rs1 + rs2)
      else
        var f2 := MessagesPass(f1, ArrayView(sent.result), Sent);
        match contacts
        case ContactsError(_) => RecentView(f2, None, rs1 + rs2)
        case ContactsOk(reply) => RecentView(ContactsPass(f2, reply), None, rs1 + rs2)
  }

  /** At every stopping point of the aggregation the feed is keyed. */
  lemma RecentViewKeyed(
    siteUser: UserId, receivedFirst: WsReply, receivedMore: WsReply,
    sentFirst: WsReply, sentMore: WsReply, contacts: ContactsOutcome)
    ensures Keyed(RecentMessagesView(siteUser, receivedFirst, receivedMore, sentFirst, sentMore, contacts).feed)
  {
    var received := RecentDelivery(RecentLimit, receivedFirst, receivedMore);
    assert Keyed(EmptyFeed) by { assert Users([]) == {}; }
    if received.Delivered? {
      var f1 := MessagesPass(EmptyFeed, ArrayView(received.result), Received);
      PassKeepsKeyed(EmptyFeed, ArrayView(received.result), Received);
      var params := Last(IssuedRequests(Request(siteUser, 0, 0, RecentLimit), receivedFirst)).(useridfrom := siteUser, useridto := 0);
      var sent := RecentDelivery(params.limitnum, sentFirst, sentMore);
      if sent.Delivered? {
        var f2 := MessagesPass(f1, ArrayView(sent.result), Sent);
        PassKeepsKeyed(f1, ArrayView(sent.result), Sent);
        if contacts.ContactsOk? {
          ContactsPassInOrder(f2, contacts.reply);
          ContactsFoldKeepsKeyed(f2, AllContacts(contacts.reply));
        }
      }
    }
  }

  /**
   * Received entries stay ahead: when the received fetch succeeds, the feed
   * starts with the first received message of every sender, in input order,
   * whatever the later passes do.
   */
  lemma ReceivedEntriesFirst(
    siteUser: UserId, receivedFirst: WsReply, receivedMore: WsReply,
    sentFirst: WsReply, sentMore: WsReply, contacts: ContactsOutcome)
    requires RecentDelivery(RecentLimit, receivedFirst, receivedMore).Delivered?
    ensures NewPeers({}, ArrayView(RecentDelivery(RecentLimit, receivedFirst, receivedMore).result), Received)
      <= RecentMessagesView(siteUser, receivedFirst, receivedMore, sentFirst, sentMore, contacts).feed.entries
  {
    var ms := ArrayView(RecentDelivery(RecentLimit, receivedFirst, receivedMore).result);
    var f1 := MessagesPass(EmptyFeed, ms, Received);
    PassAppendsNewPeers(EmptyFeed, ms, Received);
    assert f1.entries == NewPeers({}, ms, Received) by { assert EmptyFeed.ids.Keys == {}; }
    var params := Last(IssuedRequests(Request(siteUser, 0, 0, RecentLimit), receivedFirst)).(useridfrom := siteUser, useridto := 0);
    var sent := RecentDelivery(params.limitnum, sentFirst, sentMore);
    if sent.Delivered? {
      var f2 := MessagesPass(f1, ArrayView(sent.result), Sent);
      PassAppendsNewPeers(f1, ArrayView(sent.result), Sent);
      if contacts.ContactsOk? {
        ContactsPassInOrder(f2, contacts.reply);
        ContactsFoldAppendsNewcomers(f2, AllContacts(contacts.reply));
      }
    }
  }

  /**
   * The shared parameter object leaks into the sent fetch: when the received
   * fetch was topped up after `n` unread messages, the sent fetch starts with
   * `limitnum` 50 - n instead of 50.
   */
  lemma SentFetchInheritsLimit(
    siteUser: UserId, receivedFirst: WsReply, receivedMore: WsReply,
    sentFirst: WsReply, sentMore: WsReply, contacts: ContactsOutcome)
    requires TopsUp(RecentLimit, receivedFirst)
    ensures var v := RecentMessagesView(siteUser, receivedFirst, receivedMore, sentFirst, sentMore, contacts);
      |v.requests| >= 3 &&
      v.requests[2] == Request(0, siteUser, 0, RecentLimit - BatchSize(receivedFirst.response))
  {
  }

  /**
   * A full page of unread messages is handed over as the raw response object,
   * which the received pass cannot read: the result is exactly what a reply
   * without any messages gives.
   */
  lemma FullUnreadPageIsDropped(
    siteUser: UserId, page: Response, receivedMore: WsReply,
    sentFirst: WsReply, sentMore: WsReply, contacts: ContactsOutcome)
    requires page.messages.Some? && BatchSize(page) >= RecentLimit
    ensures RecentMessagesView(siteUser, WsOk(page), receivedMore, sentFirst, sentMore, contacts)
         == RecentMessagesView(siteUser, WsOk(Response(None, false, None, "")), receivedMore, sentFirst, sentMore, contacts)
  {
    assert MessagesPass(EmptyFeed, [], Received) == EmptyFeed;
  }

  /** `_renderRecentMessages` as the source runs it, on one shared `Query`. */
  method RenderRecentMessages(
    siteUser: UserId, receivedFirst: WsReply, receivedMore: WsReply,
    sentFirst: WsReply, sentMore: WsReply, contacts: ContactsOutcome) returns (v: RecentView)
    ensures v == RecentMessagesView(siteUser, receivedFirst, receivedMore, sentFirst, sentMore, contacts)
    ensures Keyed(v.feed)
  {
    var params := new Query(siteUser, 0, RecentLimit);
    ghost var start := params.Snapshot();
    var messages, rs1 := GetRecentMessages(params, receivedFirst, receivedMore);
    assert messages == RecentDelivery(start.limitnum, receivedFirst, receivedMore);
    assert rs1 == IssuedRequests(start, receivedFirst);
    if messages.Failed? {
      v := RecentView(EmptyFeed, Some(messages.error), rs1);
    } else {
      var feed := AddMessages(EmptyFeed, ArrayView(messages.result), Received);
      params.useridfrom := siteUser;
      params.useridto := 0;
      ghost var sentParams := params.Snapshot();
      assert sentParams == Last(rs1).(useridfrom := siteUser, useridto := 0);
      var messagesSent, rs2 := GetRecentMessages(params, sentFirst, sentMore);
      assert messagesSent == RecentDelivery(sentParams.limitnum, sentFirst, sentMore);
      assert rs2 == IssuedRequests(sentParams, sentFirst);
      if messagesSent.Failed? {
        v := RecentView(feed, None, rs1 + rs2);
      } else {
        feed := AddMessages(feed, ArrayView(messagesSent.result), Sent);
        match contacts {
          case ContactsError(_) =>
            v := RecentView(feed, None, rs1 + rs2);
          case ContactsOk(reply) =>
            feed := AddContacts(feed, reply);
            v := RecentView(feed, None, rs1 + rs2);
        }
      }
    }
    RecentViewKeyed(siteUser, receivedFirst, receivedMore, sentFirst, sentMore, contacts);
  }
}
