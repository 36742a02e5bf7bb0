/**
 * The message passes of `_renderRecentMessages`: the feed is the ordered list
 * `recentContactMessages` together with the dictionary `recentContactsIds`,
 * and each pass walks a list of messages, pushing an entry for every peer it
 * has not met yet.
 */
module RecentFeed {
  import opened Optional
  import opened MessageData

  /** One element of `recentContactMessages`. */
  datatype FeedEntry = FeedEntry(user: UserId, message: string, timecreated: int)

  /** One value of `recentContactsIds`. */
  datatype ContactInfo = ContactInfo(fullname: string, profileimageurlsmall: Option<string>, unread: Option<int>)

  /** The two pieces of state the passes share. */
  datatype Feed = Feed(entries: seq<FeedEntry>, ids: map<UserId, ContactInfo>)

  const EmptyFeed := Feed([], map[])

  /** The received pass keys messages by sender, the sent pass by recipient. */
  datatype Direction = Received | Sent

  function Peer(m: Message, dir: Direction): UserId {
    match dir
    case Received => m.useridfrom
    case Sent => m.useridto
  }

  function PeerName(m: Message, dir: Direction): string {
    match dir
    case Received => m.userfromfullname
    case Sent => m.usertofullname
  }

  /** The entry a message contributes when it is the first one of its peer. */
  function EntryOf(m: Message, dir: Direction): FeedEntry {
    FeedEntry(Peer(m, dir), m.smallmessage, m.timecreated)
  }

  /** The dictionary value a message stores when it is the first one of its peer: the peer's name only. */
  function InfoOf(m: Message, dir: Direction): ContactInfo {
    ContactInfo(PeerName(m, dir), None, None)
  }

  function Users(entries: seq<FeedEntry>): set<UserId> {
    set e | e in entries :: e.user
  }

  predicate DistinctUsers(entries: seq<FeedEntry>) {
    forall i, j :: 0 <= i < j < |entries| ==> entries[i].user != entries[j].user
  }

  /** The feed invariant: the dictionary's keys are exactly the listed users, each listed once. */
  predicate Keyed(f: Feed) {
    f.ids.Keys == Users(f.entries) && DistinctUsers(f.entries)
  }

  lemma UsersAppend(entries: seq<FeedEntry>, e: FeedEntry)
    ensures Users(entries + [e]) == Users(entries) + {e.user}
  {
    assert forall x :: x in entries + [e] <==> x in entries || x == e;
  }

  lemma AppendKeepsKeyed(f: Feed, e: FeedEntry, info: ContactInfo)
    requires Keyed(f) && e.user !in f.ids
    ensures Keyed(Feed(f.entries + [e], f.ids[e.user := info]))
  {
    UsersAppend(f.entries, e);
    var es := f.entries + [e];
    forall i, j | 0 <= i < j < |es| ensures es[i].user != es[j].user {
      if j == |f.entries| {
        assert es[i] in f.entries;
      }
    }
  }

  /** One iteration of a message pass's `forEach`. */
  function MessageStep(f: Feed, m: Message, dir: Direction): (g: Feed)
    ensures Keyed(f) ==> Keyed(g)
    ensures f.entries <= g.entries && f.ids.Keys <= g.ids.Keys
    // a known peer changes nothing; a new one adds one entry and one key
    ensures Peer(m, dir) in f.ids ==> g == f
    ensures Peer(m, dir) !in f.ids ==>
      g.entries == f.entries + [EntryOf(m, dir)] && g.ids.Keys == f.ids.Keys + {Peer(m, dir)}
    // the new key holds the peer's name, and no existing value changes
    ensures Peer(m, dir) !in f.ids ==> g.ids[Peer(m, dir)] == InfoOf(m, dir)
    ensures forall u :: u in f.ids ==> g.ids[u] == f.ids[u]
  {
    var user := Peer(m, dir);
    if user in f.ids then f
    else
      var g := Feed(f.entries + [EntryOf(m, dir)], f.ids[user := InfoOf(m, dir)]);
      if Keyed(f) then AppendKeepsKeyed(f, EntryOf(m, dir), InfoOf(m, dir)); g
      else g
  }

  /** A whole message pass, message by message in input order. */
  function MessagesPass(f: Feed, ms: seq<Message>, dir: Direction): Feed
    decreases |ms|
  {
    if ms == [] then f else MessagesPass(MessageStep(f, ms[0], dir), ms[1..], dir)
  }

  /**
   * Reference definition of what a pass appends: the first message of every
   * peer not in `seen`, in input order.
   */
  function NewPeers(seen: set<UserId>, ms: seq<Message>, dir: Direction): seq<FeedEntry>
    decreases |ms|
  {
    if ms == [] then []
    else if Peer(ms[0], dir) in seen then NewPeers(seen, ms[1..], dir)
    else [EntryOf(ms[0], dir)] + NewPeers(seen + {Peer(ms[0], dir)}, ms[1..], dir)
  }

  function Peers(ms: seq<Message>, dir: Direction): set<UserId> {
    set i | 0 <= i < |ms| :: Peer(ms[i], dir)
  }

  lemma PeersCons(ms: seq<Message>, dir: Direction)
    requires ms != []
    ensures Peers(ms, dir) == {Peer(ms[0], dir)} + Peers(ms[1..], dir)
  {
    forall u | u in Peers(ms, dir) ensures u in {Peer(ms[0], dir)} + Peers(ms[1..], dir) {
      var i :| 0 <= i < |ms| && Peer(ms[i], dir) == u;
      if i > 0 { assert ms[1..][i - 1] == ms[i]; }
    }
    forall u | u in Peers(ms[1..], dir) ensures u in Peers(ms, dir) {
      var i :| 0 <= i < |ms[1..]| && Peer(ms[1..][i], dir) == u;
      assert ms[i + 1] == ms[1..][i];
    }
  }

  /** A message pass keeps the feed invariant. */
  lemma {:induction false} PassKeepsKeyed(f: Feed, ms: seq<Message>, dir: Direction)
    requires Keyed(f)
    ensures Keyed(MessagesPass(f, ms, dir))
    decreases |ms|
  {
    if ms != [] {
      PassKeepsKeyed(MessageStep(f, ms[0], dir), ms[1..], dir);
    }
  }

  /** A message pass appends exactly the reference entries. */
  lemma {:induction false} PassAppendsNewPeers(f: Feed, ms: seq<Message>, dir: Direction)
    ensures MessagesPass(f, ms, dir).entries == f.entries + NewPeers(f.ids.Keys, ms, dir)
    decreases |ms|
  {
    if ms != [] {
      var h := MessageStep(f, ms[0], dir);
      assert MessagesPass(f, ms, dir) == MessagesPass(h, ms[1..], dir);
      PassAppendsNewPeers(h, ms[1..], dir);
      if Peer(ms[0], dir) !in f.ids {
        calc {
          f.entries + NewPeers(f.ids.Keys, ms, dir);
          f.entries + ([EntryOf(ms[0], dir)] + NewPeers(h.ids.Keys, ms[1..], dir));
          h.entries + NewPeers(h.ids.Keys, ms[1..], dir);
        }
      }
    }
  }

  /**
   * A message pass adds the peers of its messages as keys and leaves every
   * existing dictionary value alone.
   */
  lemma {:induction false} PassAddsPeerKeys(f: Feed, ms: seq<Message>, dir: Direction)
    ensures var g := MessagesPass(f, ms, dir);
      && g.ids.Keys == f.ids.Keys + Peers(ms, dir)
      && forall u :: u in f.ids ==> g.ids[u] == f.ids[u]
    decreases |ms|
  {
    if ms != [] {
      var h := MessageStep(f, ms[0], dir);
      PassAddsPeerKeys(h, ms[1..], dir);
      PeersCons(ms, dir);
    }
  }

  lemma {:induction false} PassAppend(f: Feed, a: seq<Message>, b: seq<Message>, dir: Direction)
    ensures MessagesPass(f, a + b, dir) == MessagesPass(MessagesPass(f, a, dir), b, dir)
    decreases |a|
  {
    if a != [] {
      assert (a + b)[0] == a[0] && (a + b)[1..] == a[1..] + b;
      PassAppend(MessageStep(f, a[0], dir), a[1..], b, dir);
    } else {
      assert a + b == b;
    }
  }

  /** The index `i` holds the first message, in input order, of a peer not in `seen`. */
  predicate FirstOccurrence(seen: set<UserId>, ms: seq<Message>, dir: Direction, i: int) {
    && 0 <= i < |ms|
    && Peer(ms[i], dir) !in seen
    && forall j :: 0 <= j < i ==> Peer(ms[j], dir) != Peer(ms[i], dir)
  }

  /**
   * First message wins: an entry is appended by a pass exactly when it comes from
   * the first message of a peer that was not yet in the feed.
   */
  lemma {:induction false} NewPeersAreFirstOccurrences(seen: set<UserId>, ms: seq<Message>, dir: Direction, e: FeedEntry)
    ensures e in NewPeers(seen, ms, dir) <==>
      exists i :: FirstOccurrence(seen, ms, dir, i) && e == EntryOf(ms[i], dir)
    decreases |ms|
  {
    if ms != [] {
      var u := Peer(ms[0], dir);
      var seen' := if u in seen then seen else seen + {u};
      NewPeersAreFirstOccurrences(seen', ms[1..], dir, e);
      if e in NewPeers(seen, ms, dir) {
        if u !in seen && e == EntryOf(ms[0], dir) {
          assert FirstOccurrence(seen, ms, dir, 0);
        } else {
          assert e in NewPeers(seen', ms[1..], dir);
          var i :| FirstOccurrence(seen', ms[1..], dir, i) && e == EntryOf(ms[1..][i], dir);
          assert FirstOccurrence(seen, ms, dir, i + 1) by {
            forall j | 0 <= j < i + 1 ensures Peer(ms[j], dir) != Peer(ms[i + 1], dir) {
              if j > 0 { assert ms[j] == ms[1..][j - 1]; }
            }
          }
        }
      } else {
        forall i | FirstOccurrence(seen, ms, dir, i) ensures e != EntryOf(ms[i], dir) {
          if i == 0 {
            assert e != EntryOf(ms[0], dir);
          } else {
            assert ms[i] == ms[1..][i - 1];
            assert FirstOccurrence(seen', ms[1..], dir, i - 1) by {
              forall j | 0 <= j < i - 1 ensures Peer(ms[1..][j], dir) != Peer(ms[1..][i - 1], dir) {
                assert ms[1..][j] == ms[j + 1];
              }
            }
          }
        }
      }
    }
  }

  /**
   * First message wins in the dictionary too: the first message of a peer not
   * yet in the feed fixes the value stored for that peer, and no later message
   * of the pass changes it.
   */
  lemma FirstOccurrenceSetsInfo(f: Feed, ms: seq<Message>, dir: Direction, i: int)
    requires FirstOccurrence(f.ids.Keys, ms, dir, i)
    ensures var g := MessagesPass(f, ms, dir);
      Peer(ms[i], dir) in g.ids && g.ids[Peer(ms[i], dir)] == InfoOf(ms[i], dir)
  {
    var u := Peer(ms[i], dir);
    var before := MessagesPass(f, ms[..i], dir);
    PassAddsPeerKeys(f, ms[..i], dir);
    assert u !in Peers(ms[..i], dir) by {
      forall j | 0 <= j < i ensures Peer(ms[..i][j], dir) != u {
        assert ms[..i][j] == ms[j];
      }
    }
    assert ms == ms[..i] + ms[i..];
    PassAppend(f, ms[..i], ms[i..], dir);
    var h := MessageStep(before, ms[i], dir);
    assert ms[i..][0] == ms[i] && ms[i..][1..] == ms[i + 1..];
    assert MessagesPass(before, ms[i..], dir) == MessagesPass(h, ms[i + 1..], dir);
    PassAddsPeerKeys(h, ms[i + 1..], dir);
  }

  /**
   * After the received pass, then the sent pass, on an empty feed, the feed lists
   * first every sender (by first received message), then every recipient that
   * is not also a sender (by first sent message); received entries stay ahead.
   */
  lemma {:induction false} ReceivedAheadOfSent(received: seq<Message>, sent: seq<Message>)
    ensures var f1 := MessagesPass(EmptyFeed, received, Received);
      var f2 := MessagesPass(f1, sent, Sent);
      && f1.entries == NewPeers({}, received, Received)
      && f2.entries == f1.entries + NewPeers(Peers(received, Received), sent, Sent)
      && Keyed(f2)
  {
    var f1 := MessagesPass(EmptyFeed, received, Received);
    PassAppendsNewPeers(EmptyFeed, received, Received);
    assert EmptyFeed.ids.Keys == {} && EmptyFeed.entries == [];
    assert f1.entries == NewPeers({}, received, Received);
    PassKeepsKeyed(EmptyFeed, received, Received);
    PassAddsPeerKeys(EmptyFeed, received, Received);
    assert f1.ids.Keys == Peers(received, Received);
    PassAppendsNewPeers(f1, sent, Sent);
    PassKeepsKeyed(f1, sent, Sent);
  }

  /** What the message guard and `forEach` see: a raw response object has no `length`, so nothing. */
  function ArrayView(r: FetchResult): (ms: seq<Message>)
    ensures r.MessageList? ==> ms == r.list
    ensures r.RawResponse? ==> ms == []
  {
    match r
    case RawResponse(_) => []
    case MessageList(list) => list
  }

  /** One message pass as the source runs it: a loop that pushes and inserts. */
  method AddMessages(f: Feed, messages: seq<Message>, dir: Direction) returns (g: Feed)
    ensures g == MessagesPass(f, messages, dir)
    ensures Keyed(f) ==> Keyed(g) && g.entries == f.entries + NewPeers(f.ids.Keys, messages, dir)
  {
    var recentContactMessages := f.entries;
    var recentContactsIds := f.ids;
    for i := 0 to |messages|
      invariant MessagesPass(Feed(recentContactMessages, recentContactsIds), messages[i..], dir)
             == MessagesPass(f, messages, dir)
    {
      var m := messages[i];
      assert messages[i..][1..] == messages[i + 1..];
      var user := Peer(m, dir);
      if user !in recentContactsIds {
        recentContactsIds := recentContactsIds[user := ContactInfo(PeerName(m, dir), None, None)];
        recentContactMessages := recentContactMessages + [FeedEntry(user, m.smallmessage, m.timecreated)];
      }
    }
    g := Feed(recentContactMessages, recentContactsIds);
    if Keyed(f) {
      PassKeepsKeyed(f, messages, dir);
      PassAppendsNewPeers(f, messages, dir);
    }
  }
}
