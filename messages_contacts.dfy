/**
 * The contacts pass of `_renderRecentMessages`: contacts already in the feed
 * are enriched with their picture and unread count, unseen contacts with
 * unread messages are appended with a placeholder entry.
 */
module FeedContacts {
  import opened Optional
  import opened MessageData
  import opened RecentFeed

  /** One contact record of `core_message_get_contacts`. */
  datatype Contact = Contact(id: UserId, fullname: string, profileimageurlsmall: Option<string>, unread: Option<int>)

  /** The reply of `core_message_get_contacts`: each category may be missing. */
  datatype ContactsReply = ContactsReply(
    online: Option<seq<Contact>>,
    offline: Option<seq<Contact>>,
    strangers: Option<seq<Contact>>)

  /** A picture URL is truthy when present and not the empty string. */
  predicate HasPicture(c: Contact) {
    c.profileimageurlsmall.Some? && c.profileimageurlsmall.value != ""
  }

  /** An unread count is truthy when present and not zero. */
  predicate HasUnread(c: Contact) {
    c.unread.Some? && c.unread.value != 0
  }

  /** The entry pushed for a contact that only shows up through its unread count. */
  function Placeholder(id: UserId): FeedEntry {
    FeedEntry(id, "...", 0)
  }

  /** The dictionary value stored for a contact that joins the feed: its name and unread count. */
  function NewcomerInfo(c: Contact): ContactInfo {
    ContactInfo(c.fullname, None, c.unread)
  }

  /** The update of a known contact's dictionary value. */
  function Enrich(info: ContactInfo, c: Contact): (r: ContactInfo)
    ensures r.fullname == info.fullname
    ensures r.profileimageurlsmall == if HasPicture(c) then c.profileimageurlsmall else info.profileimageurlsmall
    // an unread count overwrites whenever it is defined, zero included
    ensures r.unread == if c.unread.Some? then c.unread else info.unread
  {
    var withPicture := if HasPicture(c) then info.(profileimageurlsmall := c.profileimageurlsmall) else info;
    if c.unread.Some? then withPicture.(unread := c.unread) else withPicture
  }

  /** One iteration of the inner `forEach` over a category. */
  function ContactStep(f: Feed, c: Contact): (g: Feed)
    ensures Keyed(f) ==> Keyed(g)
    // entries are only ever appended, and only for an unseen contact with unread messages
    ensures f.entries <= g.entries
    ensures |g.entries| == |f.entries| + (if c.id !in f.ids && HasUnread(c) then 1 else 0)
    ensures c.id in f.ids || HasUnread(c) ==> g.ids.Keys == f.ids.Keys + {c.id}
    ensures c.id !in f.ids && !HasUnread(c) ==> g == f
    // a known contact is enriched in place; an unread newcomer gets the placeholder and its name and count
    ensures c.id in f.ids ==> g.entries == f.entries && g.ids[c.id] == Enrich(f.ids[c.id], c)
    ensures c.id !in f.ids && HasUnread(c) ==>
      g.entries == f.entries + [Placeholder(c.id)] && g.ids[c.id] == NewcomerInfo(c)
    // every other value is untouched
    ensures forall u :: u in f.ids && u != c.id ==> u in g.ids && g.ids[u] == f.ids[u]
  {
    if c.id in f.ids then
      Feed(f.entries, f.ids[c.id := Enrich(f.ids[c.id], c)])
    else if HasUnread(c) then
      var info := NewcomerInfo(c);
      if Keyed(f) then AppendKeepsKeyed(f, Placeholder(c.id), info); Feed(f.entries + [Placeholder(c.id)], f.ids[c.id := info])
      else Feed(f.entries + [Placeholder(c.id)], f.ids[c.id := info])
    else f
  }

  function ContactsFold(f: Feed, cs: seq<Contact>): Feed
    decreases |cs|
  {
    if cs == [] then f else ContactsFold(ContactStep(f, cs[0]), cs[1..])
  }

  /** A category is visited only when present and non-empty. */
  function CategoryStep(f: Feed, category: Option<seq<Contact>>): Feed {
    if category.Some? && |category.value| > 0 then ContactsFold(f, category.value) else f
  }

  function CategoriesFold(f: Feed, categories: seq<Option<seq<Contact>>>): Feed
    decreases |categories|
  {
    if categories == [] then f else CategoriesFold(CategoryStep(f, categories[0]), categories[1..])
  }

  /** The order of `types`: online, offline, strangers. */
  function Categories(reply: ContactsReply): seq<Option<seq<Contact>>> {
    [reply.online, reply.offline, reply.strangers]
  }

  function ContactsPass(f: Feed, reply: ContactsReply): Feed {
    CategoriesFold(f, Categories(reply))
  }

  function Listed(category: Option<seq<Contact>>): seq<Contact> {
    if category.Some? then category.value else []
  }

  /** Every contact of the reply, in visiting order. */
  function AllContacts(reply: ContactsReply): seq<Contact> {
    Listed(reply.online) + Listed(reply.offline) + Listed(reply.strangers)
  }

  lemma {:induction false} ContactsFoldAppend(f: Feed, a: seq<Contact>, b: seq<Contact>)
    ensures ContactsFold(f, a + b) == ContactsFold(ContactsFold(f, a), b)
    decreases |a|
  {
    if a != [] {
      assert (a + b)[0] == a[0] && (a + b)[1..] == a[1..] + b;
      ContactsFoldAppend(ContactStep(f, a[0]), a[1..], b);
    } else {
      assert a + b == b;
    }
  }

  /**
   * The contacts pass visits the contacts one by one as if the three categories
   * were one list, online first, then offline, then strangers; a missing or
   * empty category contributes nothing.
   */
  lemma ContactsPassInOrder(f: Feed, reply: ContactsReply)
    ensures ContactsPass(f, reply) == ContactsFold(f, AllContacts(reply))
  {
    var a, b, c := Listed(reply.online), Listed(reply.offline), Listed(reply.strangers);
    var cats := Categories(reply);
    var f1 := CategoryStep(f, reply.online);
    var f2 := CategoryStep(f1, reply.offline);
    var f3 := CategoryStep(f2, reply.strangers);
    assert cats[1..] == [reply.offline, reply.strangers] && cats[1..][1..] == [reply.strangers];
    assert cats[1..][1..][1..] == [];
    calc {
      ContactsPass(f, reply);
      CategoriesFold(f1, cats[1..]);
      CategoriesFold(f2, cats[1..][1..]);
      CategoriesFold(f3, cats[1..][1..][1..]);
      f3;
    }
    assert f1 == ContactsFold(f, a);
    assert f2 == ContactsFold(f1, b);
    assert f3 == ContactsFold(f2, c);
    ContactsFoldAppend(f, a, b);
    ContactsFoldAppend(f, a + b, c);
  }

  /**
   * Reference definition of what the contacts pass appends: a placeholder for
   * each contact not in `seen` that has unread messages, the first time it is
   * met; unseen contacts without unread messages are skipped and do not count as met.
   */
  function UnreadNewcomers(seen: set<UserId>, cs: seq<Contact>): seq<FeedEntry>
    decreases |cs|
  {
    if cs == [] then []
    else if cs[0].id in seen then UnreadNewcomers(seen, cs[1..])
    else if HasUnread(cs[0]) then [Placeholder(cs[0].id)] + UnreadNewcomers(seen + {cs[0].id}, cs[1..])
    else UnreadNewcomers(seen, cs[1..])
  }

  /** The contacts fold keeps the feed invariant. */
  lemma {:induction false} ContactsFoldKeepsKeyed(f: Feed, cs: seq<Contact>)
    requires Keyed(f)
    ensures Keyed(ContactsFold(f, cs))
    decreases |cs|
  {
    if cs != [] {
      ContactsFoldKeepsKeyed(ContactStep(f, cs[0]), cs[1..]);
    }
  }

  /** The contacts fold appends exactly the reference placeholders. */
  lemma {:induction false} ContactsFoldAppendsNewcomers(f: Feed, cs: seq<Contact>)
    ensures ContactsFold(f, cs).entries == f.entries + UnreadNewcomers(f.ids.Keys, cs)
    decreases |cs|
  {
    if cs != [] {
      var h := ContactStep(f, cs[0]);
      assert ContactsFold(f, cs) == ContactsFold(h, cs[1..]);
      ContactsFoldAppendsNewcomers(h, cs[1..]);
      if cs[0].id in f.ids {
        assert h.entries == f.entries && h.ids.Keys == f.ids.Keys;
      } else if HasUnread(cs[0]) {
        calc {
          f.entries + UnreadNewcomers(f.ids.Keys, cs);
          f.entries + ([Placeholder(cs[0].id)] + UnreadNewcomers(h.ids.Keys, cs[1..]));
          h.entries + UnreadNewcomers(h.ids.Keys, cs[1..]);
        }
      }
    }
  }

  /** Enrich a dictionary value with every contact of `cs` that carries id `u`, in order. */
  function EnrichWith(info: ContactInfo, u: UserId, cs: seq<Contact>): ContactInfo
    decreases |cs|
  {
    if cs == [] then info
    else EnrichWith(if cs[0].id == u then Enrich(info, cs[0]) else info, u, cs[1..])
  }

  /**
   * A user already in the feed keeps its key, and its dictionary value changes
   * only by the enrichments of the contacts that carry its id.
   */
  lemma {:induction false} KnownContactEnriched(f: Feed, cs: seq<Contact>, u: UserId)
    requires u in f.ids
    ensures u in ContactsFold(f, cs).ids
    ensures ContactsFold(f, cs).ids[u] == EnrichWith(f.ids[u], u, cs)
    decreases |cs|
  {
    if cs != [] {
      var h := ContactStep(f, cs[0]);
      assert u in h.ids && h.ids[u] == if cs[0].id == u then Enrich(f.ids[u], cs[0]) else f.ids[u];
      KnownContactEnriched(h, cs[1..], u);
    }
  }

  /** The ids of the contacts with unread messages. */
  function UnreadIds(cs: seq<Contact>): set<UserId> {
    set i | 0 <= i < |cs| && HasUnread(cs[i]) :: cs[i].id
  }

  /** The contacts fold adds as keys exactly the ids of the contacts with unread messages. */
  lemma {:induction false} ContactsFoldKeys(f: Feed, cs: seq<Contact>)
    ensures ContactsFold(f, cs).ids.Keys == f.ids.Keys + UnreadIds(cs)
    decreases |cs|
  {
    if cs != [] {
      var h := ContactStep(f, cs[0]);
      ContactsFoldKeys(h, cs[1..]);
      assert h.ids.Keys == f.ids.Keys + (if HasUnread(cs[0]) then {cs[0].id} else {});
      assert UnreadIds(cs) == (if HasUnread(cs[0]) then {cs[0].id} else {}) + UnreadIds(cs[1..]) by {
        forall u | u in UnreadIds(cs) ensures u in (if HasUnread(cs[0]) then {cs[0].id} else {}) + UnreadIds(cs[1..]) {
          var i :| 0 <= i < |cs| && HasUnread(cs[i]) && cs[i].id == u;
          if i > 0 { assert cs[1..][i - 1] == cs[i]; }
        }
        forall u | u in UnreadIds(cs[1..]) ensures u in UnreadIds(cs) {
          var i :| 0 <= i < |cs[1..]| && HasUnread(cs[1..][i]) && cs[1..][i].id == u;
          assert cs[i + 1] == cs[1..][i];
        }
      }
    }
  }

  /**
   * A contact that joins the feed, at the first contact with unread messages
   * carrying its id, stores its name and unread count; the later contacts with
   * that id then only enrich the value.
   */
  lemma NewcomerSetsInfo(f: Feed, cs: seq<Contact>, i: int)
    requires 0 <= i < |cs| && cs[i].id !in f.ids && HasUnread(cs[i])
    requires forall j :: 0 <= j < i && cs[j].id == cs[i].id ==> !HasUnread(cs[j])
    ensures var g := ContactsFold(f, cs);
      cs[i].id in g.ids && g.ids[cs[i].id] == EnrichWith(NewcomerInfo(cs[i]), cs[i].id, cs[i + 1..])
  {
    var u := cs[i].id;
    var before := ContactsFold(f, cs[..i]);
    ContactsFoldKeys(f, cs[..i]);
    assert u !in UnreadIds(cs[..i]) by {
      forall j | 0 <= j < i && HasUnread(cs[..i][j]) ensures cs[..i][j].id != u {
        assert cs[..i][j] == cs[j];
      }
    }
    assert cs == cs[..i] + cs[i..];
    ContactsFoldAppend(f, cs[..i], cs[i..]);
    var h := ContactStep(before, cs[i]);
    assert cs[i..][0] == cs[i] && cs[i..][1..] == cs[i + 1..];
    assert ContactsFold(before, cs[i..]) == ContactsFold(h, cs[i + 1..]);
    KnownContactEnriched(h, cs[i + 1..], u);
  }

  /** The contacts pass as the source runs it: an outer loop over the categories, an inner one over contacts. */
  method AddContacts(f: Feed, contacts: ContactsReply) returns (g: Feed)
    ensures g == ContactsPass(f, contacts)
    ensures Keyed(f) ==> Keyed(g) && g.entries == f.entries + UnreadNewcomers(f.ids.Keys, AllContacts(contacts))
  {
    var recentContactMessages := f.entries;
    var recentContactsIds := f.ids;
    var types := Categories(contacts);
    for t := 0 to |types|
      invariant CategoriesFold(Feed(recentContactMessages, recentContactsIds), types[t..]) == ContactsPass(f, contacts)
    {
      assert types[t..][1..] == types[t + 1..];
      if types[t].Some? && |types[t].value| > 0 {
        var category := types[t].value;
        ghost var before := Feed(recentContactMessages, recentContactsIds);
        for k := 0 to |category|
          invariant ContactsFold(Feed(recentContactMessages, recentContactsIds), category[k..]) == ContactsFold(before, category)
        {
          var contact := category[k];
          assert category[k..][1..] == category[k + 1..];
          if contact.id in recentContactsIds {
            var info := recentContactsIds[contact.id];
            if HasPicture(contact) {
              info := info.(profileimageurlsmall := contact.profileimageurlsmall);
            }
            if contact.unread.Some? {
              info := info.(unread := contact.unread);
            }
            recentContactsIds := recentContactsIds[contact.id := info];
          } else if HasUnread(contact) {
            recentContactsIds := recentContactsIds[contact.id := ContactInfo(contact.fullname, None, contact.unread)];
            recentContactMessages := recentContactMessages + [Placeholder(contact.id)];
          }
        }
      }
    }
    g := Feed(recentContactMessages, recentContactsIds);
    ContactsPassInOrder(f, contacts);
    if Keyed(f) {
      ContactsFoldKeepsKeyed(f, AllContacts(contacts));
      ContactsFoldAppendsNewcomers(f, AllContacts(contacts));
    }
  }
}
