# Moodle Mobile messages feed and body classes, modelled in Dafny

This project models two parts of the Moodle Mobile app.

**The messages plugin (`plugins/messages/main.js`).**

- `_renderRecentMessages` builds the "recent conversations" feed. It makes three steps in a chain:
  1. It fetches the messages the user received. The first message from each sender becomes one feed entry.
  2. It fetches the messages the user sent. Each recipient not yet in the feed gets one entry.
  3. It fetches the user's contacts. A contact already in the feed gets its picture and unread count. An unseen contact with unread messages is appended with a `"..."` placeholder.
- The two message fetches reuse one parameter object. The contacts fetch (`_getContacts`) takes no parameters.
- `_getRecentMessages` is the paging helper that both message fetches go through:
  - It first asks for unread messages.
  - When that batch is shorter than `limitnum`, it lowers `limitnum` on the shared object and asks for read messages too. The two batches are merged.
  - When the batch is full, or the top-up fetch fails, it hands the raw response object to its caller instead of a list.
- `_renderConversation` joins the received and the sent messages into a local array and sorts it by `timecreated`.
- `_createContact` and `_blockContact` treat a non-empty list of warnings as a failure carrying the first warning's message.

**The app component (`www/app/app.component.ts`).**

- It keeps the body classes `version-<major>`, `version-<major>-<minor>` and `version-<major>-<minor>-<patch>` in line with the release of the current site. On login, site update and site add, it removes all `version-` classes and then adds the new ones.
- It maintains the `core-offline` and `core-online` classes when the network state changes.

**Structure of the Dafny project.**

- The remote calls are not modelled. Their replies are parameters: `WsReply` is one reply of `core_message_get_messages`, and `ContactsOutcome` is the outcome of `core_message_get_contacts`.
- The two mutable objects shared across calls are classes:
  - `RecentMessages.Query` is the shared `params` object.
  - `BodyClassList.AppComponent` holds `document.body.classList` as a set of tokens.
- The other in-place updates of the source are local variables of the methods that model them:
  - the pushes into `recentContactMessages` and the writes into `recentContactsIds` are in `RecentFeed.AddMessages` and `FeedContacts.AddContacts`;
  - the overwriting of `parts[1]` and `parts[2]` is in `BodyClassList.AppComponent.AddVersionClass`.
- The in-place sort of `_renderConversation` is modelled on values; see "## Left out".
- Each loop of the source is a method with a loop, proved equal to a specification function. For the feed passes that function is a recursive fold. For `removeVersionClass` it is a set comprehension. The lemmas about the source's behaviour are proved on those functions.

Two behaviours of the code are captured as they are written, because the rest of the model depends on them:

- The `messages.length > 0` test reads `undefined` on the raw object, so a full page of unread messages contributes nothing to the feed (`RecentFeedView.FullUnreadPageIsDropped`).
- The sent-messages fetch starts from the `limitnum` that the received fetch left behind (`RecentFeedView.SentFetchInheritsLimit`).

Counted from the code, one `_renderRecentMessages` can send up to seven requests:

- two from `_renderMessageList`, which it calls first;
- two each from the received and the sent fetch, since each `_getRecentMessages` may make two;
- one `_getContacts` call.

The model covers the four requests of the received and sent fetches and the contacts reply.

## Model

| member | source | states |
|---|---|---|
| RecentMessages.Query.constructor | plugins/messages/main.js:158-166 | The parameter object starts with the site user as recipient, sender 0, `read` 0 and the given `limitnum`. |
| RecentMessages.RecentDelivery | plugins/messages/main.js:308-347 | If the first call fails, its error goes to the error callback. A response without `messages` fails exactly when it is the "disabled" exception, with its message; otherwise it gives an empty list. A full unread batch, or a failed top-up fetch, hands over the raw first response. A topped-up batch gives the unread messages followed by the read ones, if the second response has any. |
| RecentMessages.IssuedRequests | plugins/messages/main.js:310-322 | The first request asks for unread messages with the caller's limit. A second request is sent exactly when the unread batch was shorter than the limit. It asks for read messages with the limit lowered by the batch size. |
| RecentMessages.CombinedWithinLimit | plugins/messages/main.js:315-325 | When the server honours the second request's limit, a merged list never holds more messages than the original `limitnum`. |
| RecentMessages.GetRecentMessages | plugins/messages/main.js:308-347 | On the shared `Query`: it delivers what `RecentDelivery` describes and sends the requests `IssuedRequests` lists. It leaves the object equal to the last request it sent. |
| RecentFeed.MessageStep | plugins/messages/main.js:174-183 | One message keeps the feed keyed: one entry per user id, and the entries' users equal the dictionary's keys. A peer already known leaves the feed unchanged. A new peer appends exactly its entry and key, and the new key holds the peer's name with no picture or unread count. No existing value changes. |
| RecentFeed.PassKeepsKeyed | plugins/messages/main.js:174-183 | A whole messages pass keeps the feed keyed. |
| RecentFeed.PassAppendsNewPeers | plugins/messages/main.js:194-205 | A pass appends exactly the reference entries `NewPeers`: the first message of each peer not already known, in input order. |
| RecentFeed.PassAddsPeerKeys | plugins/messages/main.js:175-176 | After a pass, the dictionary's keys are the old keys plus every peer of the batch. Values already present are untouched. |
| RecentFeed.FirstOccurrenceSetsInfo | plugins/messages/main.js:175-176 | The first message of a peer not yet in the feed fixes that peer's dictionary value (its name only). No later message of the pass changes it. |
| RecentFeed.NewPeersAreFirstOccurrences | plugins/messages/main.js:173-183 | An entry is appended if and only if it comes from the first message of its peer in the batch, and that peer was not known before. |
| RecentFeed.ReceivedAheadOfSent | plugins/messages/main.js:172-205 | The received pass lists one entry per sender. The sent pass then appends only recipients that sent nothing, after all the received entries. The result is keyed. |
| RecentFeed.ArrayView | plugins/messages/main.js:173 | A list is read as itself. The raw response object reads as no messages, since it has no `length`. |
| RecentFeed.AddMessages | plugins/messages/main.js:173-184 | The `forEach` loop computes the messages pass. On a keyed feed, it appends exactly `NewPeers` and keeps the feed keyed. |
| FeedContacts.Enrich | plugins/messages/main.js:215-221 | A known contact keeps its name. Its picture is replaced only by a non-empty URL. Its unread count is replaced whenever the contact defines one, zero included. |
| FeedContacts.ContactStep | plugins/messages/main.js:214-234 | One contact keeps the feed keyed and only appends. A known contact leaves the entries alone and has its value enriched. An unseen contact with unread messages appends the `"..."`/0 placeholder and stores its name and unread count. An unseen contact without unread messages changes nothing. No other user's value changes. |
| FeedContacts.ContactsPassInOrder | plugins/messages/main.js:211-213 | The contacts pass treats online, offline and strangers as one list, in that order. A missing or empty category contributes nothing. |
| FeedContacts.ContactsFoldKeepsKeyed | plugins/messages/main.js:214-234 | Folding contacts keeps the feed keyed. |
| FeedContacts.ContactsFoldAppendsNewcomers | plugins/messages/main.js:222-233 | The contacts fold appends exactly the reference placeholders `UnreadNewcomers`: one per unseen contact with unread messages, the first time it is met. |
| FeedContacts.KnownContactEnriched | plugins/messages/main.js:215-221 | A user already in the feed stays in the dictionary. Its value changes only by the enrichments of the contacts that carry its id, applied in order. |
| FeedContacts.ContactsFoldKeys | plugins/messages/main.js:215-227 | The contacts fold adds as keys exactly the ids of the contacts with unread messages. |
| FeedContacts.NewcomerSetsInfo | plugins/messages/main.js:222-227 | A contact joins the dictionary, with its name and unread count, at the first contact with unread messages that carries its id. The later contacts with that id only enrich the value. |
| FeedContacts.AddContacts | plugins/messages/main.js:209-237 | The nested loops over categories and contacts compute the contacts pass. On a keyed feed they append exactly `UnreadNewcomers` of all contacts and keep the feed keyed. |
| RecentFeedView.RecentViewKeyed | plugins/messages/main.js:155-236 | Wherever the aggregation stops, the feed holds one entry per user whose keys match the dictionary. |
| RecentFeedView.ReceivedEntriesFirst | plugins/messages/main.js:168-236 | When the received fetch succeeds, the feed starts with the first received message of every sender, whatever the later passes do. |
| RecentFeedView.SentFetchInheritsLimit | plugins/messages/main.js:186-190 | When the received fetch was topped up after n unread messages, the sent fetch asks for 50 - n messages, not 50. |
| RecentFeedView.FullUnreadPageIsDropped | plugins/messages/main.js:314-316 | A page of 50 or more unread messages gives the same result as a reply without any messages. |
| RecentFeedView.RenderRecentMessages | plugins/messages/main.js:152-256 | The callback chain on one shared `Query` gives the aggregation view. The resulting feed is keyed. |
| Conversation.Insert | plugins/messages/main.js:117-122 | Inserting into a list sorted by time gives a sorted list with the message added. The multiset is the old one plus the message. |
| Conversation.SortByTime | plugins/messages/main.js:117-122 | The result is sorted by `timecreated` and a permutation of the input. |
| Conversation.RenderConversation | plugins/messages/main.js:113-123 | The conversation is a permutation of the received messages joined with the sent ones, sorted by `timecreated`. |
| Conversation.SortedPermutationsAgreeOnTimes | plugins/messages/main.js:117-122 | Any two sorted permutations of the same messages have the same length and the same time at every position, so the sort's outcome is determined up to ties. |
| ContactActions.WarningsOutcome | plugins/messages/main.js:387-397 | The call fails exactly when warnings are present and non-empty, and then carries the first warning's message. Otherwise it succeeds. |
| ReleaseVersion.Split | www/app/app.component.ts:181 | `split` gives at least one field, no field holds the separator, and joining the fields gives back the string. |
| ReleaseVersion.SplitJoin | www/app/app.component.ts:181 | Splitting a join of separator-free fields gives back the fields. |
| ReleaseVersion.SplitLimit | www/app/app.component.ts:181 | `split` with a limit keeps exactly the first min(limit, n) fields of the full split, where n is the number of fields. |
| ReleaseVersion.FieldOr | www/app/app.component.ts:183-184 | A missing or empty field reads as "0". Any other field reads as itself. |
| ReleaseVersion.VersionClasses | www/app/app.component.ts:180-190 | There are three classes, each starting with `version-`, and each strictly extends the previous one. |
| ReleaseVersion.ClassesOfParts | www/app/app.component.ts:183-190 | Given the split fields, there are three classes, each starting with `version-`, and each strictly extends the previous one. |
| ReleaseVersion.SplitLimitOfJoin | www/app/app.component.ts:181 | Splitting a release joined from separator-free fields with limit 3 gives back its fields, or its first three when it has more. |
| ReleaseVersion.VersionClassesOfFields | www/app/app.component.ts:181-190 | For a release made of given fields, the classes name the first field, then the first two, then the first three. A missing or empty second or third field defaults to "0", and fields after the third are ignored. |
| ReleaseVersion.VersionClassesOfRelease | www/app/app.component.ts:186-190 | "A.B.C" gives `version-A`, `version-A-B` and `version-A-B-C`. |
| ReleaseVersion.VersionClassIsPrefix | www/app/app.component.ts:200 | `substring(0, 8) == 'version-'` holds exactly when the class starts with `version-`. |
| BodyClassList.WithoutVersionClasses | www/app/app.component.ts:196-208 | Removal keeps exactly the classes that are not version classes. |
| BodyClassList.RemoveVersionClassIdempotent | www/app/app.component.ts:196-208 | Removing the version classes twice is the same as once. |
| BodyClassList.AddTokens | www/app/app.component.ts:186-190 | `classList.add` with valid tokens adds them all, leaving duplicates as they are. With one invalid token it throws and adds none. |
| BodyClassList.RefreshedClasses | www/app/app.component.ts:102-103 | After remove-then-add, the only version classes left are the new release's, present when they are valid tokens. Every other class is untouched. |
| BodyClassList.RefreshIdempotent | www/app/app.component.ts:112-113 | Refreshing twice with the same release is the same as refreshing once. |
| BodyClassList.NetworkClasses | www/app/app.component.ts:143-156 | `core-offline` is present exactly when offline. Going offline removes `core-online`. Coming back from offline adds `core-online`. No other class changes. |
| BodyClassList.AppComponent.AddVersionClass | www/app/app.component.ts:180-191 | On the body classes: adds the release's three classes exactly when all three are valid tokens, and reports whether it did. |
| BodyClassList.AppComponent.RemoveVersionClass | www/app/app.component.ts:196-208 | Collecting, then removing, leaves exactly the classes that are not version classes. |
| BodyClassList.AppComponent.RefreshVersionClasses | www/app/app.component.ts:89-90 | The remove-then-add of the LOGIN, SITE_UPDATED and SITE_ADDED handlers gives `RefreshedClasses`. |
| BodyClassList.AppComponent.OnNetworkChange | www/app/app.component.ts:142-157 | The network-change handler gives `NetworkClasses`, and the body keeps only valid tokens. |

## Left out

- The remote calls (`MM.moodleWSCall`, `_getMessages`, `_getContacts`) and their caching are not modelled. Their replies and errors are inputs.
- `_renderMessageList`, which `_renderRecentMessages` calls first, is not modelled. It sends its own `_getRecentMessages` fetch with a fresh limit-50 parameter object and hands the result to `_renderMessages`. That fetch does not affect the feed, and its requests are not part of `RecentView.requests`.
- The DOM work of the messages plugin is not modelled: `_renderMessages`, `_format`, the templates, the "loading-row" class and `popErrorMessage`. Which error is shown is modelled; how it is shown is not.
- `showMessages`, `showConversation`, `isPluginVisible`, plugin registration and the resume binding are outside the modelled core.
- `_createContact` and `_blockContact` evaluate `successCallback(contacts)` on success, and `contacts` is not declared in either function. Unless a global named `contacts` exists, evaluating the argument throws a ReferenceError before any callback runs. The model keeps only the success-or-failure decision on the warnings, which is one function because both calls use the same test. That decision does not depend on the callback.
- The `type`, `newestfirst` and `limitfrom` fields of the parameter object are omitted. They never change.
- A `null` property is not modelled. `Option.None` stands for a missing (`undefined`) property only. For a known contact, `typeof contact.unread != "undefined"` also holds for `null`, so the source would store `null` as the unread count. The service declares `unread` an integer, so the model reads a present count as a number.
- `_renderRecentMessages` builds `recentContactMessages` and `recentContactsIds` and then discards them. Nothing reads them after the contacts pass, and no render call follows. What the user sees comes from `_renderMessageList`. `RecentFeedView.RecentView.feed` models those two locals as they stand at the end of the chain.
- `_renderConversation` returns nothing: the sorted array is a local that is then dropped. `Conversation.RenderConversation` returns that local array. The in-place `sort` is modelled on values, as a functional insertion sort: the update of the array in place is not captured, and neither is the engine's actual algorithm.
- `timecreated` is modelled as an integer, so the comparator's `parseInt` is the identity.
- The model concatenates two lists in `_renderConversation`. A raw response object as an argument of `concat` is not modelled.
- `Conversation.SortByTime`: the order of messages with equal times is not promised, so the contract states sortedness and permutation only.
- The event subscriptions and their guards (`data.siteId`, `site.getInfo()`, the current-site check) are not modelled. `getReleaseNumber` is not modelled either: the release string is an input.
- Loading custom language strings and the logout navigation are not modelled. The LOGOUT handler only calls `RemoveVersionClass` on the body.
- The delayed removal of `core-online` (`setTimeout` after 3000 ms) is not modelled, because it depends on a clock.
- The iteration order of `Array.from(classList)` is not modelled: the body classes are a set, and the result does not depend on the order.
- `www/core/features/course/classes/main-activity-page.ts` is not part of this model.
