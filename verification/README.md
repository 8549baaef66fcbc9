# Serval Chat: public feed list and message feed

A model of two pieces of the Serval Chat Android app.

- **The public-feeds list** (`FeedListAdapter`). It shows rhizome bundles in a
  list. The adapter remembers every bundle id it has been given, in the set
  `bundles`, so that no bundle is shown twice. `addItem` records an unknown id
  and inserts the bundle. A known id offered at the tail is dropped. A known id
  offered anywhere else has its old entry removed by `removeItem` and is
  re-inserted. When a row is bound, it opens the bundle's author, or its sender
  when there is no author. It shows the manifest's name, or the subscriber's sid
  abbreviation when the name is null or empty.
- **A MeSH MB message feed** (`MessageFeed`). This is the feed of one signing
  key. It is read from the daemon either as history ("past") or as the messages
  after a token ("future"). `start` does nothing while `last == null && hasMore`.
  Each successful read takes the feed name from the daemon's reply and passes it
  on to the peer, if the feed has one.

Files:

- `servaldna.dfy`: the shared values. Ids are byte sequences, a `Subscriber` is a
  record, and `Option`/`Result` stand for Java's null and exceptions.
- `feeds.dfy` (module `Feeds`): specification functions for the list
  (`RemoveFirst`, `InsertAt`, `Added`), lemmas about them, the two display
  fallbacks, and the class `FeedListAdapter`. The class holds `items` as a `seq`
  and `bundles` as a `set`, and its methods update them in place.
- `mid.dfy` (module `Mid`): the class `MessageFeed` and a minimal `Peer`.

Modelling choices:

- `ScrollingAdapter.addItem` (the `super.addItem` call) is not part of this
  model. It stands in as "insert the item into `items` at `index`"
  (`InsertAt`, `FeedListAdapter.InsertItem`). Like `List.add(index, x)`, it
  requires `index <= items.size()`.
- `AbstractFutureList.start` (the `super.start()` call) is not part of this
  model. It stands in as an opaque call that is only counted (`inheritedStarts`).
- `Peer` is not part of this model. Only the calls `updateFeedName` receives are
  recorded (`feedNameUpdates`).
- The daemon calls `meshmbListMessages` and `meshmbListMessagesSince` become a
  returned `Request` value. Their reply is a parameter: either a list carrying a
  name, or one of the two exceptions.
- A Java constructor that throws is modelled as a static method returning a
  `Result`. The field `peer` is only ever assigned in a constructor, so it is a
  `const`, like `id`.
- `MessageFeed.start` returns without calling the inherited `start` when
  `last == null && hasMore`.

## Model

| member | source | states |
|---|---|---|
| Feeds.RemoveFirst | app/src/main/java/org/servalproject/servalchat/feeds/FeedListAdapter.java:32-40 | removing the first entry for an id shortens the list by at most one, so an index below the old size is at most the new size |
| Feeds.RemoveFirstAt | app/src/main/java/org/servalproject/servalchat/feeds/FeedListAdapter.java:32-40 | when `k` is the first position holding `id`, exactly entry `k` is removed and all other entries keep their relative order |
| Feeds.RemoveFirstAbsent | app/src/main/java/org/servalproject/servalchat/feeds/FeedListAdapter.java:34-39 | when no entry has the id, the list is unchanged |
| Feeds.RemoveFirstLength | app/src/main/java/org/servalproject/servalchat/feeds/FeedListAdapter.java:34-39 | the list shrinks by one exactly when some entry has the id |
| Feeds.RemoveFirstDistinct | app/src/main/java/org/servalproject/servalchat/feeds/FeedListAdapter.java:47 | on a list without repeated ids, removal keeps ids distinct and the shown ids lose exactly `id` |
| Feeds.InsertAtDistinct | app/src/main/java/org/servalproject/servalchat/feeds/FeedListAdapter.java:51 | inserting an entry whose id is not shown keeps ids distinct and adds exactly that id |
| Feeds.Added | app/src/main/java/org/servalproject/servalchat/feeds/FeedListAdapter.java:43-52 | an unknown id is recorded and the item inserted at `index`, with the entries before and after it kept; a known id at the tail changes nothing; a known id elsewhere leaves `bundles` as it was and puts the item at `index` (which entry goes is stated by `AddedMoved` and `AddedKnownNotShown`); `bundles` never shrinks |
| Feeds.AddedKeepsInvariant | app/src/main/java/org/servalproject/servalchat/feeds/FeedListAdapter.java:43-52 | `addItem` preserves "ids in `items` are pairwise distinct and all belong to `bundles`"; when the item is not dropped, the shown ids gain exactly its id |
| Feeds.AddedMovedLength | app/src/main/java/org/servalproject/servalchat/feeds/FeedListAdapter.java:44-51 | a known id that is shown and re-added below the tail is moved: the length is unchanged |
| Feeds.AddedMoved | app/src/main/java/org/servalproject/servalchat/feeds/FeedListAdapter.java:44-51 | re-adding a known id below the tail removes exactly its first entry, keeps every other entry in order, and inserts the item at `index` |
| Feeds.AddedKnownNotShown | app/src/main/java/org/servalproject/servalchat/feeds/FeedListAdapter.java:44-51 | re-adding a known id that is not shown, below the tail, only inserts the item at `index`, and `bundles` is unchanged |
| Feeds.FeedSubscriber | app/src/main/java/org/servalproject/servalchat/feeds/FeedListAdapter.java:76-78 | the row's subscriber is the author when non-null, otherwise the manifest's sender, with the bundle id as signing key |
| Feeds.DisplayName | app/src/main/java/org/servalproject/servalchat/feeds/FeedListAdapter.java:79-82 | the row shows the manifest name unless it is null or empty, and otherwise the abbreviation of the subscriber's sid |
| Feeds.DisplayNameNonEmpty | app/src/main/java/org/servalproject/servalchat/feeds/FeedListAdapter.java:79-82 | a row never shows an empty name as long as abbreviations are never empty |
| Feeds.FeedListAdapter.constructor | app/src/main/java/org/servalproject/servalchat/feeds/FeedListAdapter.java:25-30 | a new adapter has no items and no recorded ids, and satisfies the invariant |
| Feeds.FeedListAdapter.RemoveItem | app/src/main/java/org/servalproject/servalchat/feeds/FeedListAdapter.java:32-40 | the scan leaves `items` equal to `RemoveFirst(old items, id)` and changes nothing else |
| Feeds.FeedListAdapter.InsertItem | app/src/main/java/org/servalproject/servalchat/feeds/FeedListAdapter.java:51 | the stand-in for `super.addItem`: `items` becomes the old items with the item inserted at `index` |
| Feeds.FeedListAdapter.AddItem | app/src/main/java/org/servalproject/servalchat/feeds/FeedListAdapter.java:43-52 | the new `items` and `bundles` are `Added(old items, old bundles, index, item)`, and the invariant is kept; the insertion after a removal is always in range |
| Mid.Peer.UpdateFeedName | app/src/main/java/org/servalproject/mid/MessageFeed.java:42-43 | the stand-in for `peer.updateFeedName`: it records the name it was given |
| Mid.MessageFeed.constructor | app/src/main/java/org/servalproject/mid/MessageFeed.java:24-29 | with a non-null key, `id` is that key and the peer is the one given; `id` is a constant and never reassigned |
| Mid.MessageFeed.Create | app/src/main/java/org/servalproject/mid/MessageFeed.java:24-29 | a null signing key fails with a NullPointerException carrying "A bundle signing key is required"; otherwise a fresh feed with that id and no peer |
| Mid.MessageFeed.CreateForPeer | app/src/main/java/org/servalproject/mid/MessageFeed.java:19-22 | the feed's id is the peer's subscriber signing key and the peer is recorded; a null key fails as in `Create` |
| Mid.MessageFeed.InheritedStart | app/src/main/java/org/servalproject/mid/MessageFeed.java:35 | the stand-in for `super.start()`: one more inherited start is counted |
| Mid.MessageFeed.Start | app/src/main/java/org/servalproject/mid/MessageFeed.java:31-36 | with `last == null && hasMore`, the inherited start is not called; in every other state it is called exactly once; nothing else changes |
| Mid.MessageFeed.TakeName | app/src/main/java/org/servalproject/mid/MessageFeed.java:41-43 | `name` becomes the list's name, and the peer, if any, receives exactly that name |
| Mid.MessageFeed.OpenPast | app/src/main/java/org/servalproject/mid/MessageFeed.java:38-45 | asks for the history of `id`; on success `name` is the returned name and an attached peer is told it once; on an exception nothing changes; only `name` and the peer can change |
| Mid.MessageFeed.OpenFuture | app/src/main/java/org/servalproject/mid/MessageFeed.java:47-54 | asks for messages since `""` when `last` is null and since `last.token` otherwise; the name and peer behave as in `OpenPast` |

## Left out

- `Serval.java` is not part of this model. It is a process-wide singleton wired to Android, a thread pool, daemon configuration and a server thread.
- `UIHandler.java` is not part of this model. It hands messages to the Android main thread.
- `SelfUpdater.java` is not part of this model. It wraps a daemon bundle import and Android preferences.
- `ScrollingAdapter` and `AbstractFutureList` are not part of this model. This leaves out their paging, merging, observer events and threading, and any other change they make to `items`, `last` or `hasMore`. The model says nothing about the initial values of `last` and `hasMore`.
- Feeds.FeedListAdapter.AddItem: requires `index <= items.size()`. The inserting list would throw an IndexOutOfBoundsException otherwise, and its callers in `ScrollingAdapter` are not part of this model.
- Feeds.FeedListAdapter.constructor: assumes that `ScrollingAdapter` starts with an empty `items` list. The `FeedList` and presenter arguments are not modelled.
- The daemon connection (`serval.getResultClient()`), HTTP and JSON are left out. A reply is a parameter, and a request is a returned value.
- `FeedHolder`'s view inflation, `setText`, `onClick` and `presenter.openFeed` are UI and are left out. `SubscriberId.abbreviation` is a function parameter of `DisplayName`.
- Java null dereferences of a list entry, its manifest, or the `Peer` argument are not modelled: these are taken to be non-null. The manifest name, the author and the signing keys are nullable and modelled with `Option`.
- Only the fields the core reads are kept: a message's token, a message list's name, and a bundle's id, sender, name and author.
