/** A MeSH MB message feed (MessageFeed): one signing key's feed, read from the
    daemon in two modes, "past" (history) and "future" (since a token), which
    keeps the feed's display name and passes it on to the peer it belongs to. */
module Mid {
  import opened Servaldna

  /** A message of a feed; only its continuation token is read here. */
  datatype PlyMessage = PlyMessage(token: string)

  /** A `MessagePlyList` as the daemon returns it; only its feed name is read here. */
  datatype MessagePlyList = MessagePlyList(name: Option<string>)

  /** The exceptions `openPast` and `openFuture` pass on from the daemon client. */
  datatype RemoteError = IOException | ServalDInterfaceException

  datatype NullPointerException = NullPointerException(message: string)

  const MissingKeyMessage := "A bundle signing key is required"

  /** The daemon queries a feed issues. */
  datatype Request =
    | ListMessages(feed: SigningKey)
    | ListMessagesSince(feed: SigningKey, token: string)

  /** A peer as far as a feed sees it: its subscriber, and the feed names it has
      been told about (what it does with them is not part of this model). */
  class Peer {
    const subscriber: Subscriber
    var feedNameUpdates: seq<Option<string>>

    constructor (subscriber: Subscriber)
      ensures this.subscriber == subscriber && feedNameUpdates == []
    {
      this.subscriber := subscriber;
      feedNameUpdates := [];
    }

    /** `updateFeedName`: only the call is recorded. */
    method UpdateFeedName(name: Option<string>)
      modifies this
      ensures feedNameUpdates == old(feedNameUpdates) + [name]
    {
      feedNameUpdates := feedNameUpdates + [name];
    }
  }

  class MessageFeed {
    /** The feed's signing key; set once, never null. */
    const id: SigningKey
    /** The peer whose feed this is, when the feed was made for a peer. */
    const peer: Peer?
    /** The feed's name as last reported by the daemon. */
    var name: Option<string>
    /** Inherited from AbstractFutureList (not part of this model); `start` and
        `openFuture` only read it. */
    var last: Option<PlyMessage>
    /** Inherited from AbstractFutureList (not part of this model); `start` only reads it. */
    var hasMore: bool
    /** How many times the inherited AbstractFutureList.start has been called. */
    var inheritedStarts: nat

    /** The part of the constructors that runs once the key is known to be non-null.
        The inherited `last` and `hasMore` are set by AbstractFutureList, which is
        not part of this model, so nothing is promised about them. */
    constructor (key: SigningKey, peer: Peer?)
      ensures id == key && this.peer == peer
      ensures name == None && inheritedStarts == 0
    {
      id := key;
      this.peer := peer;
      name := None;
      inheritedStarts := 0;
    }

    /** `MessageFeed(serval, id)`: a null key is refused with a NullPointerException. */
    static method Create(key: Option<SigningKey>) returns (r: Result<MessageFeed, NullPointerException>)
      ensures key.None? ==> r == Failure(NullPointerException(MissingKeyMessage))
      ensures key.Some? ==> r.Success? && fresh(r.value)
      ensures key.Some? ==> r.value.id == key.value && r.value.peer == null
      ensures key.Some? ==> r.value.name == None && r.value.inheritedStarts == 0
    {
      if key.None? {
        return Failure(NullPointerException(MissingKeyMessage));
      }
      var feed := new MessageFeed(key.value, null);
      return Success(feed);
    }

    /** `MessageFeed(serval, peer)`: the feed of the peer's signing key, which
        records the peer; a peer without a signing key is refused. */
    static method CreateForPeer(peer: Peer) returns (r: Result<MessageFeed, NullPointerException>)
      ensures peer.subscriber.signingKey.None? ==> r == Failure(NullPointerException(MissingKeyMessage))
      ensures peer.subscriber.signingKey.Some? ==> r.Success? && fresh(r.value)
      ensures peer.subscriber.signingKey.Some? ==>
                r.value.id == peer.subscriber.signingKey.value && r.value.peer == peer
      ensures peer.subscriber.signingKey.Some? ==> r.value.name == None && r.value.inheritedStarts == 0
    {
      var key := peer.subscriber.signingKey;
      if key.None? {
        return Failure(NullPointerException(MissingKeyMessage));
      }
      var feed := new MessageFeed(key.value, peer);
      return Success(feed);
    }

    /** The state in which `start` does nothing: `last == null && hasMore`. */
    predicate AwaitingHistory()
      reads this
    {
      last.None? && hasMore
    }

    /** Stand-in for AbstractFutureList.start, which is not part of this model:
        only the call is counted. */
    method InheritedStart()
      modifies this`inheritedStarts
      ensures inheritedStarts == old(inheritedStarts) + 1
    {
      inheritedStarts := inheritedStarts + 1;
    }

    /** `start`: do nothing while `last == null && hasMore`, otherwise start as inherited. */
    method Start()
      modifies this`inheritedStarts
      ensures old(AwaitingHistory()) ==> inheritedStarts == old(inheritedStarts)
      ensures !old(AwaitingHistory()) ==> inheritedStarts == old(inheritedStarts) + 1
    {
      if AwaitingHistory() {
        return;
      }
      InheritedStart();
    }

    /** The peer notifications a reply leads to: its name on success, none on failure. */
    static function NameUpdate(reply: Result<MessagePlyList, RemoteError>): (names: seq<Option<string>>)
    {
      if reply.Success? then [reply.value.name] else []
    }

    ghost function PeerFrame(): set<object>
    {
      if peer == null then {} else {peer}
    }

    /** Takes the feed name from a list the daemon returned and tells the peer, if any. */
    method TakeName(list: MessagePlyList)
      modifies this`name, PeerFrame()
      ensures name == list.name
      ensures peer != null ==> peer.feedNameUpdates == old(peer.feedNameUpdates) + [list.name]
    {
      name := list.name;
      if peer != null {
        peer.UpdateFeedName(name);
      }
    }

    /** `openPast`: ask for the feed's history. `reply` is what the daemon client
        returns for that request; a thrown exception changes nothing. */
    method OpenPast(reply: Result<MessagePlyList, RemoteError>)
      returns (request: Request, r: Result<MessagePlyList, RemoteError>)
      modifies this`name, PeerFrame()
      ensures request == ListMessages(id) && r == reply
      ensures reply.Success? ==> name == reply.value.name
      ensures reply.Failure? ==> name == old(name)
      ensures peer != null ==>
                peer.feedNameUpdates == old(peer.feedNameUpdates) + NameUpdate(reply)
    {
      request := ListMessages(id);
      r := reply;
      if reply.Success? {
        TakeName(reply.value);
      }
    }

    /** `openFuture`: ask for the messages after `last`, from the start when there is
        no `last` yet. */
    method OpenFuture(reply: Result<MessagePlyList, RemoteError>)
      returns (request: Request, r: Result<MessagePlyList, RemoteError>)
      modifies this`name, PeerFrame()
      ensures last.None? ==> request == ListMessagesSince(id, "")
      ensures last.Some? ==> request == ListMessagesSince(id, last.value.token)
      ensures r == reply
      ensures reply.Success? ==> name == reply.value.name
      ensures reply.Failure? ==> name == old(name)
      ensures peer != null ==>
                peer.feedNameUpdates == old(peer.feedNameUpdates) + NameUpdate(reply)
    {
      request := ListMessagesSince(id, if last.None? then "" else last.value.token);
      r := reply;
      if reply.Success? {
        TakeName(reply.value);
      }
    }
  }
}
