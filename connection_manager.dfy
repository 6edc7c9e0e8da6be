/** ConnectionManager: the object a node's websocket server hands every inbound
    message to. It keeps two "seen" caches, validates and deduplicates each message,
    dispatches it on its type, and rebroadcasts shared receipts to every connected
    client except the one they came from. Each method is proved to do exactly what
    the corresponding function of GossipSpec does to the abstract State.

    Where the JavaScript as written would crash, the evident intent is modelled:
    - line 56 calls a bare `shareReceipt` and line 59 a bare `receiveReceipt`; the
      intended targets are `this.#shareReceipt` and `this.#requestReceipt`;
    - line 58 compares with 'ReceiveReceipt' while the handler is `#requestReceipt`;
      the literal string of line 58 is kept;
    - lines 69 and 71 read the misspelt key "Recetipt"; the body's receipt is meant;
    - line 64 assigns the undeclared `messageSrc`; a local is meant;
    - lines 88-89 use the undefined `websocketServer` and `clientConn`; the clients
      of this manager's websocket server and each client's own connection key are
      meant. */
module ConnectionManagement {
  import opened GossipSpec
  import opened DataCache

  class ConnectionManager {
    const messageCache: Cache<string>
    const receiptCache: Cache<Receipt>
    const prctSave: real
    /** The structural check of message_checker.js (not part of this model). */
    const checkMessage: Message -> bool

    /** The clients currently connected to this node's websocket server; the
        transport layer connects and disconnects them, no method here does. */
    var peers: seq<Peer>

    /** Receipts handed to the database manager and messages sent, in order. */
    var log: seq<Event>

    /** Which handler each accepted message was dispatched to. */
    ghost var dispatches: seq<Dispatch>

    /** What the next call reads but does not change. */
    function CurrentConfig(): Config
      reads this
    {
      Config(checkMessage, prctSave, peers)
    }

    /** The abstract state the methods change. */
    ghost function Model(): State
      reads this, messageCache, receiptCache
    {
      State(messageCache.entries, receiptCache.entries, log, dispatches)
    }

    /** Each cache is built from its own (retention time, maximum count) pair and the
        save percentage is kept as `prctSave`; the websocket server (`port`), the
        client manager and the database manager are not part of this model. */
    constructor (messageRetentionTime: int, maxNumMessagesRetained: int,
                 maxReceiptRetentionTime: int, maxNumReceiptsRetained: int,
                 savePercent: real, checkMessage: Message -> bool)
      ensures fresh(messageCache) && fresh(receiptCache)
      ensures messageCache.retentionTime == messageRetentionTime
      ensures messageCache.maxCount == maxNumMessagesRetained
      ensures receiptCache.retentionTime == maxReceiptRetentionTime
      ensures receiptCache.maxCount == maxNumReceiptsRetained
      ensures prctSave == savePercent && this.checkMessage == checkMessage
      ensures peers == [] && Model() == Initial
    {
      messageCache := new Cache(messageRetentionTime, maxNumMessagesRetained);
      receiptCache := new Cache(maxReceiptRetentionTime, maxNumReceiptsRetained);
      prctSave := savePercent;
      this.checkMessage := checkMessage;
      peers := [];
      log := [];
      dispatches := [];
    }

    /** `handleMessage(jsonMessage)`; `draw` is the value `Math.random()` returns if
        the message reaches the share handler. */
    method HandleMessage(msg: Message, draw: real) returns (outcome: Outcome)
      modifies this, messageCache, receiptCache
      ensures peers == old(peers)
      ensures (Model(), outcome) == Handle(old(CurrentConfig()), old(Model()), msg, draw)
    {
      if !checkMessage(msg) {
        return Failed(InvalidMessage);
      }
      var msgId := msg.header.msgId;
      var seen := messageCache.IsCached(msgId);
      if seen {
        return Failed(AlreadyReceived);
      }
      messageCache.Cache(msgId);
      if msg.header.msgType == ShareReceiptType {
        dispatches := dispatches + [Dispatch(msgId, ShareHandler)];
        ShareReceipt(msg, draw);
      } else if msg.header.msgType == ReceiveReceiptType {
        dispatches := dispatches + [Dispatch(msgId, RequestHandler)];
        RequestReceipt(msg);
      }
      outcome := Handled;
    }

    /** `#shareReceipt(jsonMessage)`. The blockchain verification of the receipt is
        only a TODO in the node and is not modelled. */
    method ShareReceipt(msg: Message, draw: real)
      modifies this, receiptCache
      ensures peers == old(peers)
      ensures Model() == Share(old(CurrentConfig()), old(Model()), msg, draw)
    {
      var messageSrc := msg.header.srcIPorHost;
      if draw <= prctSave {
        log := log + [SaveReceipt(msg.body.receipt)];
      }
      receiptCache.Cache(msg.body.receipt);
      SendAllExcept(msg, messageSrc);
    }

    /** `#requestReceipt(jsonMessage)`: its body is only comments and a log line, so
        it changes nothing. */
    method RequestReceipt(msg: Message)
      ensures peers == old(peers) && Model() == old(Model())
    {
    }

    /** `sendAllExcept(msg, except)`: send to every connected client whose connection
        key is not `except`, then delegate once to `clientManager.sendExcept(except)`. */
    method SendAllExcept(msg: Message, except: string)
      modifies this`log
      ensures log == old(log) + Broadcast(peers, msg, except)
    {
      var i := 0;
      while i < |peers|
        invariant 0 <= i <= |peers|
        invariant log == old(log) + PeerSends(peers[..i], msg, except)
      {
        var client := peers[i];
        if client.connectionKey != except {
          log := log + [Send(client, msg)];
        }
        assert peers[..i + 1][..i] == peers[..i];
        i := i + 1;
      }
      assert peers[..|peers|] == peers;
      log := log + [ClientSendExcept(except)];
    }

    /** `refreshCache()`: only the message cache is cleaned; `expired` is the set of
        MsgIDs its retention rules drop at this moment. */
    method RefreshCache(expired: set<string>)
      modifies messageCache
      ensures Model() == Refresh(old(Model()), expired)
    {
      messageCache.CleanCache(expired);
    }
  }
}
