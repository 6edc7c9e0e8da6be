# ReputationMachine: message ingestion and dedup gossip

A model of `ConnectionManager`, the object a reputation-receipt node hands every
inbound websocket message to. The manager keeps two "seen" caches, one of message
IDs and one of receipts. For each message it runs the structural check, rejects a
message whose `Header.MsgID` it has already seen, remembers the MsgID, and
dispatches on `Header.MsgType`. A `ShareReceipt` message has its receipt saved
(when a random draw is at most `prctSave`), cached, and rebroadcast to every
connected client except the one named in `Header.SrcIPorHost`.

- `data_cache.dfy` (module `DataCache`): the cache interface the manager uses
  (`isCached`, `cache`, `cleanCache`) as a class over an abstract set of entries.
- `gossip_spec.dfy` (module `GossipSpec`): messages, receipts, peers, the outbound
  event log and the dispatch trace as datatypes; what one call does, as functions
  on an abstract `State` (`Handle`, `Share`, `Broadcast`, `Refresh`); and the
  properties, as contracts and lemmas.
- `connection_manager.dfy` (module `ConnectionManagement`): the `ConnectionManager`
  class, whose fields are the two caches, `prctSave`, the connected peers, the
  outbound log and a ghost dispatch trace. Each method's `ensures` ties its new
  state to the matching `GossipSpec` function, and `SendAllExcept` is the source's
  loop over the connected clients, with its invariant.

Collaborators that are not part of this model become parameters or logged effects:
- the structural check (message_checker.js) is an arbitrary total predicate given
  at construction;
- `Math.random()` is the `draw` argument of `HandleMessage`;
- which entries `cleanCache` drops (data_cache.js) is the `expired` argument of
  `RefreshCache`;
- `dbMan.saveReceipt`, `client.send` and `clientManager.sendExcept` are events
  appended to `log`.

The JavaScript has several defects that would crash it at run time, and the model
follows the evident intent. Lines 56 and 59 call bare `shareReceipt` and
`receiveReceipt` instead of the private handlers. Lines 69 and 71 read the key
`"Recetipt"`. Line 64 assigns the undeclared `messageSrc`. Lines 88-89 use the
undefined `websocketServer` and `clientConn`. The type string `'ReceiveReceipt'`
of line 58 is kept as written, although the handler it reaches is
`#requestReceipt`. The JSDoc at lines 25-28 swaps the descriptions of the
retention-time and count parameters; the model follows the argument order of the
code.

Four behaviours of the code are worth stating plainly, because a reader might
expect otherwise:
- an unknown `MsgType` is not rejected: it is accepted, its MsgID stays cached
  and no handler runs;
- a duplicate MsgID is an error ("Message already recieved"), not a silent no-op;
- the share handler never consults the receipt cache: it saves whenever
  `draw <= prctSave` (not `<`), even for a receipt it has seen under another
  MsgID (`GossipSpec.ReceiptCacheIsWriteOnly`);
- the request handler does nothing: it neither answers nor forwards.

## Model

| member | source | states |
|---|---|---|
| `DataCache.Cache.constructor` | Network-Subsystem/websocket-messaging/connection_manager.js:32-33 | a new cache keeps its retention time and maximum count and remembers nothing |
| `DataCache.Cache.IsCached` | Network-Subsystem/websocket-messaging/connection_manager.js:49 | the answer is true exactly when the key is remembered |
| `DataCache.Cache.Cache` | Network-Subsystem/websocket-messaging/connection_manager.js:53 | the key is remembered afterwards and nothing remembered is lost |
| `DataCache.Cache.CleanCache` | Network-Subsystem/websocket-messaging/connection_manager.js:98 | exactly the expired entries are forgotten |
| `GossipSpec.PeerSends` | Network-Subsystem/websocket-messaging/connection_manager.js:88-92 | the loop makes at most one send per entry of the client list, and every send is `msg` to a connected client whose key is not `except` |
| `GossipSpec.PeerSendsOncePerClient` | Network-Subsystem/websocket-messaging/connection_manager.js:88-92 | each client is sent `msg` exactly as many times as it appears in the client list when its key differs from `except`, and never when it equals it |
| `GossipSpec.PeerSendsReachesOthers` | Network-Subsystem/websocket-messaging/connection_manager.js:88-92 | every connected client whose key differs from `except` is sent `msg` |
| `GossipSpec.Broadcast` | Network-Subsystem/websocket-messaging/connection_manager.js:86-95 | `sendAllExcept` produces at most one send per entry of the client list of `msg` followed by exactly one delegated `sendExcept(except)`, which is its last effect |
| `GossipSpec.BroadcastExcludesExactlyTheSender` | Network-Subsystem/websocket-messaging/connection_manager.js:86-95 | a client is sent something exactly when it is connected and its key differs from `except`, it is sent `msg`, and the one delegated `sendExcept(except)` comes last |
| `GossipSpec.Share` | Network-Subsystem/websocket-messaging/connection_manager.js:63-75 | the share handler leaves the message cache and dispatches alone, adds the receipt to the receipt cache, only appends to the log (at most one save plus the broadcast), and ends with the delegated `sendExcept(SrcIPorHost)` |
| `GossipSpec.Refresh` | Network-Subsystem/websocket-messaging/connection_manager.js:97-99 | a MsgID stays cached exactly when it was cached and has not expired; the receipt cache, log and dispatches are unchanged |
| `GossipSpec.Handle` | Network-Subsystem/websocket-messaging/connection_manager.js:40-61 | a failed check gives "invalid" and a cached MsgID "already received", exactly; a failure changes no cache, log or dispatch; success leaves the MsgID cached; caches only grow, the log and dispatch trace are append-only, at most one dispatch per call |
| `GossipSpec.InsertIfAbsent` | Network-Subsystem/websocket-messaging/connection_manager.js:49-53 | after insert-if-absent the key is present and only it was added, and the flag says whether it was new |
| `GossipSpec.CheckThenCacheIsInsertIfAbsent` | Network-Subsystem/websocket-messaging/connection_manager.js:49-53 | for a message that passes the check, the separate isCached-then-cache steps give the same cache and the same accept/reject verdict as one insert-if-absent |
| `GossipSpec.SecondDeliveryIsRejected` | Network-Subsystem/websocket-messaging/connection_manager.js:49-53 | handling a message again after it was handled fails with "already received" and changes nothing |
| `GossipSpec.DispatchByType` | Network-Subsystem/websocket-messaging/connection_manager.js:53-60 | a new valid message is accepted with its MsgID cached; 'ShareReceipt' goes to the share handler only, 'ReceiveReceipt' to the request handler only, and any other type to no handler, with no save, send or receipt caching |
| `GossipSpec.ShareLog` | Network-Subsystem/websocket-messaging/connection_manager.js:68-72 | what the share handler logs is exactly one save when the draw is at most `prctSave` (none otherwise) followed by the broadcast, which reaches exactly the clients whose key differs from `SrcIPorHost` and ends with the delegated `sendExcept` |
| `GossipSpec.ShareSavesIffDrawWithinPercent` | Network-Subsystem/websocket-messaging/connection_manager.js:63-75 | the share handler's new log entries are exactly one save when the draw is at most `prctSave` (none otherwise) followed by the broadcast; the receipt is cached either way; a client is sent the message exactly when its key differs from `SrcIPorHost`; the delegated `sendExcept` is made |
| `GossipSpec.ReceiptCacheIsWriteOnly` | Network-Subsystem/websocket-messaging/connection_manager.js:63-75 | the receipt cache's contents do not change a call's outcome, saves, sends, dispatches or message cache |
| `GossipSpec.RefreshReadmits` | Network-Subsystem/websocket-messaging/connection_manager.js:97-99 | once a refresh has expired a MsgID, a valid message with that MsgID is accepted again |
| `GossipSpec.HandleKeepsDispatchedOnce` | Network-Subsystem/websocket-messaging/connection_manager.js:49-53 | one call keeps the invariant "every dispatched MsgID is cached and none was dispatched twice" |
| `GossipSpec.RunDispatchesEachIdOnce` | Network-Subsystem/websocket-messaging/connection_manager.js:49-53 | any sequence of calls without a refresh keeps that invariant |
| `GossipSpec.FreshManagerDispatchesEachIdOnce` | Network-Subsystem/websocket-messaging/connection_manager.js:31-53 | starting from a new manager, no two dispatches in any sequence of calls without a refresh carry the same MsgID |
| `ConnectionManagement.ConnectionManager.constructor` | Network-Subsystem/websocket-messaging/connection_manager.js:31-38 | each cache is fresh and built from its own (retention time, maximum count) pair, `prctSave` is `savePercent`, and nothing is cached, logged or dispatched |
| `ConnectionManagement.ConnectionManager.HandleMessage` | Network-Subsystem/websocket-messaging/connection_manager.js:40-61 | the new caches, log and dispatch trace and the outcome are exactly those of `Handle`; the peer list is unchanged |
| `ConnectionManagement.ConnectionManager.ShareReceipt` | Network-Subsystem/websocket-messaging/connection_manager.js:63-75 | the new receipt cache and log are exactly those of `Share`; the message cache is unchanged |
| `ConnectionManagement.ConnectionManager.RequestReceipt` | Network-Subsystem/websocket-messaging/connection_manager.js:77-83 | nothing changes |
| `ConnectionManagement.ConnectionManager.SendAllExcept` | Network-Subsystem/websocket-messaging/connection_manager.js:86-95 | the log grows by exactly `Broadcast(peers, msg, except)`, proved with the loop invariant over the clients visited so far |
| `ConnectionManagement.ConnectionManager.RefreshCache` | Network-Subsystem/websocket-messaging/connection_manager.js:97-99 | the message cache loses exactly the expired MsgIDs; the receipt cache, log and dispatches are unchanged |

## Left out

- Construction of the websocket server (`port`) and of the client manager, and the database manager object: they are transport and storage set-up; the constructor takes neither `port` nor `databaseManager`.
- The internals of data_cache.js, message_checker.js and `dbMan.saveReceipt`: their source is not part of this model. The caches are abstract sets with no retention-time or capacity eviction of their own, the check is an arbitrary predicate, and a save is a logged event.
- DataCache.Cache.Cache: does not model any capacity eviction on insert, because the cache's rules are not part of this model.
- `Math.random()` and floating point: the draw is a `real` argument.
- `clientManager.sendExcept`: only the call and its argument are logged; what the client manager sends is not part of this model.
- A ShareReceipt body without a receipt: the node would save and cache `undefined`; in the model every body carries a receipt.
- The blockchain verification of receipts (a TODO at lines 65-66) and the planned body of `#requestReceipt` (comments at lines 78-81).
- Concurrency among many peers' connections and all `console.log` output.
- The peer list is set by the transport layer; no method of the model changes it, and `Run` keeps it fixed across a sequence of calls.
