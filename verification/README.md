# multimaster, verified

A Dafny model of multimaster, a serverless gossip mesh: nodes find each other, keep TCP
links, flood messages with a time-to-live and a dedup cache, and gossip who is linked to
whom. The model follows the C++ code branch by branch, from the bytes on the wire to the
behaviour of a whole mesh, and proves what that code guarantees in every run; where a
promise does not hold, it shows a run that breaks it and the exact condition under which
it does hold.

`dafny verify dfyconfig.toml` checks everything.

## How the project is laid out

| files | what they hold |
|---|---|
| Options, Bytes, Graph, Presence | vocabulary: optional values, big-endian bytes, finite undirected graphs, come-and-go event streams |
| Wire, WireCodec | the frame format as functions with its laws; the encoders, the reader and the frame decoder as they are written, each proved to compute those functions |
| Crypto | key agreement, tags, nonces, `secure_session`; the library's primitives are parameters |
| Handshaking, Stream, Admission, PeerConnection | one connection: frames and calls; bytes and cuts; who gets in, told from the bytes; the object with its parse loops, proved to be the model |
| EndToEnd, Channel, Integrity | two ends of one connection; one direction in operation, in any order of steps; the same over a wire that anyone may write to |
| Buffer | the byte buffer with lazy compaction |
| Router, DataFlood, FloodLimits | the dedup cache and relaying at one node; one message in a mesh; what ttl is needed, and what happens without caches |
| VersionedFlood, Membership, Convergence | versioned gossip in a mesh; the membership object with its search and events; the two together |
| DialRace, LinkLaws, LinkSteps, LinkTable, LinkRuns | which of several connections between two nodes survives; the laws of the peer manager's tables, one by one; what a step, a closing and an event make of all of them; the object with all its events, and failures nested in them; runs in which a promise is broken |
| Mailbox | commands from any thread to the IO thread, and the eventfd |

Objects that the code updates in place are classes whose methods are proved against
functions or state laws. Meshes and threads are state machines: a run is any sequence of
enabled steps. Choices the code does not make (the order of deliveries, which sends fail,
when an owner closes a connection, when a timer fires) are arguments, and theorems hold
for all of them.

## What turned out not to hold

- A targeted message need not reach its destination although a path within the ttl
  exists (docs/how-the-mesh-works.md, section 11.5): a copy that took a longer way can
  arrive first and suppress the better one. `PathWithinTtlIsNotEnough` is such a run;
  `TtlThreshold` gives the ttl that always suffices, for broadcasts and for targeted
  messages alike, and it is the least one.
- Two nodes with more than one connection in the winning direction can close all of them
  (`TwoWinnersCanAllDie`); both ends always agree just if there is one
  (`RaceConvergesIff`). docs/architecture.md (line 336) has the Hello nonce settle such
  duplicates; the code does not look at it.
- The link table can lead to a connection that has been freed: a peer may say its id is
  the reserved zero, and a link filed under zero is not taken out when its connection
  closes (`ZeroIdDangles`). `Live` says that every link is a live connection if and only
  if no link under zero has ended.
- `peer_disconnected` can be reported before `peer_connected`, when a link dies while the
  node's own identity record is pushed over it (`FirstPushCanFail`).
- A static endpoint that answers with a new id erases the record of a peer that is still
  linked; when that link ends nobody is told (`RepointedPeerIsForgotten`). `Live` gives
  both conditions over the events that happened: the peer events are right if and only if
  no first push failed, as long as no link has ended whose record was erased so; and with
  endpoints that always answer with the same id none is.
- A peer that is being dialed can stay so forever: if what answers bears the id of another
  known peer, the record is not freed when the connection closes, and the peer is not
  dialed again while it announces itself (`DialCanBeStranded`). `Close` says that this is
  the only such case, whatever else fails meanwhile, and `Live` that a record waits in vain
  if and only if such an event has left it so.
- Where TCP cuts the byte stream matters in one case: frames that precede a bad record are
  delivered if they were read earlier and lost if they were read together with it
  (`ReadCutIff`, `CutCanMatter`).
- Group and node names over 255 bytes are accepted by the configuration but cut on the
  wire; nodes of a secured mesh so configured never let each other in, and in an open mesh
  such a node is let in by nodes whose group has the cut name (`LetsInIff`).
- Under the `DropNewest` policy a secured link ends with the record after the dropped one
  (`DroppedRecordEndsLink`). Under `DropOldest` the queue can outgrow its bound, by a record
  that is larger than the bound (`QueueBoundedIff`).
- Members include nodes outside one's component just as long as a leftover record claims a
  link into it (`MembershipConverges`, `GhostsCanStay`).

## Model

| member | source | states |
|---|---|---|
| `Wire.Decode` | src/wire.cpp:259-355 | an accepted frame uses at least 5 bytes, no more than are there, and no more than the limit allows |
| `Wire.RoundTrip` | src/wire.cpp:165-355 | encoding any frame and decoding it, whatever bytes follow, gives the frame (long strings and lists cut) and its exact length, if and only if it is within the limit |
| `Wire.StrictPrefixNeedsMore` | src/wire.cpp:259-275 | every strict prefix of an encoded frame asks for more bytes |
| `Wire.DecodeIsStable` | src/wire.cpp:259-355 | a decision, good or bad, never changes when bytes are appended |
| `Wire.ReencodedBodyIsPrefix` | src/wire.cpp:214-257 | a gossip frame, parsed and encoded again, yields a prefix of the body it came from |
| `Wire.RelayIsAcceptable` | src/gossip_router.cpp:71-95 | whatever gossip frame a node accepts, its relayed form is no longer, decodes at the next hop to the same content, and its sealed record passes the record-length window |
| `Wire.AnnounceRoundTrip` | src/wire.cpp:137-163 | a discovery announcement survives encoding and decoding |
| `Wire.FrameLayout` | src/wire.hpp:58-67 | a frame begins with the length of the rest and the byte of its kind |
| `Wire.DataLayout` | src/wire.cpp:214-229 | at which offsets source, destination, id, ttl, length and payload of a message lie |
| `WireCodec.Writer.PutInt` | src/wire.cpp:17-30 | pushes the big-endian bytes of the number and nothing else |
| `WireCodec.Writer.PutStr` | src/wire.cpp:40-45 | pushes a length byte and at most 255 bytes |
| `WireCodec.EncodeHello` | src/wire.cpp:165-183 | the pushes and the patched length make exactly the Hello frame |
| `WireCodec.EncodeAuthConfirm` | src/wire.cpp:185-196 | likewise for AuthConfirm |
| `WireCodec.EncodeEmpty` | src/wire.cpp:198-212 | likewise for Heartbeat and Goodbye |
| `WireCodec.EncodeData` | src/wire.cpp:214-229 | likewise for Data |
| `WireCodec.EncodeMembership` | src/wire.cpp:231-244 | likewise for Membership, with its loop over at most 65535 neighbors |
| `WireCodec.EncodeIdentity` | src/wire.cpp:246-257 | likewise for IdentityRecord |
| `WireCodec.Reader.Int` | src/wire.cpp:67-80 | reads n bytes as one number; an overrun anywhere sets the sticky flag and nothing else does |
| `WireCodec.TryDecodeFrame` | src/wire.cpp:259-355 | the cursor-based decoder is the function `Decode`, on every input |
| `WireCodec.DecodeAnnounce` | src/wire.cpp:148-163 | the announcement decoder is its function, on every input |
| `Crypto.EndsAgree` | src/crypto.cpp:86-141 | two ends of a group agree or fail together, their tags match, and their keys mirror if and only if the ephemeral keys differ or the two directions' keys coincide |
| `Crypto.TagsMatchIff` | src/crypto.cpp:86-141 | the tag one end sends is the one the other expects if and only if group secret, group name and agreed secret are the same and each has heard the other's own key, the compared hashes not colliding: so not with another passphrase, nor through one in the middle |
| `Crypto.KeysMirrorIff` | src/crypto.cpp:86-141 | two ends that heard each other's keys can read each other if and only if they have the same group secret and name |
| `Crypto.NonceFromCounter` | src/crypto.cpp:23-32 | the loop writes four zero bytes and the counter, big-endian: the number read back from the last eight is the counter |
| `Crypto.NoncesDiffer` | src/crypto.cpp:23-32 | equal nonces come from equal counters |
| `Bytes.LexIsNumeric` | include/multimaster/peer_id.hpp:34-39 | memcmp orders ids as it does the numbers they stand for |
| `Crypto.SecureSession.Seal` | src/crypto.cpp:143-162 | the record is the length and the sealed frame under the current counter, which moves on |
| `Crypto.SecureSession.Open` | src/crypto.cpp:164-180 | short or unauthentic records fail and leave the counter; others open under it and move it on |
| `Handshaking.VerdictFits` | src/peer_connection.cpp:267-433 | a frame leads to a call only in the phase that call belongs to, and the fields stay sound |
| `Handshaking.CallsInOrder` | src/peer_connection.cpp:267-318 | over every sequence of frames and any owner: at most one confirmation, one handshake, gossip only after it, one error, Closed last; an error inside a call is reported before Closed |
| `Handshaking.HelloTakenIff` | src/peer_connection.cpp:320-380 | a Hello is taken if and only if version, group, security mode, required identity and key agreement are all right, and refused otherwise with the error of the first that is not |
| `Handshaking.ConfirmTakenIff` | src/peer_connection.cpp:382-433 | a confirmation is taken if and only if the tag is right and, where both have identities, id hash, signature and allowlist are; refused otherwise, as a wrong tag or an identity not proven |
| `Handshaking.BeforeTheHandshake` | src/peer_connection.cpp:267-318 | before the handshake heartbeats have no effect, a farewell ends the connection, gossip is an error |
| `Handshaking.WelcomeNeedsProof` | src/peer_connection.cpp:320-433 | whatever frames arrive, nobody is welcomed to a secured mesh without a frame that carries the expected tag and, where both have identities, a signature over both ephemeral keys by an allowed key whose hash is the peer's id |
| `Handshaking.EstablishedRun` | src/peer_connection.cpp:267-318 | once established, with an owner that closes nothing: over any frames the owner is called for each gossip frame, in order, and for nothing else, up to a farewell, which closes, or a confirmation, which is an error |
| `Handshaking.OwnerIsServed` | src/peer_connection.cpp:267-318 | whatever the owner does: the calls made are the first of those due, all of them if the connection lives, and after them at most the end |
| `Handshaking.AdmittedIff` | src/peer_connection.cpp:320-433 | the handshake call is made if and only if the frames are heartbeats, a good Hello and, if secured, a good confirmation with nothing forbidden between; and it names the peer of that Hello |
| `Handshaking.LetsInIff` | src/peer_connection.cpp:102-132 | exactly when one node lets another in, whoever they are: same mode and version and, if secured, same passphrase and group name, the name within 255 bytes, identity rules met with an id that is the identity key's hash, node name within 255 bytes, key allowed; if open, the group name as cut on the wire |
| `Handshaking.TranscriptTells` | src/peer_connection.cpp:134-148 | what is signed determines both ephemeral keys, in their order, and the name |
| `Handshaking.HonestPairsExist` | src/crypto.hpp:55-73 | for all names and any two passphrases there are nodes and functions of which all holds that the theorems assume, signatures and hashes without collision included |
| `Stream.FramesCut` | src/peer_connection.cpp:207-224 | parsing frames from bytes that arrive in two pieces is parsing the first piece and going on with the rest |
| `Stream.RecordsCut` | src/peer_connection.cpp:226-249 | the same for records |
| `Stream.ReadCut` | src/peer_connection.cpp:194-205 | two reads or one: same calls and same state, also across the switch to records, if every record opens |
| `Stream.ReadCutIff` | src/peer_connection.cpp:194-265 | at any point of a live connection the cut makes no difference if and only if the records have not begun with the first piece, or one in it is bad already, or none in both pieces is bad, or the first piece led to no call but the error that is due anyway |
| `Stream.CutCanMatter` | src/peer_connection.cpp:226-265 | a gossip frame before a malformed record is delivered in two reads and lost in one |
| `Stream.AnyCut` | src/peer_connection.cpp:173-205 | any number of reads is as good as one, if every record opens |
| `Stream.SealedOpens` | src/crypto.cpp:143-180 | a sealed frame, whatever follows it, is the first record to open, and opens to the frame |
| `Stream.StreamDelivers` | src/peer_connection.cpp:226-265 | a stream of sealed frames is dispatched frame by frame, in order and once each, and the counter moves by their number |
| `Stream.SealedChannel` | src/peer_connection.cpp:173-265 | any piece of a sealed stream, cut in any way, leads to the calls of a prefix of the frames, with the rest still to come |
| `Stream.AlwaysInOrder` | src/peer_connection.cpp:150-171 | over every sequence of reads, hangups, failures and closes the calls stay in order and stop at Closed |
| `Stream.EndingEnds` | src/peer_connection.cpp:150-171 | a hangup, a failure or a request to close ends the connection, with its error and Closed in the log and nothing after it |
| `Stream.GarbageEnds` | src/peer_connection.cpp:251-265 | bytes that are no frame, after any frames: the frames are dispatched and the connection ends with a protocol error |
| `Stream.PlainGarbageEnds` | src/peer_connection.cpp:207-224 | the same at once before the records begin |
| `Stream.BadRecordEnds` | src/peer_connection.cpp:226-249 | a record of less than 16 bytes, or of more than the limit and 64, ends the connection with a protocol error, and one that does not open with an encryption error |
| `Admission.AdmittedFromBytesIff` | src/peer_connection.cpp:150-433 | on a connection that was accepted or dialed, over any bytes in any pieces among any events, the handshake call is made if and only if the frames in the bytes make a handshake, every check included; and it names the peer of the Hello |
| `PeerConnection.PeerConnection.OnHello` | src/peer_connection.cpp:320-380 | the step-by-step handler comes to the verdict on the Hello |
| `PeerConnection.PeerConnection.OnAuthConfirm` | src/peer_connection.cpp:382-433 | likewise for the confirmation |
| `PeerConnection.PeerConnection.DispatchFrame` | src/peer_connection.cpp:267-318 | dispatching a frame changes the connection as the frame-level model says |
| `PeerConnection.PeerConnection.ParsePlaintext` | src/peer_connection.cpp:207-224 | the loop parses as far as the function does, and stops where the records begin |
| `PeerConnection.PeerConnection.DrainRecords` | src/peer_connection.cpp:226-249 | the loop opens every complete record into the plaintext, or fails at the first bad one |
| `PeerConnection.PeerConnection.ParseSecure` | src/peer_connection.cpp:251-265 | the loop dispatches every complete frame of the plaintext |
| `PeerConnection.PeerConnection.ParseInbound` | src/peer_connection.cpp:194-205 | the three together are the function the cut theorems are about |
| `PeerConnection.PeerConnection.OnRead` | src/peer_connection.cpp:173-192 | appending and parsing is one read of that model; a dead connection ignores it |
| `PeerConnection.PeerConnection.Enqueue` | src/peer_connection.cpp:435-464 | the frame is sealed under the next counter once the secured handshake is over and queued behind what is there; if the queue would be too long, the connection ends, or the frame is dropped and reported, or all that was queued goes, as the policy says; then the queue is flushed, in order, and a failed send ends the connection |
| `PeerConnection.QueueBoundedIff` | src/peer_connection.cpp:443-461 | a queue within its bound stays so, if and only if no record larger than the bound is taken, as only DropOldest does |
| `PeerConnection.PeerConnection.FlushOutbound` | src/peer_connection.cpp:470-483 | bytes leave in order and none is lost or repeated, however the socket takes them |
| `PeerConnection.PeerConnection.CloseGracefully` | src/peer_connection.cpp:502-529 | the goodbye is queued, sealed if the link is, where it fits; ends in Closed, once, whether or not it does |
| `EndToEnd.WholeConnection` | src/peer_connection.cpp:102-433 | two nodes that let each other in: however TCP cuts all that one sends, the other's owner is told of the handshake and then called for the gossip among the frames, in order, once each and for nothing else, up to a farewell or to where it closes the connection itself |
| `Channel.ChannelRun` | src/peer_connection.cpp:435-483 | in every run of sends, flushes and deliveries the receiver has dispatched a prefix of the frames, and its owner has been called for the gossip among them and nothing else; its counter equals their number; held, travelling and queued bytes are exactly the records of the others |
| `Integrity.OnlyWhatWasSent` | src/peer_connection.cpp:226-265 | whatever bytes arrive, changed, dropped, made up or replayed, in any pieces: if nothing in them opens but what was sealed under that key and counter, the receiver dispatches a prefix of the frames sent, in order, and then at most ends |
| `Integrity.OnlySentGossip` | src/peer_connection.cpp:226-265 | and the owner is called only for gossip that was sent, from the first frame on, in order and once each |
| `Channel.NonceUsedOnce` | src/crypto.cpp:143-162 | no two of the first 2^64 records under a key share a nonce |
| `Channel.DroppedRecordEndsLink` | src/peer_connection.cpp:439-456 | a record dropped after sealing makes the next one fail and the link end |
| `Buffer.Buffer.Receive` | src/peer_connection.cpp:174-181 | reserve, receive and uncommit add exactly the received bytes |
| `Buffer.Buffer.Consume` | src/buffer.hpp:49-61 | drops n bytes of the queue; moves the live bytes exactly when the dead prefix has passed 4096 bytes and half the data; dead prefix and moved bytes stay within their bounds |
| `Buffer.Use` | src/buffer.hpp:18-66 | every sequence of operations behaves as a plain byte queue, compaction moves no more bytes than the operations take off the queue, and the dead prefix is at most the larger of 4096 and the live bytes |
| `Router.MintedIdsDiffer` | src/gossip_router.cpp:31-40 | two minted ids are equal if and only if first eight id bytes and counters are |
| `Router.WindowIsSuffix` | src/gossip_router.cpp:42-60 | the cache is a suffix of the insertion history, no longer than the cap |
| `Router.RememberedIffSurvives` | src/gossip_router.cpp:42-60 | an id is remembered if and only if neither the cap nor a sweep has passed it; nothing earlier stays and nothing later goes |
| `Router.ReacceptanceNeedsEviction` | src/gossip_router.cpp:42-60 | two acceptances of one id are separated by as many insertions as the cap or by a sweep past the first |
| `Router.AcceptedTwice` | src/gossip_router.cpp:42-60 | the same of the router itself: an id in its history that it would accept again was followed by as many insertions as the cap or by a sweep past it |
| `Router.NothingForgottenWithinCapacity` | src/gossip_router.cpp:42-52 | within capacity and without sweeps the cache is the whole history |
| `Router.GossipRouter.NextId` | src/gossip_router.cpp:31-40 | the counter moves on, wrapping at 2^64, and is minted into the id: eight bytes of oneself, then the counter, big-endian |
| `Router.GossipRouter.Seen` | src/gossip_router.cpp:42-52 | says whether the id was cached, inserts it if not, and keeps set, queue and history in agreement and in the order of time |
| `Router.GossipRouter.EvictSweep` | src/gossip_router.cpp:54-60 | drops exactly the entries older than the timeout |
| `Router.GossipRouter.OnData` | src/gossip_router.cpp:62-96 | duplicates have no effect; otherwise delivers and relays as the message's reaction says, once; to a linked destination over that link only |
| `Router.GossipRouter.OriginateBroadcast` | src/gossip_router.cpp:98-104 | a new, cached id, and the message goes out over every link |
| `Router.GossipRouter.OriginateTargeted` | src/gossip_router.cpp:106-119 | a message to oneself is handed over and nothing else; any other gets a new, cached id and goes to its destination only, if that is linked, or else over every link |
| `DataFlood.DeliveredAtMostOnce` | src/gossip_router.cpp:62-96 | at any moment of any run, with any ttl, nobody gets a message twice or wrongly |
| `DataFlood.BroadcastReachesAll` | src/gossip_router.cpp:62-104 | every quiet run has delivered a broadcast exactly once at each other node of the component, if the ttl covers it |
| `DataFlood.TargetedReachesDst` | src/gossip_router.cpp:81-119 | every quiet run has delivered a targeted message once, at its destination only, unchanged; and nothing if the destination is not in the component, or is no node at all |
| `DataFlood.LinkedSendOnlyToDst` | src/gossip_router.cpp:81-119 | at any moment of any run of a targeted message, a node linked to the destination has sent it to nobody else |
| `DataFlood.LinkedPairIsPrivate` | src/gossip_router.cpp:106-119 | a message between linked nodes is one transmission, and nobody else ever sees it |
| `DataFlood.NeverBackOverTheSameLink` | src/peer_manager.cpp:383-401 | no relay sends a message back over the link it came in on |
| `DataFlood.FloodCost` | src/gossip_router.cpp:62-96 | each node sends a message at most once over each link, so a flood ends within two transmissions per link |
| `FloodLimits.TtlThreshold` | src/gossip_router.cpp:71-95 | for broadcasts, and likewise for targeted messages, delivery is certain in every component of a size, in every order of events, if and only if the ttl is at least that size less one |
| `FloodLimits.PathWithinTtlIsNotEnough` | docs/how-the-mesh-works.md:798-800 | a run that does not reach a destination two hops away with ttl 2 |
| `FloodLimits.FloodsEndWithoutCaches` | src/gossip_router.cpp:71-95 | with caches that forget anything at any time, any number of messages still die out: each receipt lowers a weight |
| `FloodLimits.HandedToReadersOnly` | src/gossip_router.cpp:62-96 | whatever the caches forget, a copy is handed over if and only if its id is not cached and the node is meant to get it: never at the originator of a broadcast, never on the way to a destination |
| `VersionedFlood.NewestRecordReachesAll` | src/peer_manager.cpp:274-317 | from any state, once a node has announced its latest record to all neighbors and nothing is in flight, every node reachable through nodes that accept it holds exactly that record |
| `VersionedFlood.RelayedAtMostOnce` | src/membership.cpp:35-53 | a node never again accepts a record of an origin that is not strictly newer |
| `VersionedFlood.FloodEnds` | src/membership.cpp:35-53 | while nobody announces, the receipts that can follow are bounded |
| `VersionedFlood.RefusedNeverHeld` | src/peer_manager.cpp:286-294 | over any run a node never comes to hold or replace a record of itself or of an origin it refuses, and relays none of the latter |
| `VersionedFlood.NotBack` | src/membership.cpp:50-52 | a record is not sent back to where it came from |
| `Membership.BuildAdjacency` | src/membership.cpp:91-103 | the table holds the symmetric closure of own links and stored records |
| `Membership.Bfs` | src/membership.cpp:105-119 | the worklist finds exactly the nodes reachable over it |
| `Membership.Tracker.RecomputeAndFire` | src/membership.cpp:90-134 | members are exactly the reachable nodes, and the joined and left events lead there without repeating or contradicting themselves |
| `Membership.Tracker.Flood` | src/membership.cpp:50-52 | membership is up to date whenever frames are handed out, so updates nested in a send find and leave it so |
| `Membership.Tracker.FloodSelf` | src/membership.cpp:81-88 | one record with the next version and the current links goes out |
| `Membership.Tracker.SetLocalNeighbors` | src/membership.cpp:26-33 | an unchanged set has no effect; a changed one is recomputed and announced |
| `Membership.Tracker.OnRemoteRecord` | src/membership.cpp:35-53 | a record is stored and relayed if and only if it is another node's and strictly newer |
| `Membership.Tracker.Tick` | src/membership.cpp:55-72 | only records refreshed in time survive; one's own record goes out again when due |
| `Convergence.MembershipConverges` | src/membership.cpp:26-134 | once gossip has settled every node holds the newest record of its component, and its members are that component if and only if no leftover record claims a link into it |
| `Convergence.GhostsCanStay` | src/membership.cpp:90-134 | a settled run in which a node outside the component is counted as a member, until the record that says so expires |
| `Convergence.FreshMeshConverges` | src/membership.cpp:26-134 | a mesh that starts with empty views settles on exact membership everywhere |
| `DialRace.WinnerIsKept` | src/peer_manager.cpp:137-148 | a connection dialed by the lower id is never displaced, at either end |
| `DialRace.KeepExistingByBytes` | src/peer_manager.cpp:137-148 | the decision on numbers is the decision on the bytes of the ids |
| `DialRace.OneWinnerConverges` | src/peer_manager.cpp:194-223 | with one such connection, every quiet run leaves both ends on it and all others closed |
| `DialRace.TwoWinnersCanAllDie` | src/peer_manager.cpp:140-141 | with two of them there is a run that closes every connection |
| `DialRace.RaceConvergesIff` | src/peer_manager.cpp:137-223 | both ends always agree on one link if and only if there is exactly one winner |
| `LinkLaws.DetachedIff` | src/peer_manager.cpp:336-341 | a closed connection is nobody's link any more, if and only if it was not filed under the reserved zero id |
| `LinkLaws.CloseKeepsRecords` | src/peer_manager.cpp:343-372 | if the record of a closing connection was Connected the connection was the link, and both go together; if not, a link goes only if it had lost its record |
| `LinkSteps.DialStrandedIff` | src/peer_manager.cpp:343-356 | from the laws of the tables: a record waiting for a connection that closes stays waiting if and only if the connection bears the id of another record (a link filed under zero apart) |
| `LinkSteps.CloseKeeps` | src/peer_manager.cpp:326-377 | closing a connection keeps every law of the tables |
| `LinkSteps.EbbTwice` | src/peer_manager.cpp:326-377 | what one closing can do is what any closings, one inside the other or one after the other, can do: links go, connections die and stay dead, a record changes only by being cleared as its connection dies, one comes to wait in vain only for a connection that dies bearing another record's id, and the listener is misled only by a link that had lost its record |
| `LinkSteps.AnswerPasses` | src/peer_manager.cpp:150-230 | the same of a whole handshake event, with all that ends because of it |
| `LinkTable.PeerManager.Close` | src/peer_manager.cpp:326-377 | closing, with closes and redials nested in it to any depth, keeps all tables in agreement and only takes away; whatever is nested, a record that waited for the connection is freed if and only if the connection does not bear another record's id; if nothing fails meanwhile, exactly this connection dies, exactly its link goes and exactly its record is cleared, and a static peer's endpoint is dialed again when due |
| `LinkTable.PeerManager.UpdateLocalMembership` | src/peer_manager.cpp:319-324 | membership's neighbors are the links again, also when sends fail during the flood |
| `LinkTable.PeerManager.Forward` | src/peer_manager.cpp:383-393 | sends that fail close their links and leave the tables in agreement |
| `LinkTable.PeerManager.MaintainStaticPeers` | src/peer_manager.cpp:535-580 | every dial in flight has its endpoint; if no dial fails outright, every endpoint that is due is then linked or being dialed, none is dialed that was linked or being dialed already, and nothing else changes |
| `LinkTable.PeerManager.OnPeerHandshake` | src/peer_manager.cpp:150-230 | the new connection becomes the link if and only if it is not to oneself and, if there is a link, goes the other way and was dialed by the lower id; the loser is closed; all else that happens are closings, from the tables with the handshake entered in them; says exactly when a first push fails; if nothing fails meanwhile, gives all tables, events and neighbors exactly |
| `LinkTable.PeerManager.MaybeDial` | src/peer_manager.cpp:95-119 | nothing changes for oneself, a linked or dialed peer, one without address, or with as many links as the fanout; in every other case a new connection is being dialed for the record |
| `LinkTable.PeerManager.OnDiscovered` | src/peer_manager.cpp:74-103 | the peer is recorded with its address; it is not dialed if it is oneself, linked or being dialed, or if there are as many links as the fanout, and dialed otherwise |
| `LinkTable.PeerManager.OnReconnectTimer` | src/peer_manager.cpp:429-441 | the same, and only for a record that is there, not lost, and heard of lately |
| `LinkTable.PeerManager.OnSeedDue` | src/peer_manager.cpp:495-497 | only a node without links dials a seed |
| `LinkTable.PeerManager.DropLost` | src/peer_manager.cpp:466-482 | exactly the silent, unlinked, non-static records go |
| `LinkTable.PeerManager.Reap` | src/peer_manager.cpp:591-604 | exactly the dead connections are freed; a link leads to one if and only if a link under the zero id has ended |
| `LinkTable.PeerManager.Handle` | src/peer_manager.cpp:74-604 | every event keeps the tables in agreement; what has gone wrong (a link under zero ended, a first push failed, a link ended without its record, a dial left waiting) is what the history of events says; and what is dialed is dialed by the rule |
| `LinkTable.StableNeverRepoints` | src/peer_manager.cpp:160-172 | endpoints that always answer with the same id never cost a linked peer its record |
| `LinkTable.Live` | src/peer_manager.cpp:39-604 | over a whole life: every link is a live connection to its peer if and only if no link under the zero id has ended, and every established connection is a link; until then a record that is being dialed waits for a live connection if and only if no event has stranded it, every peer or seed ever dialed was dialed within the fanout and the other rules, and membership's neighbors are the links, and the peer events alternate and tell who is linked if and only if no first push failed, unless a link has ended whose record a static endpoint's new id had erased; all conditions are told from the events |
| `LinkRuns.ZeroIdDangles` | src/peer_manager.cpp:336-341 | a run after which the link table leads to a freed connection |
| `LinkRuns.FirstPushCanFail` | src/peer_manager.cpp:216-229 | a run in which a peer is said to go before it has come |
| `LinkRuns.RepointedPeerIsForgotten` | src/peer_manager.cpp:160-172 | a run, from the start, after which a peer whose link has ended is still a neighbor and connected in the events |
| `LinkRuns.DialCanBeStranded` | src/peer_manager.cpp:95-101 | a run after which a known peer is never dialed again |
| `Mailbox.AlwaysInv` | src/mesh_impl.cpp:223-256 | in every interleaving a waiting command implies a set eventfd, a poster about to set it, or an IO thread on its way to the swap; and commands are kept in order |
| `Mailbox.QuietIff` | src/event_loop.cpp:60-76 | nothing is left to do exactly when no step but a new post is possible |
| `Mailbox.QuietMeansDone` | src/mesh_impl.cpp:231-256 | when all is quiet the loop has ended if and only if a Stop was posted, and every command has been processed once, in order; after a Stop, all but those that came later |
| `Mailbox.StopEndsTheLoop` | src/event_loop.cpp:66-69 | from when a Stop is posted until the loop has ended, some step other than a post is possible; with the bound on steps, every schedule that does not stall ends the loop |
| `Mailbox.StopsOnlyWhenTold` | src/mesh_impl.cpp:251-254 | the loop ends only once a Stop has been processed |
| `Mailbox.RunsEnd` | src/event_loop.cpp:102-128 | no run is longer than thirteen steps for each post, so every schedule becomes quiet |

## Left out

- Sockets, epoll registration, DNS, multicast discovery and accept loops: system calls; their results are arguments of the events.
- The insides of X25519, BLAKE2b, Ed25519 and ChaCha20-Poly1305: functions given as parameters; each theorem names what it assumes of them, and it is never more than that opening undoes sealing, that key agreement is symmetric, that the hashes compared in one handshake do not collide and that one signature does not fit one other message, and `HonestPairsExist` shows this consistent; `OnlyWhatWasSent` also assumes that nothing in the bytes read is forged.
- Clocks, random seeds, backoff times and timers: a timer may fire at any time; seeds are arbitrary initial values.
- `do_read` at the end of a stream: bytes that arrive in the same read as the end are not parsed by the code; the cut theorems are about reads that end with no more bytes for now.
- What DropOldest does to a secured link: records vanish from the middle of the stream, and it ends as under DropNewest.
- Snapshots, names, labels, identity files, configuration parsing and the public facade: they would only add easy members.
- Signature and allowlist checks on gossiped identity records: the mesh theorems treat them as refusals, an arbitrary set of pairs of node and origin.
- Message ids in the flood theorems: one message at a time, its id taken to be its own; `MintedIdsDiffer` says when ids can coincide.
- `shutdown` and events after it.
- Handle: not after a link filed under the zero id has ended, and likewise OnPeerHandshake and the other events; from then on the code may follow a pointer to freed memory. Reap is described there too.
- Live: once a link has ended whose record a static endpoint's new id had erased, only the tables are shown to agree, not neighbors and events.
- AlwaysInOrder: the reports of dropped frames under DropNewest, which come while the connection lives, are not among its events.
- Close: a record left waiting keeps a pointer to the freed connection, which the code only compares; connections are numbered here, so a new one at the address of a freed one is another. Which record is cleared with a link filed under zero is left open.
- ChannelRun: the Disconnect policy only. For frames within the size limits, which relayed frames are (`RelayIsAcceptable`).
- Consume: the byte vector is a sequence that is reassigned, so memmove is not modelled byte by byte.
- The mailbox lock and the eventfd are atomic steps; a thread that stalls forever is not excluded, only shown to be the sole reason for delay.
