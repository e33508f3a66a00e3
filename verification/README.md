# macro-bus: a verified model

macro-bus is a publish/subscribe daemon with cluster federation. This project models its core in Dafny and
proves what its protocol promises: who owns a message type, how messages and ownership records spread through a
cluster, and how commands, replies and asynchronous pushes share one byte stream.

## How it is built

Every transition of a daemon is defined once, as a function on values. The classes perform these transitions in
place and are proved against the functions; the cluster state machine is made of the same functions.

| files | what they model |
|---|---|
| `Text`, `Lines`, `Message` | numbers, fields, lines and message values shared by all |
| `Ownership`, `SeenSet`, `Outbound`, `Registry` | the registry: ownership order, dedup window, bounded queues with tail-drop, subscription index, and the classes `SeenSet`, `ConnHandle` and `Registry` |
| `Framing`, `Peering`, `Torn`, `Federation`, `Dialer` | dot-stuffing, the peer wire format, streams that end inside a frame, the classes `PeerReader` and `Engine`, and the reconnect loop |
| `Cluster` | the cluster as a state machine over its steps |
| `Invariants`, `Coverage`, `Convergence`, `Delivery`, `Flooding`, `Termination`, `Safety`, `Ordering`, `Echo`, `Loss`, `Delays`, `Backlog` | what every step keeps and what holds over all runs |
| `Intake`, `Exchanges`, `Connection` | reading commands and bodies from chunks, what a connection may answer, and the class `Conn` |
| `Utf8`, `Command`, `Grammar` | lossy decoding, the command parser and its grammar |
| `Replies`, `Octets`, `Client`, `Demux` | the server's output units, what is on the wire octet by octet, the class `Client`, and client sessions |
| `EndToEnd`, `Served` | the modules composed: a body from publisher to subscriber, a connection's output read by a client |

The cluster state holds each daemon's registry, its clients' subscriptions, each dialed link (records of the
snapshot not yet pushed, bounded queue, octets on the wire, and as history the frames its full queue refused),
pending jobs and frames on dead sockets. A step is one critical section of the code. Because the registry lock is
released before a broadcast, and the seen-set lock before a remote message is fanned out, what a task still has to
do is a job of its own in the state and any other step may come in between. Installing a link and reading the table
for its snapshot are separate steps too. Queue overflow, link loss and reconnection can happen at any time.

`Conn` runs while other tasks use the same registry: at every await a script, over which all results are
quantified, says which calls other tasks make and which branch of the select fires next. Socket input is a
list of reads of arbitrary length.

## What the proofs say about the code and its documentation

Where the code and its documentation differ the model follows the code.

- Convergence "regardless of which links delivered which RREGs" (PROTOCOL.md 9.4) fails when a full peer queue
  refuses a record, which is not sent again until the link comes up anew (`Loss.LossPreventsConvergence`). A quiet
  cluster has converged if and only if every record refused on its links was settled at the far end in some other
  way (`Convergence.ConvergesIff`).
- Applying records is commutative (PROTOCOL.md 9.4) unless two records tie on (timestamp, daemon-id) with
  different keys (`Ownership.CommutesIff`). In a run no such pair exists (`Safety.OwnershipIsSound`), since a
  daemon originates one record per type; this needs distinct daemon ids and no restart.
- `unstuff_line` strips a dot from every line that begins with one, not only from lines that begin with two
  (`Framing.UnstuffDiffersIff`).
- A body refused with 452 is drained to its terminator if and only if every line of it is acceptable where it
  starts (`Intake.BodyReadIff`); otherwise reading stops at an over-long line and the rest of the body is read as
  commands (`Intake.UndrainedBody`). Independently of how the stream is cut into reads, that is decided by
  `Intake.EveryCuttingIff` and `Intake.SomeCuttingIff`.
- Whether a line of exactly the limit is accepted depends on where a read ended (`Intake.PullLineIff`,
  `Intake.BoundaryMatters`); one octet shorter it does not (`Intake.ChunksDoNotMatter`).
- The peer reader accepts an unterminated last line, so a stream that ends inside a frame can change a record's
  timestamp or shorten a body. It yields exactly the frames complete by then if and only if the cut avoids the
  places that `Torn.CutStreamIff` names. In the cluster machine a frame arrives whole or not at all, which is what
  clean cuts give (`Safety.DeadWireIff`).
- Two acceptances of one message at one daemon have a whole window of others between them
  (`Flooding.AcceptancesAreSpaced`). Its fan-outs follow outside the lock, so they have that only less what the first
  one was late (`Delays.FanOutsAreSpaced`); `Delays.FanOutsMeetIff` says exactly when nothing is between them, and
  `Delays.FanOutsCanMeet` is a run that gets there.

## Assumptions

- Octets are `char`s. Command lines are decoded as `from_utf8_lossy` does it before they are parsed (`Utf8`); body
  lines, peer frames and what the client reads are taken to be valid UTF-8, so decoding them is the identity. In
  the command parser a `char` is a Unicode scalar.
- Sequence numbers and drop counters stay below 2^64; timestamps are below 2^64 where they are printed and read.
- Daemons have distinct ids that are tokens, do not restart during a run, and a link's greeting names the
  configured peer.
- The ordering and no-echo results at a daemon hold as long as that daemon's own window has evicted nothing
  (`Flooding.Unevicted`); termination asks that every window hold all messages published (`Termination.Roomy`).
  `Flooding.OfferedRarely` and `Flooding.AcceptancesAreSpaced` are the results for any window.
- On a link that goes down, the far end's stream ends at a clean cut, in the sense of `Torn.CutStreamIff`.
- The calls other tasks make on a connection's registry are those their own parsers let through: types and keys
  without blanks or line ends, LF-free bodies (`Connections.IsForeign`, justified by `Peering.ReadIsWellFormed` and
  `Commands.ParsedIsValid`).

## Model

| member | source | states |
|---|---|---|
| `Convergence.Always` | crates/macro-busd/src/federation.rs:137-152 | In every state of every run of the cluster: each frame queued, pending or on a wire is genuine and already known where it comes from, ids are unique and every window is the last accepted ids, each table entry was registered, and whatever a live link owes has arrived, is still carried, or was refused by its full queue. |
| `Convergence.ConvergesIff` | crates/macro-busd/src/federation.rs:143-150 | In every run, however steps interleave and links come and go: when no RREG is pending or in flight on a set of up-links that joins all daemons, every daemon holds the same table, namely the lowest (timestamp, daemon-id) record ever registered for every type ever registered, if and only if every record that a full queue of these links refused since they came up has been settled at its far end otherwise. |
| `Convergence.FirstRegistrationWins` | crates/macro-busd/src/registry.rs:64-68 | The same in terms of time: in a quiet cluster every daemon knows exactly the registered types, and its entry for each is a registered record than which no other has a smaller timestamp, nor at that timestamp an origin that comes first in lexicographic order, if and only if no refused record is missing. |
| `Convergence.Convergence` | crates/macro-busd/src/federation.rs:323-358 | Hence quiet links that refused nothing and join all daemons are enough. |
| `Coverage.StepCovered` | crates/macro-busd/src/federation.rs:199-211 | Every step keeps, for each link that is up, that any record or newly accepted message of its sender is known at the far end, still queued, on the wire or pending for it, or was refused by its full queue, despite source exclusion and with the sender installed before the snapshot is taken. |
| `Loss.LossPreventsConvergence` | crates/macro-busd/src/federation.rs:145-147 | The documented unconditional convergence (PROTOCOL.md 9.4) fails: a run of two daemons, linked both ways, where 4097 registrations are broadcast before the writer runs, comes to rest with different tables. |
| `Federation.SnapshotFitsIff` | crates/macro-busd/src/federation.rs:203-211 | A snapshot pushed before the writer starts survives whole exactly when it fits the queue, and otherwise exactly its first records do. |
| `Termination.PropagationFalls` | crates/macro-busd/src/federation.rs:137-152 | Every propagation step (fan-out, broadcast, snapshot, push, write, delivery, loss on a dead socket) strictly lowers one measure: unlearned (daemon, frame) pairs weighted by the number of links, plus the steps still needed by what is in flight. |
| `Termination.PropagationTerminates` | crates/macro-busd/src/federation.rs:315-320 | From any point of a run where only propagation follows and no window can have evicted an id, at most that measure many steps follow, in any order. |
| `Termination.Progress` | crates/macro-busd/src/federation.rs:373-381 | As long as anything is pending or in flight some propagation step is possible, so a cluster at rest has nothing in flight. |
| `Termination.PropagationConverges` | crates/macro-busd/src/federation.rs:345-357 | Left alone, the cluster comes to rest within the measure with nothing in flight; if links that are then up join all daemons, its tables have converged if and only if no record refused on these links is missing. |
| `Flooding.FloodComplete` | crates/macro-busd/src/federation.rs:289-321 | In every run: a daemon at the end of a path from the origin, each link of which was up before its sender accepted the message, did not refuse it, has nothing of it left to bring and leads to a daemon whose limit admits it, accepted it exactly once, fanned it out exactly once and offered it exactly once to each connection subscribed at that moment and to no other, as soon as no job for it waits there and while it has accepted at most one message more than its window holds. Nothing is asked of other links or daemons. |
| `Flooding.OfferedRarely` | crates/macro-busd/src/registry.rs:354-376 | In every state of every run, for any window: a connection is offered a message no more often than its daemon accepted it, and n times only if that daemon accepted more than (n - 1) * (cap + 1) messages. |
| `Flooding.OfferedAtMostOnce` | crates/macro-busd/src/registry.rs:354-376 | Hence no connection is offered a message twice before its own daemon has accepted two messages more than its window holds. |
| `Flooding.AcceptancesAreSpaced` | crates/macro-busd/src/registry.rs:107-120 | In every state of every run, two acceptances of one message at one daemon have at least cap other acceptances between them. |
| `Delays.FanOutsAreSpaced` | crates/macro-busd/src/registry.rs:354-362 | In every run, for any window: from the acceptance that one fan-out of a message belongs to until the next fan-out of that message at the same daemon, the daemon accepts more than cap further messages. Only acceptances during the delay of a fan-out can be missing between two of them. |
| `Delays.FanOutsMeetIff` | crates/macro-busd/src/registry.rs:354-362 | In every state of every run, two fan-outs of a message at a daemon can be the next two steps, with no acceptance between them, if and only if the daemon has accepted it at least twice more than it has fanned it out. |
| `Delays.MeetingFanOuts` | crates/macro-busd/src/registry.rs:365-376 | Two fan-outs that meet offer the message twice to the same listeners, with no acceptance in between. |
| `Delays.FanOutsCanMeet` | crates/macro-busd/src/federation.rs:310-320 | This happens for every window size: a run from three fresh daemons, in which every reader finishes with a frame before it takes its next, ends in such a state, because one reader has recorded the message and not yet fanned it out while the daemon publishes cap messages and the message arrives again from another peer. |
| `Flooding.AcceptedOnce` | crates/macro-busd/src/registry.rs:354-361 | A daemon whose window has evicted nothing has accepted no message twice. |
| `Echo.NeverReturned` | crates/macro-busd/src/federation.rs:137-142 | In every run, as long as a daemon's own window has evicted nothing: from the step by which it takes a message from a peer on, over a live or a dead link, it never has that message queued, written, pending or on a socket for that peer, whatever else it does with it. |
| `Echo.FannedToSubscribers` | crates/macro-busd/src/registry.rs:365-376 | Every fan-out in a run went to exactly the connections whose own subscriptions held the type at that moment. |
| `Invariants.PublishIsNew` | crates/macro-busd/src/registry.rs:345-346 | A newly published message is never taken for a duplicate: its id is fresh, so it is recorded. |
| `Invariants.DuplicateWasAccepted` | crates/macro-busd/src/registry.rs:354-357 | Deduplication discards only messages this daemon did accept before. |
| `Invariants.NextIdIsFresh` | crates/macro-busd/src/registry.rs:167-170 | The next id of any daemon differs from the id of every message ever published in the cluster. |
| `Registries.MsgIdInjective` | crates/macro-busd/src/registry.rs:167-170 | daemon-hex(n) determines daemon and n, also for daemon ids that contain hyphens or look like numbers. |
| `Ordering.OfferedInOrder` | crates/macro-busd/src/registry.rs:322-348 | In every state of every run, as long as its daemon's own window has evicted nothing, a connection was offered that daemon's messages in strictly increasing order of their sequence numbers. |
| `Safety.PublishedWasAuthorized` | crates/macro-busd/src/registry.rs:313-349 | Every message published in a run was published by a step at whose instant the origin's table held the type under the key given, and that same step fanned it out to exactly the connections then subscribed. |
| `Safety.FannedWasAuthorized` | crates/macro-busd/src/registry.rs:365-376 | Whatever any daemon ever fans out was so authorized where it was published. |
| `Safety.OwnershipIsSound` | crates/macro-busd/src/registry.rs:176-234 | In every reachable state each record, in a table, queue, pending job or socket, was registered at its origin by a first REGISTER there, and its type and origin alone determine its key and timestamp. |
| `Safety.EntriesOnlyGetEarlier` | crates/macro-busd/src/registry.rs:217-231 | Between any two states of a run no type disappears from a table, and an entry only gives way to one with a smaller timestamp, or with the same one and an origin that comes first. |
| `Safety.LinkSurvivesTheWire` | crates/macro-busd/src/federation.rs:56-75 | With command-parser-approved names and keys, every queue and wire content of every reachable state, serialized and read at the far end, yields the same frames in order, less bodies over the reader's limit. |
| `Safety.DeadWireIff` | crates/macro-busd/src/federation.rs:385-401 | When a link of any reachable state goes down and its far end reads only the first n octets on the wire, it applies exactly the frames complete by then, whole, if and only if the cut is clean; and it applies a prefix of the frames in no other case. |
| `Ownership.ApplyAllIsLowest` | crates/macro-busd/src/registry.rs:210-234 | After any sequence of received records a type's entry is the lowest of what was held and received; unheard types stay absent. |
| `Ownership.ApplyAllIsEarliest` | crates/macro-busd/src/registry.rs:210-234 | In terms of time: the entry is one of the records held or received, none of these has a smaller timestamp, and none with the same timestamp an origin that comes first. |
| `Ownership.OrderIsTime` | crates/macro-busd/src/registry.rs:64-68 | The order on records is by timestamp, and at equal timestamps by the lexicographic order of the daemon ids. |
| `Text.StrLessIff` | crates/macro-busd/src/registry.rs:66-68 | The order on daemon ids is the lexicographic one: at the first difference the smaller has the smaller character or ends. |
| `Ownership.OrderDoesNotMatter` | crates/macro-busd/src/registry.rs:210-234 | Two sequences with the same records, in any order and multiplicity, give the same table, provided timestamp and origin determine the record. |
| `Ownership.CommutesIff` | crates/macro-busd/src/registry.rs:217-231 | Without that proviso the documented commutativity (PROTOCOL.md 9.4) is not unconditional: two records commute exactly unless they tie on (timestamp, daemon-id) with different keys and would win. |
| `Ownership.ApplyDescends` | crates/macro-busd/src/registry.rs:210-234 | Applying a record settles it, lowers entries only, and reports a change exactly when the table did not hold a record at least as low. |
| `SeenSets.WindowIsLastAccepted` | crates/macro-busd/src/registry.rs:90-120 | After any inserts the window is exactly the last cap accepted ids in order, and two acceptances of one id have at least cap others between them. |
| `SeenSets.LastIsSuffix` | crates/macro-busd/src/registry.rs:110-118 | The window is a suffix of the accepted ids, of the window's length once there are that many. |
| `SeenSets.SeenSet.Add` | crates/macro-busd/src/registry.rs:107-120 | In place, set and deque agree: true iff the id is not among the last cap accepted ones, which then include it. |
| `Outbound.OfferConserves` | crates/macro-busd/src/registry.rs:365-376 | Queueing or counting a drop keeps, for every type: offered = written + queued + pending drops + drops already noticed, the queue within its depth, and written-then-queued an in-order subsequence of the offers. |
| `Outbound.TakeConserves` | crates/macro-busd/src/conn.rs:163-165 | Writing the oldest message keeps that conservation. |
| `Outbound.FlushConserves` | crates/macro-busd/src/conn.rs:368-381 | Turning all drop counters into notices keeps that conservation, in whatever order the map yields them. |
| `Outbound.ListDrops` | crates/macro-busd/src/conn.rs:369-375 | Draining the counters lists each type once with its whole count. |
| `Outbound.ConnHandle.TrySend` | crates/macro-busd/src/registry.rs:369-374 | Never blocks: enqueue while there is room, count the drop and leave a wake-up permit when full, or nothing when closed. |
| `Outbound.ConnHandle.DrainDrops` | crates/macro-busd/src/conn.rs:368-375 | Takes every counter into the notices to write and leaves none. |
| `Registries.Registry.RegisterLocal` | crates/macro-busd/src/registry.rs:176-208 | First registrant wins, the same key again is a no-op, another key is refused; entries never rise. |
| `Registries.Registry.ApplyRemoteRegistration` | crates/macro-busd/src/registry.rs:210-234 | The record replaces the one held exactly if that is absent, has a larger timestamp, or the same timestamp and a daemon that comes later; the result says whether the table changed. |
| `Registries.Registry.PublishPrecheck` | crates/macro-busd/src/registry.rs:289-305 | Unknown exactly if the type is not held, a key mismatch exactly if it is held under another key. |
| `Registries.Registry.PublishLocal` | crates/macro-busd/src/registry.rs:313-349 | Authorization, numbering, recording and fan-out are one transition of the registry value; an unknown type and a wrong key are told apart. |
| `Registries.Registry.IngestRemote` | crates/macro-busd/src/registry.rs:354-362 | True exactly for an id outside the window; only then is the message recorded and fanned out. |
| `Registries.Registry.FanoutLocked` | crates/macro-busd/src/registry.rs:365-376 | Every current subscriber of the type is offered the message once and no one else's queue changes. |
| `Registries.Registry.Remove` | crates/macro-busd/src/registry.rs:277-287 | Removing a finished connection type by type drops exactly its entries, and emptied types leave the index. |
| `Registries.Registry.ListTypes` | crates/macro-busd/src/registry.rs:248-253 | The known type names, each once, in strictly ascending order. |
| `Registries.SubscribeAgrees` | crates/macro-busd/src/registry.rs:256-263 | Subscribing keeps the index in agreement with every connection's own set, and a repeated subscribe changes nothing. |
| `Registries.UnsubscribeAgrees` | crates/macro-busd/src/registry.rs:266-274 | Unsubscribing keeps that agreement and leaves no empty entry. |
| `Registries.RemoveConnAgrees` | crates/macro-busd/src/registry.rs:277-287 | Removing an ended connection's own types keeps the agreement and leaves no entry that mentions it. |
| `Delivery.ClientsAlways` | crates/macro-busd/src/registry.rs:256-287 | In every state of every run: index and connections agree, every queue conserves its messages, and each connection was offered exactly the messages fanned out while it was subscribed, in order. |
| `Backlog.DropsAreRefusals` | crates/macro-busd/src/registry.rs:365-376 | In every state of every run, for every connection: its drop counters and notices are, type by type, exactly the messages offered to it while its queue was full. If there were none, and so at least while it was offered no more messages than its queue holds, everything it was offered is written or queued, in order, and nothing is counted or noticed. |
| `Framing.StuffRoundTrip` | crates/macro-bus-proto/src/frame.rs:20-45 | Unstuffing undoes stuffing, and a stuffed line is never the terminator. |
| `Framing.UnstuffDiffersIff` | crates/macro-bus-proto/src/frame.rs:36-45 | unstuff_line departs from its documented rule (strip only from lines that begin with two dots) exactly on lines with a single leading dot, and never on stuffed lines. |
| `Framing.EncodeBody` | crates/macro-bus-proto/src/frame.rs:49-58 | The loop builds the block: each line stuffed and ended by CRLF, then the terminator. |
| `Framing.BlockRoundTrip` | crates/macro-bus-proto/src/frame.rs:20-58 | A block of any LF-free lines, followed by anything, is read back as those lines and ends exactly at its own terminator. |
| `Peering.FrameStreamRoundTrip` | crates/macro-busd/src/federation.rs:267-341 | Serializing any list of well-formed FEED and RREG frames and reading the stream yields exactly the frames within the reader's limit, in order: no body line is taken for a frame or a terminator. |
| `Peering.FedBodyOf` | crates/macro-busd/src/federation.rs:405-443 | Reading a block of LF-free lines from a peer gives the lines iff their size fits, and in any case the stream right after the terminator. |
| `Peering.ReadIsWellFormed` | crates/macro-busd/src/federation.rs:267-341 | Whatever octets a peer sends, every frame read from them has a non-empty type, key and origin without blanks and LF-free lines. |
| `Peering.ParseRregIff` | crates/macro-busd/src/federation.rs:323-343 | RREG arguments are a record exactly if they are a type, a key, an origin and a number below 2^64, separated by single spaces and not empty, whatever follows a further space. |
| `Peering.ParseFeedIff` | crates/macro-busd/src/federation.rs:289-310 | FEED arguments are a message exactly if type, id and origin are there and the body fits. |
| `Peering.FeedTakesItsBody` | crates/macro-busd/src/federation.rs:289-310 | After a FEED line, well-formed or not, the block is consumed as its body and reading goes on behind it. |
| `Peering.OtherLinesAreSkipped` | crates/macro-busd/src/federation.rs:267-287 | A line that is neither FEED nor RREG is skipped. |
| `Torn.TornFrame` | crates/macro-busd/src/federation.rs:385-443 | What the reader makes of a well-formed frame cut after any number of octets: an RREG with part of its timestamp, a FEED with the lines before a stuffing dot, or nothing. |
| `Torn.TornStream` | crates/macro-busd/src/federation.rs:385-443 | The same for any stream of frames and any cut: the fitting frames complete by then and what the torn one yields. |
| `Torn.CutStreamIff` | crates/macro-busd/src/federation.rs:385-443 | A cut stream yields exactly the fitting frames that are complete by then if and only if the cut is neither strictly inside the timestamp of an RREG nor right after the stuffing dot of a body line whose preceding lines fit the limit. |
| `Torn.CutIsPrefixIff` | crates/macro-busd/src/federation.rs:385-443 | If the messages have distinct ids, it yields a prefix of the fitting frames in exactly the same cases. |
| `Federation.PeerReader.ReadLine` | crates/macro-busd/src/federation.rs:385-401 | One LF-terminated line without its CRLF, the unterminated rest at the end of the stream, or nothing. |
| `Federation.PeerReader.ReadBody` | crates/macro-busd/src/federation.rs:405-443 | The unstuffed lines iff the sum of length + 1 is within the limit; fitting or not, reading stops right after the terminator. |
| `Federation.Engine.Broadcast` | crates/macro-busd/src/federation.rs:137-152 | Every dialed peer but the excluded one gets the frame at the end of its queue unless that is full. |
| `Federation.Engine.HandleRreg` | crates/macro-busd/src/federation.rs:323-358 | A well-formed record is applied and, if it changed the table, re-forwarded to all peers but its source; anything else is ignored. |
| `Federation.Engine.HandleFeed` | crates/macro-busd/src/federation.rs:289-321 | A new message with complete header and fitting body is delivered and forwarded to all but its source; otherwise nothing changes and the stream is still consumed to the terminator. |
| `Federation.Engine.ReadLoop` | crates/macro-busd/src/federation.rs:267-287 | Reading a stream to its end is handling, in order, exactly the frames the stream stands for. |
| `Federation.Engine.PushRecords` | crates/macro-busd/src/federation.rs:203-211 | Pushing a snapshot appends its records one by one as far as the queue has room. |
| `Federation.Engine.AllRegistrations` | crates/macro-busd/src/registry.rs:238-245 | Lists every record of the table exactly once. |
| `Federation.Engine.LinkUp` | crates/macro-busd/src/federation.rs:199-211 | The send side is installed first and then gets the table, all of it exactly when it fits the queue. |
| `Federation.Engine.WriteLoop` | crates/macro-busd/src/federation.rs:373-381 | The socket gets the serialization of the queue, in order, nothing else. |
| `Federation.Engine.RemovePeer` | crates/macro-busd/src/federation.rs:219-221 | The end of a link removes its queue with whatever is still in it, and no other peer's. |
| `Federation.LinkUpInCluster` | crates/macro-busd/src/federation.rs:199-211 | A link's installation, its snapshot and the pushes of all its records are possible one after the other in the cluster and leave the sender's peers as `Engine.LinkUp` promises, and every other daemon's as they were. |
| `Federation.WriteLoopInCluster` | crates/macro-busd/src/federation.rs:373-381 | As many writes as a queue has frames are possible and leave the peers as `Engine.WriteLoop` promises, with exactly the octets it returns added to the wire. |
| `Federation.RemovePeerInCluster` | crates/macro-busd/src/federation.rs:219-221 | A link that goes down leaves the sender's peers as `Engine.RemovePeer` promises, and what was written on the dead socket. |
| `Federation.HandleRefines` | crates/macro-busd/src/federation.rs:289-321 | Handling one frame without interruption is, in the cluster machine, its delivery followed by its job's fan-out and broadcast; a body over the limit changes nothing there either. |
| `Federation.SendIsSendAll` | crates/macro-busd/src/federation.rs:137-152 | The engine's broadcast and the cluster's send step fill the same queues. |
| `Dialer.RunDialer` | crates/macro-busd/src/federation.rs:156-172 | The loop sleeps base after an attempt whose `dial_once` returned `Ok`, and otherwise base times two to the number of errors since the last `Ok`, up to the maximum; a link that came up and broke counts as an error. |
| `Dialer.CappedIff` | crates/macro-busd/src/federation.rs:157-171 | The configured maximum bounds every sleep exactly when the base does not exceed it. |
| `Intake.PullLineIff` | crates/macro-busd/src/conn.rs:307-345 | A line is accepted exactly when its LF is at most max octets into the stream, or one further behind a CR that no read ended at; input ends only inside a line within the limit. |
| `Intake.PullLineIsNextLine` | crates/macro-busd/src/conn.rs:307-345 | The accepted line is the stream's next line less CRLF, and buffer plus unread chunks are exactly what follows it. |
| `Intake.ChunksDoNotMatter` | crates/macro-busd/src/conn.rs:328-345 | If the LF is at most max octets in, CR included, every cutting into reads gives the same line and the same remaining stream. |
| `Intake.BoundaryMatters` | crates/macro-busd/src/conn.rs:314-319 | A line of exactly max octets with CRLF is refused when a read ends between CR and LF and accepted otherwise. |
| `Intake.BodyIsRead` | crates/macro-busd/src/conn.rs:266-302 | A terminated body whose lines fit is read as the stream's first block and reading stops right after it. |
| `Intake.ReadIsBody` | crates/macro-busd/src/conn.rs:266-302 | Conversely a body read in full is the stream's first block and none of its lines is over the line limit. |
| `Intake.BodyReadIff` | crates/macro-busd/src/conn.rs:266-302 | A body is read to its terminator if and only if every line up to the lone dot is acceptable where it starts, in the sense of `PullLineIff`. |
| `Intake.EveryCuttingIff` | crates/macro-busd/src/conn.rs:266-302 | Every cutting of a stream into reads lets its body through if and only if each line of it has its LF at most max octets in. |
| `Intake.SomeCuttingIff` | crates/macro-busd/src/conn.rs:266-302 | Some cutting lets it through if and only if no line of it, CR stripped, is over max octets. |
| `Intake.UndrainedBody` | crates/macro-busd/src/conn.rs:276-281 | Whenever a terminated body is not read to its end, reading stopped at an over-long line and the terminator is still to come: nothing drains to it, unlike the comments in handle_publish and read_body say, and the rest is read as commands. |
| `Intake.BodyTaken` | crates/macro-busd/src/conn.rs:266-302 | What read_body consumes: one whole block, or lines without a terminator when a line is over-long or the stream ends. |
| `Connections.Conn.TakeBuffered` | crates/macro-busd/src/conn.rs:307-323 | take_line in place: a complete line leaves the buffer, an incomplete one stays, over-long ones are refused. |
| `Connections.Conn.ReadLineBlocking` | crates/macro-busd/src/conn.rs:328-345 | The loop over reads yields the line specified above while other tasks change the registry at every await. |
| `Connections.Conn.ReadBody` | crates/macro-busd/src/conn.rs:266-302 | The unstuffed lines iff the sum of length + 1 is within the limit, None for oversize or an over-long line, an error at the end of the stream. |
| `Connections.Conn.PublishAndForward` | crates/macro-busd/src/conn.rs:250-257 | The body is published under the table as it is after the body was read, and accepted exactly if that holds the type under this key; only then the message, with exactly these lines, goes to the cluster, after it was fanned out. |
| `Connections.Conn.HandlePublish` | crates/macro-busd/src/conn.rs:226-261 | By the table when the command is handled: 430 and nothing else exactly if the type is not held, 441 exactly if it is held under another key, and else 354, the body and one verdict; if the stream ends inside the body, 354 only. |
| `Connections.Conn.Judge` | crates/macro-busd/src/conn.rs:240-259 | The verdict: 452 for a body over the limits; else by the table at that moment 250 and the message to the cluster if it holds the type under this key, 430 if it does not hold the type, 441 if under another key. |
| `Connections.Conn.HandleRegister` | crates/macro-busd/src/conn.rs:193-206 | A free type is answered 210 and its record, with this daemon and the time, goes to the cluster; the same key is answered 210, another key 433, and neither goes further. |
| `Exchanges.ClaimIsJob` | crates/macro-busd/src/conn.rs:196-201 | The record handed over is the job that the cluster machine leaves on REGISTER, and there is one exactly if the type was free. |
| `Connections.Conn.HandleSubscribe` | crates/macro-busd/src/conn.rs:207-212 | Index and own set gain the type together and the reply follows. |
| `Connections.Conn.HandleUnsubscribe` | crates/macro-busd/src/conn.rs:213-218 | Index and own set lose the type together and the reply follows. |
| `Connections.Conn.ListTypes` | crates/macro-busd/src/conn.rs:427-439 | One listing, ascending, of every type known when the command came and none unknown when it ends. |
| `Connections.Conn.HandlePlain` | crates/macro-busd/src/conn.rs:174-192 | The one reply to an unparsable line, QUIT, CAPABILITIES, HELP or LIST TYPES. |
| `Connections.Conn.HandleCommand` | crates/macro-busd/src/conn.rs:174-224 | Every command line, decoded and then parsed, adds exactly one legal exchange to the history, and only SUBSCRIBE and UNSUBSCRIBE change the own set. |
| `Connections.Conn.FlushDrops` | crates/macro-busd/src/conn.rs:368-381 | Every pending counter becomes one whole 102 line with its count, between exchanges. |
| `Connections.Conn.WriteOutbound` | crates/macro-busd/src/conn.rs:360-365 | The oldest queued message becomes one whole 101 block between exchanges. |
| `Connections.Conn.Wait` | crates/macro-busd/src/conn.rs:155-169 | When the queue branch fires on a non-empty queue its oldest message is written whole, whatever others appended meanwhile; the wait gives up only at the end of input. |
| `Connections.Conn.ServeOnce` | crates/macro-busd/src/conn.rs:136-171 | Each turn first writes a notice for every counter then pending, and then answers a buffered command line, before it waits for anything. |
| `Connections.Conn.Serve` | crates/macro-busd/src/conn.rs:131-171 | Whatever branch each wait takes and whatever other tasks do meanwhile: the output is the greeting and the rendering of a legal history, the input is what the history consumed and the unread rest, and pushes written are exactly messages and notices taken from the queue. It ends only after QUIT, after a line or body that breaks it off, or when the input is over and every complete line was answered. Nothing follows the reply to QUIT. |
| `Connections.Conn.Run` | crates/macro-busd/src/conn.rs:123-129 | For the connection's whole life the push discipline holds, its queue conserves every offer and holds only messages that can be pushed; at the end no index entry mentions it and its queue is closed. |
| `Exchanges.EveryCommandAnsweredOnce` | crates/macro-busd/src/conn.rs:131-261 | In any legal history there are exactly as many final replies as completed commands, and the unit after a 354 invitation is that command's final reply, never a push. |
| `Octets.RegisterOctets` | crates/macro-busd/src/conn.rs:193-206 | On the wire: `210 t registered` for a free type or the same key, `433 t already registered` for another key. |
| `Octets.RefusalOctets` | crates/macro-busd/src/registry.rs:289-335 | `430 t not registered` for a type nobody registered, `441 authorization key mismatch` for another key. |
| `Octets.VerdictOctets` | crates/macro-busd/src/conn.rs:226-261 | The literal text of 354, 452, 250 and of the 500 for an over-long line. |
| `Octets.ReplyOctets` | crates/macro-busd/src/conn.rs:174-218 | The literal codes and texts of the replies to SUBSCRIBE, UNSUBSCRIBE, QUIT, LIST TYPES, CAPABILITIES and HELP. |
| `Octets.GreetingOctets` | crates/macro-busd/src/conn.rs:131-134 | `200`, the daemon id and the fixed banner. |
| `Octets.DeliveryOctets` | crates/macro-bus-proto/src/message.rs:40-57 | `101 MSG`, type, id, origin and the block. |
| `Octets.NoticeOctets` | crates/macro-busd/src/conn.rs:368-381 | `102 DROP`, the type and the count in decimal. |
| `Octets.FrameOctets` | crates/macro-busd/src/federation.rs:56-75 | `FEED`, type, id, origin and the block; `RREG`, type, key, origin and the timestamp in decimal. |
| `Octets.StatusOctets` | crates/macro-busd/src/conn.rs:350-358 | A status line is the three decimal digits of its code, in ASCII, a space and the text. |
| `Octets.IdOctets` | crates/macro-busd/src/registry.rs:167-170 | A message id is the daemon id, a hyphen and the number in lower-case hexadecimal. |
| `Octets.BlockOctets` | crates/macro-bus-proto/src/frame.rs:20-58 | A block is the lines, each with a further dot if it begins with one, each ended by CRLF, and a lone dot. |
| `Octets.SizeOfBlock` | crates/macro-busd/src/conn.rs:283-290 | What counts against the message limit is the length of the block less one octet a line, the stuffing dots and the terminator. |
| `Text.PrintIsPositional` | crates/macro-busd/src/registry.rs:167-170 | Numbers are printed in positional notation, place i from the right counting base^i, in ASCII digits without leading zeros. |
| `Text.ParseUnsignedIff` | crates/macro-busd/src/federation.rs:345-350 | A text is read as a number exactly if it consists of decimal digits, after an optional plus sign, and denotes one below the limit; then it is that number. |
| `Utf8.TextRoundTrip` | crates/macro-busd/src/conn.rs:175-176 | Lossy decoding undoes UTF-8 encoding on every text. |
| `Utf8.AsciiIsText` | crates/macro-busd/src/conn.rs:175-176 | Seven-bit octets decode to themselves. |
| `Utf8.FirstIff` | crates/macro-busd/src/conn.rs:175-176 | Octets that begin with the encoding of a scalar yield it; any others yield one U+FFFD for the longest beginning that could still be completed to an encoding, or for one octet. |
| `Grammar.SpelledParses` | crates/macro-bus-proto/src/command.rs:78-193 | Every valid command, with any letter case of the verb and any blanks the grammar allows, parses back to itself. |
| `Grammar.ParseIff` | crates/macro-bus-proto/src/command.rs:78-193 | A line parses to a command exactly when it is a spelling of that command and the command is valid. |
| `Commands.ParsedIsValid` | crates/macro-bus-proto/src/command.rs:136-193 | A successful parse carries only valid type tokens and VCHAR keys; every failure is a 5xx. |
| `Grammar.FaultIff` | crates/macro-bus-proto/src/command.rs:78-193 | A line that is no command is refused with exactly one code: 500 for an empty line or an unknown verb, 501 for a wrong number of arguments or a malformed key, 502 for another LIST, 521 for a malformed type. |
| `Commands.TokensAre` | crates/macro-bus-proto/src/validate.rs:1-40 | Type names are ASCII letters, digits, hyphen, dot, slash and underscore, keys are visible ASCII, and only the letters a to z are raised to upper case. |
| `Commands.BlanksAre` | crates/macro-bus-proto/src/command.rs:78-93 | Spaces and tabs are trimmed from a line, the 25 white-space scalars of Unicode from arguments, and words end at spaces. |
| `Clients.TakeRendered` | crates/macro-bus-proto/src/message.rs:40-57 | A whole push, status line or listing written by a daemon, followed by anything, is read back as exactly that unit, whatever its body or list lines look like. |
| `Clients.UnitByCode` | crates/macro-bus-client/src/lib.rs:234-316 | Whatever the server sends: a unit read is a push exactly if its code is 1xx, then of 101, 102 or 190, and a reply carries a list exactly if its code is 215 or 231. |
| `Clients.OtherCodesAreReplies` | crates/macro-bus-client/src/lib.rs:234-255 | A status line with any other code outside 1xx is read as a reply with that code and text. |
| `Clients.Client.ReadLine` | crates/macro-bus-client/src/lib.rs:331-351 | Octet by octet: the line less CRLF, too long after max_line octets, closed at the end of the stream. |
| `Clients.Client.ReadBlock` | crates/macro-bus-client/src/lib.rs:319-328 | The unstuffed lines up to the lone dot. |
| `Clients.Client.ReadPush` | crates/macro-bus-client/src/lib.rs:273-316 | A 101 with its body, a 102 with its count, a 190 with its text, or a protocol error. |
| `Clients.Client.ReadResponse` | crates/macro-bus-client/src/lib.rs:234-255 | The reply to the command, with every push that came before it appended to the pending events. |
| `Clients.Client.NextEvent` | crates/macro-bus-client/src/lib.rs:208-221 | The oldest pending push, or else the push that must come next. |
| `Clients.Client.Publish` | crates/macro-bus-client/src/lib.rs:150-170 | The command, and the stuffed block only after a 354; any other code is the server's error. |
| `Demux.ReplyAfterPushes` | crates/macro-bus-client/src/lib.rs:234-255 | Waiting for a reply on a stream of whole units yields the first reply and buffers exactly the pushes before it. |
| `Demux.Demultiplexed` | crates/macro-bus-client/src/lib.rs:208-328 | For every stream of whole units within the line limit and every legal interleaving of commands and next_event calls: commands get their replies in order, and events handed out plus events buffered are exactly the pushes so far, in wire order. |
| `EndToEnd.PublishLineParses` | crates/macro-bus-client/src/lib.rs:150-156 | The line the client sends for PUBLISH parses to that command. |
| `EndToEnd.EncodedLineParsesIff` | crates/macro-busd/src/conn.rs:174-180 | A line that encodes a text is taken for a command exactly when the text is a spelling of it and the command is valid; so a blank outside ASCII is trimmed as the parser trims it. |
| `EndToEnd.BodyArrives` | crates/macro-busd/src/conn.rs:266-302 | However the client's block is cut into reads, the daemon recovers the lines iff their size fits, and goes on right after the terminator. |
| `EndToEnd.RelayedUnchanged` | crates/macro-busd/src/federation.rs:289-321 | Over any number of hops a message arrives unchanged exactly when its body fits every daemon's limit. |
| `EndToEnd.BodyIdentity` | crates/macro-bus-client/src/lib.rs:319-351 | From the publisher's lines to the subscriber's, octets at every boundary: equal lines arrive exactly when the body fits the publisher's daemon and every daemon on the way. |
| `Served.AnswersAreWellFormed` | crates/macro-busd/src/conn.rs:174-261 | Every status line a legal exchange can contain is one the client can parse. |
| `Served.HistoryIsWellFormed` | crates/macro-busd/src/conn.rs:131-381 | So is every unit of a connection's history: replies, listings, messages and notices. |
| `Served.ClientFollowsServer` | crates/macro-bus-client/src/lib.rs:208-328 | All octets a connection wrote in its life, from the greeting on, read by a client whose line limit suffices: it reads the greeting, and then, waiting once per reply and otherwise polling, gets each reply in order and every push once in the order written. |
| `EndToEnd.OfferedAreWellFormed` | crates/macro-bus-proto/src/message.rs:40-57 | In every reachable state every message offered to a connection has a header the client can take apart and LF-free lines. |

## Left out

- TLS, certificates, sockets, accept loops, file permissions, configuration loading, logging and the command-line
  tool: input and output without a property of their own. A failing socket write is not modelled; the output up to
  it is a prefix of the output described here.
- The peer greeting and its id, and the time that links take: in the cluster machine links go down and come up at any
  time.
- Daemon restarts, duplicate daemon ids and peers under another id than configured: the sequence number starts
  again at 1 and the results on ids do not survive it.
- Two connections to the same peer at once: the peers map holds one sender per peer id.
- `Outbound::Note` on the server side: no code path enqueues one, and the server writes no `NOTE` keyword. The
  client's code 190 is modelled.
- The texts of HELP and CAPABILITIES: arbitrary lists of LF-free lines in the model.
- Interleaving inside `Engine`: its methods run without interruption; `Cluster` is where frames of different links,
  clients and broadcasts interleave, and `Federation.HandleRefines` connects the two.
- Connections accepted while another one is served: `Conn` takes the handles that other tasks may subscribe as known
  when it starts; `Cluster` opens connections at any time.
- One frame at a time: a link of the cluster machine may deliver its next frame while the job of its last one still
  waits, which a reader does not do. Its runs include those of the code, so the results on all runs hold for these;
  the run of `Delays.FanOutsCanMeet` keeps to one frame at a time (`Delays.OneFrameAtATime`).
- A dead socket's octets in order: after a link goes down the frames still on its wire may be read in any order or
  lost, which allows more than the code does.
- Client calls other than `publish` and `next_event`: each sends one line and expects one code, as `Client.Expect` says.
