# Double Ratchet: a verified model

This project models the four session types of the library (base Double Ratchet, header
encryption, sparse post-quantum ratchet, Triple Ratchet), the stores under them and the byte
formats around them, and proves what two such sessions guarantee each other over a network that
may reorder, drop, repeat, alter and invent messages. To verify: run
`dafny verify dfyconfig.toml`.

## How it is built

There are three layers.

* **Functions on values** (`RatchetSpec`, `HeaderSpec`, `PqSpec`, `TripleSpec`, `SkippedQueue`)
  say what one call of a session computes and what state it leaves, branch by branch and error
  by error. Randomness is an argument (the fresh key pair, if entropy was available), and so is
  the answer of the key-agreement provider.
* **Classes** (`Sessions`, `HeaderSessions`, `PqSessions`, `TripleSessions`, `SkippedStore`,
  `ReceiveChains`, `PqMemory`, `Snapshot`, `ChainReading`) hold the same fields as the program's structs and
  work as it does: buffers are erased in place, chains are reached through references into the
  ring, a snapshot is copied before a call and handed back after a failure. Every method is
  proved against the function that describes it, so what is proved of the functions holds of the
  classes. `SkippedStore`, `ReceiveChains`, `PqMemory` and the sessions carry the frame reasoning
  that shows that erasing a superseded buffer never touches a live one, nor a copy kept to go back to.
* **Runs** (`BaseRuns`, `HeaderRuns`, `PqRuns`, `PqSystem`, `TripleRuns` and the theorem modules)
  put two sessions and a log of sent messages together. An invariant is proved for every step,
  and the theorems are read off it for every reachable state or every sequence of actions.
  The `…Conversation` modules add that conversations do get across, `…Gaps` when the next message
  still does after the network has interfered, `…Kept` that accepting one costs no other,
  `…Lossless` that over a whole run none is lost, `…Order` that messages may arrive in any order, and
  `…Erasure` which message keys can be derived from what a session holds.

What the functions on values themselves promise is stated apart from them: the `…Answers` modules say
for every state, configuration and input what a call answers, in the configuration's own numbers, and
`Layout`, `Padding` and `Framing` where each byte lies.

Cryptography is idealised (`Terms`): keys are free terms, Diffie-Hellman of two key pairs is the
unordered pair of them, a ciphertext opens only under the key and the associated data it was sealed
with, and a ciphertext under a key derived from a shared secret can only be obtained by copying it
from the log. A private key is named by the bytes of its public key. The history of a conversation
(`History`) is the sequence of ratchet keys in the order of their first use; epoch `j` is the sending
chain of the owner of the `j`-th key.

## What was found

* **A message of the base session can be accepted twice.** The repository's README.md:483 says that replaying a
  delayed message should fail. When a session follows its peer into a new epoch, it files the
  unread keys of the chain it leaves but does not move that chain (session.go:459-490), and the
  chain is retained; so a filed position can be read from the store and then once more from its
  chain. `BaseReplayExample.AcceptedTwice` is a concrete reachable run; `BaseReplay.ReplayExactly`
  gives the exact condition and `BaseReplay.RunAccounts` bounds every run. Header encryption, the
  post-quantum ratchet and the Triple Ratchet do not have this: `HeaderTheorems.AtMostOnce`,
  `PqSystem.AtMostOnce`, `TripleTheorems.AtMostOnce`. In the Triple Ratchet the elliptic-curve half
  alone may keep such a position; `TripleTheorems.DecryptAccounts` says when.
* **Caller data and header are concatenated without lengths** in the associated data of the
  post-quantum and Triple Ratchet sessions (session_spqr.go:434-457, session_tr.go:161-175). Equal
  associated data therefore means equal header and equal caller data exactly when the caller's
  data has the length the sender's had: `Wire.SckaADExact`, `Wire.TripleADExact`, with concrete
  collisions in `Wire.SckaADAmbiguous` and `Wire.TripleADAmbiguous`. `UnframedExample.PqAltered` and
  `UnframedExample.TripleAccepted` are deliveries, one message after the start, that succeed under an
  altered header and altered caller data. Delivery soundness of those sessions carries the
  condition as an if-and-only-if. With the base session's 40-byte header nothing of the kind is needed
  (`Wire.BuildADInjective`).
* **A call for position 2^32 - 1, once a chain reaches it, never returns**: the loop at session.go:543
  counts a 32-bit `i` up to and including `n`, and passes `n` exactly when `n` is smaller
  (`RatchetSpec.LoopEnds`). `RatchetSpec.LastPosition` is an input,
  `LastPositionExample.NeverReturnsReached` a reachable state with a header that takes no key to make.
  `RatchetSpec.ReturnsExactly` and `HeaderSpec.ReturnsExactly` say for all inputs which calls come
  back, and the receiving calls require just that; out of reach, position 2^32 - 1 is rejected like any other.
  With encrypted headers no network can bring it about (`HeaderTheorems.AlwaysReturns`); with plain
  headers it cannot while no epoch comes within MaxSkip of that many messages
  (`BaseGaps.EveryCallReturns`). The post-quantum session returns, but its counter starts over
  (session_spqr.go:266), and the position stays open exactly then (`PqRuns.UsedUpExactly`);
  `PqRuns.CounterStartsOver` is an input.
* **A message key outlives its use in the snapshot.** In the base session by itself a message key of
  the peer can be derived exactly while its message can still be accepted
  (`BaseErasure.ReceivableExactly`). But the copy that `Record` makes at the start of `Decrypt`
  (internal/state/invariants.go:34-45) stays after a success until the next call, however much is sent
  meanwhile, and with it the key just used can be derived again: `BaseErasure.SnapshotExactly`,
  `BaseErasure.UsedKeyKept`. With encrypted headers the chains left behind are kept although they are
  never read again, so that keys used from the store can be derived from the session itself:
  `HeaderErasure.ReceivableExactly`, `HeaderErasure.UsedKeyGone`. The post-quantum session keeps nothing
  of the kind (`PqErasure.UsedKeysErased`).
* **An error in the post-quantum `Decrypt` before authentication is not undone**
  (session_spqr.go:283-286). `PqRuns.NoOpExactly` says for every failing call whether the session is
  left as it was, `PqRuns.FailureMoves` is an input for which it is not, and what such a call uses up
  is exactly what the provider's output made the session prune (`PqRuns.FailedReceive`).
* **An `EncryptHE` that fails for want of entropy cannot simply be made again** (session_he.go:446-453): it
  has already reset the counter and taken the next header key into use, so that the next call
  announces a previous length of 0. Its outcome is what it would have been exactly if the counter
  stood at 0 (`HeaderAnswers.SendAgainExactly`). The base session's `Encrypt` can be made again
  (`BaseAnswers.SendAgain`).
* A header whose key is filed for the chain in use opens under the current header key as well, so
  the routes of `DecryptHE` do not exclude each other: `HeaderExample.FiledForCurrent`. What they do
  exclude is in `HeaderTheorems.OneOpener`.
* **PKCS#7 padding is undone exactly while the pad length fits a byte** (`Padding.RoundTrip`); at the
  library's block size of 16 it always does.
* A snapshot hands out its own chains and store (internal/state/invariants.go:70-71), so after a
  rollback session and snapshot share them. `Snapshot.Invariants.Record` and
  `Sessions.Session.Rollback` state what makes this sound: the snapshot's objects are apart from the
  session's, which is so whenever `Record` ran since the last rollback.

## Model

| member | source | states |
|---|---|---|
| `Wire.DecodeEncodeHeader` | session_he.go:481-490 | decoding a header undoes encoding it |
| `Wire.EncodeDecodeHeader` | session_he.go:481-490 | decoding succeeds exactly on 40 bytes or more, and encoding the result restores exactly the first 40 |
| `Layout.HeaderLayout` | session.go:644-650 | the 40 bytes of a header: ratchet key, previous length and number, each most significant byte first |
| `Layout.StorageKeyLayout` | internal/state/skipped.go:107-112 | the store's 36-byte identifier: ratchet key, then the number, most significant byte first |
| `Layout.SckaHeaderLayout` | session_spqr.go:460-471 | a post-quantum header: length of the message in four bytes, the message, the number in four bytes |
| `Layout.TripleHeaderLayout` | session_tr.go:298-305 | the composite header: 40 bytes that decode to the elliptic-curve header, then the post-quantum one |
| `Layout.AssociatedDataLayout` | config.go:74-91 | the associated data of bound sessions: sender's identity, receiver's identity, caller's data, header; unbound, the first two are missing |
| `Wire.ValidateExactly` | config.go:43-68 | a configuration is accepted if and only if its effective limit is at most 100000 and it binds two identities or none; the limit is noticed first |
| `Wire.IdentityExactly` | config.go:74-91 | what one end prepends is what the other expects if and only if each names the other, for all configurations |
| `Wire.BuildADExact` | session.go:635-642 | between any two sessions and over equally long caller data, equal associated data means equal header, equal caller data and matching identities, both ways |
| `Wire.BuildADInjective` | session.go:635-650 | between sessions of the same or of paired configurations, equal associated data means equal header and equal caller data |
| `Wire.StorageKeyInjective` | internal/state/skipped.go:107-112 | the store's 36-byte key names one ratchet key and one position |
| `Wire.EncodeSckaHeaderInjective` | session_spqr.go:460-471 | different post-quantum headers have different encodings, even where the length field wraps |
| `Wire.SckaADExact` | session_spqr.go:434-445 | equal associated data means equal header and caller data if and only if the caller data has equal length |
| `Wire.SckaADAmbiguous` | session_spqr.go:434-445 | two different pairs of caller data and header with the same associated data |
| `Wire.TripleADExact` | session_tr.go:298-305 | the same condition, exactly, for the composite header |
| `Wire.TripleADAmbiguous` | session_tr.go:298-305 | two different pairs with the same composite associated data: a copy of the elliptic-curve header passes for caller data |
| `SkippedQueue.StoreRangeFacts` | session.go:505-529 | filing a range of positions keeps identifiers distinct and the queue within its bound, adds only that range's keys, and each under its own position |
| `SkippedQueue.StoreRangeLast` | internal/state/skipped.go:129-143 | of what was on file and a range of new positions in order, a full store keeps exactly the last entries: the oldest go first |
| `SkippedQueue.StoreRangeNew` | internal/state/skipped.go:116-143 | what is on file already stays where it is; with room, exactly the rest of the range is appended |
| `SkippedQueue.StoreRangeRoom` | internal/state/skipped.go:116-143 | with room enough and nothing on file, the whole range is appended in order and nothing is evicted |
| `RatchetSpec.NewEpochOutcome` | session.go:220-263 | exactly when a header with an unknown ratchet key is followed into a new epoch, and which message key it then yields |
| `BaseAnswers.KnownAnswer` | session.go:235-275 | for every state and every header of a chain the session follows: when a key is derived, which one, and each error, with the configured limit or 1000 |
| `BaseAnswers.NewAnswer` | session.go:229-275 | the same for a header with a new ratchet key: invalid key, low order, too many unread before it or too many passed over |
| `BaseAnswers.FreshResponder` | session.go:106-275 | a responder that has heard nothing follows a header if and only if its key is valid and its number within the configured limit |
| `BaseAnswers.SendAnswer` | session.go:146-199 | when a message goes out, under which header and key, with the counter starting over after 2^32 - 1, and each error |
| `BaseAnswers.SendAgain` | session.go:390-409 | a call that failed can be made again: the outcome is as if it had not been made |
| `BaseAnswers.BoundToIdentities` | session.go:628-642 | a message delivered unaltered to any session that derives its key is accepted if and only if each session's identities name the other; otherwise authentication fails and nothing changes |
| `BaseAnswers.Strangers` | config.go:29-39 | two sessions of one shared secret under other identities do not understand each other from the first message on |
| `RatchetSpec.LoopEnds` | session.go:543-566 | the derivation loop's 32-bit index passes the wanted position if and only if that is not 2^32 - 1 |
| `RatchetSpec.ReturnsExactly` | session.go:205-263 | for every state and header, the call comes back if and only if the position is smaller, or its key is filed, or no chain that would serve it reaches it |
| `RatchetSpec.LastPosition` | session.go:533-578 | a state and a header for which it does not |
| `LastPositionExample.NeverReturnsReached` | session.go:543-566 | such a state is reached once a peer has sent 2^32 - 1 messages in one epoch and all were read, and the network needs no key for the header |
| `BaseRuns.InvStart` | session.go:51-98 | a freshly initialised pair of sessions satisfies the two-party invariant |
| `BaseRuns.StepInv` | session.go:146-276 | every send and every delivery, honest or not, keeps the two-party invariant |
| `BaseRuns.DeliverySound` | session.go:205-276 | what `Decrypt` accepts is a message the peer sent, with the same header and associated data, and the result is its plaintext |
| `BaseRuns.EverySend` | session.go:146-199 | with or without an owed step, `Encrypt` puts out the next message of the sender's epoch: its key, its number and the previous epoch's length; it has an epoch to send in unless it is a responder that has heard nothing |
| `BaseTheorems.RootLockStep` | session.go:390-501 | in every reachable state both root keys lie on one chain of DH steps, at most one apart; they coincide exactly when one party owes a sending step, and never do both |
| `BaseTheorems.OnlyPeerMessagesDecrypt` | session.go:205-276 | delivery soundness over every run: reflected, cross-epoch and altered messages never decrypt |
| `BaseTheorems.RetentionWindow` | session.go:208-263 | an honest message decrypts, to its text, if and only if its key is filed, or its chain is retained and within reach, or it opens the peer's next epoch within reach |
| `BaseTheorems.LastFiveEpochs` | internal/state/receiver_chains.go:9-51 | in every state of the two-party system the retained chains are those of the last five epochs received |
| `BaseKept.StillDecrypts` | session.go:205-276 | accepting a message costs no other: with room in the store, one that decrypted before does afterwards, exactly unless it was to be read off the oldest of five chains and a sixth was begun |
| `BaseLossless.NothingLost` | session.go:205-529 | after any run in which the store always had room, every message of the peer that the session has moved past, within an epoch or by leaving it, was accepted or still decrypts |
| `BaseTheorems.KeyWindow` | session.go:321-358 | the same window for the key alone, as the Triple Ratchet uses it |
| `BaseReplay.ReplayExactly` | session.go:208-263 | the message just accepted is accepted again if and only if its key came from the store and its retained chain still covers it |
| `BaseReplay.KeyUses` | session.go:321-358 | deriving a key makes no position acceptable, and leaves its own acceptable if and only if it came from the store while its chain covers it |
| `BaseReplay.RunAccounts` | session.go:433-490 | over every run, times accepted plus times still acceptable is at most one, or two for a position left behind unread |
| `BaseReplay.AcceptedAtMostTwice` | session.go:433-490 | no run accepts a message a third time, and a second time only if its position was left behind unread |
| `BaseReplayExample.AcceptedTwice` | session.go:459-490 | a reachable state in which one delivery succeeds twice |
| `BaseErasure.ReceivableExactly` | session.go:220-275 | in every state of the two-party system, the key of a message of the peer can be derived from what the session holds if and only if the message can still be accepted |
| `BaseErasure.SendableExactly` | session.go:281-317 | the key of a message of its own can be derived if and only if the message has not been sent yet |
| `BaseErasure.UsedKeyGone` | session.go:205-276 | after a successful `Decrypt` the key used cannot be derived from the session, unless it was filed while its chain covers it |
| `BaseErasure.SnapshotExactly` | internal/state/invariants.go:34-45 | with the snapshot of the last successful `Decrypt`, after any number of sends, a key of the peer can be derived if and only if its message could be accepted before that call, and one of the session's own if and only if it had not been sent before it |
| `BaseErasure.UsedKeyKept` | internal/state/invariants.go:34-45 | so the key of the message last accepted can be derived |
| `EagerRefinement.EncryptRefines` | session.go:146-151 | a session that owes a sending step sends what the eager session, which took it on receipt, sends |
| `EagerRefinement.DeferredRefinesEager` | session.go:390-421 | over every run of two parties, the deferred ratchet gives the results and sends the messages of the eager DHRatchet of section 3.5 of the Double Ratchet specification, with the same fresh keys |
| `OrderIndependence.AnyOrder` | session.go:249-276 | every order of delivery of a chain's next messages decrypts all of them and leaves the same state, with no stored key left |
| `OrderIndependence.EpochInAnyOrder` | session.go:220-276 | the first messages of an epoch not yet followed: whichever arrives first performs the DH step, every order decrypts all of them and leaves the state after that step with the new chain at their number |
| `EpochOrder.EpochArrives` | session.go:205-276 | the same for the messages logged in the peer's next epoch, in every state of the two-party system in which the step and the batch fit MaxSkip |
| `BaseGaps.ReachableBounded` | session.go:205-276 | in every reachable state no chain stands past the messages sent in its epoch and no key of an unsent one is filed |
| `BaseGaps.NextDecrypts` | session.go:220-263 | whatever the network did before, the next message sent, delivered at once, decrypts if and only if the messages unread in the epoch being read, and in the new one if it is another, are at most MaxSkip each |
| `BaseGaps.EveryCallReturns` | session.go:543-566 | while no epoch has come within MaxSkip of 2^32 - 1 messages, no header makes the call run on |
| `BaseConversation.ReadsNext` | session.go:220-275 | the next message in order is always readable, moves the reader one position on and stores nothing |
| `BaseConversation.TurnWorks` | session.go:146-276 | from any state in which both have read everything, a message sent and delivered decrypts, and both have read everything again |
| `BaseConversation.EveryConversation` | session.go:146-276 | two fresh sessions that take turns in any order, for any number of DH steps, never fail and never store a skipped key |
| `Sessions.Session.PerformDHRatchetSend` | session.go:390-421 | in memory, does the sending step described on values; ring and store are not touched |
| `Sessions.Session.RatchetSendKey` | session.go:281-317 | in memory, derives the next header and message key described on values |
| `Sessions.Session.Encrypt` | session.go:146-199 | result and new state are those described on values |
| `Sessions.Session.PerformDHRatchetRecv` | session.go:424-501 | in memory, does the receiving step described on values, with its three errors; at most MaxSkip chain derivations |
| `Sessions.Session.RatchetReceiveKey` | session.go:321-358 | in memory, yields the key and the state described on values |
| `Sessions.Session.Rollback` | session.go:581-599 | after erasing what the failed call left, the session stands for the recorded state again |
| `Sessions.Session.Decrypt` | session.go:205-276 | result and state are those described on values; on every error path the session stands for the state it had; after a success the snapshot holds that state; at most 2·MaxSkip + 1 chain derivations |
| `Sessions.NewInitiator` | session.go:51-98 | which errors initialisation reports, in which order, and the state it builds |
| `Sessions.NewResponder` | session.go:106-140 | the same for the responder |
| `ChainReading.SkipMessageKeys` | session.go:505-529 | files exactly the keys passed over and moves the chain in place, one derivation each |
| `ChainReading.FileFromCopy` | session.go:459-486 | files the keys of a copied chain; the chain copied from is unchanged |
| `ChainReading.DeriveRecvMessageKey` | session.go:533-578 | the key of the wanted position and a chain key moved past it, or nothing for a position already passed |
| `ChainReading.ReadPosition` | session.go:249-275 | the three outcomes of reading a chain, at most MaxSkip + 1 derivations |
| `SkippedStore.Storage.Store` | internal/state/skipped.go:116-143 | refines the bounded queue: a known identifier is ignored, a full store drops its oldest entry |
| `SkippedStore.Storage.Get` | internal/state/skipped.go:149-178 | takes the entry out of map and order alike and erases the object that held it |
| `SkippedStore.Storage.TryAllHeaderKeys` | internal/state/skipped.go:53-104 | whatever the map's iteration order, finds the one entry filed under the opening header key and the announced position, if there is one |
| `SkippedStore.Storage.Clone` | internal/state/skipped.go:201-223 | equal content, no shared object |
| `SkippedStore.Storage.Clear` | internal/state/skipped.go:188-198 | empties the store and erases every entry |
| `SkippedStore.Storage.Finds` | internal/state/skipped.go:26-33 | map, order and queue agree: the order lists the map's identifiers once each, and there are at most MaxSkip |
| `SkippedStore.NewStorage` | internal/state/skipped.go:39-48 | rejects a capacity beyond the limit, else an empty store |
| `ReceiveChains.ReceiverChains.Push` | internal/state/receiver_chains.go:36-51 | refines appending to a sequence of at most five, dropping the first when full |
| `ReceiveChains.ReceiverChains.EvictOldest` | internal/state/receiver_chains.go:37-43 | drops the oldest chain and erases its key |
| `ReceiveChains.ReceiverChains.Get` | internal/state/receiver_chains.go:55-63 | the slot of the oldest chain for that key, or nothing if there is none |
| `ReceiveChains.ReceiverChains.Advance` | session.go:522-525 | replaces key and counter of one chain through the reference, erasing the old key, and leaves the other chains alone |
| `ReceiveChains.ReceiverChains.Clone` | internal/state/receiver_chains.go:71-85 | equal content, no shared slot and no shared buffer |
| `ReceiveChains.ReceiverChains.Clear` | internal/state/receiver_chains.go:88-95 | empties the ring and erases every chain key |
| `ReceiveChains.ZeroBytes` | internal/crypto/mem.go:4-8 | overwrites a buffer, if there is one |
| `Snapshot.Invariants.Record` | internal/state/invariants.go:34-45 | the snapshot is of the given state and shares no object with it |
| `Snapshot.Invariants.GetPrevState` | internal/state/invariants.go:62-75 | hands back copies of the key buffers and the snapshot's own chains and store |
| `HeaderSpec.ServingEntry` | internal/state/skipped.go:57-83 | among distinct entries, the one that serves a header does not depend on the order of trying |
| `HeaderSpec.ReturnsExactly` | session_he.go:267-348 | for every state and sealed header, whether the call comes back, by the branch it takes |
| `HeaderAnswers.UnopenedAnswer` | session_he.go:190-208 | a header that nothing opens fails to authenticate, and one that opens to fewer than 40 bytes is invalid |
| `HeaderAnswers.CurrentAnswer` | session_he.go:301-347 | for every state and every header under the current header key: when a message key is derived, which one, and each error, a foreign ratchet key included, with the configured limit or 1000 |
| `HeaderAnswers.NextAnswer` | session_he.go:301-347 | the same for a header that begins an epoch |
| `HeaderAnswers.SendAnswer` | session_he.go:211-263 | when a message goes out, under which header key, nonce, header and key, and each error, an unset key and a spent nonce included |
| `HeaderAnswers.SendAgainExactly` | session_he.go:441-458 | a call that failed for entropy or a remote key of low order has the outcome it would have had when made again if and only if the counter stood at 0 |
| `HeaderAnswers.BoundToIdentities` | session_he.go:256-343 | a message delivered unaltered to any session that derives its key is accepted if and only if each session's identities name the other |
| `HeaderAnswers.Strangers` | config.go:29-39 | two sessions of the same shared secrets under other identities do not understand each other from the first message on |
| `HeaderKept.StillDecrypts` | session_he.go:267-348 | accepting a message costs no other: with room in the store, every other that decrypted before does afterwards |
| `HeaderLossless.NothingLost` | session_he.go:267-438 | after any run in which the store always had room, every message of the peer that the session has moved past was accepted or still decrypts |
| `HeaderErasure.ReceivableExactly` | session_he.go:282-347 | in every state of the two-party system, the key of a message of the peer can be derived from what the session holds, header keys included, if and only if the message can still be accepted or a chain that was left behind covers it |
| `HeaderErasure.SendableExactly` | session_he.go:232-254 | the key of a message of its own can be derived if and only if no step is owed and the message has not been sent yet |
| `HeaderErasure.UsedKeyGone` | session_he.go:267-348 | the message just accepted is not accepted again, and its key cannot be derived from the session, unless it was filed while a chain covers it |
| `HeaderErasure.SnapshotExactly` | internal/state/invariants.go:34-45 | with the snapshot of the last successful `DecryptHE`, after any number of sends, the peer's keys that can be derived are those that could be before that call, and the session's own those of messages not sent before it |
| `HeaderOrder.AnyOrder` | session_he.go:282-347 | every order of delivery of the current chain's next messages decrypts all of them and leaves the same state, with no stored key left |
| `HeaderOrder.EpochInAnyOrder` | session_he.go:282-347 | the first messages under the next header key: whichever arrives first rotates the header keys, every order decrypts all of them and leaves one and the same state |
| `HeaderEpochOrder.EpochArrives` | session_he.go:267-348 | the same for the messages logged in the peer's next epoch, in every state of the two-party system in which the step and the batch fit MaxSkip |
| `HeaderRuns.InvStart` | session_he.go:55-148 | a freshly initialised pair satisfies the two-party invariant, header keys included |
| `HeaderRuns.StepInv` | session_he.go:211-348 | every send and every delivery keeps it, even if header and ciphertext come from different messages |
| `HeaderRuns.OpenedBy` | session_he.go:190-208 | the current receiving header key opens the headers of the epoch being received, the next one those of the next epoch, and neither any other |
| `HeaderRuns.HonestOutcome` | session_he.go:267-348 | for an honest header under any ciphertext: when a key is derived, which one, that the invariant holds after, and that the position is used up and no other made available |
| `HeaderRuns.DeliverySound` | session_he.go:267-348 | what `DecryptHE` accepts is one message of the peer, header, ciphertext and associated data together |
| `HeaderTheorems.InvLockStep` | session_he.go:351-478 | the receiver's header keys are the sender's, or the sender is one step ahead and the receiver's next key is the sender's current one; never both |
| `HeaderTheorems.OneOpener` | session_he.go:187-208 | an honest header opens under the current key exactly when it carries the remote key in use, under the next exactly when it carries one not yet received, and serves at most one stored entry; if it serves one, it does not open under the next key, and under the current one exactly for the chain in use, which has passed its position |
| `HeaderExample.FiledForCurrent` | session_he.go:282-300 | a reachable state in which a header serves a stored key and opens under the current header key |
| `HeaderTheorems.AlwaysReturns` | session_he.go:267-348 | in every state of the two-party system, whatever header and ciphertext the network can obtain, the call comes back |
| `HeaderTheorems.DeliveryWindow` | session_he.go:282-347 | an honest message decrypts, to its text, if and only if its key is filed, or it lies ahead within reach on the current chain, or it opens the next epoch within reach |
| `HeaderTheorems.AtMostOnce` | session_he.go:267-348 | over every run each sent message is accepted at most once, failures use nothing up, and nothing used becomes available again |
| `HeaderTheorems.NonceUnique` | session_he.go:232-254 | no two sent headers have the same header key and nonce |
| `HeaderTheorems.NonceIsNs` | session_he.go:232-254 | in every reachable state the sending header key's counter is the number of the next message, and the key is set exactly for a party that has an epoch to send in |
| `HeaderTheorems.EveryRun` | session_he.go:211-478 | lock step, nonce uniqueness and at-most-once for every run from initialisation |
| `HeaderTheorems.OnlyPeerMessagesDecrypt` | session_he.go:267-348 | delivery soundness over every run |
| `HeaderGaps.FromStart` | session_he.go:267-348 | over every run the current chain does not stand past the messages sent in its epoch, and no key of an unsent one is filed |
| `HeaderGaps.NextDecrypts` | session_he.go:282-347 | whatever the network did before, the next message sent, delivered at once, decrypts if and only if the numbers of unread messages are at most MaxSkip |
| `HeaderConversation.TurnWorks` | session_he.go:211-348 | from any state in which both have read everything, a message sent and delivered decrypts, and both have read everything again |
| `HeaderConversation.EveryConversation` | session_he.go:211-348 | two fresh sessions that take turns in any order, for any number of header-key rotations, never fail |
| `HeaderSessions.HESession.PerformDHRatchetSendHE` | session_he.go:441-478 | in memory, does the sending step described on values, its partial effects on an error included |
| `HeaderSessions.HESession.EncryptHE` | session_he.go:211-263 | result and new state are those described on values |
| `HeaderSessions.HESession.PerformDHRatchetRecvHE` | session_he.go:351-438 | in memory, does the receiving step described on values, filing under the header key that is left |
| `HeaderSessions.HESession.DecryptHeader` | session_he.go:190-208 | the current header key is tried first, and which of the two opened is reported |
| `HeaderSessions.HESession.DecryptHE` | session_he.go:267-348 | result and state are those described on values; on every error path session and header keys are those it had; after a success the snapshot holds the earlier state; at most 2·MaxSkip + 1 chain derivations |
| `HeaderSessions.NewInitiatorHE` | session_he.go:55-105 | errors of initialisation and the state it builds |
| `HeaderSessions.NewResponderHE` | session_he.go:110-149 | the same for the responder |
| `PqAnswers.ReceiveAnswer` | session_spqr.go:215-269 | for every state, provider answer and position: when a key is derived and each error, with the configured limit or 1000 |
| `PqAnswers.ReceiveKeepsRest` | session_spqr.go:215-269 | a successful call uses up the position it reads and those of the epochs it drops, and no other |
| `PqAnswers.SendAnswer` | session_spqr.go:142-194 | when a message goes out, with which number and key, with the counter starting over after 2^32 - 1, and each error |
| `PqAnswers.BoundToIdentities` | session_spqr.go:434-457 | a message delivered unaltered to any session that derives its key is accepted if and only if each session's identities name the other |
| `PqAnswers.Strangers` | config.go:29-39 | two sessions of one shared secret under other identities do not understand each other from the first message on |
| `PqRuns.AdvanceWindow` | session_spqr.go:149-170 | a new epoch is the next one and overwrites none; the live epochs stay an interval ending at the current one if and only if the reported epoch is at most one ahead |
| `PqRuns.EventWindow` | session_spqr.go:372-401 | a call keeps that interval if and only if it does not take in a key for an epoch reported further ahead |
| `PqRuns.RunWindow` | session_spqr.go:142-311 | over a whole run every state has that interval if and only if no call on the way overshoots |
| `PqRuns.FromInit` | session_spqr.go:64-109 | at-most-once and the interval, of every run from initialisation |
| `PqRuns.ReceiveConsumes` | session_spqr.go:215-269 | receiving makes no position available and uses up the one it yields a key for; the epoch moves by at most one |
| `PqRuns.UsedUpExactly` | session_spqr.go:257-267 | the position just read is used up if and only if the receiving counter does not start over |
| `PqRuns.CounterStartsOver` | session_spqr.go:257-267 | a state and an answer for which it does, so that the position just read can be read again |
| `PqRuns.FailedReceive` | session_spqr.go:283-286 | an error before authentication uses up exactly the positions of the epochs pruned on the way |
| `PqRuns.NoOpExactly` | session_spqr.go:275-311 | a failing `Decrypt` leaves the session as it was if and only if authentication failed, or no answer or no new key came, or the new key was refused |
| `PqRuns.FailureMoves` | session_spqr.go:283-286 | a fresh session that moves to epoch 1 and fails |
| `PqRuns.AtMostOnce` | session_spqr.go:275-311 | over every run of one session, whatever provider and network do, a reported epoch and position is delivered at most once |
| `PqKeys.SendKeys` | session_spqr.go:142-194 | given agreed provider outputs, a sending key is the agreed key of that epoch, direction and position |
| `PqKeys.ReceiveKeys` | session_spqr.go:215-269 | so is a receiving key, of the other direction |
| `PqKeys.ChainsAgree` | session_spqr.go:64-109 | one side's sending and the other's receiving chain are points of one key sequence, both ways despite the swap; equal epochs mean equal roots |
| `PqErasure.ReceivableExactly` | session_spqr.go:314-369 | a receiving key can be derived from what the session holds, even with all provider outputs, if and only if its position is still available |
| `PqErasure.SendableExactly` | session_spqr.go:176-191 | a sending key can be derived if and only if its position was neither used nor dropped |
| `PqErasure.SendForgets` | session_spqr.go:173-191 | sending in an epoch makes every sending key of the epoch before underivable, used or not, and those of epochs dropped and the one taken, and no other |
| `PqErasure.UsedKeysErased` | session_spqr.go:142-269 | after any run, no message key that was sent or received with can be derived, and no sending key of an epoch before one that was sent in |
| `PqSystem.AgreementOverRuns` | session_spqr.go:142-269 | chain agreement in every reachable state of two sessions |
| `PqSystem.AtMostOnce` | session_spqr.go:275-311 | over every run of two sessions each sent message is accepted at most once, whatever epoch the provider reports with it |
| `PqSystem.DeliverySound` | session_spqr.go:275-311 | what is accepted was sealed by the peer at that epoch and position; header and data are the sender's if and only if the data has the sender's length |
| `UnframedExample.PqAltered` | session_spqr.go:434-457 | a delivery with altered header and altered caller data that succeeds |
| `PqSystem.DeliveryWindow` | session_spqr.go:244-267 | an honest message decrypts, to its text, if and only if its position is within reach after the provider's output is taken in |
| `PqOrder.AnyOrder` | session_spqr.go:215-269 | every order of delivery of an epoch's next messages decrypts all of them and leaves the same state, past the provider's first answer and with no stored key left |
| `PqGaps.FromStart` | session_spqr.go:142-311 | over every run no receiving chain stands past the messages sent in its epoch |
| `PqGaps.NextDecrypts` | session_spqr.go:244-267 | whatever network and provider did before, the next message sent, with an answer for its epoch, decrypts if and only if the answer is taken, the epoch is still there, and at most MaxSkip of its messages are unread |
| `PqConversation.TurnWorks` | session_spqr.go:142-311 | from any state in which both have read everything, a message sent and delivered, with providers that report the same epoch, decrypts, and both have read everything again |
| `PqConversation.EveryConversation` | session_spqr.go:142-311 | two fresh sessions that take turns in any order, through any number of epochs, never fail |
| `PqMemory.EpochChains.ClearBefore` | session_spqr.go:372-392 | drops exactly the epochs before the limit and erases the key bytes of all their chains |
| `PqMemory.EpochChains.DropSend` | session_spqr.go:173-179 | erases and forgets one epoch's sending chain and leaves every other cell alone |
| `PqMemory.EpochChains.SetRecv` | session_spqr.go:262-266 | one receiving chain takes a new key and counter through its cell |
| `PqMemory.EpochChains.Clone` | session_spqr.go:404-419 | equal chains, no shared cell and no shared bytes |
| `PqMemory.EpochChains.EraseAll` | session_spqr.go:291-301 | every chain key is zero |
| `PqMemory.SkippedKeys.Take` | session_spqr.go:314-337 | takes a key out, with its epoch's list when it was the last, and erases the stored bytes |
| `PqMemory.SkippedKeys.ClearBefore` | session_spqr.go:393-400 | drops exactly the epochs before the limit and erases their keys |
| `PqMemory.SkippedKeys.Clone` | session_spqr.go:422-432 | equal keys, no shared bytes |
| `PqSessions.NewSession` | session_spqr.go:32-112 | which errors initialisation reports, a missing provider and its refusal included, and in which order; otherwise the session stands at epoch 0 with the chains of its direction |
| `PqSessions.SPQRSession.ClearOldEpochs` | session_spqr.go:372-401 | prunes exactly the epochs before the one before the reported one, in any iteration order, and erases the bytes of every key it drops |
| `PqSessions.SPQRSession.SendKey` | session_spqr.go:142-194 | in memory: result, new state and provider state are those described on values |
| `PqSessions.SPQRSession.TrySkippedMessageKeys` | session_spqr.go:314-337 | takes a key off its epoch's list, and the list with it when it was the last, and erases the stored bytes |
| `PqSessions.SPQRSession.SkipMessageKeysSPQR` | session_spqr.go:340-369 | files exactly the keys passed over, or reports the distance as too great and changes nothing |
| `PqSessions.SPQRSession.ReceiveKey` | session_spqr.go:215-269 | result and state are those described on values, on errors too |
| `PqSessions.SPQRSession.Encrypt` | session_spqr.go:197-211 | result, new state and provider state are those described on values |
| `PqSessions.SPQRSession.Save` | session_spqr.go:277-281 | a copy of the state that shares no object with the session |
| `PqSessions.SPQRSession.Restore` | session_spqr.go:289-306 | root key and chain keys are erased, and the session stands for the copied state again, provider included |
| `PqSessions.SPQRSession.Decrypt` | session_spqr.go:275-311 | in memory: a failed authentication restores session and provider, an earlier error restores neither |
| `PqSessions.Provider.Restore` | scka/scka.go:37-42 | the provider's whole state is the snapshot's |
| `TripleTheorems.SentTogether` | session_tr.go:110-184 | in every reachable state, an `Encrypt` that fails changes nothing in the system; one that succeeds sends one entry whose headers are the next positions of the sender's two epochs, sealed under the history's and the agreed key of just those positions, and both counters have moved past them |
| `TripleTheorems.DecryptAccounts` | session_tr.go:190-265 | a failed `Decrypt` changes neither half; a successful one spends an open position of both and opens none; the post-quantum position is gone, the elliptic-curve one stays open if and only if it was filed while its chain covers it |
| `TripleAnswers.ReceiveAnswer` | session_tr.go:190-265 | what is noticed first: the missing header, then what the elliptic-curve half refuses, then the post-quantum half, then the tag; both halves stay as they were |
| `TripleAnswers.BoundToIdentities` | session_tr.go:161-264 | a message delivered unaltered to any session whose halves derive its keys is accepted if and only if each session's identities name the other |
| `TripleRuns.TripleSound` | session_tr.go:190-265 | what is accepted is an entry of the peer with the same ratchet key, positions and epoch; both headers are the pair sent together if and only if the data has the sender's length |
| `TripleTheorems.MoveInv` | session_tr.go:110-265 | every send and every delivery keeps the two-party invariant |
| `UnframedExample.TripleAccepted` | session_tr.go:247-263 | a delivery with altered headers and altered caller data that succeeds |
| `TripleTheorems.AtMostOnce` | session_tr.go:190-265 | over every run each sent message is accepted at most once, whatever epoch the provider reports with it, and none becomes acceptable again |
| `TripleTheorems.HalvesInStep` | session_tr.go:110-265 | in every run the elliptic-curve roots are in lock step and the post-quantum chains agree in both directions |
| `TripleTheorems.DeliveryWindow` | session_tr.go:224-264 | an honest message decrypts, to its text, if and only if both halves reach it |
| `TripleOrder.AnyOrder` | session_tr.go:190-265 | every order of delivery of the next messages of both chains decrypts all of them and leaves the same state in both halves |
| `TripleGaps.FromStart` | session_tr.go:190-265 | over every run neither half stands past the messages sent, and no key of an unsent message of the peer's current epoch is filed, although the announced length of the previous epoch may have been altered |
| `TripleGaps.NextDecrypts` | session_tr.go:224-264 | whatever network and provider did before, the next message sent, with an answer for its epoch, decrypts if and only if the numbers of unread messages are at most MaxSkip in both halves |
| `TripleConversation.TurnWorks` | session_tr.go:110-265 | from any state in which both have read everything, a message sent and delivered, with providers that report the same epoch, decrypts, and both have read everything again |
| `TripleConversation.EveryConversation` | session_tr.go:110-265 | two fresh sessions that take turns in any order, through any number of DH steps and epochs, never fail |
| `TripleSessions.NewInitiator` | session_tr.go:36-66 | which errors initialisation reports, in which order, and the session it builds |
| `TripleSessions.NewResponder` | session_tr.go:73-103 | the same for the responder |
| `TripleSessions.TripleRatchetSession.Rollback` | session_tr.go:119-137 | both halves stand for their snapshots again, and the provider is restored |
| `TripleSessions.TripleRatchetSession.Encrypt` | session_tr.go:110-184 | in memory: a failed call restores both halves and the provider |
| `TripleSessions.TripleRatchetSession.Decrypt` | session_tr.go:190-265 | the same for receiving, a missing post-quantum header included |
| `Padding.PKCS7Pad` | internal/padding/padding.go:14-21 | data followed by copies of the pad length |
| `Padding.PKCS7Unpad` | internal/padding/padding.go:24-42 | the four rejections and the data otherwise |
| `Padding.PadBytes` | internal/padding/padding.go:14-21 | between one and a block of bytes are added up to whole blocks, each of them their number |
| `Padding.UnpadRejects` | internal/padding/padding.go:24-42 | exactly what is rejected, and as what |
| `Padding.RoundTrip` | internal/padding/padding.go:14-42 | unpadding undoes padding if and only if the pad length is below 256 |
| `Padding.UnpadExactly` | internal/padding/padding.go:24-42 | for blocks of fewer than 256 bytes, unpadding yields `data` if and only if it was given the padding of `data` |
| `Framing.Encrypt` | internal/suite/suite.go:43-71 | IV, ciphertext of the padded text and tag, the tag over data, IV and ciphertext |
| `Framing.Decrypt` | internal/suite/suite.go:76-115 | the length, tag and padding rejections, in this order, and the text otherwise |
| `Framing.SealLayout` | internal/suite/suite.go:43-71 | 16 bytes of IV, ciphertext in blocks of 16, 32 bytes of tag over the caller's data and everything before it |
| `Framing.UnsealExactly` | internal/suite/suite.go:76-115 | a text is returned if and only if the tag is right and what decrypts is its padding; what is rejected is rejected for length, blocks, tag or padding, in this order |
| `Framing.RoundTrip` | internal/suite/suite.go:43-115 | decryption undoes encryption for every text, key, info string and associated data |
| `Framing.OtherData` | internal/suite/suite.go:99-105 | under other associated data a ciphertext is accepted if and only if the MAC does not tell the two inputs apart |
| `Framing.MacInputExact` | internal/suite/suite.go:57-62 | the MAC's input determines its parts if and only if the associated data has equal length |
| `Framing.EncryptHeader` | internal/crypto/header_encrypt.go:51-89 | an unset key or a spent counter is refused and counts nothing; otherwise the header is sealed under the counter, which moves by one |
| `Framing.DecryptHeader` | internal/crypto/header_encrypt.go:95-132 | nothing for an unset key, a short input, a wrong tag or bad padding |
| `Framing.OpenHeaderExactly` | internal/crypto/header_encrypt.go:95-132 | a header is returned if and only if the key is set, the tag is right over everything before it, and what decrypts is the header's padding: a forged tag never opens |
| `Framing.SealedHeaderLayout` | internal/crypto/header_encrypt.go:59-88 | the counter in eight bytes, eight zeros, ciphertext in blocks of 16, 32 bytes of tag over everything before it |
| `Framing.HeaderRoundTrip` | internal/crypto/header_encrypt.go:51-132 | decrypting a header undoes encrypting it for every header and every key that is set |
| `Framing.NoncesDiffer` | internal/crypto/header_encrypt.go:59-61 | different counters give different nonces and different sealed headers |

## Left out

- X25519, HKDF, HMAC, AES, ML-KEM and XEdDSA are idealised as described above; low-order points are a set in the configuration.
- `x3dh/` and `pqxdh/`: the initial shared secret is taken as given.
- Computational secrecy and unforgeability: only symbolic correctness is stated.
- Runs in which a sending counter starts over, after 2^32 messages of one party in one epoch, or in which a post-quantum session is called on at epoch 2^32 - 1; the functions on values do wrap.
- A call that never returns is the outcome `NeverReturns` of the functions on values; the classes require that the call comes back, by the exact condition `Returns`.
- Runs start every owed sending step with a fresh key pair that is not of low order; a failed `Encrypt` of the base, header-encryption and post-quantum sessions is specified call by call, but runs do not continue after it, as the program declares such errors fatal.
- The key-agreement provider is any state with any answers; agreement theorems assume that the key it outputs for an epoch is the agreed one. Its `Close` is not part of this model.
- A nil configuration, which stands for the default one.
- Sessions.Session.Decrypt: shares the steps of `ratchetReceiveKey`, which the program spells out twice, and moves the chain's counter before authentication instead of after; a failure restores it either way.
- Framing.DecryptHeader: requires that, under a set key, a valid tag covers whole blocks; on anything else the block cipher would stop the program.
- `Close`, the one-off expansion of the Triple Ratchet's shared secret, info strings of the key derivation, mutexes, constant-time comparison and garbage collection.
- `VerifySend`, `VerifyPN`, `VerifyDHTransition`, `Len` and the aliases in `keys.go` would only add easy members.
