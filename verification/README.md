# A verified model of pirc

pirc is an IRC-like chat system with end-to-end encrypted messages and direct connections between
peers. This project models its hardest parts in Dafny and proves what they promise over every
input, every run and every reachable state.

| files | what they model |
|---|---|
| `SymmetricRatchet`, `DhRatchet`, `PqRatchet` | the three ratchets, each as an object proved against a function on values |
| `Schedule`, `DhProtocol` | two DH ratchets over a network that loses, repeats and reorders headers |
| `TripleRatchet` | the session object: encrypted headers, skipped-key cache, PQ steps |
| `HeaderRing`, `TripleParty`, `TripleDelivery`, `TripleProtocol`, `TripleGuarantees`, `SkippedKeys` | two sessions over such a network: shared history, joint invariant, guarantees |
| `PqSession`, `PqAgreement`, `PqStall`, `PqIntervals` | the PQ ratchets of two sessions: which calls step them, when they agree, who can send and with which intervals |
| `PreKeys`, `KeyExchange`, `Handshake` | the key exchange, its wire formats, and the session it leads to |
| `MessageFormat`, `Stun`, `LineCodec`, `WireLayouts` | binary and framed codecs, and where every byte of the formats stands |
| `Text`, `Sorting`, `Ice`, `Connectivity`, `Session`, `Signalling`, `SignallingRun` | ICE: candidates, check lists, session lifecycle, the client's session table, and two clients exchanging messages |
| `GroupMesh`, `GroupSession` | group connectivity state machines |
| `Backpressure` | write-side hysteresis and the read limiter |
| `ToySuite`, `SessionWitnesses`, `PqWitnesses`, `RatchetWitnesses`, `ToyAddresses` | primitives that satisfy all assumptions, and runs that reach the failures described below |
| `Wrappers`, `Bytes`, `Primitives` | results, bytes, the primitives and their laws |

**Form.** Code that updates fields or walks a buffer is a class or a method whose postcondition
equates the new state with a function of the old one; the theorems are about those functions. All
methods of the objects are specified this way; the table lists those with loops or with a frame
beyond the object's own fields. History the code does not keep (events ever emitted, keys dropped,
messages lost) is ghost in the classes.

**Assumptions.** The primitives are arbitrary functions with laws: DH is commutative (section 6.1 of
RFC 7748), HKDF returns the requested length (section 2 of RFC 5869), the sealing key opens an AEAD
box, KEM and signatures are correct. Randomness is an argument: new keys, nonces, KEM coins, and
which entry a full hash map gives up. The network chooses what is delivered, when and how often; it
delivers only what the peer sent. Where a theorem needs keys not to collide, or a sent message not to
open under another key of the session, it says so of the keys and messages of that run. In
`ToySuite` and the runs built on it all of this holds together. Integer widths are explicit: `u32`
counters wrap, lengths are truncated where the code truncates them, `usize` saturates where the code
saturates, `u64` pair priorities wrap.

**Where the code and its documentation part ways.** The model follows the code; each point is proved
with its exact condition, and the session failures with a run that reaches them.

- Bob starts without Alice's KEM key and gets it only from a PQ step of hers that he reads off her chain;
  one that is delivered from the cache does not give it to him (`PqSession.WhoCanSend`). So for every
  interval of his but zero there is a run in which his own step falls due first and he cannot send
  (`PqWitnesses.AlwaysSendsExactly`). If no PQ step is overtaken, that happens exactly if her interval is
  zero or no shorter than his, as with the default, and then for good
  (`PqWitnesses.AlwaysSendsInOrderExactly`, `PqStall.Stall`).
- A message repeated one epoch late, with a number the current epoch has not reached, is taken for one
  of the current epoch. It fails, but the keys from the number reached up to its own leave the current
  chain and overwrite keys cached for its own epoch, so up to two thousand messages can never be
  delivered any more (`TripleGuarantees.MisreadDamage`, `TripleGuarantees.DamageForGood`).
- The PQ ratchets of a session agree exactly as long as every PQ step is begun in turn with none in
  flight, and read off the chain once (`PqAgreement.SessionAgreement`). A repeated message is refused but
  completes its step again; an overtaken one is delivered from the cache without completing it; and of
  two steps begun in a row, as with intervals 1 and 0 in perfect order, the second is
  sealed under a key the other party has replaced (`PqWitnesses.PqStepRepeated`,
  `PqWitnesses.PqStepOvertaken`, `PqWitnesses.PqBegunTwice`).
- The list of retained header keys fills with the first ten and is never renewed, so from epoch 24 on
  messages of some epochs are refused although their keys are cached
  (`TripleGuarantees.UnheldEpochRefused`).
- `decrypt_message_key` ratchets again on a header of an epoch already left, and on every header
  after that (`DhProtocol.StaleHeaderRatchets`).
- On a fresh chain, skipping to message 2^32 - 1 reports success with no key, and receiving it aborts;
  on another chain taking that number makes numbers start over (`SymmetricRatchet.SkipWithoutKeys`,
  `DhRatchet.ReceiveAborts`, `DhRatchet.UnsafeCallStartsOver`).
- `purge_skipped_keys_older_than` keeps keys exactly as old as the limit; its comment says it does
  not (`TripleGuarantees.PurgeBoundary`).
- The header decoder ignores six bits of the flags byte (`MessageFormat.HeaderReencodes`).
- Distinct candidate priorities do not make check lists mirror images; distinct priorities below 2^31
  do (`Connectivity.DistinctIsNotEnough`, `Connectivity.MirrorImage`).
- A message containing CR LF is encoded without complaint and arrives cut
  (`LineCodec.UnsafeToSend`).

## Model

| member | source | states |
|---|---|---|
| `DhProtocol.Agreement` | pirc-crypto/src/dh_ratchet.rs:92-290 | in every reachable state of two ratchets, delivering any header the peer ever sent, unless from an epoch already left, gives exactly the sender's key, and every key stepped over is the sender's for that number; it succeeds exactly if the number is unused and less than MAX_SKIP ahead |
| `DhProtocol.LockStep` | pirc-crypto/src/dh_ratchet.rs:153-181 | in every reachable state exactly one party is one epoch ahead, its root key derived from the other's root key and their shared secret; Bob has stepped as often as Alice or once more |
| `DhProtocol.HeaderKeysMatch` | pirc-crypto/src/dh_ratchet.rs:153-181 | whenever a delivery makes a party ratchet, the receiving header key it derives is the sending header key its peer derived one step earlier |
| `DhProtocol.StaleHeaderRatchets` | pirc-crypto/src/dh_ratchet.rs:275-290 | the excluded case: in every reachable state a header of an epoch already left makes the receiver ratchet back onto the old key, and the key handed out is read off a chain derived from the current root and that old key |
| `DhProtocol.StaleHeaderLasts` | pirc-crypto/src/dh_ratchet.rs:275-290 | and every header of the epoch being received then makes it ratchet once more |
| `RatchetWitnesses.StaleReached` | pirc-crypto/src/dh_ratchet.rs:275-290 | a run reaches such a header; reading it succeeds, with a key that is not its sender's |
| `DhProtocol.RunInv` | pirc-crypto/src/dh_ratchet.rs:92-290 | every allowed run keeps the joint invariant of both ratchets, the messages in flight and the header keys |
| `Schedule.StepAt` | pirc-crypto/src/dh_ratchet.rs:153-181 | a ratchet step moves a party two epochs along the shared key schedule and yields that schedule's two header keys |
| `Schedule.DecryptNext` | pirc-crypto/src/dh_ratchet.rs:275-290 | the first header of the peer's next epoch yields that epoch's key, and the ratchet is then on the extended schedule whether or not the skip was too long |
| `DhRatchet.EveryKeyHandedOutOnce` | pirc-crypto/src/dh_ratchet.rs:212-262 | over any run of receive and skip-remaining calls on one chain that never takes the last `u32` number, every number below the final one is handed out exactly once and in order, each with the key of the pure chain |
| `DhRatchet.UnsafeCallStartsOver` | pirc-crypto/src/dh_ratchet.rs:212-239 | the exclusion is exact: the first call it rules out aborts, or makes the chain count from 0 again and hand number 0 out twice |
| `DhRatchet.ReceiveKeyMeaning` | pirc-crypto/src/dh_ratchet.rs:212-239 | for every number and every chain: aborts for 2^32 - 1 of a fresh chain; otherwise succeeds exactly inside the window, with the target's key and those stepped over; a refusal changes nothing |
| `DhRatchet.SkipRemainingMeaning` | pirc-crypto/src/dh_ratchet.rs:246-262 | the unread rest of a chain is returned whole or refused without change |
| `DhRatchet.ReceiveAborts` | pirc-crypto/src/dh_ratchet.rs:212-239 | the call aborts exactly for message 2^32 - 1 of a fresh chain |
| `DhRatchet.DhRatchetState.Init` | pirc-crypto/src/dh_ratchet.rs:92-113 | the exchange, the new state and the header key, or the error, are those of the specified initialisation |
| `DhRatchet.RootKdfParts` | pirc-crypto/src/dh_ratchet.rs:42-55 | root, chain and header key, in this order, are the 96 bytes derived from old root and exchanged secret |
| `DhRatchet.FailedStep` | pirc-crypto/src/dh_ratchet.rs:153-181 | what a failing exchange leaves: nothing changed, or the receiving half of the step |
| `DhRatchet.DhRatchetState.Step` | pirc-crypto/src/dh_ratchet.rs:153-181 | the object's update is the step on values, also when a DH fails half-way |
| `DhRatchet.DhRatchetState.DecryptMessageKey` | pirc-crypto/src/dh_ratchet.rs:275-290 | ratchets exactly on a key other than the remote one, then receives |
| `SymmetricRatchet.SkipYieldsSegment` | pirc-crypto/src/symmetric_ratchet.rs:116-138 | for every chain and target, `skip_to` equals repeated `advance`: it returns the numbered keys of the pure chain and stands behind the target, or refuses and changes nothing; one request returns nothing |
| `SymmetricRatchet.SkipWithoutKeys` | pirc-crypto/src/symmetric_ratchet.rs:116-138 | success with no key comes back exactly for target 2^32 - 1 of a fresh chain |
| `SymmetricRatchet.SkipWindow` | pirc-crypto/src/symmetric_ratchet.rs:116-138 | any other target is reached exactly if it is not passed and at most 1000 keys away |
| `SymmetricRatchet.ChainGrows` | pirc-crypto/src/kdf.rs:153-170 | next chain key and message key are derived from the chain key, each with the info string of its purpose |
| `SymmetricRatchet.MessageKeysAreNoChainKeys` | pirc-crypto/src/symmetric_ratchet.rs:97-102 | if the derivation tells purposes apart, no message key is ever a chain key of this or another chain |
| `SymmetricRatchet.SymmetricRatchet.SkipTo` | pirc-crypto/src/symmetric_ratchet.rs:116-138 | the loop computes the specified skip |
| `PqRatchet.PqAgreement` | pirc-crypto/src/pq_ratchet.rs:81-143 | over every run of matched steps in which the initiator holds the peer's current KEM key, chain keys and step counters agree |
| `PqRatchet.AlternatingNeedsNoRefresh` | pirc-crypto/src/pq_ratchet.rs:81-143 | whoever completed a step may initiate the next, so alternating runs never need a key refresh |
| `PqRatchet.InitiatorIsOutdated` | pirc-crypto/src/pq_ratchet.rs:81-143 | initiating twice in a row is possible exactly if the peer's new key collides with its old one |
| `PqRatchet.ChainKeyMixesAll` | pirc-crypto/src/pq_ratchet.rs:81-143 | after every such run both chain keys are the initial one with every encapsulated secret mixed in, in order |
| `TripleGuarantees.Delivery` | pirc-crypto/src/triple_ratchet/mod.rs:322-407 | in every reachable state of two sessions, for every message the peer ever sent, however reordered, lost or repeated before: `decrypt` returns exactly the plaintext if the message is deliverable, an error if not, and never delivers a message decrypted or lost before |
| `TripleGuarantees.NothingMissing` | pirc-crypto/src/triple_ratchet/mod.rs:322-540 | a message neither decrypted nor lost nor dropped from the cache is never misread, and is deliverable exactly if within the skip window and of an epoch whose header key is kept |
| `SkippedKeys.NothingMissingWhileRoom` | pirc-crypto/src/triple_ratchet/mod.rs:322-560 | the same without exception for dropped keys: over every run without purges in which the receiver skipped at most 1000 keys, every message neither decrypted nor lost is deliverable exactly within the window and the epochs kept |
| `SkippedKeys.NothingDropped` | pirc-crypto/src/triple_ratchet/mod.rs:546-560 | over every such run no key was given up |
| `SkippedKeys.DecryptKeeps` | pirc-crypto/src/triple_ratchet/mod.rs:322-560 | a call of `decrypt` on any bytes that leaves at most 1000 keys to hold gives up none |
| `SkippedKeys.StoreEvictsExactly` | pirc-crypto/src/triple_ratchet/mod.rs:546-560 | a held key loses its place exactly if 1000 are held and the map yields it first |
| `TripleGuarantees.MisreadDamage` | pirc-crypto/src/triple_ratchet/mod.rs:502-540 | the exact damage of a misread message with number n: every message of the current epoch from the number reached up to n, deliverable before, and every message of its own epoch from there to below n, whose cached keys are overwritten, is undeliverable afterwards; every other deliverable message stays so unless evicted |
| `TripleGuarantees.DamageForGood` | pirc-crypto/src/triple_ratchet/mod.rs:502-540 | the messages hit stay undeliverable over every further run |
| `TripleGuarantees.SpentForGood` | pirc-crypto/src/triple_ratchet/mod.rs:322-407 | as does everything ever decrypted or lost |
| `TripleGuarantees.MisreadExactly` | pirc-crypto/src/triple_ratchet/mod.rs:502-540 | exactly when a message is misread, by its epoch, its number and the cache; it was then decrypted, lost or dropped before |
| `SessionWitnesses.MisreadReached` | pirc-crypto/src/triple_ratchet/mod.rs:502-540 | a run reaches a misread message that makes a message never delivered, and deliverable until then, undeliverable |
| `TripleGuarantees.RefusedStepsPq` | pirc-crypto/src/triple_ratchet/mod.rs:381-384 | a refused message of a known epoch without cached key and not misread changes the session exactly if its header still opens and carries a PQ step; the step is then completed again |
| `PqSession.PqChangesExactly` | pirc-crypto/src/triple_ratchet/mod.rs:322-384 | in every reachable state a delivery, refused or not, changes the PQ ratchet exactly if the message carries a step, is not answered by the cache, its header opens, and entering its epoch is not refused; the change is that step completed |
| `PqSession.PqAfter` | pirc-crypto/src/triple_ratchet/mod.rs:322-384 | for any bytes in any state: the PQ ratchet completes the step that reaches the PQ part of `decrypt`, or is untouched |
| `PqSession.PqCounters` | pirc-crypto/src/triple_ratchet/mod.rs:265-384 | over every run a PQ counter is the number of steps sent and steps read off the chain, modulo 2^32 |
| `PqAgreement.SessionAgreement` | pirc-crypto/src/triple_ratchet/mod.rs:265-384 | over every run, chain keys and counters agree in all states, up to the step in flight, exactly if each step is begun in turn with none in flight and completed once |
| `PqAgreement.UnguardedUnmatched` | pirc-crypto/src/triple_ratchet/mod.rs:265-384 | the guard on events is exact: any other event leaves a step uncompleted, completed twice or begun out of turn |
| `PqAgreement.RepeatPartsCounters` | pirc-crypto/src/triple_ratchet/mod.rs:381-384 | a step completed with none in flight is a repeated one, and puts the counters apart |
| `PqAgreement.TwoAhead` | pirc-crypto/src/triple_ratchet/mod.rs:265-384 | with its own step in flight, a party that begins or completes another one has a counter two ahead |
| `PqAgreement.OutOfTurn` | pirc-crypto/src/triple_ratchet/mod.rs:265-275 | a step begun out of turn makes the ratchets agree exactly if the encapsulated and the decapsulated secret derive the same chain key |
| `PqWitnesses.PqStepRepeated` | pirc-crypto/src/triple_ratchet/mod.rs:381-384 | a run in which a repeated message is refused and puts the receiver's PQ counter ahead of the sender's |
| `PqWitnesses.PqStepOvertaken` | pirc-crypto/src/triple_ratchet/mod.rs:322-384 | a run without loss or repetition in which a message with a PQ step is delivered from the cache, the step never taken, and Bob unable to send |
| `PqWitnesses.PqBegunTwice` | pirc-crypto/src/triple_ratchet/mod.rs:265-384 | a run in perfect order after which the counters agree and the chain keys differ |
| `TripleGuarantees.Conservation` | pirc-crypto/src/triple_ratchet/mod.rs:265-407 | the counters count messages; a side has decrypted only messages the other sent, no more than it sent, and none of those lost |
| `TripleGuarantees.EarlyEpochsHeld` | pirc-crypto/src/triple_ratchet/mod.rs:350-361 | up to epoch 23 every header key heard is still held |
| `TripleGuarantees.UnheldEpochRefused` | pirc-crypto/src/triple_ratchet/mod.rs:350-361 | in every reachable state no message of an epoch whose header key is neither among the last two nor the first ten heard can be decrypted |
| `TripleGuarantees.UnheldForGood` | pirc-crypto/src/triple_ratchet/mod.rs:350-361 | nor after any further run |
| `TripleGuarantees.LaterEpochsUnheld` | pirc-crypto/src/triple_ratchet/mod.rs:350-361 | from epoch 24 on there is such an epoch |
| `SessionWitnesses.UnheldEpochReached` | pirc-crypto/src/triple_ratchet/mod.rs:350-361 | a run reaches epoch 24 with a message of epoch 19 that was never delivered, is refused, and will be however the run goes on |
| `TripleGuarantees.CacheBounded` | pirc-crypto/src/triple_ratchet/mod.rs:546-560 | over every run neither cache holds more than MAX_SKIPPED_KEYS |
| `TripleGuarantees.PurgeBoundary` | pirc-crypto/src/triple_ratchet/mod.rs:562-573 | a key survives exactly if stored at most `max_age` steps ago |
| `TripleGuarantees.PurgeByEpoch` | pirc-crypto/src/triple_ratchet/mod.rs:546-573 | in every reachable state the key held for a message survives exactly if its receiver has taken at most `max_age` steps since it received the message's epoch |
| `TripleProtocol.RunInv` | pirc-crypto/src/triple_ratchet/mod.rs:139-407 | every run of sends, purges, interval changes and deliveries in any order keeps the joint invariant of both sessions |
| `TripleProtocol.StartInv` | pirc-crypto/src/triple_ratchet/mod.rs:139-253 | the two initialisers from one shared secret establish it |
| `TripleRatchet.InitialKeys` | pirc-crypto/src/triple_ratchet/mod.rs:139-253 | root, PQ chain key and the three header keys of both initialisers are derived from the shared secret, each for its purpose and side |
| `TripleProtocol.EncryptMeaning` | pirc-crypto/src/triple_ratchet/mod.rs:265-307 | `encrypt` succeeds exactly if there is a sending chain and a due PQ step can be taken; what it seals and what it leaves |
| `TripleProtocol.SentGenuine` | pirc-crypto/src/triple_ratchet/mod.rs:265-307 | what `encrypt` hands over is sealed under its epoch's header key and its number's message key, and genuine if no other session key opens it |
| `TripleRatchet.SealedWith` | pirc-crypto/src/triple_ratchet/mod.rs:284-298 | header and body are sealed with their own nonces, the body bound to the sealed header |
| `TripleDelivery.DecryptOutcome` | pirc-crypto/src/triple_ratchet/mod.rs:322-407 | one call of `decrypt` on any message of the peer, misread ones included: outcome, epoch entered, messages lost, and the session sound afterwards |
| `TripleDelivery.EnterEpochMeaning` | pirc-crypto/src/triple_ratchet/mod.rs:335-379 | entering the peer's next epoch stores the rest of the old chain and follows the extended history, or refuses without change if that rest is too long |
| `TripleParty.DetectEpoch` | pirc-crypto/src/triple_ratchet/mod.rs:502-540 | trial decryption tells the peer's next epoch, the current one and older ones apart |
| `TripleRatchet.DetectOrder` | pirc-crypto/src/triple_ratchet/mod.rs:502-540 | for any bytes: next, current, previous header key decide in this order, and whether a DH step follows |
| `TripleRatchet.TrialOrder` | pirc-crypto/src/triple_ratchet/mod.rs:427-477 | for any bytes: the first header key that opens decides which cached key is tried |
| `TripleRatchet.FailedEpoch` | pirc-crypto/src/triple_ratchet/mod.rs:347-368 | if the DH step fails the header keys have moved on, the counters have not |
| `TripleParty.SkippedHit` | pirc-crypto/src/triple_ratchet/mod.rs:427-477 | a cached key under a held header key is used up, and delivers its message exactly if it is the right key |
| `TripleParty.StoreSegment` | pirc-crypto/src/triple_ratchet/mod.rs:546-560 | storing a run of keys: each is cached or some key was dropped, nothing else changes |
| `HeaderRing.HeldEpochs` | pirc-crypto/src/triple_ratchet/mod.rs:350-361 | exactly which earlier epochs' header keys a party still holds |
| `HeaderRing.RingRotates` | pirc-crypto/src/triple_ratchet/mod.rs:350-361 | rotating the header keys and installing the derived ones gives the ring of two epochs later |
| `PqStall.Stall` | pirc-crypto/src/triple_ratchet/mod.rs:265-275 | over every run with given intervals, Bob's no longer than Alice's or hers zero: Alice can always send, Bob exactly from his first step to before his n-th, n being his interval, and no message of epoch 2n is ever sent |
| `PqStall.DefaultStall` | pirc-crypto/src/triple_ratchet/mod.rs:27-27 | in particular nobody who leaves the default interval alone ever sends a message of epoch 40 |
| `PqSession.WhoCanSend` | pirc-crypto/src/triple_ratchet/mod.rs:265-384 | over every run Alice can always send; Bob exactly if he has a sending chain and no PQ step is due, or he has read a step of hers off her chain |
| `PqWitnesses.AlwaysSendsExactly` | pirc-crypto/src/triple_ratchet/mod.rs:265-275 | with the intervals kept Bob can send in every run from his first step on exactly if his interval is zero (or beyond `u32`) |
| `PqWitnesses.AlwaysSendsInOrderExactly` | pirc-crypto/src/triple_ratchet/mod.rs:265-275 | over runs in which each PQ step is read before what follows it in its epoch, exactly if his interval is zero, or hers is shorter and not zero |
| `PqWitnesses.StuckReached` | pirc-crypto/src/triple_ratchet/mod.rs:265-275 | for every interval of Bob's but zero, whatever Alice's, a run reaches his n-th step, where he cannot send |
| `PqSession.DecryptFrame` | pirc-crypto/src/triple_ratchet/mod.rs:322-407 | a message without KEM data leaves the PQ ratchet alone, and DH steps are counted as they are taken |
| `TripleRatchet.TripleRatchetSession.EncryptMessage` | pirc-crypto/src/triple_ratchet/mod.rs:265-307 | the PQ step if due comes first and survives a missing sending chain; number, counters and chain move together; header and body are bound |
| `TripleRatchet.TripleRatchetSession.DecryptMessage` | pirc-crypto/src/triple_ratchet/mod.rs:322-407 | on every path, the failing ones included, exactly the specified state is left: cache, header keys, chains, PQ state and counters |
| `TripleRatchet.TripleRatchetSession.TrySkippedKeys` | pirc-crypto/src/triple_ratchet/mod.rs:427-477 | the first header key that opens decides the slot; a cached key is removed even if the body then fails |
| `TripleRatchet.TripleRatchetSession.DetectRatchet` | pirc-crypto/src/triple_ratchet/mod.rs:502-540 | the header found and whether a DH step is needed, in the order the keys are tried |
| `TripleRatchet.TripleRatchetSession.StoreSkippedKeys` | pirc-crypto/src/triple_ratchet/mod.rs:546-560 | the loop that stores skipped keys, with eviction when full |
| `TripleRatchet.TripleRatchetSession.EnterNewEpoch` | pirc-crypto/src/triple_ratchet/mod.rs:335-379 | rest of the old chain stored, header keys rotated, DH step, counters reset, in that order, stopping where the code stops |
| `MessageFormat.HeaderRoundTrip` | pirc-crypto/src/message.rs:57-161 | decoding inverts encoding for every combination of flags, whatever follows |
| `MessageFormat.HeaderReencodes` | pirc-crypto/src/message.rs:88-161 | a decoded header re-encodes to a prefix of what was read exactly if the unused flag bits are clear |
| `MessageFormat.MessageRoundTrip` | pirc-crypto/src/message.rs:206-304 | decoding inverts encoding for every payload length below 2^32 |
| `MessageFormat.MessageReencodes` | pirc-crypto/src/message.rs:232-304 | whatever decodes re-encodes to a prefix of what was read |
| `MessageFormat.MessagesPrefixFree` | pirc-crypto/src/message.rs:206-304 | one message's bytes never begin another's |
| `WireLayouts.HeaderLayout` | pirc-crypto/src/message.rs:57-80 | each field of an encoded header stands at its place, integers high byte first |
| `WireLayouts.HeaderRead` | pirc-crypto/src/message.rs:88-160 | for any bytes: which are refused, and where each field is read from |
| `WireLayouts.EncryptedLayout` | pirc-crypto/src/message.rs:206-225 | each part with its length in front and its nonce behind |
| `MessageFormat.HeaderFromBytes` | pirc-crypto/src/message.rs:88-161 | the moving position computes the specified decoding, errors included |
| `MessageFormat.MessageFromBytes` | pirc-crypto/src/message.rs:232-304 | the moving position computes the specified decoding of both length-prefixed fields, errors included |
| `KeyExchange.SameSecret` | pirc-crypto/src/x3dh.rs:314-481 | for all identities and pre-keys, with or without a one-time key, passing bundle and init message as bytes leaves both sides with the same secret |
| `KeyExchange.SendOk` | pirc-crypto/src/x3dh.rs:314-481 | the same without the wire: the sender succeeds on a published bundle and the receiver computes its secret |
| `KeyExchange.SenderMeaning` | pirc-crypto/src/x3dh.rs:314-400 | for any bundle: a signature error exactly if the signed or the KEM pre-key does not verify under the identity in the bundle, a key exchange error exactly if it does but an exchange fails; else the init message names the keys used and the secret is derived from all four exchanges and the encapsulated secret |
| `KeyExchange.ReceiverMeaning` | pirc-crypto/src/x3dh.rs:418-480 | the receiver's secret is derived from the mirrored exchanges and the decapsulated secret |
| `KeyExchange.WireMeaning` | pirc-crypto/src/x3dh.rs:314-400 | the same for any bytes that decode to a bundle |
| `KeyExchange.SecretBindsAll` | pirc-crypto/src/x3dh.rs:352-377 | if the derivation does not collide, equal secrets mean equal exchanges, with or without one-time key, and equal encapsulated secrets |
| `WireLayouts.BundleLayout` | pirc-crypto/src/prekey.rs:713-738 | each field of an encoded bundle stands at its place, integers low byte first |
| `WireLayouts.BundleRead` | pirc-crypto/src/prekey.rs:744-790 | for any bytes: which are refused and why, and where each field is read from |
| `WireLayouts.InitLayout` | pirc-crypto/src/x3dh.rs:173-199 | each field of an encoded init message stands at its place |
| `WireLayouts.InitRead` | pirc-crypto/src/x3dh.rs:207-283 | for any bytes: which are refused and why, and where each field is read from |
| `WireLayouts.MessageTags` | pirc-crypto/src/protocol.rs:54-75 | the first byte tells the four messages apart |
| `WireLayouts.TagsRead` | pirc-crypto/src/protocol.rs:81-103 | for any bytes: the first byte decides, and the rest must decode |
| `KeyExchange.InitRoundTrip` | pirc-crypto/src/x3dh.rs:173-282 | the init message comes back from its bytes |
| `KeyExchange.MessageRoundTrip` | pirc-crypto/src/protocol.rs:54-103 | every key exchange message comes back from its bytes |
| `KeyExchange.X3dhSender` | pirc-crypto/src/x3dh.rs:314-399 | an invalid bundle is refused before anything else; a failed DH is an error; secret and init message as specified |
| `KeyExchange.X3dhReceiver` | pirc-crypto/src/x3dh.rs:418-481 | the mirrored operations through the same buffer; a failed DH is an error |
| `KeyExchange.FillKeyMaterial` | pirc-crypto/src/x3dh.rs:353-370 | the 160-byte buffer filled at a moving offset holds the concatenated secrets |
| `Handshake.SessionFromHandshake` | pirc-client/src/encryption/mod.rs:379-482 | a key exchange over the wire ends in two sessions that are exactly a starting state of the session protocol, so every guarantee about reachable states applies |
| `PreKeys.BundleRoundTrip` | pirc-crypto/src/prekey.rs:713-792 | a bundle comes back from its bytes, with or without one-time key |
| `PreKeys.SignedRoundTrip` | pirc-crypto/src/prekey.rs:219-263 | so does a signed pre-key |
| `PreKeys.KemRoundTrip` | pirc-crypto/src/prekey.rs:587-624 | so does a KEM pre-key |
| `PreKeys.OneTimeRoundTrip` | pirc-crypto/src/prekey.rs:396-423 | so does a one-time pre-key |
| `PreKeys.IdentityRoundTrip` | pirc-crypto/src/identity.rs:183-215 | so does an identity |
| `PreKeys.DecodedOk` | pirc-crypto/src/prekey.rs:744-792 | whatever decodes has ids, keys and signatures in range, and its signatures decode |
| `PreKeys.BundleFromBytes` | pirc-crypto/src/prekey.rs:744-792 | the moving offset computes the specified decoding; signature bytes that do not decode are refused |
| `Ice.PriorityOrder` | pirc-p2p/src/ice.rs:189-195 | for components 1 to 256 the priority is below 2^31 and orders lexicographically by type, local preference and reversed component |
| `Ice.ComponentRange` | pirc-p2p/src/ice.rs:189-195 | a component has priorities of its own exactly if it is 1 to 256 |
| `Ice.ComponentWraps` | pirc-p2p/src/ice.rs:189-195 | above 256 the lowest candidate outranks the highest |
| `Ice.SdpRoundTrip` | pirc-p2p/src/ice.rs:120-182 | a candidate's line parses back to it exactly if its foundation is not empty and has no whitespace |
| `Ice.ParsedIsStable` | pirc-p2p/src/ice.rs:120-182 | what any line parses to survives printing and parsing |
| `WireLayouts.SdpLayout` | pirc-p2p/src/ice.rs:120-132 | the eight fields of a line in their order, numbers in decimal |
| `WireLayouts.SdpRead` | pirc-p2p/src/ice.rs:135-183 | for any line: exactly which are candidates, and what each field is |
| `Ice.Gather` | pirc-p2p/src/ice.rs:229-299 | the list built, pushes and sort, for every outcome of the queries |
| `Ice.GatheredRanked` | pirc-p2p/src/ice.rs:229-299 | the list is sorted with distinct priorities below 2^31 |
| `Ice.GatheredPrintable` | pirc-p2p/src/ice.rs:229-299 | and every line of it parses back |
| `Ice.GatheredAddresses` | pirc-p2p/src/ice.rs:229-305 | one host candidate, and one server-reflexive and one relay candidate exactly if their server reported, each with the address its own server reported |
| `Text.SplitJoined` | pirc-p2p/src/ice.rs:120-136 | splitting at whitespace undoes joining words with blanks |
| `Text.DecimalRoundTrip` | pirc-p2p/src/ice.rs:157-169 | parsing undoes printing of decimal fields |
| `Connectivity.PairPriorityFits` | pirc-p2p/src/connectivity.rs:84-95 | the `u64` arithmetic overflows for exactly one pair of `u32` priorities |
| `Connectivity.PairPriorityOrder` | pirc-p2p/src/connectivity.rs:84-95 | below 2^31 the pair priority is lexicographic in minimum, maximum and tie bit, and determines both priorities |
| `Connectivity.PairPriorityCollides` | pirc-p2p/src/connectivity.rs:84-95 | exactly when two different pairs have one priority; it takes a priority of 2^31 or more |
| `Connectivity.FormPairs` | pirc-p2p/src/connectivity.rs:101-114 | the two loops and the sort give the specified check list |
| `Connectivity.CheckListMeaning` | pirc-p2p/src/connectivity.rs:101-114 | the check list is the full mesh, each pair once, by descending priority |
| `Connectivity.MirrorImage` | pirc-p2p/src/connectivity.rs:84-114 | for distinct priorities below 2^31 both ends walk the same pairs in the same order with local and remote exchanged |
| `Connectivity.MirrorExactly` | pirc-p2p/src/connectivity.rs:84-114 | for any two lists: the check lists are mirror images exactly if each group of tied pairs reads the same from both sides |
| `Connectivity.DistinctIsNotEnough` | pirc-p2p/src/connectivity.rs:84-114 | two lists with distinct priorities whose check lists are not mirror images |
| `Connectivity.SamePairElected` | pirc-p2p/src/connectivity.rs:148-206 | if the checks turn out alike, both ends nominate the same pair |
| `Connectivity.ElectedFirst` | pirc-p2p/src/connectivity.rs:148-206 | the first check that works elects its pair |
| `Connectivity.NominatedMeaning` | pirc-p2p/src/connectivity.rs:148-153 | the nominated pair is a succeeded one of highest priority; there is none exactly if none succeeded |
| `Connectivity.NominatedLast` | pirc-p2p/src/connectivity.rs:148-155 | among equals the last one |
| `Connectivity.ConnectivityChecker.RunChecks` | pirc-p2p/src/connectivity.rs:163-206 | the loop marks exactly the checks started before the budget is spent |
| `Sorting.SortStable` | pirc-p2p/src/connectivity.rs:112-112 | the sort keeps the order of elements with equal keys |
| `Sorting.StableUnique` | pirc-p2p/src/connectivity.rs:112-112 | a sorted list is determined by its groups of equal keys |
| `Session.Lifecycle` | pirc-p2p/src/session.rs:167-360 | after any sequence of calls: at most one offer or answer and one terminal event, nothing after it, connected exactly if both addresses are nominated and the established event was emitted |
| `Session.RunInv` | pirc-p2p/src/session.rs:167-360 | over any sequence of calls the state rank never decreases, the log only grows and is exactly fixed by the state |
| `Session.LinesParse` | pirc-p2p/src/session.rs:177-221 | every line of an offer or answer parses back to its candidate |
| `Session.ChecksEndBy` | pirc-p2p/src/session.rs:243-320 | exactly how a check phase ends: refused, failed with which reason, or connected with the elected pair's addresses |
| `Session.TrickledAreKept` | pirc-p2p/src/session.rs:228-235 | trickled candidates are kept in order behind those of the offer or answer |
| `Session.FailedGathering` | pirc-p2p/src/session.rs:322-350 | a session whose gathering failed stays gathering for good |
| `Session.P2pSession.GatherCandidates` | pirc-p2p/src/session.rs:322-350 | the loop emits one trickled line per candidate in list order; a failed gathering leaves the session gathering |
| `Session.P2pSession.Check` | pirc-p2p/src/session.rs:243-319 | role by who offered; connected with the elected pair's addresses, or failed with the reason that applies |
| `Signalling.LinesRoundTrip` | pirc-client/src/p2p.rs:101-111 | a peer reads exactly the candidates listed, in order |
| `Signalling.ParseCandidates` | pirc-client/src/p2p.rs:101-111 | the filter keeps the lines that parse |
| `Signalling.ParsedInOrder` | pirc-client/src/p2p.rs:104-118 | lines that do not parse are skipped, wherever they stand |
| `Signalling.OthersUntouched` | pirc-client/src/p2p.rs:76-211 | a message concerns the session with its sender alone |
| `Signalling.Ignored` | pirc-client/src/p2p.rs:76-195 | which calls and messages leave the table as it is and send nothing |
| `Signalling.Superseded` | pirc-client/src/p2p.rs:99-211 | a new offer removes the old session even if it cannot be answered, a failure always |
| `Signalling.MessageKinds` | pirc-client/src/p2p.rs:297-339 | each event becomes the message of its kind, with its own lines or reason |
| `SignallingRun.ChecksAgree` | pirc-client/src/p2p.rs:75-184 | in every run of one initiator: its checks come right after the responder's with exactly its candidates and vice versa, the check lists are mirror images, and if the checks turn out alike the nominated addresses are each other's |
| `SignallingRun.RemotesAreThePeersLocals` | pirc-client/src/p2p.rs:75-184 | whenever an offer or answer is about to be handled, it carries exactly the other side's local candidates, and an answer finds the initiator waiting |
| `SignallingRun.EndingsTell` | pirc-client/src/p2p.rs:297-339 | in every run a message that ends a session says Established exactly if the sender's last check nominated addresses, else Failed with that check's reason |
| `SignallingRun.TablesAtTheEnd` | pirc-client/src/p2p.rs:99-202 | when everything has been read, each side has kept its session, as its own check left it, exactly if the other side's check worked |
| `SignallingRun.ConnectedAtTheEnd` | pirc-client/src/p2p.rs:99-202 | if the checks went alike and worked, both tables hold a connected session with the addresses exchanged |
| `SignallingRun.RunInv` | pirc-client/src/p2p.rs:75-184 | every run keeps sessions, queues and past checks in step |
| `Stun.RoundTrip` | pirc-p2p/src/stun.rs:125-304 | a message comes back from its bytes, whatever follows, exactly if the top two type bits are clear, its attributes take less than 2^16 bytes and none of unknown type uses a known one |
| `Stun.AttributesAligned` | pirc-p2p/src/stun.rs:227-261 | encoded attributes take a multiple of 4 bytes |
| `Stun.XorAddressRoundTrip` | pirc-p2p/src/stun.rs:308-421 | the mask comes off again for IPv4 and IPv6, whatever the transaction |
| `Stun.XorBit` | pirc-p2p/src/stun.rs:308-354 | bit k of the exclusive or is set exactly if it is set in one of the operands only |
| `Stun.XorAddressLayout` | pirc-p2p/src/stun.rs:393-421 | octet by octet: port and address masked with the cookie 21 12 A4 42 and the transaction |
| `Stun.XorAddressRead` | pirc-p2p/src/stun.rs:308-354 | for any bytes: which are refused, and how port and address are unmasked octet by octet |
| `WireLayouts.StunLayout` | pirc-p2p/src/stun.rs:125-142 | type, length, cookie, transaction, attributes, each at its place |
| `WireLayouts.StunRead` | pirc-p2p/src/stun.rs:147-193 | for any bytes: exactly which are messages |
| `WireLayouts.AttributeLayout` | pirc-p2p/src/stun.rs:227-260 | type, length, value and zero padding of an attribute |
| `WireLayouts.AttributeRead` | pirc-p2p/src/stun.rs:263-303 | for any bytes: which attribute is read, and where the next one starts |
| `Stun.AddressRoundTrip` | pirc-p2p/src/stun.rs:357-440 | plain addresses come back |
| `Stun.AttributesFit` | pirc-p2p/src/stun.rs:263-304 | what parses is well-formed and re-encodes to at most three bytes more than was read |
| `Stun.EncodeInto` | pirc-p2p/src/stun.rs:227-261 | the loop appends the specified encoding |
| `Stun.ParseFrom` | pirc-p2p/src/stun.rs:263-304 | the loop with its moving offset computes the specified parse, errors included |
| `Stun.MappedAddressOf` | pirc-p2p/src/stun.rs:211-225 | the first XOR-ed address, else the first plain one, else none |
| `LineCodec.Chunking` | pirc-network/src/codec.rs:34-79 | for every stream and every way of cutting it, frames delivered, breakage and bytes left are those of the whole stream decoded at once |
| `LineCodec.ChunkingPastErrors` | pirc-network/src/codec.rs:51-64 | for a reader that goes on after errors: the frames that fit, also behind oversized ones, and the bytes left do not depend on the chunks |
| `LineCodec.ReadersAgree` | pirc-network/src/codec.rs:34-79 | without oversized frames both kinds of reader get the same |
| `LineCodec.FramesMeaning` | pirc-network/src/codec.rs:34-79 | an unbroken stream is exactly its frames followed by its tail, each frame with one CRLF at its end and within MAX_MESSAGE_LEN |
| `LineCodec.FramesUnique` | pirc-network/src/codec.rs:34-79 | and there is no other way to take it apart |
| `LineCodec.StreamRoundTrip` | pirc-network/src/codec.rs:34-117 | messages that fit and contain no CRLF arrive as one frame each, in order, however cut |
| `LineCodec.UnsafeToSend` | pirc-network/src/codec.rs:100-117 | a message containing a CRLF is encoded and arrives cut there |
| `LineCodec.DecodeFrame` | pirc-network/src/codec.rs:34-79 | buffer and outcome are those of the specified `decode` |
| `LineCodec.DecodeMeaning` | pirc-network/src/codec.rs:34-79 | for any buffer, by its first CR LF and the limit of 512: what is taken off and what is returned |
| `LineCodec.EndsMeaning` | pirc-network/src/codec.rs:81-118 | an unfinished rest is discarded at the end; encoding refuses above 510 bytes without a trace |
| `LineCodec.DrainBuffer` | pirc-network/src/codec.rs:34-79 | decoding until more bytes are needed yields the frames of the buffer |
| `LineCodec.DrainPastErrors` | pirc-network/src/codec.rs:34-79 | the loop that ignores errors yields the fitting frames of the buffer |
| `GroupMesh.MeshRefinesView` | pirc-p2p/src/group_mesh.rs:97-314 | after any sequence of calls with drains anywhere, replaying the whole event history gives exactly the connected members, and every query answers as a one-state-per-member view would |
| `GroupMesh.MeshReports` | pirc-p2p/src/group_mesh.rs:115-315 | over every sequence of calls the events are exactly what the view reports, each change followed by the verdict on the mesh |
| `GroupMesh.TransportsAreLast` | pirc-p2p/src/group_mesh.rs:152-170 | a connected member is reached through the transport reported last |
| `GroupMesh.DrainedOnce` | pirc-p2p/src/group_mesh.rs:97-100 | every event is drained once, in order, or pending |
| `GroupMesh.ApplyAllInv` | pirc-p2p/src/group_mesh.rs:97-314 | the two maps stay disjoint and together represent the view; only adding and removing change who is known |
| `GroupMesh.GroupMesh.IsFullyConnected` | pirc-p2p/src/group_mesh.rs:283-292 | true exactly if nobody is tracked without transport and all are connected |
| `GroupMesh.GroupMesh.IsDegraded` | pirc-p2p/src/group_mesh.rs:296-300 | true exactly if some member is on relay fallback |
| `GroupSession.CountingRefinesSets` | pirc-p2p/src/group_session.rs:127-226 | after any sequence of calls, connected and relayed members are disjoint and expected, the counts mean set equality, the state follows the sets except in two untouched situations, and the reported changes are changes ending in the current state |
| `GroupSession.CountsMeanSets` | pirc-p2p/src/group_session.rs:197-216 | the state computed by counting is the one the sets mean |
| `GroupSession.GroupRefinesView` | pirc-p2p/src/group_session.rs:121-218 | over every sequence of calls the expected, connected and relayed members, the state and the whole event log are those of a view with one link per member |
| `GroupSession.SessionIds` | pirc-p2p/src/group_session.rs:177-200 | a member's session id is the one given last, unless removed since |
| `GroupSession.DrainedOnce` | pirc-p2p/src/group_session.rs:119-121 | every event is drained once, in order, or pending |
| `Backpressure.Amortised` | pirc-network/src/backpressure.rs:79-109 | with low below high, over every run: backpressured means above low, ready means below high, signals alternate, and engagements times the gap never exceed the bytes reported |
| `Backpressure.MarksInOrder` | pirc-network/src/backpressure.rs:79-109 | the first of these holds over every run exactly if low is below high |
| `Backpressure.PausedAtTheLimit` | pirc-network/src/backpressure.rs:157-186 | over every run reading is paused exactly while the limit is reached, exactly if the limit is not zero |
| `Backpressure.BufferedLevel` | pirc-network/src/backpressure.rs:79-110 | over every run the buffered count is the greatest net amount of a suffix of the reports |
| `Backpressure.BufferedIsDifference` | pirc-network/src/backpressure.rs:79-110 | plainly the difference, if never more is flushed than buffered |
| `Backpressure.ReadLevel` | pirc-network/src/backpressure.rs:157-185 | likewise for messages received and consumed |

## Left out

- AES-GCM, HKDF, X25519, ML-KEM and ML-DSA internals: library wrappers; only the laws above are used, and nothing is claimed about secrecy.
- Zeroisation, `Debug` output, error texts, accessors without state: no functional property.
- base64 around the key exchange messages: a library call on either side.
- IP address text: the standard library's; assumed invertible and without whitespace.
- UTF-8 checks and parsing of a frame's content: a frame is opaque bytes.
- Sockets, timers, TURN, keep-alive, transports, connectors, pools, shutdown: what they yield is an argument.
- Runs in which both peers send offers at once, or in which a session is removed by hand while messages of it are in flight: the second can pair a new offer with an old answer.
- Sessions in the client's table are values, not objects: the table owns them, so only heap identity is lost. The object form of a session is `Session.P2pSession`.
- Forged messages: the run theorems deliver only what the peer sent. The session object itself is modelled for any input.
- What the PQ chain key protects: the code never mixes it into the DH root, so no property of the messages depends on it.
- Key storage, key rotation, group key distribution, P2P transport encryption and the client's queue of pending exchanges: each stores or forwards what the modelled parts produce, without a protocol of its own.
- The IRC parser, the Raft cluster, scripting, plugins, configuration, registration and connection state: separate subsystems, on which none of the properties above depends.
