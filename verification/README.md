# A verified model of the lnd payment channel daemon

The daemon keeps two-party payment channels. This project models, in Dafny, the parts of it
that hold the money and the evidence, and proves what they promise.

* **The commitment state machine** (`lnwallet/channel.go`, driven by `peer.go`). Each party has
  two update logs, two chains of unrevoked commitments, a window of revocation keys and a
  store of the peer's revoked secrets. `ChannelSpec` gives every operation as a function on a
  party; `ChannelLists` and `LightningChannel` are the linked-list logs, the loops over them
  and the channel object, proved against those functions. `Ledger` says what complete logs
  mean; `ChannelRep` and `ChannelSteps` tie a party's compacted, height-stamped logs to that
  meaning. `Protocol` is the transition system of two honest parties over first-in-first-out
  links, with every interleaving of adding, settling, signing, revoking, extending the window
  and receiving; `ProtocolSends`, `ProtocolReceives` and `ProtocolTheorems` prove its invariant
  and what follows from it; `ProtocolExample` runs a payment through it. `Forwarding` says which
  updates a revocation hands up and `ForwardingExample` runs one that comes early, `Pruning`
  which updates the logs keep, `Payouts` whom the commitment transactions pay, and
  `Acceptance` what a party may rely on whoever sent the message.
* **The elkrem hash tree** (`elkrem/`): `ElkremSpec`, `ElkremPaths`, `Elkrem`, `ElkremSerdes`.
* **The database** (`channeldb/channel.go`): `Bytes`, `RevocationLog`, `ChannelDisk`, and
  `Layouts` for the bytes offset by offset; `Recovery` writes it along the runs of the protocol
  and recovers revoked states from it, `Restart` and `RestartRuns` rebuild a channel from it.
* **Merkle blocks** (`uspv/`): `Merkle` is the recursive definition of BIP 37 ("Partial Merkle
  branch format"), `MerklePositions` the node numbering, `MerkleBlock` the rounds of the stack
  machine that checks a block, `MerkleCheck` its loop, `MerkleTwins` what it does with equal
  siblings, `MerkleSound` when that breaks soundness, `MerkleRoot` the root of a full block.
* **Messages, confirmations, coins**: `SendQueue` (`peer.go`), `ConfHeap` and `Notifier`
  (`chainntnfs/btcdnotify/`), `Reservations` (`lnwallet/wallet.go`), `Amounts`
  (`lnwallet/reservation.go`, `lndcc/lndcc.go`).

Hash functions and the revocation key derivation are function-valued parameters, so each
theorem holds for all of them. A signature is the multiset of the outputs it covers: the
transaction is sorted before signing, so the multiset determines it, and verifying compares.
Integers are unbounded except where the source's width shows: 64-bit index subtraction in the
tree, 32-bit positions, flag bits, log keys and trigger heights, 8-bit node counts and the
fixed-width fields on disk.

## Model

| member | source | states |
|---|---|---|
| `ProtocolTheorems.RunKeepsInv` | peer.go:1047-1244 | the invariant of two honest parties (both ledgers, queued messages, keys, stores, mirrored chains) holds in every state of every interleaving |
| `ProtocolExample.PaymentRun` | peer.go:1047-1244 | for any balances and amount there is a run in which commitments are signed and revoked on both sides and an Add is handed up and settled, so the theorems are about something |
| `ProtocolTheorems.NothingRefused` | peer.go:1047-1206 | no message between honest parties is refused: updates find their Add, signatures verify, revocations fit key and tree |
| `ProtocolTheorems.Agreement` | lnwallet/channel.go:856-987 | the commitment built when a signature arrives is the one the peer signed, with balances, indexes and HTLC lists exchanged, although the sides compact at different times |
| `ProtocolTheorems.CapacityConserved` | lnwallet/channel.go:607-848 | on every unrevoked commitment of both chains of both parties, balances and outstanding HTLCs add up to the initial balances |
| `ProtocolTheorems.RevocationAlignment` | lnwallet/channel.go:1085-1111 | the peer's chain is one longer than the used revocations and at most 5; used and windowed revocations are consecutive; the key at height h is the owner's elkrem index h |
| `ProtocolTheorems.SigningEnabled` | lnwallet/channel.go:856-863 | with a revocation in the window a party can sign exactly as long as at most three of its signatures wait for their revocation |
| `ProtocolTheorems.RevokedStatesRecoverable` | lnwallet/channel.go:1065-1133 | for every revoked height the receiver yields the secret, which opens that commitment's key and hash, and the log holds its balances and HTLCs |
| `ProtocolTheorems.HandedUpLockedIn` | lnwallet/channel.go:1131-1168 | when an Add is returned for forwarding, every unrevoked commitment of both chains contains it |
| `ProtocolTheorems.HandedUpOnceOnly` | lnwallet/channel.go:1131-1168 | no update, Add or settle, is returned for forwarding twice in a session |
| `Forwarding.EveryUpdateHandedUpOnce` | lnwallet/channel.go:1131-1168 | completeness: after every accepted revocation of every run each update of the peer that both tails contain, Add or settle, has been returned exactly once |
| `Forwarding.HandedUpExactly` | lnwallet/channel.go:1131-1168 | exactly when an accepted revocation returns an update not returned before: an Add if both tails contain it, a settle if on neither chain only the later commitments contain it |
| `Forwarding.HandedUpAddsOnTails` | lnwallet/channel.go:1144-1161 | in every state of every run each Add returned so far is on both tails |
| `Forwarding.HandedUpAsSent` | lnwallet/channel.go:1131-1174 | what is returned is what the peer sent: kind, amount, payment hash and timeout of an Add, parent and amount of a settle |
| `ForwardingExample.SettleHandedUpEarly` | lnwallet/channel.go:1162-1167 | for any balances and amount there is a run in which the payer gets the settle returned while no unrevoked commitment of either chain contains it |
| `Pruning.LogsHoldUnfinished` | lnwallet/channel.go:1179-1220 | after every accepted revocation of every run each log holds exactly the unfinished updates: a settle goes when both tails contain it, an Add when its settle goes, and nothing else does |
| `Payouts.CommitmentsPay` | lnwallet/channel.go:638-674 | in every state of every run the transaction of each unrevoked commitment, in any output order, pays each party its opening balance and the net effect of its own updates to its own key; the owner's output has the owner's delay and the commitment's revocation key; every HTLC goes from the party that offered it to the other, with the receiver script exactly on the receiver's own commitment |
| `Payouts.BalancesPaid` | lnwallet/channel.go:638-658 | for every commitment our balance is what is paid to our key and the peer's what is paid to the peer's |
| `Payouts.OwnerIsDelayed` | lnwallet/channel.go:1689-1731 | the delayed output is the owner's, with the owner's delay and the commitment's revocation key; the plain one is the other party's |
| `Payouts.HtlcParties` | lnwallet/channel.go:1371-1427 | one output per HTLC, in order, with the offerer as sender, the other as receiver, and the receiver script exactly on the receiver's own commitment |
| `Acceptance.SettleAccepted` | lnwallet/channel.go:1330-1353 | whoever sent it, a settle is accepted exactly for a retained HTLC of ours with the preimage of its payment hash, and entered for its amount; a refused one changes nothing |
| `Acceptance.SignatureAcceptedPays` | lnwallet/channel.go:923-987 | whoever sent it, an accepted signature is for the transaction of the commitment added: next height, own revocation, each balance paid to the right key |
| `Acceptance.RevocationAcceptedOpens` | lnwallet/channel.go:1065-1130 | whoever sent it, an accepted revocation opens the key and hash it was given for, is the next value of the peer's tree and can be looked up from then on |
| `Acceptance.RefusalKeeps` | lnwallet/channel.go:923-1104 | a refused signature changes nothing but heights in the logs, a refused revocation nothing but the elkrem receiver |
| `Recovery.RevokedStatesOnDisk` | channeldb/channel.go:318-385 | with the disk written at every accepted revocation of a run, in every state and for each revoked height the entry on disk shows that commitment: both balances, its number, and each HTLC with direction, amount, hash and timeout; the elkrem state is read back if and only if the receiver has at most 24 nodes, as it has below 2^25 - 25 revocations, and then yields the secret |
| `Recovery.UnreadableAtCap` | channeldb/channel.go:1250-1258 | at exactly 2^25 - 25 revocations the elkrem state on disk is not read back |
| `Recovery.DisksExist` | channeldb/channel.go:318-351 | every run of the protocol has such a sequence of disks, from any disk the opened channel was put on |
| `Recovery.DiskKeeps` | channeldb/channel.go:318-351 | in every state of every run the disk holds the party's elkrem state and every entry of its log, whatever other channels write |
| `Recovery.StepStores` | lnwallet/channel.go:1106-1133 | a step either leaves the revocation log and the elkrem state alone or revokes one tail and logs it |
| `ProtocolSends.AddKeepsInv` | lnwallet/channel.go:1252-1265 | adding and announcing an HTLC keeps the two-party invariant |
| `ProtocolSends.SettleKeepsInv` | lnwallet/channel.go:1289-1324 | settling an Add already handed up keeps the two-party invariant |
| `ProtocolSends.SignKeepsInv` | lnwallet/channel.go:856-913 | signing the next commitment keeps the two-party invariant |
| `ProtocolSends.RevokeKeepsInv` | lnwallet/channel.go:1006-1056 | revoking keeps the two-party invariant |
| `ProtocolSends.ExtendKeepsInv` | lnwallet/channel.go:1225-1246 | extending the revocation window keeps the two-party invariant |
| `ProtocolReceives.ReceiveKeepsInv` | peer.go:1047-1206 | handling the oldest message of the peer succeeds and keeps the two-party invariant |
| `ProtocolReceives.ViewsAgree` | lnwallet/channel.go:607-767 | signer and receiver evaluate differently compacted logs to mirrored commitments |
| `ProtocolReceives.SignatureMirror` | lnwallet/channel.go:1371-1427 | a commitment and its mirror have the same transaction outputs, with sender and receiver HTLC scripts in the right places |
| `ProtocolReceives.RevocationAccepted` | lnwallet/channel.go:1065-1111 | an honest revocation passes the tree check and the key check, and the used queue is not empty |
| `ChannelRep.ViewDenotes` | lnwallet/channel.go:704-767 | evaluating a compacted, height-stamped log gives the balances and active HTLCs of the complete logs up to the view's indexes |
| `ChannelRep.ExtendKeepsRep` | lnwallet/channel.go:607-697 | adding an evaluated commitment to a chain keeps the party's logs faithful to the complete ones |
| `ChannelRep.CompactInvisible` | lnwallet/channel.go:1179-1220 | compaction changes no later commitment: every view of either chain whose indexes do not go back is the same before and after |
| `ChannelRep.CompactKeepsRep` | lnwallet/channel.go:1179-1220 | the pruned logs stand for the same complete logs on both chains, remaining removals find their Add, and the index maps hold exactly the Adds |
| `ChannelRep.CompactIsPruning` | lnwallet/channel.go:1179-1220 | the two passes over the logs remove exactly the removals both tails have applied and their Adds |
| `ChannelRep.AddHTLCKeepsRep` | lnwallet/channel.go:1252-1265 | an Add appends one update to our complete log |
| `ChannelRep.ReceiveHTLCKeepsRep` | lnwallet/channel.go:1270-1283 | a received Add appends one update to the peer's complete log |
| `ChannelRep.SettleKeepsRep` | lnwallet/channel.go:1289-1324 | a settle appends the removal of an unsettled Add both tails contain, for its amount |
| `ChannelRep.ReceiveSettleKeepsRep` | lnwallet/channel.go:1330-1353 | a received settle appends the removal of our Add, for its amount |
| `ChannelRep.ForwardKeepsRep` | lnwallet/channel.go:1140-1168 | marking entries as forwarded keeps the logs faithful, and Adds are forwarded in order |
| `ChannelSteps.SignKeepsRep` | lnwallet/channel.go:856-913 | signing keeps a party faithful to its complete logs |
| `ChannelSteps.ReceiveCommitmentKeepsRep` | lnwallet/channel.go:923-987 | accepting a signature keeps a party faithful to its complete logs |
| `ChannelSteps.RevokeKeepsRep` | lnwallet/channel.go:1006-1056 | dropping our own tail keeps a party faithful to its complete logs |
| `ChannelSteps.ReceiveRevocationKeepsRep` | lnwallet/channel.go:1065-1174 | advancing the peer's tail, forwarding and compacting keep a party faithful to its complete logs |
| `ChannelSteps.RepConserves` | lnwallet/channel.go:704-848 | every commitment of a faithful party conserves the initial balances |
| `Ledger.Conservation` | lnwallet/channel.go:773-848 | balances plus active HTLCs are the same before and after any paired log of adds and settles |
| `Ledger.AddedIsActiveOrSettled` | lnwallet/channel.go:704-767 | what was added is either still active or was settled |
| `ChannelSpec.FirstCandidate` | lnwallet/channel.go:1293-1308 | the Add a settle picks is an unsettled Add with the payment hash, and no earlier one is |
| `ChannelLists.ProcessAddEntry` | lnwallet/channel.go:773-803 | an Add is debited and stamped only if the chain has not applied it |
| `ChannelLists.ProcessRemoveEntry` | lnwallet/channel.go:808-848 | a removal credits the right side and is stamped only if the chain has not applied it |
| `ChannelLists.RemovePass` | lnwallet/channel.go:719-740 | the loop over removals computes the credits, the stamps and the set of Adds to skip |
| `ChannelLists.AddPass` | lnwallet/channel.go:745-765 | the loop over Adds computes the debits, the stamps and the live HTLCs in log order |
| `ChannelLists.FoldsAgree` | lnwallet/channel.go:570-599 | sums and HTLC lists over the linked list equal those of the specification's map |
| `ChannelLists.ForwardPass` | lnwallet/channel.go:1140-1168 | the loop returns the entries to forward, in order, and marks exactly those |
| `ChannelLists.CompactLog` | lnwallet/channel.go:1182-1215 | one compaction pass removes the evictable removals and their Adds from lists and index maps, never missing a parent |
| `LightningChannel.EvaluateHTLCView` | lnwallet/channel.go:704-767 | both logs evaluated by loops give the specification's balances, HTLC lists and stamps |
| `LightningChannel.CompactLists` | lnwallet/channel.go:1179-1220 | both passes give the specification's compacted logs and index sets |
| `LightningChannel.LightningChannel.constructor` | lnwallet/channel.go:413-451 | a channel without history is the specification's opened party |
| `LightningChannel.LightningChannel.AddHTLC` | lnwallet/channel.go:1252-1265 | the new state is the specification's; the index is the old counter |
| `LightningChannel.LightningChannel.ReceiveHTLC` | lnwallet/channel.go:1270-1283 | the new state is the specification's; the index is the old counter |
| `LightningChannel.LightningChannel.FindUnsettled` | lnwallet/channel.go:1293-1305 | the search stops at the specification's candidate |
| `LightningChannel.LightningChannel.SettleHTLC` | lnwallet/channel.go:1289-1324 | state and result are the specification's, also when no Add fits |
| `LightningChannel.LightningChannel.ReceiveHTLCSettle` | lnwallet/channel.go:1330-1353 | state and result are the specification's for every index and preimage; the logs stay consistent if the Add was not settled before |
| `LightningChannel.LightningChannel.FetchCommitmentView` | lnwallet/channel.go:607-697 | the new commitment and the stamped logs are the specification's |
| `LightningChannel.LightningChannel.SignNextCommitment` | lnwallet/channel.go:856-913 | state, signature and index are the specification's, also when the window is empty or full |
| `LightningChannel.LightningChannel.ReceiveNewCommitment` | lnwallet/channel.go:923-987 | state and verdict are the specification's, also for a bad signature |
| `LightningChannel.LightningChannel.RevokeCurrentCommitment` | lnwallet/channel.go:1006-1056 | state and message are the specification's; the new tail is what is saved |
| `LightningChannel.LightningChannel.ExtendRevocationWindow` | lnwallet/channel.go:1225-1246 | state and message are the specification's, also past the last index |
| `LightningChannel.LightningChannel.CompactLogs` | lnwallet/channel.go:1179-1220 | the new state is the specification's compaction |
| `LightningChannel.LightningChannel.ReleaseAndCompact` | lnwallet/channel.go:1131-1174 | the forwarded entries and the compacted state are the specification's |
| `LightningChannel.LightningChannel.ReceiveRevocation` | lnwallet/channel.go:1065-1174 | state and forwarded entries are the specification's, with each refusal |
| `Elkrem.Descend` | elkrem/elkrem.go:62-80 | inside a subtree it gives the node's value after at most h hashes; it succeeds exactly for the subtree's indexes and the one just below |
| `Elkrem.ElkremSender.AtIndex` | elkrem/elkrem.go:91-94 | the secret for every index up to 2^48 - 2, an error beyond |
| `Elkrem.ElkremReceiver.AddNext` | elkrem/elkrem.go:98-123 | an accepted hash is appended to the list the stack stands for, also past the sender's last index; a refused one changes nothing |
| `Elkrem.ElkremReceiver.AtIndex` | elkrem/elkrem.go:126-143 | the w'th accepted hash for every w received, whoever sent it, and an error beyond |
| `Elkrem.ElkremReceiver.UpTo` | elkrem/elkrem.go:146-151 | the index of the last accepted hash, or 0 |
| `ElkremSpec.AddNextRefinesAppend` | elkrem/elkrem.go:98-123 | an accepted hash extends the list the stack stands for by exactly that hash |
| `ElkremSpec.FeedRepresents` | elkrem/elkrem.go:98-123 | after any accepted sequence, honest or not, the stack stands for that list |
| `ElkremSpec.AtIndexIsListLookup` | elkrem/elkrem.go:126-143 | lookup in the stack is lookup in the list |
| `ElkremSpec.SenderFeedsReceiver` | elkrem/elkrem.go:91-123 | a receiver fed the sender's outputs in order accepts every one, for the whole tree |
| `ElkremSpec.HonestStep` | elkrem/elkrem.go:98-123 | the next value of any subtree moves its stack on by one |
| `ElkremSpec.StackIsLogarithmic` | elkrem/elkrem.go:98-123 | a stack of n nodes stands for at least 2^n - n hashes |
| `ElkremSpec.ShortestFor` | elkrem/elkrem.go:98-123 | the first 2^n - n values of an honest tree make exactly n nodes, so that bound is tight |
| `ElkremSpec.StorageBound` | elkrem/elkrem.go:98-123 | at most 48 nodes within the tree, at most 24 below 2^25 - 25 hashes, heights and indexes in range |
| `ElkremPaths.ChildrenOf` | elkrem/elkrem.go:53-58 | every node of height g above the leaves has as children the double hash of its value, 2^g before it, and that of its value and a byte 1, just before it |
| `ElkremPaths.SecretsFollow` | elkrem/elkrem.go:53-94 | the last secret is the root, and every secret above the leaves gives the two below it, with the bytes hashed written out |
| `ElkremPaths.EqualSecretsCollide` | elkrem/elkrem.go:62-94 | two different secrets of one height are equal only if two different byte strings, one hashed on the way to each, have the same hash |
| `ElkremPaths.MergedAreChildren` | elkrem/elkrem.go:105-120 | the receiver takes a parent exactly if the two nodes it replaces are the hashes of its value and of its value and a byte 1 |
| `ElkremSerdes.ToBytes` | elkrem/serdes.go:20-65 | up to 48 nodes give the count and 41 bytes a node; more are refused, except multiples of 256, which the 8-bit count takes for none |
| `ElkremSerdes.FromBytes` | elkrem/serdes.go:67-122 | the loop computes the decoding |
| `ElkremSerdes.DecodedIffEncoded` | elkrem/serdes.go:20-122 | the decoder accepts exactly the encodings of receivers with ordered heights in range, and gives back that receiver |
| `ElkremSerdes.ReceiverSurvivesDisk` | channeldb/channel.go:1250-1258 | every receiver reachable within the tree is stored and decodes exactly; through the 1000-byte read it comes back if and only if it has at most 24 nodes, as it has below 2^25 - 25 hashes |
| `ElkremSerdes.ReadCapReached` | channeldb/channel.go:1250-1258 | 2^25 - 25 honest secrets make 25 nodes, which are not read back |
| `Bytes.Int64RoundTrip` | channeldb/channel.go:1320-1381 | an amount survives the unsigned word exactly if it is a signed 64-bit integer |
| `RevocationLog.HtlcRoundTrip` | channeldb/channel.go:1320-1381 | a stored HTLC is read back exactly, whatever follows it |
| `RevocationLog.AllHtlcsRoundTrip` | channeldb/channel.go:1399-1435 | the stored list of current HTLCs is read back exactly |
| `RevocationLog.DeltaRoundTrip` | channeldb/channel.go:1437-1504 | a stored state is read back exactly |
| `RevocationLog.SerializeChannelDelta` | channeldb/channel.go:1437-1465 | the writing loop produces the encoding |
| `RevocationLog.DeserializeChannelDelta` | channeldb/channel.go:1467-1504 | the reading loop computes the decoding, including reads cut short |
| `RevocationLog.FetchCurrentHtlcs` | channeldb/channel.go:1413-1435 | the reading loop computes the decoding up to the end of the input |
| `RevocationLog.LogKeyInjective` | channeldb/channel.go:1506-1523 | keys of different channels or update numbers differ |
| `RevocationLog.AppendStores` | channeldb/channel.go:1525-1535 | appending extends that channel's log and leaves the others |
| `Layouts.HtlcLayout` | channeldb/channel.go:1320-1345 | the 49 bytes of a stored HTLC: direction, amount, payment hash, timeout, delay, integers big-endian |
| `Layouts.CutHtlcIsRead` | channeldb/channel.go:1347-1381 | reads are not checked for length: an HTLC cut within its last field is read without an error, with the end of the timeout in place of the missing bytes; cut at the field it is refused |
| `Layouts.DeltaLayout` | channeldb/channel.go:1437-1465 | the bytes of a stored state: both balances, update number, number of HTLCs, then each HTLC at its offset |
| `Layouts.LogKeyLayout` | channeldb/channel.go:1506-1523 | the 40 bytes of a log key: transaction, output index, update number |
| `Layouts.ReceiverLayout` | elkrem/serdes.go:20-65 | the bytes of a stored receiver: number of nodes, then height, index and hash of each at its offset |
| `Layouts.StateLayout` | channeldb/channel.go:1179-1215 | the bytes of a stored elkrem state: revocation key, revocation hash, root of our tree, receiver |
| `Layouts.ElkremKeyLayout` | channeldb/channel.go:1169-1177 | the 40 bytes of its key: esk, length and hash of the transaction, output index |
| `Layouts.BigEndianAt` | channeldb/channel.go:1332-1337 | byte by byte, the most significant first |
| `ChannelDisk.ChannelDB.AppendToRevocationLog` | channeldb/channel.go:318-351 | the new elkrem state and the log entry are kept, or neither if the receiver refuses; what is kept of other channels stays |
| `ChannelDisk.StateRoundTrip` | channeldb/channel.go:1169-1261 | a stored elkrem state with a sane receiver is read back exactly if and only if the receiver has at most 24 nodes |
| `ChannelDisk.ElkremKeyInjective` | channeldb/channel.go:1169-1177 | elkrem states of different channels have different keys |
| `ChannelDisk.ChannelDB.FindPreviousState` | channeldb/channel.go:358-385 | any entry of the channel's log is found, exactly |
| `Restart.RestoreStateLogs` | lnwallet/channel.go:518-560 | the rebuilt logs hold the stored HTLCs by direction, numbered in order, with the past height |
| `Restart.RestartKeepsLedger` | lnwallet/channel.go:518-560 | evaluation after a restart lists exactly the stored HTLCs; a balance is kept if and only if the height is not 1 or that direction's HTLCs add up to nothing |
| `Restart.RestartAfterStore` | lnwallet/channel.go:1037-1048 | storing a commitment and restarting from height 2 or more gives a next commitment with the same balances and HTLCs |
| `RestartRuns.RestartInEveryRun` | lnwallet/channel.go:413-560 | in every state of every run the saved state survives the database, and a restart from it gives a next commitment with the HTLCs of the party's own tail and, if and only if the height is not 1 or that direction adds up to nothing, its balances |
| `RestartRuns.TailIsSaved` | channeldb/channel.go:213-260 | in every state of every run what is saved is the tail of the party's own chain |
| `RestartRuns.SavedSurvives` | channeldb/channel.go:655-720 | a saved state is read back exactly |
| `Restart.RestartAtHeightOneDebitsAgain` | lnwallet/channel.go:519-537 | at height 1 the HTLC of a concrete state is debited a second time |
| `MerkleCheck.CheckMBlock` | uspv/mblock.go:71-167 | the outcome of the rounds for every block; for a block whose parse meets no equal siblings it is exactly what the recursive BIP 37 parser matches, or a rejection |
| `MerkleBlock.CheckedExtracts` | uspv/mblock.go:71-167 | without equal siblings the rounds of the stack machine give what the recursive parser defines |
| `MerkleCheck.HonestBlockAccepted` | uspv/mblock.go:71-167 | completeness: the partial tree of any list and choice of txids, without equal siblings, is accepted with exactly the chosen ones in block order |
| `MerkleCheck.AcceptedIsSound` | uspv/mblock.go:71-167 | soundness where the parse meets no equal siblings: every txid taken from an accepted block has a Merkle path to the header's root, at increasing leaves, each step the double hash of left and right bytes in that order |
| `MerkleCheck.PairAccepted` | uspv/mblock.go:9-31 | the real block of any two different txids, both wanted, is accepted with both, its root the double hash of the first followed by the second |
| `MerkleSound.SoundExactlyUpToTwo` | uspv/mblock.go:71-167 | by transaction count, the exact condition: every accepted block with n transactions is sound, under every hash function, if and only if n is at most two; for every larger n an accepted block yields a txid that no Merkle path connects to its root |
| `MerkleTwins.TwinsAreTaken` | uspv/mblock.go:108-118 | for every hash function, every true tree of five or more txids without equal siblings and every x, a block with x twice in front is accepted under the true root, yielding x if its leaf is marked and nothing otherwise, so equal siblings do not always break soundness |
| `MerkleSound.TwinsUnderRoot` | uspv/mblock.go:99-118 | a block of two transactions whose parse meets equal leaves makes the check index below its stack, whatever else it holds |
| `MerkleCheck.WalkTree` | uspv/mblock.go:88-165 | the main loop ends on every block, since twice the unread flag bits plus the stack length falls, with the outcome of the rounds |
| `MerkleCheck.NewNode` | uspv/mblock.go:127-157 | a filled node, an empty one or a txid is pushed and the position moves to sibling, parent or child |
| `MerkleBlock.OnDead` | uspv/mblock.go:100-106 | past the last node of a row the top of the stack is an only child, and replacing it by its parent keeps the machine on the recursive walk |
| `MerkleBlock.OnPair` | uspv/mblock.go:108-118 | two filled nodes on top are siblings; joining them keeps the machine on the recursive walk, or the parse has met twins |
| `Merkle.ParseBuilt` | uspv/mblock.go:71-167 | parsing a built subtree gives back its hash and matches and consumes exactly it |
| `Merkle.ParseSound` | uspv/mblock.go:71-167 | each txid matched by a good parse of any message has a Merkle path to the parsed hash |
| `MerklePositions.TreeDepth` | uspv/mblock.go:40-49 | the least exponent whose power of two holds the leaves |
| `MerklePositions.InDeadZone` | uspv/mblock.go:52-65 | the loop decides whether the position names a node |
| `MerklePositions.DeadCoversNoLeaf` | uspv/mblock.go:52-65 | a position is dead exactly if its subtree covers no real leaf |
| `MerkleRoot.CalcRoot` | uspv/hardmode.go:110-118 | the queue fold gives the padded tree's root for every list, the empty one included, and for a list without equal siblings the level-by-level Merkle root |
| `MerkleRoot.PaddedRoot` | uspv/hardmode.go:110-118 | for a list without equal siblings that is the level-by-level Merkle root, odd nodes paired with themselves |
| `SendQueue.WrittenInOrder` | peer.go:454-548 | in every interleaving messages are written in the order queued, none lost or repeated |
| `SendQueue.SendsNeverBlock` | peer.go:454-548 | there is exactly one token, and neither goroutine's send ever blocks |
| `SendQueue.EverythingIsWritten` | peer.go:507-542 | without new messages the goroutines stop after finitely many steps, only when everything queued is written |
| `ConfHeap.Push` | chainntnfs/btcdnotify/confheap.go:31-45 | adds the entry and keeps the heap order |
| `ConfHeap.Pop` | chainntnfs/btcdnotify/confheap.go:31-54 | removes one entry no other sorts before and keeps the heap order |
| `Notifier.ToldExactlyOnce` | chainntnfs/btcdnotify/btcd.go:286-357 | between blocks a client has been sent its height exactly once if that height is reached, and nothing otherwise |
| `Notifier.TellAtNthConfirmation` | chainntnfs/btcdnotify/btcd.go:348-349 | for a transaction mined at height b and n confirmations, that height is b + n - 1 |
| `Notifier.BtcdNotifier.RegisterConfirmationsNtfn` | chainntnfs/btcdnotify/btcd.go:401-417 | a new client waits; nothing is sent |
| `Notifier.BtcdNotifier.CheckConfirmationTrigger` | chainntnfs/btcdnotify/btcd.go:317-357 | the clients waiting for the transaction, and no others, are marked as mined here and told or put on the heap |
| `Notifier.BtcdNotifier.NotifyConfs` | chainntnfs/btcdnotify/btcd.go:286-310 | the heap keeps exactly the earlier entries with trigger above the height; every client stays in exactly one place |
| `Notifier.BtcdNotifier.ConnectBlock` | chainntnfs/btcdnotify/btcd.go:200-229 | each next block marks exactly the waiting clients whose transaction it holds and leaves nothing due untold |
| `Reservations.SelectInputs` | lnwallet/wallet.go:1315-1348 | takes the asset's coins of the shortest sufficient initial part, and fails exactly if there is none |
| `Reservations.CoinSelect` | lnwallet/wallet.go:1354-1364 | the selected coins are those of the shortest initial part that holds the amount, and hold the amount plus the change; with non-negative holdings it succeeds exactly if they suffice |
| `Reservations.AssetCoinsDistinct` | lnwallet/wallet.go:1315-1348 | no coin is selected twice |
| `Reservations.FundedHolds` | lnwallet/wallet.go:1315-1364 | inputs that fund an amount are coins of the asset that hold it, and without the last they do not |
| `Reservations.EligibleInOrder` | lnwallet/wallet.go:1247-1253 | the coins offered are exactly the unlocked ones, in the wallet's order |
| `Reservations.LightningWallet.SelectCoins` | lnwallet/wallet.go:1238-1296 | the selected coins were not locked by anyone, hold the amount plus the change, and exactly they become locked; with non-negative holdings it succeeds exactly if the unlocked ones suffice |
| `Reservations.LightningWallet.Reserve` | lnwallet/wallet.go:495-574 | a reservation enters limbo under the next id with inputs that fund it, were locked by no one and become locked; with non-negative holdings it is granted exactly if the keys can be derived and, unless nothing is to be funded, the unlocked coins suffice; a refused one adds nothing to limbo and locks at most the inputs selected for it; inputs of reservations in limbo stay pairwise disjoint |
| `Reservations.LightningWallet.Cancel` | lnwallet/wallet.go:580-611 | frees exactly the inputs of the cancelled reservation; an unknown one is refused |
| `Reservations.LightningWallet.Complete` | lnwallet/wallet.go:1159-1174 | the reservation leaves limbo and its inputs stay locked |
| `Reservations.LightningWallet.ResetReservations` | lnwallet/wallet.go:392-400 | nothing is left in limbo or locked by us; locks of others stay |
| `Amounts.InitialSplit` | lnwallet/reservation.go:139-154 | each side starts with what it funded, and the two add up to the capacity |
| `Amounts.OutputsPayCommitment` | lnwallet/channel.go:1689-1731 | the outputs of a commitment transaction pay out its balances and HTLCs, although zero balances get none |
| `Amounts.TotalOfPermutation` | lnwallet/channel.go:680-680 | sorting the outputs keeps their total |
| `Amounts.ColorifyTx` | lndcc/lndcc.go:42-86 | the same scripts with dust and last a valueless output with the encoded instructions, which name each output with its amount and add up to the outputs; fails exactly if the encoding does |
| `Amounts.TransactionsCarryCapacity` | lnwallet/channel.go:657-685 | in every state of every run the outputs of each unrevoked commitment's transaction, in any order, add up to the capacity |

## Left out

- MerkleCheck.AcceptedIsSound: soundness is false of the code for blocks with equal siblings. `MerkleSound.SoundExactlyUpToTwo` gives the exact condition on the transaction count. For a single block, that the parse meets no equal siblings is sufficient and not necessary: `MerkleTwins.TwinsAreTaken` has accepted blocks with equal siblings and nothing forged. A condition on a single block that is both is not given.
- MerkleCheck.CheckMBlock: transaction counts above 2^31 are excluded, because the depth loop does not end there.
- Elkrem.ElkremReceiver.AddNext: ends at 2^64 hashes, where the index wraps around.
- LightningChannel.LightningChannel.ReceiveHTLCSettle: a second settle of one Add is accepted, as in the code, but the logs are then outside the consistency the other methods ask for, since compaction would not find the Add again.
- LightningChannel.LightningChannel.RevokeCurrentCommitment: called with a second local commitment, as the driver does.
- LightningChannel.LightningChannel.ReceiveRevocation: a revocation that fits the tree and the key is handled when a used revocation and a commitment above the tail exist; the code indexes both without a check, and `RevocationAccepted` proves they exist in every run.
- Restart.RestartKeepsLedger: is about one party. After a restart both chains are rebuilt from local state only, so nothing is claimed about the two parties together.
- Notifier.BtcdNotifier.ConnectBlock: blocks come with heights rising by one. Reorganisations are a stub in the code.
- Reservations.LightningWallet.SelectCoins: the change address is not modelled; a failure to derive it counts with the key failures of `Reserve`.
- SendQueue.WrittenInOrder: shutdown, write errors and the ping timer are not modelled.
- Settles by the driver happen only for an Add already handed up with that payment hash, as `peer.go` does; other uses of `SettleHTLC` are covered for one party but not in two-party runs.
- No elkrem secret is the all-zero hash in the runs, because the message format uses it to mean a window extension.
- Runs after a failed signature check are not continued; the driver disconnects.
- Recovery.RevokedStatesOnDisk: the amounts and timeouts of the revoked commitments fit the database's 64-bit and 32-bit fields. The log is keyed by the height modulo 2^32, so an entry is found until 2^32 later revocations.
- List element pointers are represented by log indexes. Log counters, heights and amounts in memory are unbounded.
- Forwarding.HandedUpExactly: that a settle is returned only when both tails contain it is false of the code, which has no such check for removals; `ForwardingExample.SettleHandedUpEarly` is a run, and the condition stated is exact.
- Payouts.CommitmentsPay: the two commitment keys are different; with equal keys no output tells whom it pays.
- Acceptance.SignatureAcceptedPays: the index a dishonest peer names may go back; what the commitment then means is not stated.
- Non-negative balances: neither side checks funds when an HTLC is added.
- Timeout entries exist in the evaluator and are modelled there, but no operation creates them.
- Signatures, key derivation, scripts and transaction sorting are abstract; the colored-coins encoding service is a parameter. Serialized public keys are taken to be 33 bytes.
- Bolt, files, the network, RPC, the handshake, the HTLC switch, header sync, the UTXO store and the nursery.
- Field codecs of the wire messages and invoices, delivery scripts, cooperative and forced close are not modelled.
